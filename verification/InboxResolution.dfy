/** Resolving a reference to an inbox URL by following actor documents (internal/fetch/inboxurl.go). */
module InboxResolution {
  import opened Wrappers
  import opened Text

  /** A parsed URL; `text` is its string form without the fragment. */
  datatype Url = Url(scheme: string, text: string, path: string)

  /** `document` gives the `inbox` field of the actor document behind a URL, if it can be fetched and decoded. */
  datatype Web = Web(
    parse: string -> Option<Url>,
    policy: Option<Url -> bool>,
    document: string -> Option<string>)

  datatype Event = Checked(url: string, allowed: bool) | Fetched(url: string)

  const MAX_STEPS: nat := 5

  function Canon(u: Url): string {
    TrimRight(u.text, '/')
  }

  /** looksLikeSharedInboxURL */
  predicate InboxShaped(u: Url) {
    HasSuffix(TrimRight(u.path, '/'), "/inbox") || Contains(u.path, "/inbox/")
  }

  /** The http(s) URL a reference stands for. */
  function Reference(web: Web, ref: string): Option<Url> {
    var t := TrimSpace(ref);
    if t == "" then None
    else
      match web.parse(t)
      case None => None
      case Some(u) => if (u.scheme == "https" || u.scheme == "http") && Canon(u) != "" then Some(u) else None
  }

  predicate Allowed(web: Web, u: Url) {
    web.policy.Some? ==> web.policy.value(u)
  }

  /** The reference in a fetched document; a blank one counts as missing. */
  function NextReference(web: Web, u: Url): Option<string> {
    match web.document(Canon(u))
    case None => None
    case Some(ref) => if TrimSpace(ref) == "" then None else Some(ref)
  }

  function CheckEvents(web: Web, u: Url): seq<Event> {
    if web.policy.Some? then [Checked(Canon(u), web.policy.value(u))] else []
  }

  datatype Outcome = Outcome(r: Result<string>, seen: set<string>, events: seq<Event>)

  /** One call up to its next hop: it stops, or `u` was fetched and its document names `next`. */
  datatype Visit = Stop(o: Outcome) | Hop(u: Url, next: string)

  function VisitOf(web: Web, ref: string, depth: nat, seen: set<string>): (v: Visit)
    ensures v.Hop? ==> depth < MAX_STEPS
  {
    match Reference(web, ref)
    case None => Stop(Outcome(Err, seen, []))
    case Some(u) =>
      if Canon(u) in seen then Stop(Outcome(Err, seen, []))
      else
        var marked := seen + {Canon(u)};
        var checks := CheckEvents(web, u);
        if !Allowed(web, u) then Stop(Outcome(Err, marked, checks))
        else if InboxShaped(u) then Stop(Outcome(Ok(Canon(u)), marked, checks))
        else if depth >= MAX_STEPS then Stop(Outcome(Err, marked, checks))
        else
          match NextReference(web, u)
          case None => Stop(Outcome(Err, marked, checks + [Fetched(Canon(u))]))
          case Some(next) => Hop(u, next)
  }

  function HopEvents(web: Web, u: Url): seq<Event> {
    CheckEvents(web, u) + [Fetched(Canon(u))]
  }

  /** What one call returns, marks as seen, checks and fetches. */
  function Resolve(web: Web, ref: string, depth: nat, seen: set<string>): Outcome
    decreases if depth < MAX_STEPS then MAX_STEPS - depth else 0
  {
    match VisitOf(web, ref, depth, seen)
    case Stop(o) => o
    case Hop(u, next) =>
      var o := Resolve(web, next, depth + 1, seen + {Canon(u)});
      o.(events := HopEvents(web, u) + o.events)
  }

  class Resolver {
    var seen: set<string>
    ghost var events: seq<Event>

    constructor ()
      ensures seen == {} && events == []
    {
      seen, events := {}, [];
    }

    method InboxURLFromReference(web: Web, ref: string, depth: nat) returns (r: Result<string>)
      modifies this
      ensures var o := Resolve(web, ref, depth, old(seen));
              r == o.r && seen == o.seen && events == old(events) + o.events
      decreases if depth < MAX_STEPS then MAX_STEPS - depth else 0, 1
    {
      hide TrimSpace, TrimRight, InboxShaped;
      var t := TrimSpace(ref);
      if t == "" {
        return Err;
      }
      var parsed := web.parse(t);
      if parsed.None? || (parsed.value.scheme != "https" && parsed.value.scheme != "http") {
        return Err;
      }
      var u := parsed.value;
      var canon := Canon(u);
      if canon == "" {
        return Err;
      }
      assert Reference(web, ref) == Some(u);
      hide Reference, Canon;
      if canon in seen {
        return Err;
      }
      seen := seen + {canon};
      if web.policy.Some? {
        var allowed := web.policy.value(u);
        events := events + [Checked(canon, allowed)];
        if !allowed {
          return Err;
        }
      }
      assert events == old(events) + CheckEvents(web, u);
      if InboxShaped(u) {
        return Ok(canon);
      }
      if depth >= MAX_STEPS {
        return Err;
      }
      r := FetchActorInbox(web, u, depth + 1);
      assert forall later: seq<Event> ::
          old(events) + CheckEvents(web, u) + [Fetched(canon)] + later == old(events) + (HopEvents(web, u) + later);
    }

    method FetchActorInbox(web: Web, u: Url, depth: nat) returns (r: Result<string>)
      requires depth <= MAX_STEPS
      modifies this
      ensures NextReference(web, u).None? ==>
                r == Err && seen == old(seen) && events == old(events) + [Fetched(Canon(u))]
      ensures NextReference(web, u).Some? ==>
                var o := Resolve(web, NextReference(web, u).value, depth, old(seen));
                r == o.r && seen == o.seen && events == old(events) + [Fetched(Canon(u))] + o.events
      decreases MAX_STEPS - depth, 2
    {
      hide TrimSpace, TrimRight, Resolve;
      events := events + [Fetched(Canon(u))];
      var inbox := web.document(Canon(u));
      if inbox.None? || TrimSpace(inbox.value) == "" {
        return Err;
      }
      r := InboxURLFromReference(web, inbox.value, depth);
    }
  }

  // ----- Which URL comes out -----

  /** `v` is the URL that the document behind `u` points to. */
  predicate LeadsTo(web: Web, u: Url, v: Url) {
    NextReference(web, u).Some? && Reference(web, NextReference(web, u).value) == Some(v)
  }

  function Last(urls: seq<Url>): Url
    requires urls != []
  {
    urls[|urls| - 1]
  }

  /** The URLs from a reference to the first inbox-shaped one. */
  predicate Chain(web: Web, ref: string, urls: seq<Url>) {
    && urls != [] && Reference(web, ref) == Some(urls[0])
    && (forall i | 0 <= i < |urls| - 1 :: LeadsTo(web, urls[i], urls[i + 1]))
    && (forall i | 0 <= i < |urls| - 1 :: !InboxShaped(urls[i])) && InboxShaped(Last(urls))
  }

  predicate Acyclic(urls: seq<Url>) {
    forall i, j | 0 <= i < j < |urls| :: Canon(urls[i]) != Canon(urls[j])
  }

  /** A chain the resolver may follow from `depth` on. */
  predicate Followable(web: Web, ref: string, depth: nat, seen: set<string>, urls: seq<Url>) {
    && Chain(web, ref, urls) && Acyclic(urls) && |urls| + depth <= MAX_STEPS + 1
    && forall u | u in urls :: Allowed(web, u) && Canon(u) !in seen
  }

  lemma ChainTail(web: Web, ref: string, depth: nat, seen: set<string>, urls: seq<Url>)
    requires Followable(web, ref, depth, seen, urls) && |urls| > 1
    ensures NextReference(web, urls[0]).Some?
    ensures Followable(web, NextReference(web, urls[0]).value, depth + 1, seen + {Canon(urls[0])}, urls[1..])
  {
    hide Allowed, Reference, NextReference, InboxShaped, Canon;
    assert LeadsTo(web, urls[0], urls[1]);
    var tail := urls[1..];
    forall i | 0 <= i < |tail| - 1 ensures LeadsTo(web, tail[i], tail[i + 1]) && !InboxShaped(tail[i]) {
      assert LeadsTo(web, urls[i + 1], urls[i + 2]);
    }
    forall u | u in tail ensures Canon(u) != Canon(urls[0]) {
      var j :| 0 <= j < |tail| && tail[j] == u;
      assert urls[j + 1] == u;
    }
  }

  lemma ChainExtends(web: Web, ref: string, u: Url, depth: nat, seen: set<string>, tail: seq<Url>)
    requires Reference(web, ref) == Some(u) && Allowed(web, u) && !InboxShaped(u) && Canon(u) !in seen
    requires NextReference(web, u).Some?
    requires Followable(web, NextReference(web, u).value, depth + 1, seen + {Canon(u)}, tail)
    ensures Followable(web, ref, depth, seen, [u] + tail)
  {
    hide Allowed, Reference, NextReference, InboxShaped, Canon;
    var urls := [u] + tail;
    forall i | 0 <= i < |urls| - 1 ensures LeadsTo(web, urls[i], urls[i + 1]) && !InboxShaped(urls[i]) {
      if i > 0 {
        assert LeadsTo(web, tail[i - 1], tail[i - 1 + 1]);
      }
    }
    forall i, j | 0 <= i < j < |urls| ensures Canon(urls[i]) != Canon(urls[j]) {
      assert tail[j - 1] in tail;
      if i > 0 {
        assert Canon(tail[i - 1]) != Canon(tail[j - 1]);
      }
    }
  }

  /** A followable chain is followed to its end. */
  lemma {:induction false} ChainIsFollowed(web: Web, ref: string, depth: nat, seen: set<string>, urls: seq<Url>)
    requires Followable(web, ref, depth, seen, urls)
    ensures urls != [] && Resolve(web, ref, depth, seen).r == Ok(Canon(Last(urls)))
    decreases |urls|
  {
    hide Allowed, Reference, NextReference, InboxShaped, Canon;
    assert urls[0] in urls;
    if |urls| > 1 {
      ChainTail(web, ref, depth, seen, urls);
      assert Last(urls[1..]) == Last(urls);
      ChainIsFollowed(web, NextReference(web, urls[0]).value, depth + 1, seen + {Canon(urls[0])}, urls[1..]);
    }
  }

  /** Whatever is returned is the end of a followable chain. */
  lemma {:induction false} ResultEndsAChain(web: Web, ref: string, depth: nat, seen: set<string>)
    returns (urls: seq<Url>)
    requires depth <= MAX_STEPS && Resolve(web, ref, depth, seen).r.Ok?
    ensures Followable(web, ref, depth, seen, urls)
    ensures Resolve(web, ref, depth, seen).r == Ok(Canon(Last(urls)))
    decreases if depth < MAX_STEPS then MAX_STEPS - depth else 0
  {
    hide Allowed, Reference, NextReference, InboxShaped, Canon;
    var u := Reference(web, ref).value;
    if InboxShaped(u) {
      urls := [u];
      assert forall v | v in urls :: v == u;
    } else {
      var tail := ResultEndsAChain(web, NextReference(web, u).value, depth + 1, seen + {Canon(u)});
      ChainExtends(web, ref, u, depth, seen, tail);
      urls := [u] + tail;
    }
  }

  /** The reference is the text of this http(s) URL. */
  predicate StandsFor(web: Web, ref: string, u: Url) {
    && TrimSpace(ref) != "" && web.parse(TrimSpace(ref)) == Some(u) && u.scheme in {"http", "https"}
    && TrimRight(u.text, '/') != ""
  }

  /** Its path ends in `/inbox`, but for slashes, or has it as a segment further up. */
  ghost predicate IsInbox(u: Url) {
    || (exists front :: TrimRight(u.path, '/') == front + "/inbox")
    || (exists front, rest :: u.path == front + "/inbox/" + rest)
  }

  /** The document behind `u` names `v` as its inbox. */
  predicate PointsTo(web: Web, u: Url, v: Url) {
    var ref := web.document(TrimRight(u.text, '/'));
    ref.Some? && StandsFor(web, ref.value, v)
  }

  /**
    `urls` leads from `ref` along at most five documents to the first inbox, `inbox`; the policy,
    if there is one, allows every URL, and none comes twice.
   */
  ghost predicate EndsAt(web: Web, ref: string, urls: seq<Url>, inbox: string) {
    && urls != [] && |urls| <= 6 && StandsFor(web, ref, urls[0])
    && (forall i | 0 <= i < |urls| - 1 :: !IsInbox(urls[i]) && PointsTo(web, urls[i], urls[i + 1]))
    && IsInbox(urls[|urls| - 1]) && inbox == TrimRight(urls[|urls| - 1].text, '/')
    && (web.policy.Some? ==> forall u | u in urls :: web.policy.value(u))
    && (forall i, j | 0 <= i < j < |urls| :: TrimRight(urls[i].text, '/') != TrimRight(urls[j].text, '/'))
  }

  lemma ReferenceStandsFor(web: Web, ref: string, u: Url)
    ensures Reference(web, ref) == Some(u) <==> StandsFor(web, ref, u)
  {
    hide TrimSpace, TrimRight;
  }

  lemma ContainsIsBetween(s: string, part: string)
    ensures Contains(s, part) <==> exists front, rest :: s == front + part + rest
  {
    if i :| 0 <= i <= |s| && StartsAt(s, i, part) {
      assert s == s[..i] + part + s[i + |part|..];
    }
    if front, rest :| s == front + part + rest {
      assert StartsAt(s, |front|, part);
    }
  }

  lemma HasSuffixIsBehind(s: string, suffix: string)
    ensures HasSuffix(s, suffix) <==> exists front :: s == front + suffix
  {
    if HasSuffix(s, suffix) {
      assert s == s[..|s| - |suffix|] + suffix;
    }
  }

  lemma ShapedIsInbox(u: Url)
    ensures InboxShaped(u) <==> IsInbox(u)
  {
    hide TrimRight, Contains, HasSuffix;
    ContainsIsBetween(u.path, "/inbox/");
    HasSuffixIsBehind(TrimRight(u.path, '/'), "/inbox");
  }

  lemma LeadingPoints(web: Web, u: Url, v: Url)
    ensures LeadsTo(web, u, v) <==> PointsTo(web, u, v)
  {
    hide TrimRight, TrimSpace, Reference;
    if web.document(Canon(u)).Some? {
      ReferenceStandsFor(web, web.document(Canon(u)).value, v);
    }
  }

  lemma FollowableIffEndsAt(web: Web, ref: string, urls: seq<Url>, inbox: string)
    ensures Followable(web, ref, 0, {}, urls) && inbox == Canon(Last(urls)) <==> EndsAt(web, ref, urls, inbox)
  {
    hide Reference, NextReference, LeadsTo, InboxShaped, StandsFor, IsInbox, PointsTo, TrimRight;
    if urls != [] {
      ReferenceStandsFor(web, ref, urls[0]);
      forall i | 0 <= i < |urls| ensures InboxShaped(urls[i]) <==> IsInbox(urls[i]) {
        ShapedIsInbox(urls[i]);
      }
      forall i | 0 <= i < |urls| - 1
        ensures LeadsTo(web, urls[i], urls[i + 1]) <==> PointsTo(web, urls[i], urls[i + 1])
      {
        LeadingPoints(web, urls[i], urls[i + 1]);
      }
    }
  }

  /**
    A reference resolves to `inbox` exactly when a chain of at most five fetches leads from it
    to the inbox-shaped URL `inbox`, with no repeated URL and every URL allowed by policy.
   */
  lemma ResolvesToTheEndOfTheChain(web: Web, ref: string, inbox: string)
    ensures Resolve(web, ref, 0, {}).r == Ok(inbox) <==> exists urls :: EndsAt(web, ref, urls, inbox)
  {
    hide Followable, Resolve, Canon, EndsAt;
    if Resolve(web, ref, 0, {}).r.Ok? {
      var urls := ResultEndsAChain(web, ref, 0, {});
      FollowableIffEndsAt(web, ref, urls, Resolve(web, ref, 0, {}).r.value);
      assert EndsAt(web, ref, urls, Resolve(web, ref, 0, {}).r.value);
    }
    forall urls | EndsAt(web, ref, urls, inbox) ensures Resolve(web, ref, 0, {}).r == Ok(inbox) {
      FollowableIffEndsAt(web, ref, urls, inbox);
      ChainIsFollowed(web, ref, 0, {}, urls);
    }
  }

  // ----- What is fetched on the way -----

  function Fetches(events: seq<Event>): seq<string> {
    if events == [] then []
    else (if events[0].Fetched? then [events[0].url] else []) + Fetches(events[1..])
  }

  /** Every fetch directly follows a passed policy check of the same URL. */
  predicate CheckedFirst(events: seq<Event>) {
    forall i | 0 <= i < |events| && events[i].Fetched? :: i > 0 && events[i - 1] == Checked(events[i].url, true)
  }

  lemma {:induction false} FetchesOfConcat(a: seq<Event>, b: seq<Event>)
    ensures Fetches(a + b) == Fetches(a) + Fetches(b)
    decreases |a|
  {
    if a == [] {
      assert a + b == b;
    } else {
      assert (a + b)[1..] == a[1..] + b;
      FetchesOfConcat(a[1..], b);
    }
  }

  lemma FetchesOfHop(web: Web, u: Url, events: seq<Event>)
    ensures Fetches(HopEvents(web, u) + events) == [Canon(u)] + Fetches(events)
  {
    hide Canon;
    FetchesOfConcat(CheckEvents(web, u), [Fetched(Canon(u))]);
    FetchesOfConcat(HopEvents(web, u), events);
  }

  lemma StopsFetchLittle(web: Web, ref: string, depth: nat, seen: set<string>)
    requires depth <= MAX_STEPS && VisitOf(web, ref, depth, seen).Stop?
    ensures var fetched := Fetches(VisitOf(web, ref, depth, seen).o.events);
            |fetched| <= 1 && |fetched| + depth <= MAX_STEPS && forall url | url in fetched :: url !in seen
    ensures web.policy.Some? ==> CheckedFirst(VisitOf(web, ref, depth, seen).o.events)
  {
    hide Reference, NextReference, InboxShaped, Canon;
    if Reference(web, ref).Some? {
      var u := Reference(web, ref).value;
      assert HopEvents(web, u) + [] == CheckEvents(web, u) + [Fetched(Canon(u))];
      FetchesOfHop(web, u, []);
    }
  }

  /** Along a chain, every URL but the inbox at its end is fetched, in order. */
  lemma {:induction false} ChainIsFetched(web: Web, ref: string, depth: nat, seen: set<string>, urls: seq<Url>)
    requires Followable(web, ref, depth, seen, urls)
    ensures Fetches(Resolve(web, ref, depth, seen).events) == Texts(urls[..|urls| - 1])
    decreases |urls|
  {
    hide Allowed, Reference, NextReference, InboxShaped, Canon, Fetches, HopEvents;
    assert urls[0] in urls;
    if |urls| > 1 {
      ChainTail(web, ref, depth, seen, urls);
      var next := NextReference(web, urls[0]).value;
      ChainIsFetched(web, next, depth + 1, seen + {Canon(urls[0])}, urls[1..]);
      FetchesOfHop(web, urls[0], Resolve(web, next, depth + 1, seen + {Canon(urls[0])}).events);
      assert urls[1..][..|urls| - 2] == urls[..|urls| - 1][1..];
    } else {
      FetchesOfChecks(web, urls[0]);
    }
  }

  function Texts(urls: seq<Url>): seq<string> {
    if urls == [] then [] else [Canon(urls[0])] + Texts(urls[1..])
  }

  lemma FetchesOfChecks(web: Web, u: Url)
    ensures Fetches(CheckEvents(web, u)) == []
  {
  }

  lemma {:induction false} FetchesAreFew(web: Web, ref: string, depth: nat, seen: set<string>)
    requires depth <= MAX_STEPS
    ensures var fetched := Fetches(Resolve(web, ref, depth, seen).events);
            |fetched| + depth <= MAX_STEPS && NoDuplicates(fetched) && forall url | url in fetched :: url !in seen
    decreases MAX_STEPS - depth
  {
    hide VisitOf, HopEvents, Canon, Fetches;
    match VisitOf(web, ref, depth, seen) {
      case Stop(o) => StopsFetchLittle(web, ref, depth, seen);
      case Hop(u, next) =>
        HopIsNew(web, ref, depth, seen);
        FetchesAreFew(web, next, depth + 1, seen + {Canon(u)});
        FetchesOfHop(web, u, Resolve(web, next, depth + 1, seen + {Canon(u)}).events);
    }
  }

  lemma HopIsNew(web: Web, ref: string, depth: nat, seen: set<string>)
    requires VisitOf(web, ref, depth, seen).Hop?
    ensures Canon(VisitOf(web, ref, depth, seen).u) !in seen && Allowed(web, VisitOf(web, ref, depth, seen).u)
  {
    hide Reference, NextReference, InboxShaped, Canon;
  }

  lemma CheckedHop(web: Web, u: Url, events: seq<Event>)
    requires web.policy.Some? && Allowed(web, u) && CheckedFirst(events)
    ensures CheckedFirst(HopEvents(web, u) + events)
  {
    hide Canon;
    var all := HopEvents(web, u) + events;
    forall i | 0 <= i < |all| && all[i].Fetched? ensures i > 0 && all[i - 1] == Checked(all[i].url, true) {
      if i >= 2 {
        assert all[i] == events[i - 2];
      }
    }
  }

  lemma {:induction false} FetchesAreChecked(web: Web, ref: string, depth: nat, seen: set<string>)
    requires web.policy.Some? && depth <= MAX_STEPS
    ensures CheckedFirst(Resolve(web, ref, depth, seen).events)
    decreases MAX_STEPS - depth
  {
    hide VisitOf, HopEvents, CheckedFirst, Canon;
    match VisitOf(web, ref, depth, seen) {
      case Stop(o) => StopsFetchLittle(web, ref, depth, seen);
      case Hop(u, next) =>
        HopIsNew(web, ref, depth, seen);
        FetchesAreChecked(web, next, depth + 1, seen + {Canon(u)});
        CheckedHop(web, u, Resolve(web, next, depth + 1, seen + {Canon(u)}).events);
    }
  }

  /** A reference that resolves is resolved by fetching every URL before the inbox, in order, and nothing else. */
  lemma ResolutionFetchesTheChain(web: Web, ref: string, urls: seq<Url>, inbox: string)
    requires EndsAt(web, ref, urls, inbox)
    ensures Fetches(Resolve(web, ref, 0, {}).events) == Texts(urls[..|urls| - 1])
  {
    hide StandsFor, PointsTo, IsInbox, TrimRight, Resolve, Fetches, Texts;
    FollowableIffEndsAt(web, ref, urls, inbox);
    ChainIsFetched(web, ref, 0, {}, urls);
  }

  /** Whatever the documents say, resolution fetches at most five URLs, each once, each checked just before. */
  lemma ResolutionIsBounded(web: Web, ref: string)
    ensures var events := Resolve(web, ref, 0, {}).events;
            && |Fetches(events)| <= MAX_STEPS && NoDuplicates(Fetches(events))
            && (web.policy.Some? ==> CheckedFirst(events))
  {
    FetchesAreFew(web, ref, 0, {});
    if web.policy.Some? {
      FetchesAreChecked(web, ref, 0, {});
    }
  }
}
