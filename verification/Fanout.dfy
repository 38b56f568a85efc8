/** Delivery fan-out of an outbox activity (aphttp/postoutbox.go): its audience, and the inboxes it goes to. */
module Fanout {
  import opened Wrappers
  import opened Text
  import opened Vocabulary

  type Fields = map<string, Json>

  // ----- References in a field -----

  /** flattenJSONLDRefs */
  function Flatten(j: Json): seq<string> {
    match j
    case Str(s) => if s != "" then [s] else []
    case Arr(elems) => FlattenAll(elems)
    case Obj(Some(id)) => if id != "" then [id] else []
    case _ => []
  }

  function FlattenAll(elems: seq<Json>): seq<string> {
    if elems == [] then [] else Flatten(elems[0]) + FlattenAll(elems[1..])
  }

  lemma {:induction false} FlattenedElements(elems: seq<Json>, x: string)
    ensures x in FlattenAll(elems) <==> exists i | 0 <= i < |elems| :: x in Flatten(elems[i])
  {
    if elems != [] {
      FlattenedElements(elems[1..], x);
      if i :| 0 <= i < |elems| && x in Flatten(elems[i]) {
        assert i > 0 ==> elems[1..][i - 1] == elems[i];
      }
    }
  }

  predicate NamesActor(refs: seq<string>, actor: string) {
    exists ref | ref in refs :: Canonical(ref) == actor
  }

  lemma ListNamesActor(elems: seq<Json>, actor: string)
    ensures NamesActor(FlattenAll(elems), actor) <==> exists i | 0 <= i < |elems| ::
        NamesActor(Flatten(elems[i]), actor)
  {
    hide Canonical, Flatten, FlattenAll;
    if ref :| ref in FlattenAll(elems) && Canonical(ref) == actor {
      FlattenedElements(elems, ref);
    }
    if i :| 0 <= i < |elems| && NamesActor(Flatten(elems[i]), actor) {
      var ref :| ref in Flatten(elems[i]) && Canonical(ref) == actor;
      FlattenedElements(elems, ref);
    }
  }

  lemma BlankNamesNobody(actor: string)
    requires actor != ""
    ensures Canonical("") != actor
  {
  }

  /** An attribution names an actor exactly if one of its flattened references does: the two readings agree. */
  lemma {:induction false} AttributionIsAReference(j: Json, actor: string)
    requires actor != ""
    ensures RefContainsActor(j, actor) <==> NamesActor(Flatten(j), actor)
  {
    hide Canonical;
    BlankNamesNobody(actor);
    if j.Arr? {
      hide NamesActor;
      forall i | 0 <= i < |j.elems|
        ensures RefContainsActor(j.elems[i], actor) <==> NamesActor(Flatten(j.elems[i]), actor)
      {
        AttributionIsAReference(j.elems[i], actor);
      }
      ListNamesActor(j.elems, actor);
    }
  }

  /** Trimmed, without the blank ones. */
  function Clean(refs: seq<string>): seq<string> {
    if refs == [] then [] else CleanOne(refs[0]) + Clean(refs[1..])
  }

  function CleanOne(ref: string): seq<string> {
    if TrimSpace(ref) == "" then [] else [TrimSpace(ref)]
  }

  function RefsOf(m: Fields, key: string): seq<string> {
    if key in m then Clean(Flatten(m[key])) else []
  }

  /** The first occurrence of each element of `s` that is not in `seen`. */
  function Fresh(seen: set<string>, s: seq<string>): seq<string>
    decreases |s|
  {
    if s == [] then []
    else if s[0] in seen then Fresh(seen, s[1..])
    else [s[0]] + Fresh(seen + {s[0]}, s[1..])
  }

  function Elements(s: seq<string>): set<string> {
    set x | x in s
  }

  lemma {:induction false} FreshIsExact(seen: set<string>, s: seq<string>)
    ensures Elements(Fresh(seen, s)) == Elements(s) - seen
    ensures NoDuplicates(Fresh(seen, s))
    decreases |s|
  {
    if s != [] {
      FreshIsExact(if s[0] in seen then seen else seen + {s[0]}, s[1..]);
      assert Elements(s) == {s[0]} + Elements(s[1..]) by {
        assert s == [s[0]] + s[1..];
      }
      if s[0] !in seen {
        var rest := Fresh(seen + {s[0]}, s[1..]);
        assert s[0] !in Elements(rest);
        forall i, j | 0 <= i < j < |[s[0]] + rest| ensures ([s[0]] + rest)[i] != ([s[0]] + rest)[j] {
          if i == 0 {
            assert rest[j - 1] in Elements(rest);
          }
        }
        assert Elements([s[0]] + rest) == {s[0]} + Elements(rest);
      }
    }
  }

  /** It keeps the order: what comes later never changes what came before. */
  lemma {:induction false} FreshOfConcat(seen: set<string>, a: seq<string>, b: seq<string>)
    ensures Fresh(seen, a + b) == Fresh(seen, a) + Fresh(seen + Elements(a), b)
    decreases |a|
  {
    if a == [] {
      assert a + b == b && seen + Elements(a) == seen;
    } else {
      assert (a + b)[1..] == a[1..] + b;
      var more := seen + {a[0]};
      assert Elements(a) == {a[0]} + Elements(a[1..]) by {
        assert a == [a[0]] + a[1..];
      }
      assert more + Elements(a[1..]) == seen + Elements(a);
      if a[0] in seen {
        assert more == seen;
        FreshOfConcat(seen, a[1..], b);
      } else {
        FreshOfConcat(more, a[1..], b);
      }
    }
  }

  lemma {:induction false} NothingFresh(seen: set<string>, s: seq<string>)
    requires Elements(s) <= seen
    ensures Fresh(seen, s) == []
    decreases |s|
  {
    if s != [] {
      assert s[0] in Elements(s);
      assert Elements(s[1..]) <= Elements(s);
      NothingFresh(seen, s[1..]);
    }
  }

  lemma {:induction false} CleanOfConcat(a: seq<string>, b: seq<string>)
    ensures Clean(a + b) == Clean(a) + Clean(b)
    decreases |a|
  {
    if a == [] {
      assert a + b == b;
    } else {
      assert (a + b)[1..] == a[1..] + b;
      CleanOfConcat(a[1..], b);
    }
  }

  lemma CleanSnoc(refs: seq<string>, k: nat)
    requires k < |refs|
    ensures Clean(refs[..k + 1]) ==
              if TrimSpace(refs[k]) == "" then Clean(refs[..k]) else Clean(refs[..k]) + [TrimSpace(refs[k])]
  {
    assert refs[..k + 1] == refs[..k] + [refs[k]];
    CleanOfConcat(refs[..k], [refs[k]]);
    assert Clean([refs[k]]) == CleanOne(refs[k]) + Clean([]);
  }

  lemma FreshSnoc(seen: set<string>, s: seq<string>, x: string)
    ensures Fresh(seen, s + [x]) == if x in seen + Elements(s) then Fresh(seen, s) else Fresh(seen, s) + [x]
  {
    FreshOfConcat(seen, s, [x]);
  }

  lemma {:induction false} CleanIsExact(refs: seq<string>, x: string)
    ensures x in Clean(refs) <==> x != "" && exists ref | ref in refs :: TrimSpace(ref) == x
  {
    hide TrimSpace;
    if refs != [] {
      CleanIsExact(refs[1..], x);
      assert refs == [refs[0]] + refs[1..];
    }
  }

  lemma {:induction false} CleanIsClean(s: seq<string>)
    requires forall x | x in s :: x != "" && TrimSpace(x) == x
    ensures Clean(s) == s
  {
    hide TrimSpace;
    if s != [] {
      assert s[0] in s && forall x | x in s[1..] :: x in s;
      CleanIsClean(s[1..]);
      assert s == [s[0]] + s[1..];
    }
  }

  // ----- Merging followers into a field -----

  /** What merging adds to the field's references. */
  function Additions(m: Fields, key: string, add: seq<string>): seq<string> {
    Fresh(Elements(RefsOf(m, key)), Clean(add))
  }

  function StringArray(s: seq<string>): Json {
    Arr(seq(|s|, i requires 0 <= i < |s| => Str(s[i])))
  }

  function Merged(m: Fields, key: string, add: seq<string>): Fields {
    var elems := RefsOf(m, key) + Additions(m, key, add);
    if add == [] || elems == [] then m else m[key := StringArray(elems)]
  }

  /** The loop over the references already there: duplicates stay. */
  method KeepExisting(refs: seq<string>) returns (seen: set<string>, elems: seq<string>)
    ensures elems == Clean(refs) && seen == Elements(elems)
  {
    hide Clean, TrimSpace;
    seen, elems := {}, [];
    CleanNone();
    for k := 0 to |refs|
      invariant elems == Clean(refs[..k]) && seen == Elements(elems)
    {
      CleanSnoc(refs, k);
      var s := TrimSpace(refs[k]);
      if s == "" {
        continue;
      }
      seen := seen + {s};
      elems := elems + [s];
    }
    assert refs[..|refs|] == refs;
  }

  lemma CleanNone()
    ensures Clean([]) == []
  {
  }

  /** The loops over new references: blank ones and those seen before are dropped. */
  method AppendFresh(known: set<string>, add: seq<string>) returns (seen: set<string>, added: seq<string>)
    ensures added == Fresh(known, Clean(add)) && seen == known + Elements(Clean(add))
  {
    hide Clean, TrimSpace, Fresh;
    seen, added := known, [];
    CleanNone();
    FreshNone(known);
    for k := 0 to |add|
      invariant added == Fresh(known, Clean(add[..k]))
      invariant seen == known + Elements(Clean(add[..k]))
    {
      CleanSnoc(add, k);
      var s := TrimSpace(add[k]);
      if s == "" {
        continue;
      }
      FreshSnoc(known, Clean(add[..k]), s);
      if s in seen {
        continue;
      }
      seen := seen + {s};
      added := added + [s];
    }
    assert add[..|add|] == add;
  }

  lemma FreshNone(seen: set<string>)
    ensures Fresh(seen, []) == []
  {
  }

  class Document {
    var fields: Fields

    method MergeStringIRIsIntoJSONField(key: string, add: seq<string>)
      modifies this
      ensures fields == Merged(old(fields), key, add)
    {
      hide Clean, Fresh, Flatten;
      assert Elements([]) == {};
      if |add| == 0 {
        return;
      }
      var seen: set<string> := {};
      var elems: seq<string> := [];
      if key in fields {
        seen, elems := KeepExisting(Flatten(fields[key]));
      }
      var added;
      seen, added := AppendFresh(seen, add);
      assert elems == RefsOf(fields, key) && added == Additions(fields, key, add);
      elems := elems + added;
      if |elems| > 0 {
        fields := fields[key := StringArray(elems)];
      }
    }

    /** appendFollowerCCForPublicPosts */
    method AppendFollowerCCForPublicPosts(followers: seq<string>)
      modifies this
      ensures fields == WithFollowers(old(fields), followers)
    {
      hide Merged, Skipped, Audience;
      var hasPublic := false;
      var entries := AudienceEntries(fields);
      for k := 0 to |entries|
        invariant !hasPublic && forall e | e in entries[..k] :: !Skipped(e)
      {
        if Skipped(entries[k]) {
          hasPublic := true;
          break;
        }
      }
      assert entries[..|entries|] == entries;
      if !hasPublic {
        return;
      }
      MergeStringIRIsIntoJSONField("cc", followers);
    }
  }

  // ----- The audience -----

  const KEYS: seq<string> := ["to", "cc", "bto", "bcc", "audience"]

  function AllRefs(m: Fields, keys: seq<string>): seq<string> {
    if keys == [] then [] else RefsOf(m, keys[0]) + AllRefs(m, keys[1..])
  }

  function Audience(m: Fields): seq<string> {
    Fresh({}, AllRefs(m, KEYS))
  }

  lemma {:induction false} AllRefsSnoc(m: Fields, keys: seq<string>, k: nat)
    requires k < |keys|
    ensures AllRefs(m, keys[..k + 1]) == AllRefs(m, keys[..k]) + RefsOf(m, keys[k])
    decreases k
  {
    hide RefsOf;
    assert keys[..k + 1][1..] == keys[1..][..k];
    if k > 0 {
      AllRefsSnoc(m, keys[1..], k - 1);
      assert keys[..k][1..] == keys[1..][..k - 1];
    } else {
      assert keys[1..][..0] == [];
      assert RefsOf(m, keys[0]) + [] == [] + RefsOf(m, keys[0]);
    }
  }

  method AudienceEntries(m: Fields) returns (entries: seq<string>)
    ensures entries == Audience(m)
  {
    hide Clean, Fresh, Flatten;
    var seen: set<string> := {};
    entries := [];
    FreshNone({});
    for k := 0 to |KEYS|
      invariant entries == Fresh({}, AllRefs(m, KEYS[..k])) && seen == Elements(AllRefs(m, KEYS[..k]))
    {
      AllRefsSnoc(m, KEYS, k);
      FreshOfConcat({}, AllRefs(m, KEYS[..k]), RefsOf(m, KEYS[k]));
      assert {} + seen == seen;
      if KEYS[k] !in m {
        FreshNone(seen);
        continue;
      }
      var added;
      seen, added := AppendFresh(seen, Flatten(m[KEYS[k]]));
      entries := entries + added;
    }
    assert KEYS[..|KEYS|] == KEYS;
  }

  /** skipAudienceEntry: the public collection */
  predicate Skipped(entry: string) {
    TrimSpace(entry) == "" || Contains(ToLower(TrimSpace(entry)), "#public")
  }

  predicate HasPublic(m: Fields) {
    exists e | e in Audience(m) :: Skipped(e)
  }

  function WithFollowers(m: Fields, followers: seq<string>): Fields {
    if HasPublic(m) then Merged(m, "cc", followers) else m
  }

  // ----- Inboxes -----

  /** The instance's own collections and shared inbox, and where references resolve to. */
  datatype Env = Env(isLocalCollection: string -> bool, inboxOf: string -> Option<string>, sharedInbox: string)

  predicate Resolves(env: Env, entry: string) {
    !Skipped(entry) && !env.isLocalCollection(entry)
  }

  /** The inboxes of the entries that resolve, one for one; an error when one of them has none. */
  function InboxesOf(env: Env, entries: seq<string>): Result<seq<string>> {
    if entries == [] then Ok([])
    else if !Resolves(env, entries[0]) then InboxesOf(env, entries[1..])
    else
      match env.inboxOf(entries[0])
      case None => Err
      case Some(inbox) =>
        match InboxesOf(env, entries[1..])
        case Err => Err
        case Ok(rest) => Ok([TrimRight(inbox, '/')] + rest)
  }

  function DeliveryInboxes(env: Env, m: Fields): Result<seq<string>> {
    match InboxesOf(env, Audience(m))
    case Err => Err
    case Ok(inboxes) => Ok(Fresh({TrimRight(env.sharedInbox, '/')}, inboxes))
  }

  lemma {:induction false} InboxesOfSnoc(env: Env, entries: seq<string>, k: nat)
    requires k < |entries|
    ensures var e := entries[k]; var before := InboxesOf(env, entries[..k]);
            InboxesOf(env, entries[..k + 1]) ==
              if before.Err? || !Resolves(env, e) then before
              else if env.inboxOf(e).None? then Err
              else Ok(before.value + [TrimRight(env.inboxOf(e).value, '/')])
    decreases k
  {
    hide Resolves, TrimRight;
    var rest := entries[1..];
    assert entries[..k + 1][1..] == rest[..k];
    if k == 0 {
      assert rest[..0] == [] && entries[..0] == [] && entries[..1][0] == entries[0];
      if env.inboxOf(entries[0]).Some? {
        var n := TrimRight(env.inboxOf(entries[0]).value, '/');
        assert [n] + [] == [] + [n];
      }
    } else {
      assert entries[..k][1..] == rest[..k - 1] && entries[..k][0] == entries[..k + 1][0] == entries[0];
      InboxesOfSnoc(env, rest, k - 1);
      if Resolves(env, entries[0]) && env.inboxOf(entries[0]).Some? && InboxesOf(env, rest[..k]).Ok? {
        var n, done := TrimRight(env.inboxOf(entries[0]).value, '/'), InboxesOf(env, rest[..k - 1]).value;
        assert forall m :: [n] + (done + [m]) == [n] + done + [m];
      }
    }
  }

  lemma {:induction false} InboxesOfPrefix(env: Env, entries: seq<string>, k: nat)
    requires k <= |entries| && InboxesOf(env, entries[..k]).Err?
    ensures InboxesOf(env, entries).Err?
    decreases |entries| - k
  {
    hide InboxesOf, Resolves, TrimRight;
    if k < |entries| {
      InboxesOfSnoc(env, entries, k);
      InboxesOfPrefix(env, entries, k + 1);
    } else {
      assert entries[..k] == entries;
    }
  }

  method ResolveDeliveryInboxes(env: Env, m: Fields) returns (r: Result<seq<string>>)
    ensures r == DeliveryInboxes(env, m)
  {
    hide Audience, Fresh, InboxesOf, TrimRight, Skipped;
    var entries := AudienceEntries(m);
    var normLocal := TrimRight(env.sharedInbox, '/');
    var seen: set<string> := {};
    var resolved: seq<string> := [];
    ghost var all: seq<string> := [];
    FreshNone({normLocal});
    NoInboxes(env);
    for k := 0 to |entries|
      invariant InboxesOf(env, entries[..k]) == Ok(all)
      invariant resolved == Fresh({normLocal}, all)
      invariant {normLocal} + seen == {normLocal} + Elements(all)
      invariant normLocal !in seen
    {
      InboxesOfSnoc(env, entries, k);
      if Skipped(entries[k]) {
        continue;
      }
      if env.isLocalCollection(entries[k]) {
        continue;
      }
      var inbox := env.inboxOf(entries[k]);
      if inbox.None? {
        InboxesOfPrefix(env, entries, k + 1);
        return Err;
      }
      var n := TrimRight(inbox.value, '/');
      FreshSnoc({normLocal}, all, n);
      all := all + [n];
      if n == normLocal {
        continue;
      }
      if n in seen {
        continue;
      }
      seen := seen + {n};
      resolved := resolved + [n];
    }
    assert entries[..|entries|] == entries;
    return Ok(resolved);
  }

  lemma NoInboxes(env: Env)
    ensures InboxesOf(env, []) == Ok([])
  {
  }

  // ----- Merging is a union -----

  lemma {:induction false} StringsFlattenBack(s: seq<string>)
    requires forall x | x in s :: x != ""
    ensures Flatten(StringArray(s)) == s
  {
    var elems := StringArray(s).elems;
    if s == [] {
      assert elems == [];
    } else {
      assert s[0] in s && forall x | x in s[1..] :: x in s;
      StringsFlattenBack(s[1..]);
      assert elems[0] == Str(s[0]) && elems[1..] == StringArray(s[1..]).elems;
      assert FlattenAll(elems) == [s[0]] + s[1..];
    }
  }

  predicate AllClean(s: seq<string>) {
    forall x | x in s :: x != "" && TrimSpace(x) == x
  }

  lemma TrimTwice(s: string)
    ensures TrimSpace(TrimSpace(s)) == TrimSpace(s)
  {
    var r := TrimSpace(s);
    if r != "" {
      assert TrimSpace(r) == r;
    } else {
      assert TrimSpace("") == "";
    }
  }

  lemma {:induction false} CleanedIsClean(refs: seq<string>)
    ensures AllClean(Clean(refs))
  {
    hide TrimSpace;
    if refs != [] {
      TrimTwice(refs[0]);
      CleanedIsClean(refs[1..]);
    }
  }

  lemma MergedRefs(m: Fields, key: string, add: seq<string>)
    ensures RefsOf(Merged(m, key, add), key) == RefsOf(m, key) + Additions(m, key, add)
    ensures AllClean(RefsOf(m, key) + Additions(m, key, add))
  {
    hide Flatten, TrimSpace, StringArray, Clean, Fresh;
    var elems := RefsOf(m, key) + Additions(m, key, add);
    CleanNone();
    FreshNone(Elements(RefsOf(m, key)));
    assert AllClean(elems) by {
      if key in m {
        CleanedIsClean(Flatten(m[key]));
      }
      CleanedIsClean(add);
      FreshIsExact(Elements(RefsOf(m, key)), Clean(add));
      forall x | x in Additions(m, key, add) ensures x in Clean(add) {
        assert x in Elements(Additions(m, key, add));
      }
    }
    StringsFlattenBack(elems);
    CleanIsClean(elems);
  }

  lemma {:induction false} BlankIsClean(refs: seq<string>)
    requires forall ref | ref in refs :: TrimSpace(ref) == ""
    ensures Clean(refs) == []
  {
    if refs != [] {
      BlankIsClean(refs[1..]);
    }
  }

  /** With nothing to merge, or nothing but blanks in all, the field stays as written; else it becomes an array. */
  lemma MergingWritesIffThereIsSomething(m: Fields, key: string, add: seq<string>)
    ensures if add == [] || (RefsOf(m, key) == [] && forall a | a in add :: TrimSpace(a) == "")
            then Merged(m, key, add) == m else key in Merged(m, key, add) && Merged(m, key, add)[key].Arr?
  {
    hide RefsOf, TrimSpace;
    if forall a | a in add :: TrimSpace(a) == "" {
      BlankIsClean(add);
    } else {
      var a :| a in add && TrimSpace(a) != "";
      CleanIsExact(add, TrimSpace(a));
      FreshIsExact(Elements(RefsOf(m, key)), Clean(add));
      assert TrimSpace(a) in Elements(Clean(add));
      assert TrimSpace(a) in Elements(Additions(m, key, add)) || TrimSpace(a) in Elements(RefsOf(m, key));
    }
  }

  /**
    Merging is a union in order: the field's references stay as they were, the new ones follow
    without duplicates, no other field changes, and merging again changes nothing.
   */
  lemma MergeIsAUnion(m: Fields, key: string, add: seq<string>)
    ensures RefsOf(Merged(m, key, add), key) == RefsOf(m, key) + Additions(m, key, add)
    ensures NoDuplicates(Additions(m, key, add))
    ensures Elements(Additions(m, key, add)) == Elements(Clean(add)) - Elements(RefsOf(m, key))
    ensures forall k | k != key :: (k in Merged(m, key, add) <==> k in m) && (k in m ==> Merged(m, key, add)[k] == m[k])
    ensures Merged(Merged(m, key, add), key, add) == Merged(m, key, add)
  {
    hide RefsOf, TrimSpace, StringArray, Clean, Fresh;
    var before, added := RefsOf(m, key), Additions(m, key, add);
    MergedRefs(m, key, add);
    FreshIsExact(Elements(before), Clean(add));
    assert Elements(before + added) == Elements(before) + Elements(added);
    NothingFresh(Elements(before + added), Clean(add));
    assert Additions(Merged(m, key, add), key, add) == [];
    assert before + added + [] == before + added;
  }

  // ----- Whom an activity reaches -----

  /** `e` is named in one of the audience fields, as a string or by id, at any depth. */
  predicate Addressed(m: Fields, e: string) {
    && e != ""
    && exists key | key in {"to", "cc", "bto", "bcc", "audience"} && key in m ::
         exists ref | ref in Flatten(m[key]) :: TrimSpace(ref) == e
  }

  lemma {:induction false} AllRefsIsExact(m: Fields, keys: seq<string>, x: string)
    ensures x in AllRefs(m, keys) <==> exists key | key in keys :: x in RefsOf(m, key)
  {
    hide RefsOf;
    if keys != [] {
      AllRefsIsExact(m, keys[1..], x);
      assert keys == [keys[0]] + keys[1..];
    }
  }

  lemma RefsAreExact(m: Fields, key: string, x: string)
    ensures x in RefsOf(m, key) <==> key in m && x != "" && exists ref | ref in Flatten(m[key]) :: TrimSpace(ref) == x
  {
    hide TrimSpace, Clean, Flatten;
    if key in m {
      CleanIsExact(Flatten(m[key]), x);
    }
  }

  /** The audience is everything addressed, once. */
  lemma AudienceIsExact(m: Fields)
    ensures NoDuplicates(Audience(m)) && forall e :: e in Audience(m) <==> Addressed(m, e)
  {
    hide RefsOf, TrimSpace, Flatten, Fresh;
    FreshIsExact({}, AllRefs(m, KEYS));
    forall e ensures e in Audience(m) <==> Addressed(m, e) {
      assert e in Audience(m) <==> e in Elements(Audience(m));
      AllRefsIsExact(m, KEYS, e);
      forall key | key in KEYS
        ensures e in RefsOf(m, key) <==> key in m && e != "" && exists ref | ref in Flatten(m[key]) ::
            TrimSpace(ref) == e
      {
        RefsAreExact(m, key, e);
      }
    }
  }

  /** Delivery goes to `e`: neither the public collection nor one of the instance's own. */
  predicate Wanted(env: Env, e: string) {
    !Contains(ToLower(e), "#public") && !env.isLocalCollection(e)
  }

  lemma WantedIffResolves(env: Env, e: string)
    requires e != "" && TrimSpace(e) == e
    ensures Wanted(env, e) <==> Resolves(env, e)
  {
    hide Contains, ToLower, TrimSpace;
  }

  /** The entry `e` has the inbox `n`. */
  predicate LeadsTo(env: Env, e: string, n: string) {
    Wanted(env, e) && env.inboxOf(e).Some? && TrimRight(env.inboxOf(e).value, '/') == n
  }

  lemma {:induction false} InboxesOfIsExact(env: Env, entries: seq<string>)
    requires AllClean(entries)
    ensures InboxesOf(env, entries).Ok? <==> forall e | e in entries :: Wanted(env, e) ==> env.inboxOf(e).Some?
    ensures InboxesOf(env, entries).Ok? ==>
              forall n :: n in InboxesOf(env, entries).value <==> exists e | e in entries :: LeadsTo(env, e, n)
  {
    hide Resolves, Wanted, TrimRight, TrimSpace;
    if entries != [] {
      assert entries[0] in entries;
      WantedIffResolves(env, entries[0]);
      InboxesOfIsExact(env, entries[1..]);
      assert entries == [entries[0]] + entries[1..];
      if InboxesOf(env, entries).Ok? {
        var tail := InboxesOf(env, entries[1..]).value;
        forall n
          ensures n in InboxesOf(env, entries).value <==> exists e | e in entries :: LeadsTo(env, e, n)
        {
          assert n in InboxesOf(env, entries).value <==> LeadsTo(env, entries[0], n) || n in tail;
        }
      }
    }
  }

  /**
    Delivery is exact: it fails if and only if an addressed actor has no inbox; otherwise its
    inboxes are, once each, those of everything addressed, minus the public collection, the
    instance's own collections and its own shared inbox.
   */
  lemma DeliveryIsExact(env: Env, m: Fields)
    ensures DeliveryInboxes(env, m).Ok? <==> forall e | Addressed(m, e) && Wanted(env, e) :: env.inboxOf(e).Some?
    ensures DeliveryInboxes(env, m).Ok? ==>
              && NoDuplicates(DeliveryInboxes(env, m).value)
              && forall n :: n in DeliveryInboxes(env, m).value
                   <==> n != TrimRight(env.sharedInbox, '/') && exists e :: Addressed(m, e) && LeadsTo(env, e, n)
  {
    hide Audience, Addressed, Wanted, TrimRight, Fresh, InboxesOf, LeadsTo;
    AudienceIsExact(m);
    AddressedIsClean(m);
    InboxesOfIsExact(env, Audience(m));
    if DeliveryInboxes(env, m).Ok? {
      var all := InboxesOf(env, Audience(m)).value;
      FreshIsExact({TrimRight(env.sharedInbox, '/')}, all);
      forall n ensures n in DeliveryInboxes(env, m).value
          <==> n != TrimRight(env.sharedInbox, '/') && exists e :: Addressed(m, e) && LeadsTo(env, e, n) {
        assert n in DeliveryInboxes(env, m).value <==> n in Elements(DeliveryInboxes(env, m).value);
        assert n in all <==> n in Elements(all);
      }
    }
  }

  lemma AddressedIsClean(m: Fields)
    ensures AllClean(Audience(m))
  {
    hide TrimSpace, Flatten, Audience;
    AudienceIsExact(m);
    forall e | e in Audience(m) ensures e != "" && TrimSpace(e) == e {
      var key :| key in {"to", "cc", "bto", "bcc", "audience"} && key in m
                 && exists ref | ref in Flatten(m[key]) :: TrimSpace(ref) == e;
      var ref :| ref in Flatten(m[key]) && TrimSpace(ref) == e;
      TrimTwice(ref);
    }
  }

  /** An activity is public if the public collection is among its addressees. */
  ghost predicate Public(m: Fields) {
    exists e :: Addressed(m, e) && Contains(ToLower(e), "#public")
  }

  lemma PublicIffSkipped(m: Fields)
    ensures Public(m) <==> HasPublic(m)
  {
    hide TrimSpace, Contains, ToLower, Audience, Addressed;
    AudienceIsExact(m);
    AddressedIsClean(m);
  }

  /** A public activity is addressed to every follower as well, and any to everyone it was addressed to. */
  lemma FollowersAreAddressed(m: Fields, followers: seq<string>, e: string)
    requires e != ""
    ensures Addressed(WithFollowers(m, followers), e) <==>
              Addressed(m, e) || (Public(m) && exists f | f in followers :: TrimSpace(f) == e)
  {
    hide HasPublic, Public, Merged, Addressed, TrimSpace;
    PublicIffSkipped(m);
    if Public(m) {
      MergedAreAddressed(m, followers, e);
    }
  }

  lemma MergedAreAddressed(m: Fields, followers: seq<string>, e: string)
    requires e != ""
    ensures Addressed(Merged(m, "cc", followers), e) <==> Addressed(m, e) || exists f | f in followers ::
        TrimSpace(f) == e
  {
    hide TrimSpace, Flatten, RefsOf, Clean, Additions, Merged;
    var next := Merged(m, "cc", followers);
    MergeIsAUnion(m, "cc", followers);
    CleanIsExact(followers, e);
    assert e in Additions(m, "cc", followers) <==> e in Elements(Additions(m, "cc", followers));
    assert e in RefsOf(next, "cc") <==> e in RefsOf(m, "cc") || e in Clean(followers);
    forall key | key in KEYS && key != "cc" ensures e in RefsOf(next, key) <==> e in RefsOf(m, key) {
      RefsAreExact(m, key, e);
      RefsAreExact(next, key, e);
    }
    AddressedIffInSomeField(m, e);
    AddressedIffInSomeField(next, e);
    assert "cc" in KEYS;
  }

  lemma AddressedIffInSomeField(m: Fields, e: string)
    ensures Addressed(m, e) <==> exists key | key in KEYS :: e in RefsOf(m, key)
  {
    hide TrimSpace, Flatten, RefsOf;
    forall key | key in KEYS
      ensures e in RefsOf(m, key) <==> key in m && e != "" && exists ref | ref in Flatten(m[key]) :: TrimSpace(ref) == e
    {
      RefsAreExact(m, key, e);
    }
  }

  lemma BlankIsNotAddressed(m: Fields)
    ensures !Addressed(m, "")
  {
  }
}
