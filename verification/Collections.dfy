/**
  Followers, following and outbox collections: the windows the store reads (store/collections.go,
  store/federation.go) and the links the pages carry (aphttp/collections_handlers.go).
 */
module Collections {
  import opened Wrappers

  /** The rows a query's WHERE selects before any cursor: the IRI to list, by row id. */
  type Rows = map<nat, string>

  datatype FollowRow = FollowRow(follower: string, followee: string, accepted: bool)
  datatype ActivityRow = ActivityRow(actor: string, activityId: string)

  function FollowersOf(follows: map<nat, FollowRow>, actor: string): Rows {
    map id | id in follows && follows[id].followee == actor && follows[id].accepted :: follows[id].follower
  }

  function FollowedBy(follows: map<nat, FollowRow>, actor: string): Rows {
    map id | id in follows && follows[id].follower == actor && follows[id].accepted :: follows[id].followee
  }

  function OutboxOf(activities: map<nat, ActivityRow>, actor: string): Rows {
    map id | id in activities && activities[id].actor == actor :: activities[id].activityId
  }

  // ----- One window -----

  const MAX_INT64: int := 0x7fff_ffff_ffff_ffff

  function Clamped(limit: int): (n: nat)
    ensures 1 <= n <= 200
  {
    if limit <= 0 then 50 else if limit > 200 then 200 else limit
  }

  function Window(rows: Rows, maxId: Option<int>, sinceId: Option<int>): set<nat> {
    set id | id in rows && (maxId.Some? ==> id < maxId.value) && (sinceId.Some? ==> id > sinceId.value)
  }

  lemma HasMaximum(s: set<nat>)
    requires s != {}
    ensures exists m :: m in s && forall x | x in s :: x <= m
  {
    var x :| x in s;
    if s - {x} != {} {
      HasMaximum(s - {x});
      var m :| m in s - {x} && forall y | y in s - {x} :: y <= m;
      var top := if m < x then x else m;
      assert forall y | y in s :: y in s - {x} || y == x;
      assert top in s && forall y | y in s :: y <= top;
    } else {
      assert forall y | y in s :: y == x || y in s - {x};
    }
  }

  predicate IsDescending(r: seq<nat>) {
    forall i, j | 0 <= i < j < |r| :: r[i] > r[j]
  }

  ghost predicate Lists(r: seq<nat>, s: set<nat>) {
    forall id :: id in r <==> id in s
  }

  lemma MaximumFirst(s: set<nat>, m: nat, rest: seq<nat>)
    requires m in s && (forall x | x in s :: x <= m)
    requires IsDescending(rest) && Lists(rest, s - {m})
    ensures IsDescending([m] + rest) && Lists([m] + rest, s)
  {
    forall j | 0 <= j < |rest| ensures m > rest[j] {
      assert rest[j] in rest;
    }
    forall id ensures id in [m] + rest <==> id in s {
      assert id in [m] + rest <==> id == m || id in rest;
    }
  }

  /** ORDER BY id DESC */
  function Descending(s: set<nat>): (r: seq<nat>)
    ensures |r| == |s| && Lists(r, s) && IsDescending(r)
  {
    if s == {} then [] else
      HasMaximum(s);
      var m :| m in s && forall x | x in s :: x <= m;
      MaximumFirst(s, m, Descending(s - {m}));
      [m] + Descending(s - {m})
  }

  function Take(s: seq<nat>, n: nat): (r: seq<nat>)
    ensures forall x | x in r :: x in s
  {
    if n < |s| then s[..n] else s
  }

  /** The first `limit` rows of the window. */
  function Selected(rows: Rows, limit: nat, maxId: Option<int>, sinceId: Option<int>): (ids: seq<nat>)
    ensures forall id | id in ids :: id in rows
  {
    Take(Descending(Window(rows, maxId, sinceId)), limit)
  }

  function Iris(rows: Rows, ids: seq<nat>): seq<string>
    requires forall id | id in ids :: id in rows
  {
    seq(|ids|, i requires 0 <= i < |ids| => rows[ids[i]])
  }

  datatype StorePage = StorePage(total: nat, items: seq<string>, nextCursor: Option<int>)

  function PageOf(rows: Rows, limit: int, maxId: Option<int>, sinceId: Option<int>): StorePage {
    var ids := Selected(rows, Clamped(limit), maxId, sinceId);
    StorePage(|rows|, Iris(rows, ids), if |ids| == Clamped(limit) then Some(ids[|ids| - 1]) else None)
  }

  /** Scans the rows the query returned and sets the cursor after a full page. */
  method ScanPage(rows: Rows, limit: int, maxId: Option<int>, sinceId: Option<int>) returns (page: StorePage)
    ensures page == PageOf(rows, limit, maxId, sinceId)
  {
    hide Selected;
    var limit := limit;
    if limit <= 0 {
      limit := 50;
    }
    if limit > 200 {
      limit := 200;
    }
    var result := Selected(rows, limit, maxId, sinceId);
    var ids: seq<nat> := [];
    var items: seq<string> := [];
    for k := 0 to |result|
      invariant ids == result[..k]
      invariant items == Iris(rows, result)[..k]
    {
      ids := ids + [result[k]];
      items := items + [rows[result[k]]];
    }
    var nextCursor: Option<int> := None;
    if |items| == limit && |ids| > 0 {
      nextCursor := Some(ids[|ids| - 1]);
    }
    return StorePage(|rows|, items, nextCursor);
  }

  method FollowersPage(follows: map<nat, FollowRow>, actor: string, limit: int, maxId: Option<int>,
                       sinceId: Option<int>)
    returns (page: StorePage)
    ensures page == PageOf(FollowersOf(follows, actor), limit, maxId, sinceId)
  {
    page := ScanPage(FollowersOf(follows, actor), limit, maxId, sinceId);
  }

  method FollowingPage(follows: map<nat, FollowRow>, actor: string, limit: int, maxId: Option<int>,
                       sinceId: Option<int>)
    returns (page: StorePage)
    ensures page == PageOf(FollowedBy(follows, actor), limit, maxId, sinceId)
  {
    page := ScanPage(FollowedBy(follows, actor), limit, maxId, sinceId);
  }

  method OutboxPage(activities: map<nat, ActivityRow>, actor: string, limit: int, maxId: Option<int>,
                    sinceId: Option<int>)
    returns (page: StorePage)
    ensures page == PageOf(OutboxOf(activities, actor), limit, maxId, sinceId)
  {
    page := ScanPage(OutboxOf(activities, actor), limit, maxId, sinceId);
  }

  // ----- Requests and links -----

  /** The query parameters that parse as integers. */
  datatype Query = Query(limit: Option<int>, maxId: Option<int>, sinceId: Option<int>)

  datatype Response =
    | Collection(total: nat, first: Query)
    | Page(total: nat, items: seq<string>, next: Option<Query>)

  /** collectionPageParams */
  function Limit(q: Query): int {
    if q.limit.Some? && q.limit.value > 0 then q.limit.value else 50
  }

  /** firstCollectionPageURL */
  function FirstLink(limit: int): Query {
    Query(Some(limit), Some(MAX_INT64), None)
  }

  /** The bare collection without a cursor, else one page whose `next` link replaces the cursor. */
  function Respond(rows: Rows, q: Query): Response {
    if q.maxId.None? && q.sinceId.None? then Collection(PageOf(rows, 1, None, None).total, FirstLink(Limit(q)))
    else
      var page := PageOf(rows, Limit(q), q.maxId, q.sinceId);
      Page(page.total, page.items, if page.nextCursor.Some? then Some(q.(maxId := page.nextCursor)) else None)
  }

  lemma NextLinkDescends(rows: Rows, q: Query)
    requires Respond(rows, q).Page? && Respond(rows, q).next.Some?
    ensures var next := Respond(rows, q).next.value;
            next.maxId.Some? && 0 <= next.maxId.value && (q.maxId.Some? ==> next.maxId.value < q.maxId.value)
            && next.limit == q.limit && next.sinceId == q.sinceId
  {
    hide Descending;
    var ids := Selected(rows, Clamped(Limit(q)), q.maxId, q.sinceId);
    assert ids[|ids| - 1] in Descending(Window(rows, q.maxId, q.sinceId));
  }

  /** Following `next` links from a page; `tables(k)` is the table when the k-th request arrives. */
  function Walk(tables: nat -> Rows, k: nat, q: Query): (pages: seq<Response>)
    requires q.maxId.Some?
    ensures pages != []
    decreases if q.maxId.value < 0 then 0 else q.maxId.value
  {
    var page := Respond(tables(k), q);
    if page.next.None? then [page] else
      NextLinkDescends(tables(k), q);
      [page] + Walk(tables, k + 1, page.next.value)
  }

  function AllItems(pages: seq<Response>): seq<string>
    requires forall p | p in pages :: p.Page?
  {
    if pages == [] then [] else pages[0].items + AllItems(pages[1..])
  }

  // ----- The walk lists every row once -----

  lemma TailLists(r: seq<nat>, s: set<nat>)
    requires r != [] && IsDescending(r) && Lists(r, s)
    ensures IsDescending(r[1..]) && Lists(r[1..], s - {r[0]})
  {
    forall id ensures id in r[1..] <==> id in s - {r[0]} {
      assert r == [r[0]] + r[1..];
    }
  }

  lemma EmptyListing(r: seq<nat>, s: set<nat>)
    requires Lists(r, s)
    ensures r == [] <==> s == {}
  {
    assert r != [] ==> r[0] in s;
  }

  lemma {:induction false} OneListing(a: seq<nat>, b: seq<nat>, s: set<nat>)
    requires IsDescending(a) && Lists(a, s) && IsDescending(b) && Lists(b, s)
    ensures a == b
  {
    EmptyListing(a, s);
    EmptyListing(b, s);
    if s != {} {
      assert a[0] in s && b[0] in s;
      var i :| 0 <= i < |a| && a[i] == b[0];
      var j :| 0 <= j < |b| && b[j] == a[0];
      assert a[0] == b[0];
      TailLists(a, s);
      TailLists(b, s);
      OneListing(a[1..], b[1..], s - {a[0]});
      assert a == [a[0]] + a[1..] && b == [b[0]] + b[1..];
    }
  }

  lemma BelowLists(d: seq<nat>, n: nat, s: set<nat>)
    requires IsDescending(d) && Lists(d, s) && 0 < n <= |d|
    ensures IsDescending(d[n..]) && Lists(d[n..], set id | id in s && id < d[n - 1])
  {
    forall id ensures id in d[n..] <==> id in s && id < d[n - 1] {
      if id in s {
        var i :| 0 <= i < |d| && d[i] == id;
        assert i >= n ==> d[n..][i - n] == id;
      }
    }
  }

  /** The rows below the cursor are what the page left over. */
  lemma WindowBelowCursor(rows: Rows, maxId: Option<int>, sinceId: Option<int>, n: nat)
    requires 0 < n <= |Descending(Window(rows, maxId, sinceId))|
    ensures var d := Descending(Window(rows, maxId, sinceId));
            Descending(Window(rows, Some(d[n - 1]), sinceId)) == d[n..]
  {
    hide Descending;
    var s := Window(rows, maxId, sinceId);
    var d := Descending(s);
    BelowLists(d, n, s);
    assert d[n - 1] in s;
    assert Window(rows, Some(d[n - 1]), sinceId) == set id | id in s && id < d[n - 1];
    OneListing(Descending(Window(rows, Some(d[n - 1]), sinceId)), d[n..], Window(rows, Some(d[n - 1]), sinceId));
  }

  ghost predicate AgreesBelow(rows: Rows, base: Rows, cursor: int) {
    forall id: nat | id < cursor :: (id in rows <==> id in base) && (id in base ==> rows[id] == base[id])
  }

  /** After the first request rows may only be added, with ids above those already there. */
  ghost predicate OnlyNewer(tables: nat -> Rows) {
    forall k, id | id in tables(0) :: AgreesBelow(tables(k), tables(0), id + 1)
  }

  lemma SamePage(rows: Rows, base: Rows, q: Query)
    requires q.maxId.Some? && AgreesBelow(rows, base, q.maxId.value)
    ensures Respond(rows, q).Page? && Respond(base, q).Page?
    ensures Respond(rows, q).items == Respond(base, q).items && Respond(rows, q).next == Respond(base, q).next
  {
    hide Descending;
    assert Window(rows, q.maxId, q.sinceId) == Window(base, q.maxId, q.sinceId);
    var n := Clamped(Limit(q));
    var ids := Selected(rows, n, q.maxId, q.sinceId);
    forall id | id in ids ensures rows[id] == base[id] {
      assert id in Descending(Window(base, q.maxId, q.sinceId));
    }
    assert Iris(rows, ids) == Iris(base, ids);
  }

  /** One page and the listing it starts. */
  lemma PageStartsTheListing(base: Rows, q: Query)
    requires q.maxId.Some?
    ensures var d := Descending(Window(base, q.maxId,
        q.sinceId)); var n := Clamped(Limit(q)); var page := Respond(base, q);
            && page.items == Iris(base, Take(d, n))
            && (page.next.None? <==> |d| < n)
            && (page.next.Some? ==>
                  && d[n - 1] in base && page.next.value == q.(maxId := Some(d[n - 1]))
                  && Descending(Window(base, Some(d[n - 1]), q.sinceId)) == d[n..])
  {
    hide Descending;
    var d, n := Descending(Window(base, q.maxId, q.sinceId)), Clamped(Limit(q));
    if |d| >= n {
      assert d[n - 1] in d;
      WindowBelowCursor(base, q.maxId, q.sinceId, n);
    }
  }

  lemma IrisSplit(base: Rows, d: seq<nat>, n: nat)
    requires n <= |d| && forall id | id in d :: id in base
    ensures Iris(base, d) == Iris(base, d[..n]) + Iris(base, d[n..])
  {
  }

  ghost predicate WalkLists(pages: seq<Response>, base: Rows, ids: seq<nat>, n: nat)
    requires n > 0 && forall id | id in ids :: id in base
  {
    && (forall p | p in pages :: p.Page?)
    && AllItems(pages) == Iris(base, ids)
    && |pages| == |ids| / n + 1
  }

  lemma WindowIsPart(base: Rows, q: Query)
    ensures forall id | id in Descending(Window(base, q.maxId, q.sinceId)) :: id in base
  {
    hide Descending;
  }

  lemma AtLeastOnce(k: int, n: nat)
    requires k >= 1
    ensures k * n >= n
  {
  }

  lemma Distribute(p: int, q: int, n: int)
    ensures (p - q) * n == p * n - q * n
  {
  }

  lemma QuotientIsNotAbove(p: int, r: int, q: int, t: int, n: nat)
    requires p * n + r == q * n + t && 0 <= r && t < n
    ensures p <= q
  {
    Distribute(p, q, n);
    if p > q {
      AtLeastOnce(p - q, n);
      assert false;
    }
  }

  lemma DivStep(a: nat, n: nat)
    requires 0 < n <= a
    ensures a / n == (a - n) / n + 1
  {
    var q := (a - n) / n;
    assert (q + 1) * n == q * n + n;
    QuotientIsNotAbove(a / n, a % n, q + 1, (a - n) % n, n);
    QuotientIsNotAbove(q + 1, (a - n) % n, a / n, a % n, n);
  }

  lemma FullPageThenRest(base: Rows, d: seq<nat>, n: nat, page: Response, rest: seq<Response>)
    requires 0 < n <= |d| && (forall id | id in d :: id in base)
    requires page.Page? && page.items == Iris(base, d[..n]) && WalkLists(rest, base, d[n..], n)
    ensures WalkLists([page] + rest, base, d, n)
  {
    hide Iris;
    IrisSplit(base, d, n);
    DivStep(|d|, n);
    assert ([page] + rest)[1..] == rest;
    assert AllItems([page] + rest) == page.items + AllItems(rest);
  }

  lemma LastPage(base: Rows, d: seq<nat>, n: nat, page: Response)
    requires |d| < n && (forall id | id in d :: id in base)
    requires page.Page? && page.items == Iris(base, d)
    ensures WalkLists([page], base, d, n)
  {
    hide Iris;
    assert AllItems([page]) == page.items + [];
  }

  lemma {:induction false} WalkListsTheWindow(tables: nat -> Rows, base: Rows, k: nat, q: Query)
    requires q.maxId.Some? && AgreesBelow(tables(k), base, q.maxId.value)
    requires forall j, id | j > k && id in base :: AgreesBelow(tables(j), base, id + 1)
    ensures WalkLists(Walk(tables, k, q), base, Descending(Window(base, q.maxId, q.sinceId)), Clamped(Limit(q)))
    decreases if q.maxId.value < 0 then 0 else q.maxId.value
  {
    hide Descending, Respond, Iris, WalkLists, AllItems, Window;
    var d, n := Descending(Window(base, q.maxId, q.sinceId)), Clamped(Limit(q));
    assert forall id | id in d :: id in base by {
      WindowIsPart(base, q);
    }
    var page := Respond(tables(k), q);
    SamePage(tables(k), base, q);
    PageStartsTheListing(base, q);
    if page.next.None? {
      LastPage(base, d, n, page);
    } else {
      NextLinkDescends(tables(k), q);
      var next := page.next.value;
      assert Take(d, n) == d[..n];
      assert AgreesBelow(tables(k + 1), base, d[n - 1] + 1);
      WalkListsTheWindow(tables, base, k + 1, next);
      FullPageThenRest(base, d, n, page, Walk(tables, k + 1, next));
    }
  }

  /**
    From the `first` link, the `next` links list every row of the first page's table exactly once,
    newest first, in floor(n/L)+1 pages, whatever newer rows are added meanwhile.
   */
  lemma FirstLinkListsEverything(tables: nat -> Rows, limit: int)
    requires OnlyNewer(tables)
    ensures var ids := Descending(Window(tables(0), Some(MAX_INT64), None));
            && WalkLists(Walk(tables, 0, FirstLink(limit)), tables(0), ids, Clamped(Limit(FirstLink(limit))))
            && IsDescending(ids) && Lists(ids, Window(tables(0), Some(MAX_INT64), None))
    ensures Window(tables(0), Some(MAX_INT64), None) == tables(0).Keys <==>
              forall id | id in tables(0) :: id < MAX_INT64
  {
    hide WalkLists, Descending;
    forall id | id in tables(0) && Window(tables(0), Some(MAX_INT64), None) == tables(0).Keys ensures id < MAX_INT64 {
      assert id in tables(0).Keys;
    }
    WalkListsTheWindow(tables, tables(0), 0, FirstLink(limit));
  }

  // ----- What a single request gets -----

  /** The largest ids below `maxId` and above `sinceId`, at most `limit` of them, in descending order. */
  ghost predicate TopOf(ids: seq<nat>, rows: Rows, limit: nat, maxId: Option<int>, sinceId: Option<int>) {
    && IsDescending(ids) && |ids| <= limit
    && (forall id | id in ids :: id in rows && (maxId == None || id < maxId.value)
                                 && (sinceId == None || id > sinceId.value))
    && (forall id | id in rows && id !in ids && (maxId == None || id < maxId.value)
                    && (sinceId == None || id > sinceId.value) ::
          |ids| == limit && forall k | k in ids :: k > id)
  }

  lemma TakeIsTop(d: seq<nat>, limit: nat, rows: Rows, maxId: Option<int>, sinceId: Option<int>)
    requires IsDescending(d) && Lists(d, Window(rows, maxId, sinceId))
    ensures TopOf(Take(d, limit), rows, limit, maxId, sinceId)
  {
    var ids := Take(d, limit);
    forall id | id in Window(rows, maxId, sinceId) && id !in ids
      ensures |ids| == limit && forall k | k in ids :: k > id
    {
      var i :| 0 <= i < |d| && d[i] == id;
      assert forall k | 0 <= k < |ids| :: ids[k] == d[k];
    }
  }

  /** A page the store returns: 50 rows unless asked for fewer or more, 200 at most, and a cursor after a full one. */
  lemma StorePageIsTheTop(rows: Rows, limit: int, maxId: Option<int>, sinceId: Option<int>) returns (ids: seq<nat>)
    ensures var size := if limit <= 0 then 50 else if limit > 200 then 200 else limit;
            && TopOf(ids, rows, size, maxId, sinceId)
            && PageOf(rows, limit, maxId, sinceId) ==
                 StorePage(|rows|, Iris(rows, ids), if |ids| == size then Some(ids[size - 1]) else None)
  {
    hide Descending;
    var d := Descending(Window(rows, maxId, sinceId));
    TakeIsTop(d, Clamped(limit), rows, maxId, sinceId);
    ids := Take(d, Clamped(limit));
  }

  /**
    Without a cursor a request gets the number of rows and the first link; with one, the top rows of
    its window, 50 unless it asks for less or more, 200 at most, and a next link after a full page.
   */
  lemma ResponseIsThePage(rows: Rows, q: Query) returns (ids: seq<nat>)
    ensures var asked := if q.limit == None || q.limit.value <= 0 then 50 else q.limit.value;
            var size := if asked > 200 then 200 else asked;
            && TopOf(ids, rows, size, q.maxId, q.sinceId)
            && Respond(rows, q) ==
                 if q.maxId == None && q.sinceId == None
                 then Collection(|rows|, Query(Some(asked), Some(0x7fff_ffff_ffff_ffff), None))
                 else Page(|rows|, Iris(rows, ids),
                           if |ids| == size then Some(q.(maxId := Some(ids[size - 1]))) else None)
  {
    hide PageOf;
    ids := StorePageIsTheTop(rows, Limit(q), q.maxId, q.sinceId);
    var bare := StorePageIsTheTop(rows, 1, None, None);
  }

  // ----- Whom the collections list -----

  lemma WalkNames(tables: nat -> Rows, limit: int, iri: string)
    requires OnlyNewer(tables)
    ensures var pages := Walk(tables, 0, FirstLink(limit));
            && (forall p | p in pages :: p.Page?)
            && (iri in AllItems(pages) <==> exists id: nat :: id in tables(0) && id < MAX_INT64 && tables(0)[id] == iri)
  {
    hide Descending, Walk;
    FirstLinkListsEverything(tables, limit);
    var ids := Descending(Window(tables(0), Some(MAX_INT64), None));
    if id: nat :| id in tables(0) && id < MAX_INT64 && tables(0)[id] == iri {
      assert id in ids;
      var i :| 0 <= i < |ids| && ids[i] == id;
      assert Iris(tables(0), ids)[i] == iri;
    }
    if i :| 0 <= i < |ids| && Iris(tables(0), ids)[i] == iri {
      assert ids[i] in Window(tables(0), Some(MAX_INT64), None);
    }
  }

  /** The rows of a collection as the table changes from request to request. */
  function FollowersOver(follows: nat -> map<nat, FollowRow>, actor: string): nat -> Rows {
    k => FollowersOf(follows(k), actor)
  }

  function FollowedOver(follows: nat -> map<nat, FollowRow>, actor: string): nat -> Rows {
    k => FollowedBy(follows(k), actor)
  }

  function OutboxOver(activities: nat -> map<nat, ActivityRow>, actor: string): nat -> Rows {
    k => OutboxOf(activities(k), actor)
  }

  /** Walking an actor's followers names exactly those whose follow of the actor was accepted. */
  lemma FollowersAreListed(follows: nat -> map<nat, FollowRow>, actor: string, limit: int, iri: string)
    requires OnlyNewer(FollowersOver(follows, actor))
    ensures var pages := Walk(FollowersOver(follows, actor), 0, FirstLink(limit));
            && (forall p | p in pages :: p.Page?)
            && (iri in AllItems(pages) <==>
                  exists id: nat :: id in follows(0) && id < MAX_INT64 && follows(0)[id] == FollowRow(iri, actor, true))
  {
    hide Walk;
    WalkNames(FollowersOver(follows, actor), limit, iri);
    var rows, table := FollowersOf(follows(0), actor), follows(0);
    assert FollowersOver(follows, actor)(0) == rows;
    forall id: nat ensures id in rows && rows[id] == iri <==> id in table && table[id] == FollowRow(iri, actor, true) {
    }
  }

  /** Walking whom an actor follows names exactly those who accepted its follow. */
  lemma FollowedAreListed(follows: nat -> map<nat, FollowRow>, actor: string, limit: int, iri: string)
    requires OnlyNewer(FollowedOver(follows, actor))
    ensures var pages := Walk(FollowedOver(follows, actor), 0, FirstLink(limit));
            && (forall p | p in pages :: p.Page?)
            && (iri in AllItems(pages) <==>
                  exists id: nat :: id in follows(0) && id < MAX_INT64 && follows(0)[id] == FollowRow(actor, iri, true))
  {
    hide Walk;
    WalkNames(FollowedOver(follows, actor), limit, iri);
    var rows, table := FollowedBy(follows(0), actor), follows(0);
    assert FollowedOver(follows, actor)(0) == rows;
    forall id: nat ensures id in rows && rows[id] == iri <==> id in table && table[id] == FollowRow(actor, iri, true) {
    }
  }

  /** Walking an outbox names exactly the actor's activities. */
  lemma ActivitiesAreListed(activities: nat -> map<nat, ActivityRow>, actor: string, limit: int, iri: string)
    requires OnlyNewer(OutboxOver(activities, actor))
    ensures var pages := Walk(OutboxOver(activities, actor), 0, FirstLink(limit));
            && (forall p | p in pages :: p.Page?)
            && (iri in AllItems(pages) <==>
                  exists id: nat ::
                    id in activities(0) && id < MAX_INT64 && activities(0)[id] == ActivityRow(actor, iri))
  {
    hide Walk;
    WalkNames(OutboxOver(activities, actor), limit, iri);
    var rows, table := OutboxOf(activities(0), actor), activities(0);
    assert OutboxOver(activities, actor)(0) == rows;
    forall id: nat ensures id in rows && rows[id] == iri <==> id in table && table[id] == ActivityRow(actor, iri) {
    }
  }
}
