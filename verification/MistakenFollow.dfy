/**
  A run of two instances after which a follow is shown as accepted although the followee's
  instance handled another actor's follow under the same id.
 */
module MistakenFollow {
  import opened Wrappers
  import opened Text
  import opened Vocabulary
  import opened Tables
  import opened Inbox
  import opened Transactions
  import opened Federation
  import opened TwoInstances
  import opened Witnesses
  import SqlQueue

  /**
    `h` at home follows `p` at away under the id `f`; a third party `m` sends away its own follow
    of `p` under that id first. Home delivers to `farInbox`, and `m`'s actor document names `inbox`.
   */
  datatype Cast = Cast(h: string, p: string, m: string, f: string, farInbox: string, inbox: string)

  function FollowBy(c: Cast, who: string): Activity {
    Activity(c.f, who, Follow, Iri(c.p), true)
  }

  function Answer(c: Cast, away: Instance): Activity {
    AcceptDoc(away, c.p, c.f)
  }

  /** What the instances know of the actors; the strings are trimmed and differ where it matters. */
  ghost predicate Staged(c: Cast, home: Instance, away: Instance, world: World) {
    && home.isLocal(c.h) && !home.isLocal(c.p) && !home.isLocal(c.m) && !away.isLocal(c.h)
    && away.isLocal(c.p) && away.localFollowee(c.p) == Some(c.p) && away.autoAccept && away.usableActor(c.m)
    && home.localFollowee(c.p).None? && !home.onOwnHost(c.p) && home.usableActor(c.p) && !home.isLocalFollowObject(c.p)
    && world.inbox(c.m) == Some(c.inbox)
    && IsTrimmed(c.f) && IsTrimmed(Answer(c, away).id) && Answer(c, away).id != c.f
    && Answer(c, away).id != DeliverKey(c.f, c.farInbox)
    && Plainly(FollowBy(c, c.h)) && Plainly(FollowBy(c, c.m)) && Plainly(FollowBy(c, c.p)) && c.h != c.p
  }

  const CAST := Cast("https://a/h", "https://b/p", "https://c/m", "https://a/1", "https://b/i", "https://a/i")

  function Hosting(user: string): Instance {
    Instance(s => s == user, iri => if iri == user then Some(user) else None, iri => iri == user, iri => iri == user,
             actor => true, id => "1", true)
  }

  lemma HostsAreStaged(c: Cast)
    requires c.h != c.p && c.m != c.h && c.m != c.p
    requires IsTrimmed(c.f) && IsTrimmed(Answer(c, Hosting(c.p)).id) && Answer(c, Hosting(c.p)).id != c.f
    requires Answer(c, Hosting(c.p)).id != DeliverKey(c.f, c.farInbox)
    requires Plainly(FollowBy(c, c.h)) && Plainly(FollowBy(c, c.m)) && Plainly(FollowBy(c, c.p))
    ensures Staged(c, Hosting(c.h), Hosting(c.p), World(0, actor => Some(c.inbox), iri => None))
    ensures CanonicalFollowees(Hosting(c.p)) && Apart(Hosting(c.h), Hosting(c.p))
  {
    hide TrimSpace, TrimRight, DeliverKey, AcceptDoc, Canonical;
    PlainlyWritten(FollowBy(c, c.p));
  }

  lemma PlainEnds(s: string)
    requires s != "" && !IsSpace(s[0]) && !IsSpace(s[|s| - 1]) && s[|s| - 1] != '/'
    ensures IsTrimmed(s) && Canonical(s) == s && TrimRight(s, '/') == s
  {
  }

  lemma ExampleIsStaged()
    ensures var c := CAST; var home, away := Hosting(c.h), Hosting(c.p);
            && Staged(c, home, away, World(0, actor => Some(c.inbox), iri => None))
            && CanonicalFollowees(away) && Apart(home, away)
  {
    hide TrimSpace, TrimRight, Canonical, Staged, Apart, CanonicalFollowees;
    var c := CAST;
    var id := Answer(c, Hosting(c.p)).id;
    PlainEnds(c.h);
    PlainEnds(c.p);
    PlainEnds(c.m);
    PlainEnds(c.f);
    assert id == c.p + "/accepts/follows/" + "1";
    PlainEnds(id);
    assert id[8] == 'b' && c.f[8] == 'a' && c.h[8] == 'a' && c.p[8] == 'b' && c.m[8] == 'c';
    assert DeliverKey(c.f, c.farInbox)[8] == 'a';
    HostsAreStaged(c);
  }

  // ----- The home instance -----

  ghost predicate OnlyKey(t: SqlQueue.Table, k: string) {
    forall key :: SqlQueue.KeyTaken(t, key) ==> key == k
  }

  /** The home database once h's Follow is posted: a pending remote edge and one deliver job. */
  lemma HomePosts(c: Cast, home: Instance, away: Instance, world: World) returns (s: Server)
    requires Staged(c, home, away, world)
    ensures s == Federation.Next(home, INITIAL, PostOutbox(c.h, FollowBy(c, c.h), [c.farInbox], 0))
    ensures s.tasks == map[] && s.db.activities.Keys == {c.f}
    ensures s.db.follows == map[(c.h, c.p) := Edge(PendingRemote, c.f)]
    ensures SqlQueue.WellFormed(s.db.jobs) && OnlyKey(s.db.jobs, DeliverKey(c.f, c.farInbox))
  {
    hide TrimSpace, TrimRight, Canonical, DeliverKey;
    PlainlyWritten(FollowBy(c, c.h));
    PlainlyWritten(FollowBy(c, c.p));
    var doc := FollowBy(c, c.h);
    s := Federation.Next(home, INITIAL, PostOutbox(c.h, doc, [c.farInbox], 0));
    var stored := InsertActivity(INITIAL.db, c.h, doc, Outbox([c.farInbox])).value;
    var follows: map<(string, string), Edge> := map[(c.h, c.p) := Edge(PendingRemote, c.f)];
    assert FollowTarget(home, doc) == Some(c.p);
    assert OutboxEffects(home, stored, c.h, doc) == Ok((stored.(follows := follows), false)) by {
      assert stored.follows[(c.h, c.p) := Edge(PendingRemote, c.f)] == follows;
    }
    var row := ActivityRowFor(INITIAL.db, c.h, doc, Outbox([c.farInbox]));
    var job := DeliverJob(row, c.farInbox);
    InsertsFresh(SqlQueue.EMPTY, job, 0);
    assert [c.farInbox][1..] == [];
    assert EnqueueDeliveries(SqlQueue.EMPTY, row, [c.farInbox], 0) == SqlQueue.Insert(SqlQueue.EMPTY, job, 0);
  }

  /** The home handler finds its own edge by the id and the followee as the author. */
  lemma AnswerIsTaken(c: Cast, home: Instance, away: Instance, db: Db, row: ActivityRow, world: World)
    requires row.doc == Answer(c, away) && row.actor == c.p && c.f != ""
    requires db.follows == map[(c.h, c.p) := Edge(PendingRemote, c.f)]
    ensures StartTask(home, db, row, world) == (db, Continue(SetState(row, c.f, c.h, Accepted)))
  {
    hide TrimRight;
    assert FollowWithId(db.follows, c.f, (c.h, c.p));
  }

  lemma AnswerMarksEdge(c: Cast, home: Instance, db: Db, row: ActivityRow, world: World)
    requires db.follows == map[(c.h, c.p) := Edge(PendingRemote, c.f)]
    ensures Federation.Next(home, Server(db, map[0 := SetState(row, c.f, c.h, Accepted)]), Advance(0, world)).db.follows
            == map[(c.h, c.p) := Edge(Accepted, c.f)]
  {
    hide StartTask;
    assert FollowMatches(db.follows, (c.h, c.p), c.f, c.h);
  }

  lemma HomeAccepts(c: Cast, home: Instance, away: Instance, world: World, s: Server) returns (n: Server)
    requires Staged(c, home, away, world)
    requires s.tasks == map[] && s.db.activities.Keys == {c.f}
    requires s.db.follows == map[(c.h, c.p) := Edge(PendingRemote, c.f)]
    requires SqlQueue.WellFormed(s.db.jobs) && OnlyKey(s.db.jobs, DeliverKey(c.f, c.farInbox))
    ensures var id := Answer(c, away).id; var delivered := Federation.Next(home, s, Deliver(Answer(c, away), 0));
            var asked := Federation.Next(home, Federation.Next(home, delivered, Begin(0, id)), Advance(0, world));
            n == Federation.Next(home, asked, Advance(0, world))
    ensures n.db.follows == map[(c.h, c.p) := Edge(Accepted, c.f)]
  {
    hide TrimSpace, TrimRight, Canonical, DeliverKey, StartTask, SqlQueue.KeyTaken, SqlQueue.WellFormed, AcceptDoc,
      Federation.Next, Plainly;
    var doc := Answer(c, away);
    AnswerIsPlain(c, home, away, world);
    var delivered := Federation.Next(home, s, Deliver(doc, 0));
    Receives(home, s, doc);
    var row := Received(s.db, doc);
    Starts(home, delivered, 0, doc.id, world);
    AnswerIsTaken(c, home, away, delivered.db, row, world);
    var asked := Server(delivered.db, map[0 := SetState(row, c.f, c.h, Accepted)]);
    n := Federation.Next(home, asked, Advance(0, world));
    AnswerMarksEdge(c, home, delivered.db, row, world);
  }

  lemma AnswerIsPlain(c: Cast, home: Instance, away: Instance, world: World)
    requires Staged(c, home, away, world)
    ensures Plainly(Answer(c, away)) && Answer(c, away).actor == c.p && Answer(c, away).kind == Accept
  {
    hide TrimSpace, TrimRight, Canonical;
  }

  // ----- The away instance -----

  lemma FollowIsAsked(c: Cast, home: Instance, away: Instance, db: Db, row: ActivityRow, world: World)
    requires Staged(c, home, away, world) && row.doc == FollowBy(c, c.m) && row.actor == c.m && db.follows == map[]
    ensures StartTask(away, db, row, world)
            == (db.(follows := map[(c.m, c.p) := Edge(Pending, c.f)]), Continue(FollowEnqueue(row, c.p)))
  {
    hide TrimSpace, TrimRight, Canonical, DeliverKey, AcceptDoc;
    assert map[][(c.m, c.p) := Edge(Pending, c.f)] == map[(c.m, c.p) := Edge(Pending, c.f)];
  }

  /** The away instance handles m's follow as far as queueing the Accept, addressed to `inbox`. */
  lemma AwayHandles(c: Cast, home: Instance, away: Instance, world: World) returns (n: Server, job: nat)
    requires Staged(c, home, away, world)
    ensures var delivered := Federation.Next(away, INITIAL, Deliver(FollowBy(c, c.m), 0));
            var asked := Federation.Next(away, Federation.Next(away, delivered, Begin(0, c.f)), Advance(0, world));
            n == Federation.Next(away, asked, Advance(0, world))
    ensures c.f in n.db.activities && n.db.activities[c.f].actor == c.m
    ensures n.db.follows == map[(c.m, c.p) := Edge(Pending, c.f)]
    ensures job in n.db.jobs.rows && n.db.jobs.rows[job].payload == DeliverPayload(c.inbox, Answer(c, away), c.p)
  {
    hide TrimSpace, TrimRight, Canonical, DeliverKey, StartTask, SqlQueue.KeyTaken, SqlQueue.WellFormed, AcceptKey,
      AcceptDoc;
    var doc := FollowBy(c, c.m);
    NothingKnown();
    var delivered := Federation.Next(away, INITIAL, Deliver(doc, 0));
    Receives(away, INITIAL, doc);
    var row := Received(INITIAL.db, doc);
    Starts(away, delivered, 0, c.f, world);
    FollowIsAsked(c, home, away, delivered.db, row, world);
    var db := delivered.db.(follows := map[(c.m, c.p) := Edge(Pending, c.f)]);
    var asked := Server(db, map[0 := FollowEnqueue(row, c.p)]);
    AcceptKeyIsLong(c.f, c.inbox);
    job := db.jobs.nextId;
    n := Federation.Next(away, asked, Advance(0, world));
    InsertsAtNextId(db.jobs, AcceptJob(away, c.p, c.f, c.inbox), world.now);
  }

  lemma InsertsAtNextId(t: SqlQueue.Table, job: SqlQueue.NewJob, now: int)
    requires !SqlQueue.KeyTaken(t, job.key)
    ensures SqlQueue.Insert(t, job, now).Ok?
    ensures var u := SqlQueue.Insert(t, job, now).value; t.nextId in u.rows && u.rows[t.nextId].payload == job.payload
  {
  }

  // ----- The run of both -----

  lemma Exec2First(home: Instance, away: Instance, p: Pair, e: Event, rest: seq<Event>)
    ensures Exec2(home, away, p, [e] + rest) == Exec2(home, away, Next2(home, away, p, e), rest)
  {
    hide Next2;
    assert ([e] + rest)[0] == e && ([e] + rest)[1..] == rest;
  }

  lemma FarActorsAreAdmitted(c: Cast, home: Instance, away: Instance, world: World)
    requires Staged(c, home, away, world)
    ensures Admissible(home, {}, Deliver(FollowBy(c, c.m), 0))
  {
    hide TrimSpace, TrimRight, Canonical, DeliverKey, AcceptDoc;
    PlainlyWritten(FollowBy(c, c.m));
  }

  /** The away instance runs four actions and sends the Accept. */
  lemma AwayRuns(c: Cast, home: Instance, away: Instance, world: World, s: Server, n: Server, job: nat,
                 rest: seq<Event>)
    returns (run: seq<Event>)
    requires Staged(c, home, away, world)
    requires var delivered := Federation.Next(away, INITIAL, Deliver(FollowBy(c, c.m), 0));
             var asked := Federation.Next(away, Federation.Next(away, delivered, Begin(0, c.f)), Advance(0, world));
             n == Federation.Next(away, asked, Advance(0, world))
    requires job in n.db.jobs.rows && n.db.jobs.rows[job].payload == DeliverPayload(c.inbox, Answer(c, away), c.p)
    ensures forall e | e in run :: e in rest || (NoHandWrittenAccept(e) && (e.AtAway? || e == AwaySends(job)))
    ensures Exec2(home, away, Pair(s, INITIAL, {}, {}), run)
            == Exec2(home, away, Pair(s, n, {}, {Answer(c, away)}), rest)
  {
    hide Staged, Federation.Next, Exec2, Answer, FollowBy, TrimRight;
    FarActorsAreAdmitted(c, home, away, world);
    var a1 := Federation.Next(away, INITIAL, Deliver(FollowBy(c, c.m), 0));
    var a2 := Federation.Next(away, a1, Begin(0, c.f));
    var a3 := Federation.Next(away, a2, Advance(0, world));
    var r5 := [AwaySends(job)] + rest;
    var r4 := [AtAway(Advance(0, world))] + r5;
    var r3 := [AtAway(Advance(0, world))] + r4;
    var r2 := [AtAway(Begin(0, c.f))] + r3;
    run := [AtAway(Deliver(FollowBy(c, c.m), 0))] + r2;
    Exec2First(home, away, Pair(s, INITIAL, {}, {}), AtAway(Deliver(FollowBy(c, c.m), 0)), r2);
    Exec2First(home, away, Pair(s, a1, {}, {}), AtAway(Begin(0, c.f)), r3);
    Exec2First(home, away, Pair(s, a2, {}, {}), AtAway(Advance(0, world)), r4);
    Exec2First(home, away, Pair(s, a3, {}, {}), AtAway(Advance(0, world)), r5);
    Exec2First(home, away, Pair(s, n, {}, {}), AwaySends(job), rest);
    assert {} + {Answer(c, away)} == {Answer(c, away)};
  }

  /** The home instance receives the Accept and runs its handler. */
  lemma HomeRuns(c: Cast, home: Instance, away: Instance, world: World, s: Server, far: Server)
    returns (n: Server, run: seq<Event>)
    requires Staged(c, home, away, world)
    requires s.tasks == map[] && s.db.activities.Keys == {c.f}
    requires s.db.follows == map[(c.h, c.p) := Edge(PendingRemote, c.f)]
    requires SqlQueue.WellFormed(s.db.jobs) && OnlyKey(s.db.jobs, DeliverKey(c.f, c.farInbox))
    ensures forall e | e in run :: e.AtHome?
    ensures var sent := {Answer(c, away)};
            Exec2(home, away, Pair(s, far, {}, sent), run) == Pair(n, far, {}, sent)
    ensures n.db.follows == map[(c.h, c.p) := Edge(Accepted, c.f)]
  {
    hide Staged, Federation.Next, Exec2, Answer, TrimRight, SqlQueue.WellFormed, OnlyKey, DeliverKey;
    n := HomeAccepts(c, home, away, world, s);
    var doc := Answer(c, away);
    var a1 := Federation.Next(home, s, Deliver(doc, 0));
    var a2 := Federation.Next(home, a1, Begin(0, doc.id));
    var a3 := Federation.Next(home, a2, Advance(0, world));
    var r4 := [AtHome(Advance(0, world))] + [];
    var r3 := [AtHome(Advance(0, world))] + r4;
    var r2 := [AtHome(Begin(0, doc.id))] + r3;
    run := [AtHome(Deliver(doc, 0))] + r2;
    Exec2First(home, away, Pair(s, far, {}, {doc}), AtHome(Deliver(doc, 0)), r2);
    Exec2First(home, away, Pair(a1, far, {}, {doc}), AtHome(Begin(0, doc.id)), r3);
    Exec2First(home, away, Pair(a2, far, {}, {doc}), AtHome(Advance(0, world)), r4);
    Exec2First(home, away, Pair(a3, far, {}, {doc}), AtHome(Advance(0, world)), []);
    Exec2Nothing(home, away, Pair(n, far, {}, {doc}));
  }

  lemma Exec2Nothing(home: Instance, away: Instance, p: Pair)
    ensures Exec2(home, away, p, []) == p
  {
  }

  lemma OtherActor(c: Cast, home: Instance, away: Instance, world: World)
    requires Staged(c, home, away, world)
    ensures c.m != c.h
  {
  }

  /**
    Without any hand-posted Accept, home ends with h's follow of p accepted, while away holds
    only m's follow of p under that id, and knows nothing of h's.
   */
  lemma AnotherFollowIsAccepted(c: Cast, home: Instance, away: Instance, world: World) returns (run: seq<Event>)
    requires Staged(c, home, away, world)
    ensures forall e | e in run :: NoHandWrittenAccept(e)
    ensures var s := Exec2(home, away, START, run);
            && s.home.db.follows == map[(c.h, c.p) := Edge(Accepted, c.f)]
            && s.away.db.follows == map[(c.m, c.p) := Edge(Pending, c.f)]
            && c.f in s.away.db.activities && s.away.db.activities[c.f].actor == c.m != c.h
  {
    hide Staged, Federation.Next, Exec2, Answer, SqlQueue.WellFormed, OnlyKey, DeliverKey;
    var s := HomePosts(c, home, away, world);
    var post := AtHome(PostOutbox(c.h, FollowBy(c, c.h), [c.farInbox], 0));
    var far, job := AwayHandles(c, home, away, world);
    var n, last := HomeRuns(c, home, away, world, s, far);
    var middle := AwayRuns(c, home, away, world, s, far, job, last);
    run := [post] + middle;
    Exec2First(home, away, START, post, middle);
    OtherActor(c, home, away, world);
  }
}
