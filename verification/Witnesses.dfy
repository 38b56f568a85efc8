/**
  Inputs that reach the failing side of the properties which hold only under a condition:
  runs from the empty database, with documents of any two actors, as remote servers may send them.
 */
module Witnesses {
  import opened Wrappers
  import opened Text
  import opened Vocabulary
  import opened Tables
  import opened Inbox
  import opened Transactions
  import opened Federation
  import opened Guarantees
  import SqlQueue

  /** Two actors, three activity ids and the URL of an object, as they stand in the documents. */
  datatype Urls = Urls(a: string, b: string, x: string, y: string, z: string, o: string)

  predicate IsTrimmed(s: string) {
    s != "" && TrimSpace(s) == s
  }

  /** Trimmed, different where it matters, and the actors without a trailing slash. */
  predicate Distinct(u: Urls) {
    && IsTrimmed(u.x) && IsTrimmed(u.y) && IsTrimmed(u.z) && u.x != u.y && u.x != u.z && u.y != u.z
    && u.a != "" && Canonical(u.a) == u.a && u.b != "" && Canonical(u.b) == u.b && u.a != u.b
    && u.o != ""
  }

  const EXAMPLE := Urls("https://a.example/alice", "https://b.example/bob", "https://a.example/activities/1",
                        "https://a.example/activities/2", "https://b.example/activities/3",
                        "https://a.example/notes/4")

  const NOTE := Other("Note")

  function Own(u: Urls): Activity {
    Activity(u.x, u.a, Create, Node(u.o, NOTE, None, "mine"), true)
  }

  function Edit(u: Urls): Activity {
    Activity(u.y, u.a, Update, Node(u.o, NOTE, None, "edited"), true)
  }

  function Removal(u: Urls): Activity {
    Activity(u.y, u.a, Delete, Iri(u.o), true)
  }

  function Takeover(u: Urls): Activity {
    Activity(u.z, u.b, Create, Node(u.o, NOTE, None, "theirs"), true)
  }

  function LikeOf(u: Urls): Activity {
    Activity(u.x, u.b, Like, Iri(u.o), true)
  }

  function MislabelledUndo(u: Urls): Activity {
    Activity(u.y, u.b, Undo, Node(u.x, Follow, None, ""), true)
  }

  function FollowOf(u: Urls): Activity {
    Activity(u.x, u.b, Follow, Iri(u.a), true)
  }

  // ----- Single actions -----

  /** What a fresh id becomes once it is received. */
  function Received(db: Db, doc: Activity): ActivityRow {
    ActivityRow(db.nextDbId, doc.actor, doc, Inbound)
  }

  predicate Plainly(doc: Activity) {
    IsTrimmed(doc.id) && doc.actor != "" && Canonical(doc.actor) == doc.actor
  }

  lemma PlainlyWritten(doc: Activity)
    requires Plainly(doc)
    ensures TrimSpace(doc.id) != "" && TrimRight(doc.actor, '/') == doc.actor
  {
  }

  lemma ExampleIsDistinct()
    ensures Distinct(EXAMPLE)
  {
    hide TrimSpace;
    var u := EXAMPLE;
    assert forall s | s in {u.a, u.b, u.x, u.y, u.z} :: !IsSpace(s[0]) && !IsSpace(s[|s| - 1]) && s[|s| - 1] != '/';
    assert |u.a| != |u.b| && u.x[|u.x| - 1] == '1' && u.y[|u.y| - 1] == '2' && u.z[|u.z| - 1] == '3';
  }

  lemma InsertsFresh(t: SqlQueue.Table, job: SqlQueue.NewJob, now: int)
    requires !SqlQueue.KeyTaken(t, job.key)
    ensures SqlQueue.Insert(t, job, now).Ok?
    ensures SqlQueue.WellFormed(t) ==> Grown(t, SqlQueue.Insert(t, job, now).value, job.key)
  {
    if SqlQueue.WellFormed(t) {
      SqlQueue.InsertKeepsWellFormed(t, job, now);
    }
  }

  /** The queue has got at most one more key. */
  ghost predicate Grown(t: SqlQueue.Table, u: SqlQueue.Table, added: string) {
    SqlQueue.WellFormed(u) && forall key :: SqlQueue.KeyTaken(u, key) ==> SqlQueue.KeyTaken(t, key) || key == added
  }

  lemma Receives(cfg: Instance, s: Server, doc: Activity)
    requires Plainly(doc) && cfg.usableActor(doc.actor)
    requires doc.id !in s.db.activities && !SqlQueue.KeyTaken(s.db.jobs, doc.id)
    ensures var n := Next(cfg, s, Deliver(doc, 0));
            && n.tasks == s.tasks
            && n.db == s.db.(activities := s.db.activities[doc.id := Received(s.db, doc)],
                             nextDbId := s.db.nextDbId + 1, jobs := n.db.jobs)
            && (SqlQueue.WellFormed(s.db.jobs) ==> Grown(s.db.jobs, n.db.jobs, doc.id))
  {
    hide TrimSpace, TrimRight, Canonical, SqlQueue.Insert, SqlQueue.KeyTaken, SqlQueue.WellFormed, Grown;
    PlainlyWritten(doc);
    InsertsFresh(s.db.jobs, ProcessJob(Received(s.db, doc)), 0);
  }

  /** A worker loads a stored activity and runs the first statement of its handler. */
  lemma Starts(cfg: Instance, s: Server, w: nat, id: string, world: World)
    requires id in s.db.activities && w !in s.tasks
    ensures var (db, progress) := StartTask(cfg, s.db, s.db.activities[id], world);
            Next(cfg, Next(cfg, s, Begin(w, id)), Advance(w, world))
            == Server(db, if progress.Continue? then s.tasks[w := progress.task] else s.tasks)
  {
    hide StartTask;
    var begun := Next(cfg, s, Begin(w, id));
    assert begun.tasks[w] == Start(s.db.activities[id]);
    assert begun.tasks - {w} == s.tasks;
  }

  // ----- An owner check is overtaken -----

  lemma CreateStores(u: Urls, cfg: Instance, db: Db, row: ActivityRow, world: World)
    requires Distinct(u)
    requires (row.doc == Own(u) || row.doc == Takeover(u)) && row.actor == row.doc.actor
    ensures StartTask(cfg, db, row, world)
            == (db.(objects := db.objects[u.o := ObjectRow(row.actor, NOTE, row.doc.obj.content, false)]),
                Progress.Finished(true))
  {
    hide Canonical, TrimSpace, TrimRight;
  }

  lemma OwnerCheckPasses(u: Urls, cfg: Instance, db: Db, row: ActivityRow, world: World)
    requires Distinct(u)
    requires (row.doc == Edit(u) || row.doc == Removal(u)) && row.actor == u.a && Owner(db.objects, u.o) == Some(u.a)
    ensures StartTask(cfg, db, row, world)
            == (db, Continue(if row.doc == Edit(u) then ObjectWrite(row) else ObjectDelete(row, u.o)))
  {
    hide Canonical, TrimSpace, TrimRight;
  }

  lemma ExecFirst(cfg: Instance, s: Server, run: seq<Action>)
    requires run != []
    ensures Exec(cfg, s, run) == Exec(cfg, Next(cfg, s, run[0]), run[1..])
  {
  }

  lemma ExecThree(cfg: Instance, s: Server, a: Action, b: Action, c: Action, rest: seq<Action>)
    ensures Exec(cfg, s, [a, b, c] + rest) == Exec(cfg, Next(cfg, Next(cfg, Next(cfg, s, a), b), c), rest)
  {
    hide Next, Exec;
    var run := [a, b, c] + rest;
    ExecFirst(cfg, s, run);
    ExecFirst(cfg, Next(cfg, s, a), run[1..]);
    ExecFirst(cfg, Next(cfg, Next(cfg, s, a), b), run[1..][1..]);
    assert run[1..][0] == b && run[1..][1..][0] == c && run[1..][1..][1..] == rest;
  }

  /** Only these ids have been received, and only they are taken in the queue. */
  ghost predicate Known(s: Server, ids: set<string>) {
    && s.db.activities.Keys == ids && SqlQueue.WellFormed(s.db.jobs)
    && forall key :: SqlQueue.KeyTaken(s.db.jobs, key) ==> key in ids
  }

  function Handled(doc: Activity, w: nat, world: World): seq<Action> {
    [Deliver(doc, 0), Begin(w, doc.id), Advance(w, world)]
  }

  lemma NothingKnown()
    ensures Known(INITIAL, {})
  {
  }

  /** Three actions take a new document up to its handler's first statement; `db` is the database in between. */
  lemma HandlesNew(cfg: Instance, s: Server, doc: Activity, w: nat, world: World, ids: set<string>, rest: seq<Action>)
    requires Known(s, ids) && doc.id !in ids && Plainly(doc) && cfg.usableActor(doc.actor) && w !in s.tasks
    ensures var db := Next(cfg, s, Deliver(doc, 0)).db;
            var (next, progress) := StartTask(cfg, db, Received(s.db, doc), world);
            var n := Server(next, if progress.Continue? then s.tasks[w := progress.task] else s.tasks);
            && db == s.db.(activities := s.db.activities[doc.id := Received(s.db, doc)],
                           nextDbId := s.db.nextDbId + 1, jobs := db.jobs)
            && Exec(cfg, s, Handled(doc, w, world) + rest) == Exec(cfg, n, rest)
            && (next.activities == db.activities && next.jobs == db.jobs ==> Known(n, ids + {doc.id}))
  {
    hide StartTask, SqlQueue.WellFormed, SqlQueue.KeyTaken, Next, Exec, TrimSpace, TrimRight, Canonical;
    ExecThree(cfg, s, Deliver(doc, 0), Begin(w, doc.id), Advance(w, world), rest);
    Receives(cfg, s, doc);
    Starts(cfg, Next(cfg, s, Deliver(doc, 0)), w, doc.id, world);
  }

  function Write(u: Urls, late: Activity, row: ActivityRow): Task {
    if late == Edit(u) then ObjectWrite(row) else ObjectDelete(row, u.o)
  }

  /** a's object is stored, a's Update or Delete has checked the owner, and b's Create has run. */
  ghost predicate TakenOver(u: Urls, s: Server, late: Activity) {
    && u.o in s.db.objects && s.db.objects[u.o] == ObjectRow(u.b, NOTE, "theirs", false)
    && 0 in s.tasks && s.tasks[0].row.doc == late && s.tasks[0].row.actor == u.a
        && s.tasks[0] == Write(u, late, s.tasks[0].row)
  }

  function TakeoverRun(u: Urls, late: Activity, world: World): seq<Action> {
    Handled(Own(u), 0, world)
    + (Handled(late, 0, world) + (Handled(Takeover(u), 1, world) + []))
  }

  lemma TakeoverHappens(u: Urls, cfg: Instance, late: Activity, world: World)
    requires Distinct(u) && cfg.usableActor(u.a) && cfg.usableActor(u.b) && (late == Edit(u) || late == Removal(u))
    ensures TakenOver(u, Exec(cfg, INITIAL, TakeoverRun(u, late, world)), late)
  {
    hide StartTask, Exec, Known, Next, TrimSpace, TrimRight, Canonical;
    NothingKnown();
    var rest2 := Handled(Takeover(u), 1, world) + [];
    var rest1 := Handled(late, 0, world) + rest2;
    HandlesNew(cfg, INITIAL, Own(u), 0, world, {}, rest1);
    var db1 := Next(cfg, INITIAL, Deliver(Own(u), 0)).db;
    CreateStores(u, cfg, db1, Received(INITIAL.db, Own(u)), world);
    var s1 := Server(StartTask(cfg, db1, Received(INITIAL.db, Own(u)), world).0, map[]);
    HandlesNew(cfg, s1, late, 0, world, {} + {u.x}, rest2);
    var db2 := Next(cfg, s1, Deliver(late, 0)).db;
    OwnerCheckPasses(u, cfg, db2, Received(s1.db, late), world);
    var s2 := Server(db2, map[0 := Write(u, late, Received(s1.db, late))]);
    HandlesNew(cfg, s2, Takeover(u), 1, world, {} + {u.x} + {u.y}, []);
    var db3 := Next(cfg, s2, Deliver(Takeover(u), 0)).db;
    CreateStores(u, cfg, db3, Received(s2.db, Takeover(u)), world);
    ExecNothing(cfg, Server(StartTask(cfg, db3, Received(s2.db, Takeover(u)), world).0, s2.tasks));
  }

  lemma ExecNothing(cfg: Instance, s: Server)
    ensures Exec(cfg, s, []) == s
  {
  }

  /**
    A run reaches a state in which a live object of b's stands at the url that a's pending
    write is about to change; the write then changes it.
   */
  lemma OwnerCheckIsOvertaken(u: Urls, cfg: Instance, late: Activity, world: World)
    requires Distinct(u) && cfg.usableActor(u.a) && cfg.usableActor(u.b) && (late == Edit(u) || late == Removal(u))
    ensures var s := Exec(cfg, INITIAL, TakeoverRun(u, late, world)); var n := Next(cfg, s, Advance(0, world));
            && OwnedByOther(s.db, u.o, u.a)
            && u.o in n.db.objects
            && n.db.objects[u.o] == if late == Edit(u) then ObjectRow(u.a, NOTE, "edited", false)
                                    else ObjectRow(u.b, NOTE, "theirs", true)
  {
    hide StartTask, Exec, TrimSpace, TrimRight, Canonical;
    TakeoverHappens(u, cfg, late, world);
  }

  // ----- A retried follow stays pending -----

  lemma FirstStatementAsks(cfg: Instance, db: Db, row: ActivityRow, world: World, followee: string)
    requires DbOk(cfg, db) && Stored(db.activities, row) && row.doc.kind == Follow && cfg.autoAccept
    requires row.doc.ObjectIri().Some? && cfg.localFollowee(row.doc.ObjectIri().value) == Some(followee)
    ensures StepTask(cfg, db, Start(row), world).1 == Continue(FollowEnqueue(row, followee))
    ensures StepTask(cfg, db, Start(row), world).0.jobs == db.jobs
    ensures StepTask(cfg, db, Start(row), world).0.activities == db.activities
  {
    hide JobsOk, EvidenceOk, RowsNameActivities, Canonical;
    forall p | p in db.follows && db.follows[p].id == row.doc.id ensures p == (row.actor, followee) {
      assert FollowNamesActivity(cfg, db.activities, p, db.follows[p]);
    }
  }

  lemma SecondStatementQueues(cfg: Instance, db: Db, row: ActivityRow, world: World, followee: string, inbox: string)
    requires cfg.isLocal(followee) && world.inbox(row.actor) == Some(inbox)
    requires !SqlQueue.KeyTaken(db.jobs, AcceptKey(row.doc.id, inbox))
    ensures var queued := StepTask(cfg, db, FollowEnqueue(row, followee), world).0;
            && SqlQueue.KeyTaken(queued.jobs, AcceptKey(row.doc.id, inbox)) && queued == db.(jobs := queued.jobs)
  {
    hide AcceptDoc;
    var queued := StepTask(cfg, db, FollowEnqueue(row, followee), world).0;
    assert queued.jobs.rows[db.jobs.nextId].key == AcceptKey(row.doc.id, inbox);
    assert AcceptKey(row.doc.id, inbox)[0] == 'a';
  }

  /** Once a worker is lost with the Accept queued, the handler fails for the same inbox and accepts nothing. */
  lemma RetriedFollowStaysPending(cfg: Instance, db: Db, row: ActivityRow, world: World, followee: string,
                                  inbox: string)
    requires DbOk(cfg, db) && Stored(db.activities, row) && row.doc.kind == Follow
    requires row.doc.ObjectIri().Some? && cfg.localFollowee(row.doc.ObjectIri().value) == Some(followee)
    requires cfg.isLocal(followee) && cfg.autoAccept && world.inbox(row.actor) == Some(inbox)
    requires !SqlQueue.KeyTaken(db.jobs, AcceptKey(row.doc.id, inbox))
    ensures var asked := StepTask(cfg, db, Start(row), world).0;
            var queued := StepTask(cfg, asked, FollowEnqueue(row, followee), world).0;
            var (next, ok) := RunTask(cfg, queued, Start(row), world);
            && StepTask(cfg, db, Start(row), world).1 == Continue(FollowEnqueue(row, followee))
            && DbOk(cfg, queued)
            && !ok && (row.actor, followee) in next.follows
            && next.follows[(row.actor, followee)] == Edge(Pending, row.doc.id)
  {
    hide DbOk, TaskOk, RunTask, StepTask, AcceptKey, SqlQueue.KeyTaken;
    FirstStatementAsks(cfg, db, row, world, followee);
    var asked := StepTask(cfg, db, Start(row), world).0;
    assert TaskOk(cfg, db, Start(row)) by {
      StartIsOk(cfg, db, row);
    }
    StepKeeps(cfg, db, Start(row), world);
    var queued := StepTask(cfg, asked, FollowEnqueue(row, followee), world).0;
    StepKeeps(cfg, asked, FollowEnqueue(row, followee), world);
    SecondStatementQueues(cfg, asked, row, world, followee, inbox);
    FollowIsAcceptedIffAcceptIsNew(cfg, queued, row, world, followee, inbox);
  }

  lemma StartIsOk(cfg: Instance, db: Db, row: ActivityRow)
    requires Stored(db.activities, row)
    ensures TaskOk(cfg, db, Start(row))
  {
  }

  lemma StartingIsTheFirstStatement(cfg: Instance, db: Db, row: ActivityRow, world: World)
    ensures StepTask(cfg, db, Start(row), world) == StartTask(cfg, db, row, world)
  {
  }

  lemma AcceptKeyIsLong(id: string, inbox: string)
    ensures |AcceptKey(id, inbox)| > |id|
  {
  }

  lemma AdvanceThenLose(cfg: Instance, db: Db, task: Task, world: World)
    ensures Exec(cfg, Server(db, map[0 := task]), [Advance(0, world), Abandon(0)])
            == Server(StepTask(cfg, db, task, world).0, map[])
  {
    hide StepTask, Exec;
    var s, run := Server(db, map[0 := task]), [Advance(0, world), Abandon(0)];
    var t := Next(cfg, s, Advance(0, world));
    ExecFirst(cfg, s, run);
    ExecFirst(cfg, t, run[1..]);
    assert run[1..][1..] == [] && t.tasks - {0} == map[];
    ExecNothing(cfg, Next(cfg, t, Abandon(0)));
  }

  /** A follow is received, and its worker lost after queueing the Accept. */
  function LostFollow(u: Urls, world: World): seq<Action> {
    Handled(FollowOf(u), 0, world) + [Advance(0, world), Abandon(0)]
  }

  /** From the empty database, that run leaves the follow pending, and running its handler again fails. */
  lemma LostFollowStaysPending(u: Urls, cfg: Instance, world: World)
    requires Distinct(u) && cfg.usableActor(u.b)
    requires cfg.isLocal(u.a) && cfg.localFollowee(u.a) == Some(u.a) && cfg.autoAccept
    requires world.inbox(u.b).Some?
    ensures var s := Exec(cfg, INITIAL, LostFollow(u, world));
            && s.tasks == map[] && u.x in s.db.activities && s.db.activities[u.x].doc == FollowOf(u)
            && var (next, ok) := RunTask(cfg, s.db, Start(s.db.activities[u.x]), world);
            && !ok && (u.b, u.a) in next.follows && next.follows[(u.b, u.a)] == Edge(Pending, u.x)
  {
    hide Exec, RunTask, StepTask, StartTask, DbOk, TasksOk, AcceptKey, SqlQueue.WellFormed, Next, TrimSpace, TrimRight,
      Canonical;
    NothingKnown();
    InitialInv(cfg);
    var row := Received(INITIAL.db, FollowOf(u));
    var rest := [Advance(0, world), Abandon(0)];
    HandlesNew(cfg, INITIAL, FollowOf(u), 0, world, {}, rest);
    var db := Next(cfg, INITIAL, Deliver(FollowOf(u), 0)).db;
    NextKeepsInv(cfg, INITIAL, Deliver(FollowOf(u), 0));
    StartingIsTheFirstStatement(cfg, db, row, world);
    FirstStatementAsks(cfg, db, row, world, u.a);
    var asked := StartTask(cfg, db, row, world).0;
    AcceptKeyIsLong(u.x, world.inbox(u.b).value);
    RetriedFollowStaysPending(cfg, db, row, world, u.a, world.inbox(u.b).value);
    AdvanceThenLose(cfg, asked, FollowEnqueue(row, u.a), world);
    EnqueueKeepsActivities(u, cfg, asked, row, world);
  }

  lemma EnqueueKeepsActivities(u: Urls, cfg: Instance, db: Db, row: ActivityRow, world: World)
    ensures StepTask(cfg, db, FollowEnqueue(row, u.a), world).0.activities == db.activities
  {
    hide AcceptJob, SqlQueue.Insert;
  }

  // ----- An Undo that names the wrong type -----

  lemma LikeStores(u: Urls, cfg: Instance, db: Db, row: ActivityRow, world: World)
    requires Distinct(u) && row.doc == LikeOf(u) && row.actor == u.b && db.likes == map[]
    ensures StartTask(cfg, db, row, world) == (db.(likes := map[(u.b, u.o) := u.x]), Progress.Finished(true))
  {
    hide TrimSpace, TrimRight, Canonical;
    assert map[][(u.b, u.o) := u.x] == map[(u.b, u.o) := u.x];
  }

  lemma MislabelledUndoDeletesNothing(u: Urls, cfg: Instance, db: Db, row: ActivityRow, world: World)
    requires Distinct(u) && row.doc == MislabelledUndo(u) && row.actor == u.b && db.follows == map[]
    ensures StartTask(cfg, db, row, world) == (db, Progress.Finished(true))
  {
    hide TrimSpace, TrimRight, Canonical;
    assert DeleteFollow(db.follows, u.x, u.b) == db.follows;
  }

  function LikeAndUndo(u: Urls, world: World): seq<Action> {
    Handled(LikeOf(u), 0, world) + (Handled(MislabelledUndo(u), 0, world) + [])
  }

  /** b's like survives b's Undo of it, because the Undo calls it a Follow; a bare IRI would have removed it. */
  lemma MislabelledUndoLeavesTheLike(u: Urls, cfg: Instance, world: World)
    requires Distinct(u) && cfg.usableActor(u.b)
    ensures var s := Exec(cfg, INITIAL, LikeAndUndo(u, world));
            && s.tasks == map[] && s.db.activities.Keys == {u.x, u.y} && s.db.activities[u.y].doc == MislabelledUndo(u)
            && ActorHolds(s.db, u.x, u.b)
            && DeleteTyped(s.db, Follow, u.x, u.b) == s.db != UndoCascade(s.db, u.x, u.b, 0)
  {
    hide StartTask, Exec, Known, Next, DbOk, UndoCascade, TasksOk, TrimSpace, TrimRight, Canonical;
    NothingKnown();
    var rest := Handled(MislabelledUndo(u), 0, world) + [];
    HandlesNew(cfg, INITIAL, LikeOf(u), 0, world, {}, rest);
    var db1 := Next(cfg, INITIAL, Deliver(LikeOf(u), 0)).db;
    LikeStores(u, cfg, db1, Received(INITIAL.db, LikeOf(u)), world);
    var s1 := Server(db1.(likes := map[(u.b, u.o) := u.x]), map[]);
    HandlesNew(cfg, s1, MislabelledUndo(u), 0, world, {} + {u.x}, []);
    var db2 := Next(cfg, s1, Deliver(MislabelledUndo(u), 0)).db;
    MislabelledUndoDeletesNothing(u, cfg, db2, Received(s1.db, MislabelledUndo(u)), world);
    ExecNothing(cfg, Server(db2, map[]));
    assert RowMatches(db2.likes, (u.b, u.o), u.x, u.b);
    InitialInv(cfg);
    ExecKeepsInv(cfg, INITIAL, LikeAndUndo(u, world));
    CascadeDeletesEverywhere(cfg, db2, u.x, u.b);
    DeletingRemovesHeldRows(db2, u.x, u.b);
  }
}
