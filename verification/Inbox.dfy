/**
  Side effects of a stored activity (internal/inboxproc).

  A handler issues its SQL statements one by one on the pool, so other workers may run in
  between. `Task` is a handler's program counter, `StepTask` runs its next statement, and
  `RunTask` runs it to the end undisturbed. The methods below are the handlers themselves.
 */
module Inbox {
  import opened Wrappers
  import opened Text
  import opened Vocabulary
  import opened Tables
  import SqlQueue

  /** What an instance knows about its own actors. */
  datatype Instance = Instance(
    isLocal: string -> bool,                      // LocalUsernameForActorURL
    localFollowee: string -> Option<string>,      // ResolveLocalFolloweeFromObjectIRI
    isLocalFollowObject: string -> bool,          // LocalUsernameForInboundFollowObject
    onOwnHost: string -> bool,                    // the IRI's host is this instance
    usableActor: string -> bool,                  // EnsureRemoteActor accepts the URL
    slug: string -> string,                       // path of a Follow IRI, escaped into one segment
    autoAccept: bool)

  /** The clock, and what the network answers: the inbox of an actor, the document behind an IRI. */
  datatype World = World(now: int, inbox: string -> Option<string>, document: string -> Option<Object>)

  datatype Task =
    | Start(row: ActivityRow)
    | FollowEnqueue(row: ActivityRow, followee: string)
    | FollowMark(row: ActivityRow)
    | SetState(row: ActivityRow, target: string, follower: string, state: FollowState)
    | UndoFrom(row: ActivityRow, target: string, table: nat)
    | ObjectWrite(row: ActivityRow)
    | ObjectDelete(row: ActivityRow, url: string)

  datatype Progress = Finished(ok: bool) | Continue(task: Task)

  // ----- Follow -----

  /** buildAcceptFollow */
  function AcceptDoc(cfg: Instance, followee: string, followId: string): Activity {
    Activity(TrimRight(followee, '/') + "/accepts/follows/" + cfg.slug(followId), followee, Accept, Iri(followId), true)
  }

  function AcceptKey(followId: string, inbox: string): string {
    "accept:" + followId + ":" + inbox
  }

  function AcceptJob(cfg: Instance, followee: string, followId: string, inbox: string): SqlQueue.NewJob {
    SqlQueue.NewJob(SqlQueue.DeliverActivity, DeliverPayload(inbox, AcceptDoc(cfg, followee, followId), followee),
                    AcceptKey(followId, inbox), None)
  }

  function StartFollow(cfg: Instance, db: Db, row: ActivityRow): (Db, Progress) {
    var target := row.doc.ObjectIri();
    if target.None? then (db, Finished(false))
    else
      var followee := cfg.localFollowee(target.value);
      if followee.None? then (db, Finished(false))
      else
        var follows := PutFollow(db.follows, row.actor, followee.value, row.doc.id, Pending);
        if follows.Err? then (db, Finished(false))
        else (db.(follows := follows.value),
              if cfg.autoAccept then Continue(FollowEnqueue(row, followee.value)) else Finished(true))
  }

  function EnqueueAccept(cfg: Instance, db: Db, row: ActivityRow, followee: string, world: World): (Db, Progress) {
    if !cfg.isLocal(followee) then (db, Finished(false))
    else
      var inbox := world.inbox(row.actor);
      if inbox.None? then (db, Finished(false))
      else
        match SqlQueue.Insert(db.jobs, AcceptJob(cfg, followee, row.doc.id, inbox.value), world.now)
        case Err => (db, Finished(false))
        case Ok(jobs) => (db.(jobs := jobs), Continue(FollowMark(row)))
  }

  // ----- Accept, Reject -----

  ghost function StartAnswer(db: Db, row: ActivityRow, state: FollowState): (Db, Progress) {
    var target := row.doc.ObjectIri();
    if target.None? then (db, Finished(false))
    else
      match FindFollow(db.follows, target.value)
      case None => (db, Finished(true))
      case Some(p) =>
        if p.1 != row.actor then (db, Finished(false))
        else (db, Continue(SetState(row, target.value, p.0, state)))
  }

  // ----- Undo -----

  /** An embedded object says by its type which table to look in; a bare IRI is tried on all four. */
  function StartUndo(db: Db, row: ActivityRow): (Db, Progress) {
    match row.doc.obj
    case NoObject => (db, Finished(false))
    case Iri(s) => if s == "" then (db, Finished(false)) else (db, Continue(UndoFrom(row, s, 0)))
    case Node(id, kind, _, _) =>
      if id == "" then (db, Finished(false)) else (DeleteTyped(db, kind, id, row.actor), Finished(true))
  }

  function DeleteTyped(db: Db, kind: Kind, id: string, actor: string): Db {
    match kind
    case Follow => db.(follows := DeleteFollow(db.follows, id, actor))
    case Like => db.(likes := DeleteById(db.likes, id, actor))
    case Announce => db.(announces := DeleteById(db.announces, id, actor))
    case Block => db.(blocks := DeleteById(db.blocks, id, actor))
    case _ => db
  }

  function UndoKind(table: nat): Kind {
    if table == 0 then Follow else if table == 1 then Like else if table == 2 then Announce else Block
  }

  function UndoStep(db: Db, row: ActivityRow, target: string, table: nat): (Db, Progress) {
    var next := DeleteTyped(db, UndoKind(table), target, row.actor);
    if next != db || table >= 3 then (next, Finished(true)) else (next, Continue(UndoFrom(row, target, table + 1)))
  }

  /** Deletes from the first table, in order from `table` on, that has the row. */
  function UndoCascade(db: Db, id: string, actor: string, table: nat): Db
    decreases 4 - table
  {
    var next := DeleteTyped(db, UndoKind(table), id, actor);
    if next != db || table >= 3 then next else UndoCascade(next, id, actor, table + 1)
  }

  // ----- Like, Announce, Block -----

  function StartReaction(db: Db, row: ActivityRow): (Db, Progress) {
    var target := row.doc.ObjectIri();
    if target.None? then (db, Finished(false))
    else if !row.doc.addressed then (db, Finished(true))
    else
      match row.doc.kind
      case Like =>
        (match PutReaction(db.likes, row.actor, target.value, row.doc.id)
         case Err => (db, Finished(false))
         case Ok(m) => (db.(likes := m), Finished(true)))
      case Announce =>
        (match PutReaction(db.announces, row.actor, target.value, row.doc.id)
         case Err => (db, Finished(false))
         case Ok(m) => (db.(announces := m), Finished(true)))
      case Block =>
        (match PutBlock(db.blocks, row.actor, target.value, row.doc.id)
         case Err => (db, Finished(false))
         case Ok(m) => (db.(blocks := m), Finished(true)))
      case _ => (db, Finished(true))
  }

  // ----- Create, Update, Delete -----

  /** actorsMatch(activity actor, stored actor), after the activity's actor was found present */
  predicate Authentic(row: ActivityRow) {
    row.doc.actor != "" && Canonical(row.doc.actor) == Canonical(row.actor)
  }

  /** as2.ObjectAttributedToMatches: a missing attribution means the actor */
  predicate AttributedToActor(node: Object, row: ActivityRow)
    requires node.Node?
  {
    Canonical(row.doc.actor) != "" &&
    (node.attributedTo.Some? ==> RefContainsActor(node.attributedTo.value, Canonical(row.doc.actor)))
  }

  /** The embedded object, or the one fetched for a bare IRI; Ok(None) when there is nothing to store. */
  function CreatedObject(obj: Object, world: World): (r: Result<Option<Object>>)
    ensures r.Ok? && r.value.Some? ==> r.value.value.Node? && r.value.value.id != ""
  {
    match obj
    case NoObject => Err
    case Node(id, _, _, _) => if id == "" then Err else Ok(Some(obj))
    case Iri(s) =>
      if s == "" then Err
      else
        match world.document(s)
        case None => Err
        case Some(NoObject) => Err
        case Some(Iri(t)) => if t == "" || Canonical(t) != Canonical(s) then Err else Ok(None)
        case Some(Node(id, k, a, c)) =>
          if id == "" || Canonical(id) != Canonical(s) then Err else Ok(Some(Node(id, k, a, c)))
  }

  function WriteObject(db: Db, node: Object, actor: string): (r: (Db, Progress))
    requires node.Node?
    ensures r.1.Finished?
  {
    match UpsertObject(db.objects, node.id, actor, node.kind, node.content)
    case Err => (db, Finished(false))
    case Ok(objects) => (db.(objects := objects), Finished(true))
  }

  function StartCreate(db: Db, row: ActivityRow, world: World): (Db, Progress) {
    var created := CreatedObject(row.doc.obj, world);
    if created.Err? then (db, Finished(false))
    else if created.value.None? || !row.doc.addressed then (db, Finished(true))
    else if !Authentic(row) || !AttributedToActor(created.value.value, row) then (db, Finished(false))
    else WriteObject(db, created.value.value, row.actor)
  }

  /** Reads the owner; the write is a later statement. */
  function StartUpdate(db: Db, row: ActivityRow): (Db, Progress) {
    match row.doc.obj
    case NoObject => (db, Finished(false))
    case Iri(s) => (db, Finished(s != ""))
    case Node(id, _, _, _) =>
      if id == "" then (db, Finished(false))
      else if !row.doc.addressed then (db, Finished(true))
      else if !Authentic(row) || !AttributedToActor(row.doc.obj, row) then (db, Finished(false))
      else
        match Owner(db.objects, id)
        case Some(owner) => (db, if owner != row.actor then Finished(false) else Continue(ObjectWrite(row)))
        case None => (db, Continue(ObjectWrite(row)))
  }

  function StartDelete(db: Db, row: ActivityRow): (Db, Progress) {
    var target := row.doc.ObjectIri();
    if target.None? then (db, Finished(false))
    else if !row.doc.addressed then (db, Finished(true))
    else if !Authentic(row) then (db, Finished(false))
    else
      match Owner(db.objects, target.value)
      case None => (db, Finished(true))
      case Some(owner) =>
        (db, if owner != row.actor then Finished(false) else Continue(ObjectDelete(row, target.value)))
  }

  // ----- One statement, and the whole handler -----

  /** The first statement of each handler; types without one are accepted and ignored. */
  ghost function StartTask(cfg: Instance, db: Db, row: ActivityRow, world: World): (Db, Progress) {
    match row.doc.kind
    case Create => StartCreate(db, row, world)
    case Update => StartUpdate(db, row)
    case Delete => StartDelete(db, row)
    case Follow => StartFollow(cfg, db, row)
    case Accept => StartAnswer(db, row, Accepted)
    case Reject => StartAnswer(db, row, Rejected)
    case Undo => StartUndo(db, row)
    case Like => StartReaction(db, row)
    case Announce => StartReaction(db, row)
    case Block => StartReaction(db, row)
    case Other(_) => (db, Finished(true))
  }

  ghost function StepTask(cfg: Instance, db: Db, task: Task, world: World): (Db, Progress) {
    match task
    case Start(row) => StartTask(cfg, db, row, world)
    case FollowEnqueue(row, followee) => EnqueueAccept(cfg, db, row, followee, world)
    case FollowMark(row) =>
      (db.(follows := SetFollowState(db.follows, row.doc.id, Accepted, row.actor)), Finished(true))
    case SetState(row, target, follower, state) =>
      (db.(follows := SetFollowState(db.follows, target, state, follower)), Finished(true))
    case UndoFrom(row, target, table) => UndoStep(db, row, target, table)
    case ObjectWrite(row) =>
      if row.doc.obj.Node? then WriteObject(db, row.doc.obj, row.actor) else (db, Finished(false))
    case ObjectDelete(row, url) =>
      (match SoftDelete(db.objects, url)
       case Err => (db, Finished(false))
       case Ok(objects) => (db.(objects := objects), Finished(true)))
  }

  /** Statements a task can still issue. */
  function Rank(task: Task): nat {
    match task
    case Start(_) => 6
    case FollowEnqueue(_, _) => 2
    case UndoFrom(_, _, table) => if table < 4 then 5 - table else 1
    case _ => 1
  }

  lemma StartRankFalls(cfg: Instance, db: Db, row: ActivityRow, world: World)
    ensures StartTask(cfg, db, row, world).1.Continue? ==> Rank(StartTask(cfg, db, row, world).1.task) < 6
  {
    hide Canonical, Authentic, AttributedToActor, CreatedObject, DeleteTyped, FindFollow, PutFollow, PutReaction,
      PutBlock, UpsertObject, Owner;
  }

  lemma RankFalls(cfg: Instance, db: Db, task: Task, world: World)
    ensures StepTask(cfg, db, task, world).1.Continue? ==> Rank(StepTask(cfg, db, task, world).1.task) < Rank(task)
  {
    hide StartTask, DeleteTyped, AcceptJob, SqlQueue.Insert, UpsertObject, SoftDelete, SetFollowState;
    if task.Start? {
      StartRankFalls(cfg, db, task.row, world);
    }
  }

  ghost function RunTask(cfg: Instance, db: Db, task: Task, world: World): (Db, bool)
    decreases Rank(task)
  {
    hide StepTask, Rank;
    RankFalls(cfg, db, task, world);
    var (next, progress) := StepTask(cfg, db, task, world);
    match progress
    case Finished(ok) => (next, ok)
    case Continue(t) => RunTask(cfg, next, t, world)
  }

  lemma RunStops(cfg: Instance, db: Db, task: Task, world: World, next: Db, ok: bool)
    requires StepTask(cfg, db, task, world) == (next, Progress.Finished(ok))
    ensures RunTask(cfg, db, task, world) == (next, ok)
  {
  }

  lemma RunGoesOn(cfg: Instance, db: Db, task: Task, world: World, next: Db, t: Task)
    requires StepTask(cfg, db, task, world) == (next, Continue(t))
    ensures RunTask(cfg, db, task, world) == RunTask(cfg, next, t, world)
  {
  }

  // ----- The handlers -----

  method HandleFollow(db: Database, cfg: Instance, world: World, row: ActivityRow) returns (ok: bool)
    requires row.doc.kind == Follow
    modifies db
    ensures (db.Snapshot(), ok) == RunTask(cfg, old(db.Snapshot()), Start(row), world)
  {
    hide UniqueFollowIds, FollowMatches, SetFollowState, AcceptDoc, AcceptKey, FollowIdTaken;
    var target := row.doc.ObjectIri();
    if target.None? {
      return false;
    }
    var followee := cfg.localFollowee(target.value);
    if followee.None? {
      return false;
    }
    ok := db.UpsertFollow(row.actor, followee.value, row.doc.id, Pending);
    if !ok {
      return false;
    }
    if !cfg.autoAccept {
      return true;
    }
    ghost var asked := db.Snapshot();
    RunGoesOn(cfg, old(db.Snapshot()), Start(row), world, asked, FollowEnqueue(row, followee.value));
    if !cfg.isLocal(followee.value) {
      return false;
    }
    var inbox := world.inbox(row.actor);
    if inbox.None? {
      return false;
    }
    var jobs := SqlQueue.Insert(db.jobs, AcceptJob(cfg, followee.value, row.doc.id, inbox.value), world.now);
    if jobs.Err? {
      return false;
    }
    db.jobs := jobs.value;
    ghost var queued := db.Snapshot();
    RunGoesOn(cfg, asked, FollowEnqueue(row, followee.value), world, queued, FollowMark(row));
    db.SetFollowStateByFollowActivityIDForFollower(row.doc.id, Accepted, row.actor);
    RunStops(cfg, queued, FollowMark(row), world, db.Snapshot(), true);
    return true;
  }

  method HandleAnswer(db: Database, cfg: Instance, world: World, row: ActivityRow) returns (ok: bool)
    requires row.doc.kind == Accept || row.doc.kind == Reject
    requires UniqueFollowIds(db.follows)
    modifies db
    ensures (db.Snapshot(), ok) == RunTask(cfg, old(db.Snapshot()), Start(row), world)
  {
    hide FollowMatches, SetFollowState;
    var target := row.doc.ObjectIri();
    if target.None? {
      return false;
    }
    if !(exists p | p in db.follows :: FollowWithId(db.follows, target.value, p)) {
      assert FindFollow(db.follows, target.value).None?;
      return true;
    }
    var p :| p in db.follows && FollowWithId(db.follows, target.value, p);
    assert FindFollow(db.follows, target.value) == Some(p);
    if p.1 != row.actor {
      return false;
    }
    var state := if row.doc.kind == Accept then Accepted else Rejected;
    db.SetFollowStateByFollowActivityIDForFollower(target.value, state, p.0);
    return true;
  }

  /** Undisturbed, the four statements are the cascade. */
  lemma {:induction false} UndoRunsTheCascade(cfg: Instance, db: Db, row: ActivityRow, target: string, table: nat,
                                              world: World)
    requires table <= 3
    ensures RunTask(cfg, db, UndoFrom(row, target, table), world) == (UndoCascade(db, target, row.actor, table), true)
    decreases 3 - table
  {
    var next := DeleteTyped(db, UndoKind(table), target, row.actor);
    if next == db && table < 3 {
      RunGoesOn(cfg, db, UndoFrom(row, target, table), world, db, UndoFrom(row, target, table + 1));
      UndoRunsTheCascade(cfg, db, row, target, table + 1, world);
    }
  }

  /** Tries the four tables in turn and stops at the first one that had the row. */
  method UndoBareActivityIRI(db: Database, actor: string, target: string)
    modifies db
    ensures db.Snapshot() == UndoCascade(old(db.Snapshot()), target, actor, 0)
  {
    hide DeleteFollow, DeleteById, FollowMatches, RowMatches;
    ghost var before := db.Snapshot();
    var affected := db.DeleteFollowById(target, actor);
    if affected {
      return;
    }
    assert db.Snapshot() == before;
    assert UndoCascade(before, target, actor, 0) == UndoCascade(before, target, actor, 1);
    affected := db.DeleteLikeById(target, actor);
    if affected {
      return;
    }
    assert db.Snapshot() == before;
    assert UndoCascade(before, target, actor, 1) == UndoCascade(before, target, actor, 2);
    affected := db.DeleteAnnounceById(target, actor);
    if affected {
      return;
    }
    assert db.Snapshot() == before;
    assert UndoCascade(before, target, actor, 2) == UndoCascade(before, target, actor, 3);
    affected := db.DeleteBlockById(target, actor);
  }

  method DeleteUndoTarget(db: Database, kind: Kind, id: string, actor: string)
    modifies db
    ensures db.Snapshot() == DeleteTyped(old(db.Snapshot()), kind, id, actor)
  {
    var affected;
    match kind {
      case Follow => affected := db.DeleteFollowById(id, actor);
      case Like => affected := db.DeleteLikeById(id, actor);
      case Announce => affected := db.DeleteAnnounceById(id, actor);
      case Block => affected := db.DeleteBlockById(id, actor);
      case _ =>
    }
  }

  method HandleUndo(db: Database, cfg: Instance, world: World, row: ActivityRow) returns (ok: bool)
    requires row.doc.kind == Undo
    modifies db
    ensures (db.Snapshot(), ok) == RunTask(cfg, old(db.Snapshot()), Start(row), world)
  {
    match row.doc.obj {
      case NoObject => return false;
      case Iri(s) =>
        if s == "" {
          return false;
        }
        UndoRunsTheCascade(cfg, db.Snapshot(), row, s, 0, world);
        RunGoesOn(cfg, db.Snapshot(), Start(row), world, db.Snapshot(), UndoFrom(row, s, 0));
        UndoBareActivityIRI(db, row.actor, s);
        return true;
      case Node(id, kind, _, _) =>
        if id == "" {
          return false;
        }
        DeleteUndoTarget(db, kind, id, row.actor);
        return true;
    }
  }

  method HandleReaction(db: Database, cfg: Instance, world: World, row: ActivityRow) returns (ok: bool)
    requires row.doc.kind in {Like, Announce, Block}
    modifies db
    ensures (db.Snapshot(), ok) == RunTask(cfg, old(db.Snapshot()), Start(row), world)
  {
    hide UniqueIds, IdTaken, Canonical;
    var target := row.doc.ObjectIri();
    if target.None? {
      return false;
    }
    if !row.doc.addressed {
      return true;
    }
    match row.doc.kind {
      case Like => ok := db.UpsertLike(row.actor, target.value, row.doc.id);
      case Announce => ok := db.UpsertAnnounce(row.actor, target.value, row.doc.id);
      case Block => ok := db.UpsertBlock(row.actor, target.value, row.doc.id);
    }
  }

  method StoreObject(db: Database, node: Object, actor: string) returns (ok: bool)
    requires node.Node?
    modifies db
    ensures (db.Snapshot(), Finished(ok)) == WriteObject(old(db.Snapshot()), node, actor)
  {
    var r := UpsertObject(db.objects, node.id, actor, node.kind, node.content);
    ok := r.Ok?;
    if ok {
      db.objects := r.value;
    }
  }

  method HandleCreate(db: Database, cfg: Instance, world: World, row: ActivityRow) returns (ok: bool)
    requires row.doc.kind == Create
    modifies db
    ensures (db.Snapshot(), ok) == RunTask(cfg, old(db.Snapshot()), Start(row), world)
  {
    hide Canonical;
    var created := CreatedObject(row.doc.obj, world);
    if created.Err? {
      return false;
    }
    if created.value.None? || !row.doc.addressed {
      return true;
    }
    if !Authentic(row) || !AttributedToActor(created.value.value, row) {
      return false;
    }
    ok := StoreObject(db, created.value.value, row.actor);
  }

  lemma OwnedUpdateWrites(cfg: Instance, db: Db, world: World, row: ActivityRow)
    requires row.doc.kind == Update && row.doc.obj.Node? && row.doc.obj.id != "" && row.doc.addressed
    requires Authentic(row) && AttributedToActor(row.doc.obj, row)
    requires Owner(db.objects, row.doc.obj.id) in {None, Some(row.actor)}
    ensures var (next, progress) := WriteObject(db, row.doc.obj, row.actor);
            RunTask(cfg, db, Start(row), world) == (next, progress.ok)
  {
    hide Canonical;
    assert StartTask(cfg, db, row, world) == (db, Continue(ObjectWrite(row)));
    RunGoesOn(cfg, db, Start(row), world, db, ObjectWrite(row));
    var (next, progress) := WriteObject(db, row.doc.obj, row.actor);
    RunStops(cfg, db, ObjectWrite(row), world, next, progress.ok);
  }

  method HandleUpdate(db: Database, cfg: Instance, world: World, row: ActivityRow) returns (ok: bool)
    requires row.doc.kind == Update
    modifies db
    ensures (db.Snapshot(), ok) == RunTask(cfg, old(db.Snapshot()), Start(row), world)
  {
    hide Canonical;
    if !row.doc.obj.Node? {
      return row.doc.obj.Iri? && row.doc.obj.iri != "";
    }
    if row.doc.obj.id == "" {
      return false;
    }
    if !row.doc.addressed {
      return true;
    }
    if !Authentic(row) || !AttributedToActor(row.doc.obj, row) {
      return false;
    }
    var owner := Owner(db.objects, row.doc.obj.id);
    if owner.Some? && owner.value != row.actor {
      return false;
    }
    OwnedUpdateWrites(cfg, db.Snapshot(), world, row);
    ok := StoreObject(db, row.doc.obj, row.actor);
  }

  lemma OwnedDeleteWrites(cfg: Instance, db: Db, world: World, row: ActivityRow)
    requires row.doc.kind == Delete && row.doc.ObjectIri().Some? && row.doc.addressed && Authentic(row)
    requires Owner(db.objects, row.doc.ObjectIri().value) == Some(row.actor)
    ensures var r := SoftDelete(db.objects, row.doc.ObjectIri().value);
            RunTask(cfg, db, Start(row), world) == (if r.Ok? then db.(objects := r.value) else db, r.Ok?)
  {
    hide Canonical;
    var url := row.doc.ObjectIri().value;
    assert StartTask(cfg, db, row, world) == (db, Continue(ObjectDelete(row, url)));
    RunGoesOn(cfg, db, Start(row), world, db, ObjectDelete(row, url));
  }

  method HandleDelete(db: Database, cfg: Instance, world: World, row: ActivityRow) returns (ok: bool)
    requires row.doc.kind == Delete
    modifies db
    ensures (db.Snapshot(), ok) == RunTask(cfg, old(db.Snapshot()), Start(row), world)
  {
    hide Canonical;
    var target := row.doc.ObjectIri();
    if target.None? {
      return false;
    }
    if !row.doc.addressed {
      return true;
    }
    if !Authentic(row) {
      return false;
    }
    var owner := Owner(db.objects, target.value);
    if owner.None? {
      return true;
    }
    if owner.value != row.actor {
      return false;
    }
    OwnedDeleteWrites(cfg, db.Snapshot(), world, row);
    var r := SoftDelete(db.objects, target.value);
    ok := r.Ok?;
    if ok {
      db.objects := r.value;
    }
  }

  /** Dispatch on the activity type; unknown types are accepted and ignored. */
  method ProcessInboxActivity(db: Database, cfg: Instance, world: World, dbId: nat) returns (ok: bool)
    requires UniqueFollowIds(db.follows)
    modifies db
    ensures (!exists id | id in old(db.activities) :: old(db.activities)[id].dbId == dbId) ==>
              !ok && db.Snapshot() == old(db.Snapshot())
    ensures (exists id | id in old(db.activities) :: old(db.activities)[id].dbId == dbId) ==>
              exists id | id in old(db.activities) ::
                && old(db.activities)[id].dbId == dbId
                && (db.Snapshot(), ok) == RunTask(cfg, old(db.Snapshot()), Start(old(db.activities)[id]), world)
  {
    if !(exists id | id in db.activities :: db.activities[id].dbId == dbId) {
      return false;
    }
    var id :| id in db.activities && db.activities[id].dbId == dbId;
    var row := db.activities[id];
    match row.doc.kind {
      case Create => ok := HandleCreate(db, cfg, world, row);
      case Update => ok := HandleUpdate(db, cfg, world, row);
      case Delete => ok := HandleDelete(db, cfg, world, row);
      case Follow => ok := HandleFollow(db, cfg, world, row);
      case Accept => ok := HandleAnswer(db, cfg, world, row);
      case Reject => ok := HandleAnswer(db, cfg, world, row);
      case Undo => ok := HandleUndo(db, cfg, world, row);
      case Like => ok := HandleReaction(db, cfg, world, row);
      case Announce => ok := HandleReaction(db, cfg, world, row);
      case Block => ok := HandleReaction(db, cfg, world, row);
      case Other(_) => ok := true;
    }
  }
}
