/** What the instance guarantees about its social tables, in every reachable state. */
module Guarantees {
  import opened Wrappers
  import opened Text
  import opened Vocabulary
  import opened Tables
  import opened Inbox
  import opened Transactions
  import opened Federation
  import SqlQueue

  // ----- Acceptance has evidence -----

  /**
    An accepted edge has an Accept by its followee naming its current follow id, stored or at
    least queued for delivery; a rejected edge has a stored Reject.
   */
  lemma AnswersHaveEvidence(cfg: Instance, run: seq<Action>, p: (string, string))
    requires p in Exec(cfg, INITIAL, run).db.follows
    ensures var db := Exec(cfg, INITIAL, run).db; var edge := db.follows[p];
            && (edge.state == Accepted ==>
                  Answered(db.activities, Accept, p.1, edge.id)
                  || (cfg.isLocal(p.1) && AcceptQueued(cfg, db.jobs, p.1, edge.id)))
            && (edge.state == Rejected ==> Answered(db.activities, Reject, p.1, edge.id))
            && edge.id in db.activities
            && db.activities[edge.id].actor == p.0
            && FollowTarget(cfg, db.activities[edge.id].doc) == Some(p.1)
  {
    hide FollowTarget, JobsOk, RowsNameActivities;
    InitialInv(cfg);
    ExecKeepsInv(cfg, INITIAL, run);
    var db := Exec(cfg, INITIAL, run).db;
    assert HasEvidence(cfg, db, p, db.follows[p]);
    assert FollowNamesActivity(cfg, db.activities, p, db.follows[p]);
  }

  /**
    Handling a follow of a local actor accepts it exactly when its Accept was not already
    enqueued: a retry after the enqueue finds the idempotency key taken and leaves the edge
    pending.
   */
  lemma FollowIsAcceptedIffAcceptIsNew(cfg: Instance, db: Db, row: ActivityRow, world: World, followee: string,
                                       inbox: string)
    requires DbOk(cfg, db) && Stored(db.activities, row) && row.doc.kind == Follow
    requires row.doc.ObjectIri().Some? && cfg.localFollowee(row.doc.ObjectIri().value) == Some(followee)
    requires cfg.isLocal(followee) && cfg.autoAccept && world.inbox(row.actor) == Some(inbox)
    ensures var isNew := !SqlQueue.KeyTaken(db.jobs, AcceptKey(row.doc.id, inbox));
            var (next, ok) := RunTask(cfg, db, Start(row), world);
            && ok == isNew
            && (row.actor, followee) in next.follows
            && next.follows[(row.actor, followee)] == Edge(if isNew then Accepted else Pending, row.doc.id)
  {
    hide Canonical, AcceptDoc, AcceptKey, JobsOk, EvidenceOk, RowsNameActivities;
    var pair := (row.actor, followee);
    assert !FollowIdTaken(db.follows, pair, row.doc.id) by {
      forall p | p in db.follows && db.follows[p].id == row.doc.id
        ensures p == pair
      {
        assert FollowNamesActivity(cfg, db.activities, p, db.follows[p]);
      }
    }
    var asked := db.(follows := db.follows[pair := Edge(Pending, row.doc.id)]);
    assert StartTask(cfg, db, row, world) == (asked, Continue(FollowEnqueue(row, followee)));
    RunGoesOn(cfg, db, Start(row), world, asked, FollowEnqueue(row, followee));
    var job := AcceptJob(cfg, followee, row.doc.id, inbox);
    match SqlQueue.Insert(asked.jobs, job, world.now) {
      case Err =>
        RunStops(cfg, asked, FollowEnqueue(row, followee), world, asked, false);
      case Ok(jobs) =>
        var queued := asked.(jobs := jobs);
        RunGoesOn(cfg, asked, FollowEnqueue(row, followee), world, queued, FollowMark(row));
        var follows := SetFollowState(queued.follows, row.doc.id, Accepted, row.actor);
        RunStops(cfg, queued, FollowMark(row), world, queued.(follows := follows), true);
        assert FollowMatches(queued.follows, pair, row.doc.id, row.actor);
    }
  }

  // ----- Undo is exact -----

  function DeleteEverywhere(db: Db, id: string, actor: string): Db {
    db.(follows := DeleteFollow(db.follows, id, actor),
        likes := DeleteById(db.likes, id, actor),
        announces := DeleteById(db.announces, id, actor),
        blocks := DeleteById(db.blocks, id, actor))
  }

  predicate InFollows(db: Db, id: string) {
    exists p | p in db.follows :: db.follows[p].id == id
  }

  predicate InRows(m: Interactions, id: string) {
    exists k | k in m :: m[k] == id
  }

  /** Some table has a row with activity id `id`. */
  predicate Holds(db: Db, id: string, kind: Kind) {
    match kind
    case Follow => InFollows(db, id)
    case Like => InRows(db.likes, id)
    case Announce => InRows(db.announces, id)
    case Block => InRows(db.blocks, id)
    case _ => false
  }

  /** An activity id occurs only in the table of its own kind, in one row, of its own actor. */
  lemma IdsLiveInOneTable(cfg: Instance, db: Db, id: string, kind: Kind)
    requires DbOk(cfg, db) && Holds(db, id, kind)
    ensures id in db.activities && db.activities[id].doc.kind == kind
    ensures forall other :: Holds(db, id, other) ==> other == kind
  {
    hide FollowTarget, JobsOk, EvidenceOk;
    forall k | Holds(db, id, k)
      ensures id in db.activities && db.activities[id].doc.kind == k
    {
      KindOfHeldId(cfg, db, id, k);
    }
  }

  /** The unique index on follow ids, which the Accept and Reject handlers rely on, always holds. */
  lemma FollowIdsAreUnique(cfg: Instance, run: seq<Action>)
    ensures UniqueFollowIds(Exec(cfg, INITIAL, run).db.follows)
  {
    InitialInv(cfg);
    ExecKeepsInv(cfg, INITIAL, run);
    FollowIdsAreUniqueWhenOk(cfg, Exec(cfg, INITIAL, run).db);
  }

  lemma FollowIdsAreUniqueWhenOk(cfg: Instance, db: Db)
    requires DbOk(cfg, db)
    ensures UniqueFollowIds(db.follows)
  {
    hide FollowTarget, JobsOk, EvidenceOk;
    forall p, q | p in db.follows && q in db.follows && db.follows[p].id == db.follows[q].id ensures p == q {
      assert FollowNamesActivity(cfg, db.activities, p, db.follows[p]);
      assert FollowNamesActivity(cfg, db.activities, q, db.follows[q]);
    }
  }

  lemma KindOfHeldId(cfg: Instance, db: Db, id: string, kind: Kind)
    requires DbOk(cfg, db) && Holds(db, id, kind)
    ensures id in db.activities && db.activities[id].doc.kind == kind
  {
    hide FollowTarget, JobsOk, EvidenceOk;
    if kind == Follow {
      var p :| p in db.follows && db.follows[p].id == id;
      assert FollowNamesActivity(cfg, db.activities, p, db.follows[p]);
    }
  }

  lemma NotHeldNothingDeleted(db: Db, id: string, actor: string, kind: Kind)
    requires !Holds(db, id, kind)
    ensures DeleteTyped(db, kind, id, actor) == db
  {
    match kind {
      case Follow => assert DeleteFollow(db.follows, id, actor) == db.follows;
      case Like => assert DeleteById(db.likes, id, actor) == db.likes;
      case Announce => assert DeleteById(db.announces, id, actor) == db.announces;
      case Block => assert DeleteById(db.blocks, id, actor) == db.blocks;
      case _ =>
    }
  }

  /** Only the table of the held kind can lose a row. */
  lemma OnlyOneTableLoses(cfg: Instance, db: Db, id: string, actor: string, kind: Kind)
    requires DbOk(cfg, db) && kind in {Follow, Like, Announce, Block}
    requires forall other | other != kind && other in {Follow, Like, Announce, Block} :: !Holds(db, id, other)
    ensures DeleteEverywhere(db, id, actor) == DeleteTyped(db, kind, id, actor)
  {
    hide DeleteFollow, DeleteById, DbOk, Holds;
    if kind != Follow { NotHeldNothingDeleted(db, id, actor, Follow); }
    if kind != Like { NotHeldNothingDeleted(db, id, actor, Like); }
    if kind != Announce { NotHeldNothingDeleted(db, id, actor, Announce); }
    if kind != Block { NotHeldNothingDeleted(db, id, actor, Block); }
  }

  /**
    The early-exit cascade, of the inbox as of the outbox, deletes the actor's rows with that id
    from all four tables.
   */
  lemma CascadeDeletesEverywhere(cfg: Instance, db: Db, id: string, actor: string)
    requires DbOk(cfg, db)
    ensures UndoCascade(db, id, actor, 0) == DeleteEverywhere(db, id, actor)
  {
    hide DeleteFollow, DeleteById, DbOk, Holds;
    var kind := if Holds(db, id, Like) then Like else if Holds(db, id, Announce) then Announce
                else if Holds(db, id, Block) then Block else Follow;
    forall other | other != kind && other in {Follow, Like, Announce, Block}
      ensures !Holds(db, id, other)
    {
      if Holds(db, id, other) {
        IdsLiveInOneTable(cfg, db, id, other);
      }
    }
    OnlyOneTableLoses(cfg, db, id, actor, kind);
    CascadeReaches(db, id, actor, kind);
  }

  lemma CascadeReaches(db: Db, id: string, actor: string, kind: Kind)
    requires kind in {Follow, Like, Announce, Block}
    requires forall other | other != kind && other in {Follow, Like, Announce, Block} :: !Holds(db, id, other)
    ensures UndoCascade(db, id, actor, 0) == DeleteTyped(db, kind, id, actor)
  {
    hide DeleteFollow, DeleteById, Holds, DeleteTyped;
    if kind != Follow { NotHeldNothingDeleted(db, id, actor, Follow); }
    if kind != Like { NotHeldNothingDeleted(db, id, actor, Like); }
    if kind != Announce { NotHeldNothingDeleted(db, id, actor, Announce); }
    if kind != Block { NotHeldNothingDeleted(db, id, actor, Block); }
    assert UndoCascade(db, id, actor, 3) == DeleteTyped(db, Block, id, actor);
    assert DeleteTyped(db, Announce, id, actor) == db ==>
        UndoCascade(db, id, actor, 2) == UndoCascade(db, id, actor, 3);
    assert DeleteTyped(db, Like, id, actor) == db ==>
        UndoCascade(db, id, actor, 1) == UndoCascade(db, id, actor, 2);
    assert DeleteTyped(db, Follow, id, actor) == db ==>
        UndoCascade(db, id, actor, 0) == UndoCascade(db, id, actor, 1);
  }

  /** Some table has a row of `actor` with activity id `id`: what an Undo is to remove. */
  ghost predicate ActorHolds(db: Db, id: string, actor: string) {
    || (exists p :: FollowMatches(db.follows, p, id, actor))
    || (exists k :: RowMatches(db.likes, k, id, actor))
    || (exists k :: RowMatches(db.announces, k, id, actor))
    || (exists k :: RowMatches(db.blocks, k, id, actor))
  }

  lemma DeletingRemovesHeldRows(db: Db, id: string, actor: string)
    ensures DeleteEverywhere(db, id, actor) != db <==> ActorHolds(db, id, actor)
  {
    hide DeleteFollow, DeleteById, FollowMatches, RowMatches;
    DeleteFollowChangesIffMatched(db.follows, id, actor);
    DeleteChangesIffMatched(db.likes, id, actor);
    DeleteChangesIffMatched(db.announces, id, actor);
    DeleteChangesIffMatched(db.blocks, id, actor);
  }

  /**
    An Undo that embeds the undone activity trusts the type it embeds: it removes what the
    bare IRI would exactly when that type is the stored one, or there is nothing to remove.
   */
  lemma TypedUndoIsExactIffTypeIsStored(cfg: Instance, db: Db, kind: Kind, id: string, actor: string)
    requires DbOk(cfg, db)
    ensures DeleteTyped(db, kind, id, actor) == DeleteEverywhere(db, id, actor)
            <==> !ActorHolds(db, id, actor) || (id in db.activities && db.activities[id].doc.kind == kind)
  {
    hide DeleteFollow, DeleteById, DbOk, Holds, ActorHolds;
    var stored := if Holds(db, id, Like) then Like else if Holds(db, id, Announce) then Announce
                  else if Holds(db, id, Block) then Block else Follow;
    forall other | other != stored && other in {Follow, Like, Announce, Block}
      ensures !Holds(db, id, other)
    {
      if Holds(db, id, other) {
        IdsLiveInOneTable(cfg, db, id, other);
      }
    }
    OnlyOneTableLoses(cfg, db, id, actor, stored);
    DeletingRemovesHeldRows(db, id, actor);
    if ActorHolds(db, id, actor) {
      assert Holds(db, id, stored) by {
        if !Holds(db, id, stored) {
          NotHeldNothingDeleted(db, id, actor, stored);
        }
      }
      IdsLiveInOneTable(cfg, db, id, stored);
    }
    if kind != stored {
      OtherKindsDeleteNothing(db, id, actor, kind, stored);
    }
  }

  lemma OtherKindsDeleteNothing(db: Db, id: string, actor: string, kind: Kind, stored: Kind)
    requires kind != stored
    requires forall other | other != stored && other in {Follow, Like, Announce, Block} :: !Holds(db, id, other)
    ensures DeleteTyped(db, kind, id, actor) == db
  {
    NotHeldNothingDeleted(db, id, actor, kind);
  }

  // ----- Whom a handler may affect -----

  ghost predicate FollowsFrame(before: map<(string, string), Edge>, after: map<(string, string), Edge>,
                               row: ActivityRow) {
    forall p: (string, string) | p.0 != row.actor ::
      && (p in after <==> p in before)
      && (p in before ==>
            && after[p].id == before[p].id
            && (after[p].state != before[p].state ==> row.doc.kind in {Accept, Reject} && p.1 == row.actor))
  }

  ghost predicate RowsFrame(before: Interactions, after: Interactions, actor: string) {
    forall k: (string, string) | k.0 != actor ::
      (k in after <==> k in before) && (k in before ==> after[k] == before[k])
  }

  /** Rows of other actors stay as they are, except that an answer changes the state of follows of its author. */
  ghost predicate Frame(before: Db, after: Db, row: ActivityRow) {
    && FollowsFrame(before.follows, after.follows, row)
    && RowsFrame(before.likes, after.likes, row.actor)
    && RowsFrame(before.announces, after.announces, row.actor)
    && RowsFrame(before.blocks, after.blocks, row.actor)
  }

  lemma SameTablesFrame(before: Db, after: Db, row: ActivityRow)
    requires after.follows == before.follows && after.likes == before.likes
    requires after.announces == before.announces && after.blocks == before.blocks
    ensures Frame(before, after, row)
  {
  }

  lemma NewFollowsFrame(db: Db, follows: map<(string, string), Edge>, row: ActivityRow)
    requires FollowsFrame(db.follows, follows, row)
    ensures Frame(db, db.(follows := follows), row)
  {
    hide FollowsFrame;
  }

  lemma NewRowsFrame(db: Db, likes: Interactions, announces: Interactions, blocks: Interactions, row: ActivityRow)
    requires RowsFrame(db.likes, likes, row.actor) && RowsFrame(db.announces, announces, row.actor)
    requires RowsFrame(db.blocks, blocks, row.actor)
    ensures Frame(db, db.(likes := likes, announces := announces, blocks := blocks), row)
  {
    hide RowsFrame;
  }

  lemma DeleteByIdFrame(m: Interactions, id: string, actor: string)
    ensures RowsFrame(m, DeleteById(m, id, actor), actor) && RowsFrame(m, m, actor)
  {
  }

  lemma PutFrame(m: Interactions, actor: string, obj: string, id: string)
    requires PutInteraction(m, actor, obj, id).Ok?
    ensures RowsFrame(m, PutInteraction(m, actor, obj, id).value, actor) && RowsFrame(m, m, actor)
  {
  }

  lemma DeleteFrame(db: Db, kind: Kind, id: string, row: ActivityRow)
    ensures Frame(db, DeleteTyped(db, kind, id, row.actor), row)
  {
    hide Frame, RowsFrame, DeleteById;
    DeleteByIdFrame(db.likes, id, row.actor);
    DeleteByIdFrame(db.announces, id, row.actor);
    DeleteByIdFrame(db.blocks, id, row.actor);
    match kind {
      case Follow => NewFollowsFrame(db, DeleteFollow(db.follows, id, row.actor), row);
      case Like => NewRowsFrame(db, DeleteById(db.likes, id, row.actor), db.announces, db.blocks, row);
      case Announce => NewRowsFrame(db, db.likes, DeleteById(db.announces, id, row.actor), db.blocks, row);
      case Block => NewRowsFrame(db, db.likes, db.announces, DeleteById(db.blocks, id, row.actor), row);
      case _ => SameTablesFrame(db, db, row);
    }
  }

  lemma ReactionFrame(db: Db, row: ActivityRow)
    ensures Frame(db, StartReaction(db, row).0, row)
  {
    hide Frame, RowsFrame, PutInteraction, Canonical;
    var next := StartReaction(db, row).0;
    if next == db {
      SameTablesFrame(db, db, row);
    } else {
      var target := row.doc.ObjectIri().value;
      DeleteByIdFrame(db.likes, "", row.actor);
      DeleteByIdFrame(db.announces, "", row.actor);
      DeleteByIdFrame(db.blocks, "", row.actor);
      match row.doc.kind {
        case Like => PutFrame(db.likes, row.actor, target, row.doc.id);
        case Announce => PutFrame(db.announces, row.actor, target, row.doc.id);
        case Block => PutFrame(db.blocks, row.actor, Canonical(target), row.doc.id);
      }
      NewRowsFrame(db, next.likes, next.announces, next.blocks, row);
    }
  }

  lemma AnswerFrame(cfg: Instance, db: Db, row: ActivityRow, target: string, follower: string, state: FollowState)
    requires DbOk(cfg, db) && TaskOk(cfg, db, SetState(row, target, follower, state))
    ensures Frame(db, db.(follows := SetFollowState(db.follows, target, state, follower)), row)
  {
    hide FollowTarget, JobsOk, EvidenceOk, RowsNameActivities, Frame;
    forall p | p in db.follows && db.follows[p].id == target
      ensures p.1 == row.actor
    {
      assert FollowNamesActivity(cfg, db.activities, p, db.follows[p]);
    }
    NewFollowsFrame(db, SetFollowState(db.follows, target, state, follower), row);
  }

  lemma MarkFrame(db: Db, row: ActivityRow)
    ensures Frame(db, db.(follows := SetFollowState(db.follows, row.doc.id, Accepted, row.actor)), row)
  {
    hide Frame;
    NewFollowsFrame(db, SetFollowState(db.follows, row.doc.id, Accepted, row.actor), row);
  }

  lemma StartFollowFrame(cfg: Instance, db: Db, row: ActivityRow)
    ensures Frame(db, StartFollow(cfg, db, row).0, row)
  {
    hide Frame;
    NewFollowsFrame(db, StartFollow(cfg, db, row).0.follows, row);
  }

  lemma StartFrame(cfg: Instance, db: Db, row: ActivityRow, world: World)
    ensures Frame(db, StartTask(cfg, db, row, world).0, row)
  {
    hide Frame, Authentic, AttributedToActor, CreatedObject, DeleteTyped, FindFollow, StartReaction, StartFollow,
      UpsertObject, Owner;
    var next := StartTask(cfg, db, row, world).0;
    match row.doc.kind {
      case Like => ReactionFrame(db, row);
      case Announce => ReactionFrame(db, row);
      case Block => ReactionFrame(db, row);
      case Undo =>
        if row.doc.obj.Node? && row.doc.obj.id != "" {
          DeleteFrame(db, row.doc.obj.kind, row.doc.obj.id, row);
        } else {
          SameTablesFrame(db, next, row);
        }
      case Follow => StartFollowFrame(cfg, db, row);
      case _ => SameTablesFrame(db, next, row);
    }
  }

  lemma EnqueueFrame(cfg: Instance, db: Db, row: ActivityRow, followee: string, world: World)
    ensures Frame(db, EnqueueAccept(cfg, db, row, followee, world).0, row)
  {
    hide Frame, AcceptJob, SqlQueue.Insert;
    SameTablesFrame(db, EnqueueAccept(cfg, db, row, followee, world).0, row);
  }

  lemma ObjectsFrame(cfg: Instance, db: Db, task: Task, world: World)
    requires task.ObjectWrite? || task.ObjectDelete?
    ensures Frame(db, StepTask(cfg, db, task, world).0, task.row)
  {
    hide Frame, StartTask, DeleteTyped, EnqueueAccept, UpsertObject, SoftDelete, SetFollowState;
    SameTablesFrame(db, StepTask(cfg, db, task, world).0, task.row);
  }

  /** Each single statement keeps to the frame, whatever other workers did before it. */
  lemma StatementsKeepToTheFrame(cfg: Instance, db: Db, task: Task, world: World)
    requires DbOk(cfg, db) && TaskOk(cfg, db, task)
    ensures Frame(db, StepTask(cfg, db, task, world).0, task.row)
  {
    hide DbOk, TaskOk, Frame, FollowsFrame, StartTask, DeleteTyped, EnqueueAccept, WriteObject, SoftDelete,
      SetFollowState;
    match task {
      case Start(row) => StartFrame(cfg, db, row, world);
      case UndoFrom(row, target, table) => DeleteFrame(db, UndoKind(table), target, row);
      case SetState(row, target, follower, state) => AnswerFrame(cfg, db, row, target, follower, state);
      case FollowMark(row) => MarkFrame(db, row);
      case FollowEnqueue(row, followee) => EnqueueFrame(cfg, db, row, followee, world);
      case _ => ObjectsFrame(cfg, db, task, world);
    }
  }

  /** A live object of someone else. */
  predicate OwnedByOther(db: Db, url: string, actor: string) {
    url in db.objects && !db.objects[url].deleted && db.objects[url].owner != actor
  }

  /** Run undisturbed, Update and Delete leave every live object of another actor alone. */
  lemma UndisturbedHandlersRespectOwners(cfg: Instance, db: Db, row: ActivityRow, world: World, url: string)
    requires row.doc.kind == Update || row.doc.kind == Delete
    requires OwnedByOther(db, url, row.actor)
    ensures var (next, ok) := RunTask(cfg, db, Start(row), world);
            url in next.objects && next.objects[url] == db.objects[url]
  {
    hide Canonical, Authentic, AttributedToActor;
    var step := StartTask(cfg, db, row, world);
    if step.1.Continue? {
      RunGoesOn(cfg, db, Start(row), world, db, step.1.task);
      var last := StepTask(cfg, db, step.1.task, world);
      RunStops(cfg, db, step.1.task, world, last.0, last.1.ok);
    } else {
      RunStops(cfg, db, Start(row), world, step.0, step.1.ok);
    }
  }

  /** The second statement of an Update or Delete that passed its checks, if there is one. */
  lemma OnlyTheWriteIsLeft(cfg: Instance, db: Db, row: ActivityRow, world: World)
    requires row.doc.kind == Update || row.doc.kind == Delete
    ensures var (same, progress) := StepTask(cfg, db, Start(row), world);
            && same == db
            && (progress.Continue? ==>
                  && row.doc.ObjectIri().Some? && row.doc.ObjectIri().value != ""
                  && progress.task == (if row.doc.kind == Update then ObjectWrite(row)
                                       else ObjectDelete(row, row.doc.ObjectIri().value))
                  && (row.doc.kind == Update ==> row.doc.obj.Node? && row.doc.obj.id == row.doc.ObjectIri().value))
  {
    hide Canonical, Authentic, AttributedToActor;
  }

  /**
    Whatever others do to the database between the two statements of an Update or Delete: the
    first changes nothing, and the second leaves every live object of another actor alone
    exactly if none of them stands at its url by then. Undisturbed, none ever does.
   */
  lemma UpdateAndDeleteRespectOwners(cfg: Instance, db: Db, later: Db, row: ActivityRow, world: World, onward: World)
    requires row.doc.kind == Update || row.doc.kind == Delete
    ensures var (same, progress) := StepTask(cfg, db, Start(row), world);
            && same == db
            && (progress.Continue? ==>
                  var next := StepTask(cfg, later, progress.task, onward).0;
                  (forall u | OwnedByOther(later, u, row.actor) ::
                     u in next.objects && next.objects[u] == later.objects[u])
                  <==> !OwnedByOther(later, row.doc.ObjectIri().value, row.actor))
    ensures var (next, ok) := RunTask(cfg, db, Start(row), world);
            forall u | OwnedByOther(db, u, row.actor) :: u in next.objects && next.objects[u] == db.objects[u]
  {
    hide StepTask, RunTask;
    OnlyTheWriteIsLeft(cfg, db, row, world);
    if StepTask(cfg, db, Start(row), world).1.Continue? {
      if row.doc.kind == Update {
        UpdateWriteIsSafeIffOwnerStands(cfg, later, row, onward);
      } else {
        DeleteWriteIsSafeIffOwnerStands(cfg, later, row, row.doc.ObjectIri().value, onward);
      }
    }
    forall u | OwnedByOther(db, u, row.actor)
      ensures var next := RunTask(cfg, db, Start(row), world).0; u in next.objects && next.objects[u] == db.objects[u]
    {
      UndisturbedHandlersRespectOwners(cfg, db, row, world, u);
    }
  }

  /**
    The write of an Update, on its own, spares other actors' live objects exactly when none lives
    at its url by then.
   */
  lemma UpdateWriteIsSafeIffOwnerStands(cfg: Instance, db: Db, row: ActivityRow, world: World)
    requires row.doc.kind == Update && row.doc.obj.Node? && row.doc.obj.id != ""
    ensures var next := StepTask(cfg, db, ObjectWrite(row), world).0;
            (forall u | OwnedByOther(db, u, row.actor) :: u in next.objects && next.objects[u] == db.objects[u])
            <==> !OwnedByOther(db, row.doc.obj.id, row.actor)
  {
    var next := StepTask(cfg, db, ObjectWrite(row), world).0;
    assert next.objects[row.doc.obj.id].owner == row.actor;
  }

  /**
    Between the owner check of an Update and its write, a Create by another actor can take the
    object over; the write then replaces that actor's live object.
   */
  lemma CreateCanOvertakeOwnerCheck(cfg: Instance, db: Db, update: ActivityRow, create: ActivityRow, world: World)
    requires update.doc.kind == Update && create.doc.kind == Create && update.actor != create.actor
    requires update.doc.obj.Node? && create.doc.obj.Node? && update.doc.obj.id == create.doc.obj.id != ""
    requires update.doc.addressed && Authentic(update) && AttributedToActor(update.doc.obj, update)
    requires create.doc.addressed && Authentic(create) && AttributedToActor(create.doc.obj, create)
    requires Owner(db.objects, update.doc.obj.id) == Some(update.actor)
    ensures StepTask(cfg, db, Start(update), world) == (db, Continue(ObjectWrite(update)))
    ensures var url := update.doc.obj.id; var taken := StepTask(cfg, db, Start(create), world).0;
            && OwnedByOther(taken, url, update.actor)
            && Owner(StepTask(cfg, taken, ObjectWrite(update), world).0.objects, url) == Some(update.actor)
  {
    hide Canonical, Authentic, AttributedToActor;
    assert StartTask(cfg, db, update, world) == (db, Continue(ObjectWrite(update)));
    var taken := StartTask(cfg, db, create, world).0;
    assert taken.objects == db.objects[create.doc.obj.id :=
                              ObjectRow(create.actor, create.doc.obj.kind, create.doc.obj.content, false)];
  }

  /**
    The write of a Delete, on its own, spares other actors' live objects exactly when none lives
    at its url by then.
   */
  lemma DeleteWriteIsSafeIffOwnerStands(cfg: Instance, db: Db, row: ActivityRow, url: string, world: World)
    requires url != ""
    ensures var next := StepTask(cfg, db, ObjectDelete(row, url), world).0;
            (forall u | OwnedByOther(db, u, row.actor) :: u in next.objects && next.objects[u] == db.objects[u])
            <==> !OwnedByOther(db, url, row.actor)
  {
    hide StartTask, UndoStep, EnqueueAccept;
    var next := StepTask(cfg, db, ObjectDelete(row, url), world).0;
    if OwnedByOther(db, url, row.actor) {
      assert next.objects[url].deleted;
    }
  }

  /**
    Between the owner check of a Delete and its write, a Create by another actor can take the
    object over; the write then tombstones that actor's live object.
   */
  lemma CreateCanOvertakeDelete(cfg: Instance, db: Db, delete: ActivityRow, create: ActivityRow, url: string,
                                world: World)
    requires delete.doc.kind == Delete && create.doc.kind == Create && delete.actor != create.actor
    requires delete.doc.ObjectIri() == Some(url) && create.doc.obj.Node? && create.doc.obj.id == url
    requires delete.doc.addressed && Authentic(delete)
    requires create.doc.addressed && Authentic(create) && AttributedToActor(create.doc.obj, create)
    requires Owner(db.objects, url) == Some(delete.actor)
    ensures StepTask(cfg, db, Start(delete), world) == (db, Continue(ObjectDelete(delete, url)))
    ensures var taken := StepTask(cfg, db, Start(create), world).0;
            && OwnedByOther(taken, url, delete.actor)
            && Owner(StepTask(cfg, taken, ObjectDelete(delete, url), world).0.objects, url).None?
  {
    hide Canonical, Authentic, AttributedToActor;
    assert StartTask(cfg, db, delete, world) == (db, Continue(ObjectDelete(delete, url)));
    var taken := StartTask(cfg, db, create, world).0;
    assert taken.objects == db.objects[url :=
                              ObjectRow(create.actor, create.doc.obj.kind, create.doc.obj.content, false)];
  }

  // ----- Jobs match activities -----

  /** Keys of outbox deliveries and of queued Accepts never coincide: the inbox is set off by different characters. */
  lemma NoJobIsBoth(cfg: Instance, job: SqlQueue.Job, row: ActivityRow, inbox: string, followee: string, id: string)
    requires IsDeliverJob(job, row, inbox)
    ensures !IsAcceptJob(cfg, job, followee, id)
  {
    hide AcceptDoc;
    assert job.key[|job.key| - |inbox| - 1] == '|';
    var other := AcceptKey(id, inbox);
    assert other[|other| - |inbox| - 1] == ':';
    assert job.key != other;
  }

  /**
    In every reachable state a stored activity has a process job if and only if it is inbound
    or a local follow, and a deliver job for exactly the inboxes it was resolved to, one each.
   */
  lemma JobsMatchActivities(cfg: Instance, run: seq<Action>, id: string, inbox: string)
    requires id in Exec(cfg, INITIAL, run).db.activities
    ensures var db := Exec(cfg, INITIAL, run).db; var row := db.activities[id];
            && (ProcessJobIn(db.jobs, row) <==> NeedsProcessing(cfg, row))
            && (DeliverJobIn(db.jobs, row, inbox) <==> row.origin.Outbox? && inbox in row.origin.inboxes)
            && (forall i, k | i in db.jobs.rows && k in db.jobs.rows
                              && IsProcessJob(db.jobs.rows[i], row) && IsProcessJob(db.jobs.rows[k], row) :: i == k)
            && (forall i, k | i in db.jobs.rows && k in db.jobs.rows
                              && IsDeliverJob(db.jobs.rows[i], row, inbox)
                                  && IsDeliverJob(db.jobs.rows[k], row, inbox) :: i == k)
  {
    InitialInv(cfg);
    ExecKeepsInv(cfg, INITIAL, run);
    var db := Exec(cfg, INITIAL, run).db;
    ProcessJobsAreExact(cfg, db, id);
    DeliverJobsAreExact(cfg, db, id, inbox);
  }

  lemma ProcessJobsAreExact(cfg: Instance, db: Db, id: string)
    requires DbOk(cfg, db) && id in db.activities
    ensures var row := db.activities[id];
            && (ProcessJobIn(db.jobs, row) <==> NeedsProcessing(cfg, row))
            && (forall i, k | i in db.jobs.rows && k in db.jobs.rows
                              && IsProcessJob(db.jobs.rows[i], row) && IsProcessJob(db.jobs.rows[k], row) :: i == k)
  {
    hide EdgesOk, EvidenceOk, NeedsProcessing, AcceptDoc, AcceptKey, FollowTarget, DeliverKey;
    var row := db.activities[id];
    assert JobsComplete(cfg, db.jobs, row);
    if ProcessJobIn(db.jobs, row) {
      var i :| i in db.jobs.rows && IsProcessJob(db.jobs.rows[i], row);
      assert Provenance(cfg, db.activities, db.jobs.rows[i]);
      assert FromProcessing(cfg, db.activities, db.jobs.rows[i]);
      var jd :| jd in db.activities && IsProcessJob(db.jobs.rows[i], db.activities[jd])
                && NeedsProcessing(cfg, db.activities[jd]);
      assert jd == id;
    }
  }

  lemma DeliverJobsAreExact(cfg: Instance, db: Db, id: string, inbox: string)
    requires DbOk(cfg, db) && id in db.activities
    ensures var row := db.activities[id];
            && (DeliverJobIn(db.jobs, row, inbox) <==> row.origin.Outbox? && inbox in row.origin.inboxes)
            && (forall i, k | i in db.jobs.rows && k in db.jobs.rows
                              && IsDeliverJob(db.jobs.rows[i], row, inbox)
                                  && IsDeliverJob(db.jobs.rows[k], row, inbox) :: i == k)
  {
    hide EdgesOk, EvidenceOk, NeedsProcessing, AcceptDoc, AcceptKey, FollowTarget, DeliverKey;
    var row := db.activities[id];
    assert JobsComplete(cfg, db.jobs, row);
    if DeliverJobIn(db.jobs, row, inbox) {
      var i :| i in db.jobs.rows && IsDeliverJob(db.jobs.rows[i], row, inbox);
      assert Provenance(cfg, db.activities, db.jobs.rows[i]);
      DeliverJobComesFromOutbox(cfg, db, db.jobs.rows[i], row, inbox);
    }
    KeyIsLong(id, inbox);
  }

  lemma DeliverJobComesFromOutbox(cfg: Instance, db: Db, job: SqlQueue.Job, row: ActivityRow, inbox: string)
    requires ActivitiesOk(db) && Stored(db.activities, row)
    requires Provenance(cfg, db.activities, job) && IsDeliverJob(job, row, inbox)
    ensures row.origin.Outbox? && inbox in row.origin.inboxes
  {
    hide NeedsProcessing, FollowTarget;
    if FromFollow(cfg, db.activities, job) {
      var jd :| jd in db.activities && IsAcceptJob(cfg, job, job.payload.user, jd);
      NoJobIsBoth(cfg, job, row, inbox, job.payload.user, jd);
    } else {
      assert !FromProcessing(cfg, db.activities, job);
      var jd :| jd in db.activities && db.activities[jd].origin.Outbox?
                && job.payload.inbox in db.activities[jd].origin.inboxes
                && IsDeliverJob(job, db.activities[jd], job.payload.inbox);
      assert db.activities[jd].doc.id == jd;
      assert db.activities[jd] == row;
    }
  }

  lemma KeyIsLong(id: string, inbox: string)
    ensures |DeliverKey(id, inbox)| == |id| + 1 + |inbox|
  {
  }

  /**
    Receiving or posting an id that is already stored changes nothing; any other success adds
    exactly that activity.
   */
  lemma RepeatsChangeNothing(cfg: Instance, db: Db, user: string, doc: Activity, inboxes: seq<string>, now: int)
    ensures var r := Receive(cfg, db, doc, now);
            r.Ok? ==> (r.value == db <==> doc.id in db.activities)
    ensures var r := Post(cfg, db, user, doc, inboxes, now);
            r.Ok? ==> (r.value == db <==> doc.id in db.activities)
  {
    hide SqlQueue.Insert, LocalFollow, TrimRight, TrimSpace, EnqueueDeliveries;
    var p := Post(cfg, db, user, doc, inboxes, now);
    if p.Ok? && doc.id !in db.activities {
      var stored := InsertActivity(db, user, doc, Outbox(inboxes)).value;
      EffectsKeepActivities(cfg, stored, user, doc);
      assert doc.id in p.value.activities;
    }
  }

  lemma EffectsKeepActivities(cfg: Instance, db: Db, user: string, doc: Activity)
    requires OutboxEffects(cfg, db, user, doc).Ok?
    ensures var n := OutboxEffects(cfg, db, user, doc).value.0; n.activities == db.activities && n.jobs == db.jobs
  {
    hide FollowTarget, Canonical, LocalFollow, PutInteraction, UndoTarget, DeleteFollow, DeleteById;
    if doc.kind == Undo {
      CascadeKeepsActivities(db, UndoTarget(doc).value, user, 0);
    }
  }

  lemma {:induction false} CascadeKeepsActivities(db: Db, id: string, actor: string, table: nat)
    ensures var n := UndoCascade(db, id, actor, table); n.activities == db.activities && n.jobs == db.jobs
    decreases 4 - table
  {
    hide DeleteFollow, DeleteById;
    var next := DeleteTyped(db, UndoKind(table), id, actor);
    assert next.activities == db.activities && next.jobs == db.jobs;
    if next == db && table < 3 {
      CascadeKeepsActivities(next, id, actor, table + 1);
    }
  }
}
