/**
  The two places where an activity enters the database: the shared inbox
  (aphttp/handlers.go) and a local actor's outbox (aphttp/postoutbox.go). Each runs one
  transaction that stores the activity, records its effects and enqueues its jobs.
 */
module Transactions {
  import opened Wrappers
  import opened Text
  import opened Vocabulary
  import opened Tables
  import opened Inbox
  import SqlQueue

  // ----- Jobs -----

  function ProcessJob(row: ActivityRow): SqlQueue.NewJob {
    SqlQueue.NewJob(SqlQueue.ProcessInboxActivity, ProcessPayload(row.dbId), row.doc.id, None)
  }

  function DeliverKey(id: string, inbox: string): string {
    id + "|" + inbox
  }

  function DeliverJob(row: ActivityRow, inbox: string): SqlQueue.NewJob {
    SqlQueue.NewJob(SqlQueue.DeliverActivity, DeliverPayload(inbox, row.doc, row.actor),
                    DeliverKey(row.doc.id, inbox), None)
  }

  /** One EnqueueTx per inbox; the first failure fails the transaction. */
  function EnqueueDeliveries(jobs: SqlQueue.Table, row: ActivityRow, inboxes: seq<string>,
                             now: int): Result<SqlQueue.Table>
    decreases |inboxes|
  {
    if inboxes == [] then Ok(jobs)
    else
      match SqlQueue.Insert(jobs, DeliverJob(row, inboxes[0]), now)
      case Err => Err
      case Ok(t) => EnqueueDeliveries(t, row, inboxes[1..], now)
  }

  // ----- Inbound -----

  /** SharedInbox, after the request has been authenticated as coming from the activity's actor. */
  function Receive(cfg: Instance, db: Db, doc: Activity, now: int): Result<Db> {
    var actor := TrimRight(doc.actor, '/');
    if TrimSpace(doc.id) == "" || doc.actor == "" || !cfg.usableActor(doc.actor) then Err
    else
      match InsertActivity(db, actor, doc, Inbound)
      case None => Ok(db)
      case Some(stored) =>
        match SqlQueue.Insert(stored.jobs, ProcessJob(ActivityRowFor(db, actor, doc, Inbound)), now)
        case Err => Err
        case Ok(jobs) => Ok(stored.(jobs := jobs))
  }

  // ----- Outbound -----

  /** resolveFolloweeActorID */
  function FollowTarget(cfg: Instance, doc: Activity): Option<string> {
    match doc.ObjectIri()
    case None => None
    case Some(iri) =>
      match cfg.localFollowee(iri)
      case Some(p) => Some(p)
      case None =>
        if cfg.onOwnHost(iri) || !cfg.usableActor(Canonical(iri)) then None else Some(Canonical(iri))
  }

  predicate LocalFollow(cfg: Instance, doc: Activity) {
    doc.kind == Follow && doc.ObjectIri().Some? && cfg.isLocalFollowObject(Canonical(doc.ObjectIri().value))
  }

  /** undoObjectTargetIRI */
  function UndoTarget(doc: Activity): Option<string> {
    match doc.obj
    case NoObject => None
    case Iri(s) => if TrimSpace(s) == "" then None else Some(TrimSpace(s))
    case Node(id, _, _, _) => if TrimSpace(id) == "" then None else Some(TrimSpace(id))
  }

  /** The changed tables, and whether the follow is to be processed locally. */
  function FollowEffects(cfg: Instance, db: Db, user: string, doc: Activity): Result<(Db, bool)> {
    match FollowTarget(cfg, doc)
    case None => Err
    case Some(followee) =>
      if followee == user then Err
      else if LocalFollow(cfg, doc) then Ok((db, true))
      else
        match PutFollow(db.follows, user, followee, doc.id, PendingRemote)
        case Err => Err
        case Ok(follows) => Ok((db.(follows := follows), false))
  }

  function ReactionEffects(db: Db, user: string, doc: Activity): Result<(Db, bool)>
    requires doc.kind == Like || doc.kind == Announce
  {
    match doc.ObjectIri()
    case None => Err
    case Some(iri) =>
      match PutReaction(if doc.kind == Like then db.likes else db.announces, user, Canonical(iri), doc.id)
      case Err => Err
      case Ok(m) => Ok((if doc.kind == Like then db.(likes := m) else db.(announces := m), false))
  }

  /** recordOutboxFollowEffects */
  function OutboxEffects(cfg: Instance, db: Db, user: string, doc: Activity): Result<(Db, bool)> {
    match doc.kind
    case Follow => FollowEffects(cfg, db, user, doc)
    case Like => ReactionEffects(db, user, doc)
    case Announce => ReactionEffects(db, user, doc)
    case Undo =>
      (match UndoTarget(doc)
       case None => Err
       case Some(target) => Ok((UndoCascade(db, target, user, 0), false)))
    case _ => Ok((db, false))
  }

  /** persistOutboxAndEnqueue with the SQL queue, run to completion */
  function Post(cfg: Instance, db: Db, user: string, doc: Activity, inboxes: seq<string>, now: int): Result<Db> {
    if TrimSpace(doc.id) == "" || TrimRight(doc.actor, '/') != TrimRight(user, '/') then Err
    else
      match InsertActivity(db, user, doc, Outbox(inboxes))
      case None => Ok(db)
      case Some(stored) =>
        match OutboxEffects(cfg, stored, user, doc)
        case Err => Err
        case Ok((changed, local)) =>
          var row := ActivityRowFor(db, user, doc, Outbox(inboxes));
          match EnqueueDeliveries(changed.jobs, row, inboxes, now)
          case Err => Err
          case Ok(jobs) =>
            if !local then Ok(changed.(jobs := jobs))
            else
              match SqlQueue.Insert(jobs, ProcessJob(row), now)
              case Err => Err
              case Ok(all) => Ok(changed.(jobs := all))
  }

  // ----- The transactions, which may be lost between any two statements -----

  /** `lostAfter` statements the connection is lost; the working copy is then discarded. */
  method SharedInbox(db: Database, cfg: Instance, doc: Activity, now: int, lostAfter: nat) returns (accepted: bool)
    modifies db
    ensures accepted ==> Receive(cfg, old(db.Snapshot()), doc, now) == Ok(db.Snapshot())
    ensures !accepted ==> db.Snapshot() == old(db.Snapshot())
    ensures Receive(cfg, old(db.Snapshot()), doc, now).Ok? && lostAfter > 2 ==> accepted
  {
    hide TrimSpace, TrimRight;
    if TrimSpace(doc.id) == "" || doc.actor == "" || !cfg.usableActor(doc.actor) {
      return false;
    }
    var actor := TrimRight(doc.actor, '/');
    var tx := db.Snapshot();
    if lostAfter == 0 {
      return false;
    }
    var inserted := InsertActivity(tx, actor, doc, Inbound);
    if inserted.None? {
      return true;
    }
    var row := ActivityRowFor(tx, actor, doc, Inbound);
    tx := inserted.value;
    if lostAfter == 1 {
      return false;
    }
    var jobs := SqlQueue.Insert(tx.jobs, ProcessJob(row), now);
    if jobs.Err? {
      return false;
    }
    tx := tx.(jobs := jobs.value);
    if lostAfter == 2 {
      return false;
    }
    db.Commit(tx);
    return true;
  }

  /**
    The statements of recordOutboxUndoEffects; `used` counts those issued before the connection
    is lost or the effect is complete.
   */
  method RecordOutboxUndoEffects(db: Db, user: string, target: string, left: nat)
    returns (lost: bool, changed: Db, used: nat)
    ensures used <= left && used <= 4 && (lost ==> used == left)
    ensures !lost ==> changed == UndoCascade(db, target, user, 0)
  {
    hide DeleteTyped;
    changed, used := db, 0;
    while used < 4
      invariant used <= left && used <= 4
      invariant used < 4 ==> UndoCascade(changed, target, user, used) == UndoCascade(db, target, user, 0)
      invariant used == 4 ==> changed == UndoCascade(db, target, user, 0)
    {
      if used == left {
        return true, changed, used;
      }
      var next := DeleteTyped(changed, UndoKind(used), target, user);
      used := used + 1;
      if next != changed {
        return false, next, used;
      }
    }
    return false, changed, used;
  }

  method RecordOutboxFollowEffects(cfg: Instance, db: Db, user: string, doc: Activity, left: nat)
    returns (lost: bool, r: Result<(Db, bool)>, used: nat)
    ensures used <= left && used <= 4 && (lost ==> used == left)
    ensures !lost ==> r == OutboxEffects(cfg, db, user, doc)
  {
    hide FollowTarget, UndoTarget, PutFollow, PutReaction, UndoCascade, LocalFollow, Canonical;
    lost, used := false, 0;
    r := Err;
    match doc.kind {
      case Follow =>
        var followee := FollowTarget(cfg, doc);
        if followee.None? || followee.value == user {
          return;
        }
        if LocalFollow(cfg, doc) {
          r := Ok((db, true));
          return;
        }
        if left == 0 {
          lost := true;
          return;
        }
        used := 1;
        r := FollowEffects(cfg, db, user, doc);
      case Like | Announce =>
        if left == 0 {
          lost := true;
          return;
        }
        used := 1;
        r := ReactionEffects(db, user, doc);
      case Undo =>
        var target := UndoTarget(doc);
        if target.None? {
          return;
        }
        var changed;
        lost, changed, used := RecordOutboxUndoEffects(db, user, target.value, left);
        r := Ok((changed, false));
      case _ =>
        r := Ok((db, false));
    }
  }

  method PersistOutboxAndEnqueue(db: Database, cfg: Instance, user: string, doc: Activity, inboxes: seq<string>,
                                 now: int, lostAfter: nat) returns (ok: bool)
    modifies db
    ensures ok ==> Post(cfg, old(db.Snapshot()), user, doc, inboxes, now) == Ok(db.Snapshot())
    ensures !ok ==> db.Snapshot() == old(db.Snapshot())
    ensures Post(cfg, old(db.Snapshot()), user, doc, inboxes, now).Ok? && lostAfter > |inboxes| + 6 ==> ok
  {
    hide OutboxEffects, TrimSpace, TrimRight;
    if TrimSpace(doc.id) == "" || TrimRight(doc.actor, '/') != TrimRight(user, '/') {
      return false;
    }
    var tx := db.Snapshot();
    if lostAfter == 0 {
      return false;
    }
    var inserted := InsertActivity(tx, user, doc, Outbox(inboxes));
    if inserted.None? {
      return true;
    }
    var row := ActivityRowFor(tx, user, doc, Outbox(inboxes));
    tx := inserted.value;
    var left := lostAfter - 1;
    var lost, effects, used := RecordOutboxFollowEffects(cfg, tx, user, doc, left);
    if lost || effects.Err? {
      return false;
    }
    left := left - used;
    tx := effects.value.0;
    var i := 0;
    while i < |inboxes|
      invariant 0 <= i <= |inboxes| && left == lostAfter - 1 - used - i
      invariant tx == effects.value.0.(jobs := tx.jobs)
      invariant EnqueueDeliveries(tx.jobs, row, inboxes[i..], now)
                == EnqueueDeliveries(effects.value.0.jobs, row, inboxes, now)
      invariant db.Snapshot() == old(db.Snapshot())
    {
      if left == 0 {
        return false;
      }
      assert inboxes[i..][1..] == inboxes[i + 1..];
      var jobs := SqlQueue.Insert(tx.jobs, DeliverJob(row, inboxes[i]), now);
      if jobs.Err? {
        return false;
      }
      tx := tx.(jobs := jobs.value);
      left := left - 1;
      i := i + 1;
    }
    if effects.value.1 {
      if left == 0 {
        return false;
      }
      var jobs := SqlQueue.Insert(tx.jobs, ProcessJob(row), now);
      if jobs.Err? {
        return false;
      }
      tx := tx.(jobs := jobs.value);
      left := left - 1;
    }
    if left == 0 {
      return false;
    }
    db.Commit(tx);
    return true;
  }
}
