/**
  What a handler, run alone, leaves in the tables (internal/inboxproc), and what a posted
  activity does to them (aphttp/postoutbox.go), row by row.
 */
module Effects {
  import opened Wrappers
  import opened Text
  import opened Vocabulary
  import opened Tables
  import opened Inbox
  import opened Transactions
  import opened Federation
  import opened Guarantees
  import Fanout
  import SqlQueue

  /** What an activity is about: the IRI in its object field, or the id of the object in it. */
  lemma ObjectIriNamesTheObject(doc: Activity, target: string)
    ensures doc.ObjectIri() == Some(target) <==>
              target != "" && (doc.obj == Iri(target) || (doc.obj.Node? && doc.obj.id == target))
  {
  }

  // ----- Create, Update, Delete -----

  /** The object a Create stores: the embedded one, or the document behind its IRI if that is its id. */
  ghost predicate IsAbout(obj: Object, world: World, node: Object) {
    && node.Node? && node.id != ""
    && (obj == node || (obj.Iri? && obj.iri != "" && world.document(obj.iri) == Some(node)
                        && Canonical(node.id) == Canonical(obj.iri)))
  }

  /** The activity is by the stored actor, and the object is attributed to it or to nobody. */
  ghost predicate MayWrite(row: ActivityRow, node: Object)
    requires node.Node?
  {
    var actor := Canonical(row.doc.actor);
    && row.doc.actor != "" && actor == Canonical(row.actor) && actor != ""
    && (node.attributedTo.Some? ==> Fanout.NamesActor(Fanout.Flatten(node.attributedTo.value), actor))
  }

  function Written(db: Db, node: Object, owner: string): Db
    requires node.Node?
  {
    db.(objects := db.objects[node.id := ObjectRow(owner, node.kind, node.content, false)])
  }

  lemma MayWriteIsTheCheck(row: ActivityRow, node: Object)
    requires node.Node?
    ensures MayWrite(row, node) <==> Authentic(row) && AttributedToActor(node, row)
  {
    hide Canonical, Fanout.NamesActor, Fanout.Flatten, RefContainsActor;
    if node.attributedTo.Some? && Canonical(row.doc.actor) != "" {
      Fanout.AttributionIsAReference(node.attributedTo.value, Canonical(row.doc.actor));
    }
  }

  /** An addressed Create stores its object for its actor if it is theirs by its attribution, and fails otherwise. */
  lemma CreateStoresIffAttributed(cfg: Instance, db: Db, row: ActivityRow, world: World, node: Object)
    requires row.doc.kind == Create && row.doc.addressed && IsAbout(row.doc.obj, world, node)
    ensures RunTask(cfg, db, Start(row), world) ==
              if MayWrite(row, node) then (Written(db, node, row.actor), true) else (db, false)
  {
    hide Canonical, MayWrite, Authentic, AttributedToActor;
    MayWriteIsTheCheck(row, node);
  }

  /** Whatever object a Create writes is the one it is about, attributed to its actor; else the tables stay. */
  lemma CreateWritesOnlyItsObject(cfg: Instance, db: Db, row: ActivityRow, world: World)
    requires row.doc.kind == Create && RunTask(cfg, db, Start(row), world).0 != db
    ensures row.doc.addressed
    ensures exists node ::
              && IsAbout(row.doc.obj, world, node) && MayWrite(row, node)
              && RunTask(cfg, db, Start(row), world) == (Written(db, node, row.actor), true)
  {
    hide Canonical, MayWrite, Authentic, AttributedToActor;
    var node := CreatedObject(row.doc.obj, world).value.value;
    assert IsAbout(row.doc.obj, world, node);
    MayWriteIsTheCheck(row, node);
  }

  /** A Create about nothing that can be stored changes nothing, and fails unless its document is a bare IRI. */
  lemma CreateOfNothing(cfg: Instance, db: Db, row: ActivityRow, world: World)
    requires row.doc.kind == Create && forall node :: !IsAbout(row.doc.obj, world, node)
    ensures RunTask(cfg, db, Start(row), world) ==
              (db, row.doc.obj.Iri? && row.doc.obj.iri != "" && world.document(row.doc.obj.iri).Some?
                   && var found := world.document(row.doc.obj.iri).value;
                   found.Iri? && found.iri != "" && Canonical(found.iri) == Canonical(row.doc.obj.iri))
  {
    hide Canonical, Authentic, AttributedToActor;
    if row.doc.obj.Node? {
      assert !IsAbout(row.doc.obj, world, row.doc.obj);
    } else if row.doc.obj.Iri? && world.document(row.doc.obj.iri).Some? {
      assert !IsAbout(row.doc.obj, world, world.document(row.doc.obj.iri).value);
    }
  }

  /** An Update of a bare IRI is accepted and changes nothing; an activity that names no object fails. */
  lemma NamelessActivitiesFail(cfg: Instance, db: Db, row: ActivityRow, world: World)
    requires (!row.doc.kind.Other? && (row.doc.obj == NoObject || row.doc.obj == Iri("")))
             || (row.doc.kind == Update && row.doc.obj.Iri?)
    ensures RunTask(cfg, db, Start(row), world) ==
              (db, row.doc.kind == Update && row.doc.obj.Iri? && row.doc.obj.iri != "")
  {
    hide Canonical, Authentic, AttributedToActor;
  }

  /** An addressed Update overwrites its object if that is its actor's, by attribution and by owner; else it fails. */
  lemma UpdateWritesIffAttributedAndOwned(cfg: Instance, db: Db, row: ActivityRow, world: World)
    requires row.doc.kind == Update && row.doc.addressed && row.doc.obj.Node? && row.doc.obj.id != ""
    ensures RunTask(cfg, db, Start(row), world) ==
              if MayWrite(row, row.doc.obj) && !OwnedByOther(db, row.doc.obj.id, row.actor)
              then (Written(db, row.doc.obj, row.actor), true) else (db, false)
  {
    hide Canonical, MayWrite, Authentic, AttributedToActor;
    MayWriteIsTheCheck(row, row.doc.obj);
    if MayWrite(row, row.doc.obj) && !OwnedByOther(db, row.doc.obj.id, row.actor) {
      OwnedUpdateWrites(cfg, db, world, row);
    }
  }

  /** An addressed Delete marks its actor's object as deleted, ignores one that is not there and fails on another's. */
  lemma DeleteMarksOwnObject(cfg: Instance, db: Db, row: ActivityRow, world: World, url: string)
    requires row.doc.kind == Delete && row.doc.addressed && row.doc.ObjectIri() == Some(url)
    ensures RunTask(cfg, db, Start(row), world) ==
              if row.doc.actor == "" || Canonical(row.doc.actor) != Canonical(row.actor) then (db, false)
              else if url !in db.objects || db.objects[url].deleted then (db, true)
              else if db.objects[url].owner != row.actor then (db, false)
              else (db.(objects := db.objects[url := db.objects[url].(deleted := true)]), true)
  {
    hide Canonical;
    if Authentic(row) && Owner(db.objects, url) == Some(row.actor) {
      OwnedDeleteWrites(cfg, db, world, row);
    }
  }

  /** What is not addressed to this instance changes nothing, whatever it says. */
  lemma UnaddressedChangesNothing(cfg: Instance, db: Db, row: ActivityRow, world: World)
    requires row.doc.kind in {Create, Update, Delete, Like, Announce, Block} && !row.doc.addressed
    ensures RunTask(cfg, db, Start(row), world).0 == db
  {
    hide Canonical, Authentic, AttributedToActor, PutReaction, PutBlock, UpsertObject;
  }

  // ----- Likes, announces, blocks -----

  /** The pair `key` gets the activity id, unless that is blank or another pair's; no other row changes. */
  ghost predicate Recorded(before: Interactions, after: Interactions, ok: bool, key: (string, string), id: string) {
    && (ok <==> id != "" && forall k | k in before && before[k] == id :: k == key)
    && (forall k :: k in after <==> k in before || (ok && k == key))
    && (forall k | k in after :: after[k] == if ok && k == key then id else before[k])
  }

  /** An addressed reaction with a target is recorded for its actor, in the table of its kind and in no other. */
  lemma ReactionIsRecorded(cfg: Instance, db: Db, row: ActivityRow, world: World, target: string)
    requires row.doc.kind in {Like, Announce, Block} && row.doc.addressed && row.doc.ObjectIri() == Some(target)
    ensures var (n, ok) := RunTask(cfg, db, Start(row), world);
            match row.doc.kind
            case Like => Recorded(db.likes, n.likes, ok, (row.actor, target), row.doc.id) && n == db.(likes := n.likes)
            case Announce =>
              Recorded(db.announces, n.announces, ok, (row.actor, target), row.doc.id)
              && n == db.(announces := n.announces)
            case _ =>
              Recorded(db.blocks, n.blocks, ok, (row.actor, Canonical(target)), row.doc.id)
              && n == db.(blocks := n.blocks)
  {
    hide Canonical, Recorded, PutInteraction;
    PutIsRecorded(db.likes, row.actor, target, row.doc.id);
    PutIsRecorded(db.announces, row.actor, target, row.doc.id);
    PutIsRecorded(db.blocks, row.actor, Canonical(target), row.doc.id);
  }

  lemma PutIsRecorded(m: Interactions, actor: string, obj: string, id: string)
    ensures var r := PutInteraction(m, actor, obj, id);
            Recorded(m, if r.Ok? then r.value else m, r.Ok?, (actor, obj), id)
  {
  }

  // ----- Follow, Accept, Reject, Undo -----

  /** Whether the upsert of the pair passes the unique index on follow ids. */
  ghost predicate FollowFits(follows: map<(string, string), Edge>, pair: (string, string), id: string) {
    id != "" && forall p | p in follows && follows[p].id == id :: p == pair
  }

  /** Without auto-accept a follow of a local actor is left pending for its pair, and nothing else changes. */
  lemma FollowWaitsForAnAnswer(cfg: Instance, db: Db, row: ActivityRow, world: World, target: string)
    requires row.doc.kind == Follow && !cfg.autoAccept && row.doc.ObjectIri() == Some(target)
    ensures RunTask(cfg, db, Start(row), world) ==
              match cfg.localFollowee(target)
              case None => (db, false)
              case Some(followee) =>
                if !FollowFits(db.follows, (row.actor, followee), row.doc.id) then (db, false)
                else (db.(follows := db.follows[(row.actor, followee) := Edge(Pending, row.doc.id)]), true)
  {
  }

  /** With it, the Accept queued is by the followee, about this follow, to its actor's inbox and due at once. */
  lemma FollowQueuesItsAccept(cfg: Instance, db: Db, row: ActivityRow, world: World, followee: string)
    requires cfg.isLocal(followee) && world.inbox(row.actor).Some?
    requires !SqlQueue.KeyTaken(db.jobs, AcceptKey(row.doc.id, world.inbox(row.actor).value))
    ensures var (n, progress) := StepTask(cfg, db, FollowEnqueue(row, followee), world);
            && progress == Continue(FollowMark(row)) && n == db.(jobs := n.jobs)
            && n.jobs.rows.Keys == db.jobs.rows.Keys + {db.jobs.nextId}
            && var job := n.jobs.rows[db.jobs.nextId];
            && job.kind == SqlQueue.DeliverActivity && job.status == SqlQueue.Pending && job.runAfter == world.now
            && job.payload.DeliverPayload? && job.payload.inbox == world.inbox(row.actor).value
            && job.payload.user == followee && job.payload.body.actor == followee
            && job.payload.body.kind == Accept && job.payload.body.obj == Iri(row.doc.id)
  {
    hide SqlQueue.KeyTaken, AcceptKey;
  }

  /** The followee's answer decides the state of the follow it names, whatever it was; anybody else's fails. */
  lemma AnswerDecidesTheFollow(cfg: Instance, db: Db, row: ActivityRow, world: World, p: (string, string))
    requires row.doc.kind in {Accept, Reject} && UniqueFollowIds(db.follows) && p in db.follows
    requires row.doc.ObjectIri() == Some(db.follows[p].id)
    ensures var edge := Edge(if row.doc.kind == Accept then Accepted else Rejected, db.follows[p].id);
            RunTask(cfg, db, Start(row), world) ==
              if row.actor == p.1 then (db.(follows := db.follows[p := edge]), true) else (db, false)
  {
    assert FollowWithId(db.follows, db.follows[p].id, p);
    assert FindFollow(db.follows, db.follows[p].id) == Some(p);
    if row.actor == p.1 {
      var state := if row.doc.kind == Accept then Accepted else Rejected;
      var task := SetState(row, db.follows[p].id, p.0, state);
      RunGoesOn(cfg, db, Start(row), world, db, task);
      assert SetFollowState(db.follows, db.follows[p].id, state, p.0) ==
             db.follows[p := Edge(state, db.follows[p].id)];
    }
  }

  lemma UnknownAnswerIsIgnored(cfg: Instance, db: Db, row: ActivityRow, world: World, target: string)
    requires row.doc.kind in {Accept, Reject} && row.doc.ObjectIri() == Some(target)
    requires forall p | p in db.follows :: db.follows[p].id != target
    ensures RunTask(cfg, db, Start(row), world) == (db, true)
  {
    assert forall p :: !FollowWithId(db.follows, target, p);
  }

  /** Exactly the rows of `actor` with that activity id are gone. */
  ghost predicate Gone(before: Db, after: Db, actor: string, id: string) {
    && after == before.(follows := after.follows, likes := after.likes, announces := after.announces,
                        blocks := after.blocks)
    && (forall p :: p in after.follows <==> p in before.follows && !(before.follows[p].id == id && p.0 == actor))
    && (forall p | p in after.follows :: after.follows[p] == before.follows[p])
    && RowsGone(before.likes, after.likes, actor, id) && RowsGone(before.announces, after.announces, actor, id)
    && RowsGone(before.blocks, after.blocks, actor, id)
  }

  ghost predicate RowsGone(before: Interactions, after: Interactions, actor: string, id: string) {
    && (forall k :: k in after <==> k in before && !(before[k] == id && k.0 == actor))
    && (forall k | k in after :: after[k] == before[k])
  }

  lemma EverywhereIsGone(db: Db, actor: string, id: string)
    ensures Gone(db, DeleteEverywhere(db, id, actor), actor, id)
  {
  }

  /** An Undo of a bare IRI removes exactly its actor's rows with that activity id. */
  lemma UndoRemovesTheActorsRows(cfg: Instance, db: Db, row: ActivityRow, world: World)
    requires DbOk(cfg, db) && row.doc.kind == Undo && row.doc.obj.Iri? && row.doc.obj.iri != ""
    ensures var (n, ok) := RunTask(cfg, db, Start(row), world);
            ok && Gone(db, n, row.actor, row.doc.obj.iri)
  {
    hide DbOk, DeleteTyped, UndoCascade, Gone, DeleteEverywhere;
    var target := row.doc.obj.iri;
    RunGoesOn(cfg, db, Start(row), world, db, UndoFrom(row, target, 0));
    UndoRunsTheCascade(cfg, db, row, target, 0, world);
    CascadeDeletesEverywhere(cfg, db, target, row.actor);
    EverywhereIsGone(db, row.actor, target);
  }

  // ----- Received activities -----

  /**
    The shared inbox refuses a document without an id or a usable actor, accepts one it has, and stores any other
    for its actor, with a job to process it, unless that job's key is taken.
   */
  lemma ReceiveStoresIff(cfg: Instance, db: Db, doc: Activity, now: int)
    ensures var r := Receive(cfg, db, doc, now);
            if TrimSpace(doc.id) == "" || doc.actor == "" || !cfg.usableActor(doc.actor) then r.Err?
            else if doc.id in db.activities then r == Ok(db)
            else if exists i | i in db.jobs.rows :: db.jobs.rows[i].key == doc.id then r.Err?
            else
              var row := ActivityRow(db.nextDbId, TrimRight(doc.actor, '/'), doc, Inbound);
              var job := SqlQueue.NewRow(
                SqlQueue.NewJob(SqlQueue.ProcessInboxActivity, ProcessPayload(db.nextDbId), doc.id, None), now);
              r == Ok(db.(activities := db.activities[doc.id := row], nextDbId := db.nextDbId + 1,
                          jobs := SqlQueue.Table(db.jobs.rows[db.jobs.nextId := job], db.jobs.nextId + 1)))
  {
    hide TrimRight;
    assert TrimSpace("") == "";
    hide TrimSpace;
  }

  // ----- Posted activities -----

  /** No row of the queue has the key of a deliver job for one of the inboxes. */
  ghost predicate Undelivered(jobs: SqlQueue.Table, id: string, inboxes: seq<string>) {
    forall i, inbox | i in jobs.rows && inbox in inboxes :: jobs.rows[i].key != id + "|" + inbox
  }

  lemma {:induction false} DeliveriesFitIff(jobs: SqlQueue.Table, row: ActivityRow, inboxes: seq<string>, now: int)
    requires SqlQueue.WellFormed(jobs)
    ensures EnqueueDeliveries(jobs, row, inboxes, now).Ok? <==>
              NoDuplicates(inboxes) && Undelivered(jobs, row.doc.id, inboxes)
    ensures EnqueueDeliveries(jobs, row, inboxes, now).Ok? ==>
              var t := EnqueueDeliveries(jobs, row, inboxes, now).value;
              SqlQueue.KeyTaken(t, row.doc.id) <==> SqlQueue.KeyTaken(jobs, row.doc.id)
    decreases |inboxes|
  {
    if inboxes != [] {
      var r := SqlQueue.Insert(jobs, DeliverJob(row, inboxes[0]), now);
      assert inboxes == [inboxes[0]] + inboxes[1..];
      if r.Ok? {
        SqlQueue.InsertKeepsWellFormed(jobs, DeliverJob(row, inboxes[0]), now);
        DeliveriesFitIff(r.value, row, inboxes[1..], now);
        OneMoreDelivery(jobs, r.value, row, inboxes, now);
        assert |DeliverKey(row.doc.id, inboxes[0])| > |row.doc.id|;
        OtherKeysStay(jobs, DeliverJob(row, inboxes[0]), now, row.doc.id);
      }
    }
  }

  lemma OtherKeysStay(jobs: SqlQueue.Table, job: SqlQueue.NewJob, now: int, key: string)
    requires SqlQueue.WellFormed(jobs) && SqlQueue.Insert(jobs, job, now).Ok? && job.key != key
    ensures SqlQueue.KeyTaken(SqlQueue.Insert(jobs, job, now).value, key) <==> SqlQueue.KeyTaken(jobs, key)
  {
    var t := SqlQueue.Insert(jobs, job, now).value;
    assert forall i | i in jobs.rows :: i in t.rows && t.rows[i] == jobs.rows[i];
  }

  lemma OneMoreDelivery(jobs: SqlQueue.Table, more: SqlQueue.Table, row: ActivityRow, inboxes: seq<string>, now: int)
    requires inboxes != [] && SqlQueue.WellFormed(jobs)
    requires SqlQueue.Insert(jobs, DeliverJob(row, inboxes[0]), now) == Ok(more)
    ensures NoDuplicates(inboxes[1..]) && Undelivered(more, row.doc.id, inboxes[1..]) <==>
              NoDuplicates(inboxes) && Undelivered(jobs, row.doc.id, inboxes)
  {
    var id, first, tail := row.doc.id, inboxes[0], inboxes[1..];
    forall inbox | id + "|" + inbox == id + "|" + first ensures inbox == first {
      assert (id + "|" + inbox)[|id| + 1..] == inbox && (id + "|" + first)[|id| + 1..] == first;
    }
    assert more.rows[jobs.nextId].key == id + "|" + first && jobs.nextId !in jobs.rows;
    assert forall i | i in jobs.rows :: i in more.rows && more.rows[i] == jobs.rows[i];
    assert inboxes == [first] + tail;
    if NoDuplicates(tail) && Undelivered(more, id, tail) {
      assert first !in tail;
      assert !SqlQueue.KeyTaken(jobs, DeliverKey(id, first));
    }
    if NoDuplicates(inboxes) && Undelivered(jobs, id, inboxes) {
      assert forall i, j | 0 <= i < j < |tail| :: tail[i] == inboxes[i + 1] && tail[j] == inboxes[j + 1];
      assert first !in tail;
    }
  }

  /**
    The outbox refuses a document without an id or of another actor, accepts one it has, and any other whose
    effects succeed, unless a job's key is taken: one deliver job per inbox, and one to process a local follow.
   */
  lemma PostStoresIff(cfg: Instance, db: Db, user: string, doc: Activity, inboxes: seq<string>, now: int)
    requires SqlQueue.WellFormed(db.jobs)
    ensures var r := Post(cfg, db, user, doc, inboxes, now);
            if TrimSpace(doc.id) == "" || TrimRight(doc.actor, '/') != TrimRight(user, '/') then r.Err?
            else if doc.id in db.activities then r == Ok(db)
            else
              var effects := OutboxEffects(cfg, InsertActivity(db, user, doc, Outbox(inboxes)).value, user, doc);
              r.Ok? <==>
                && effects.Ok? && NoDuplicates(inboxes) && Undelivered(db.jobs, doc.id, inboxes)
                && (effects.value.1 ==> forall i | i in db.jobs.rows :: db.jobs.rows[i].key != doc.id)
  {
    hide OutboxEffects, TrimSpace, TrimRight;
    var row := ActivityRowFor(db, user, doc, Outbox(inboxes));
    DeliveriesFitIff(db.jobs, row, inboxes, now);
    var stored := InsertActivity(db, user, doc, Outbox(inboxes));
    if stored.Some? && OutboxEffects(cfg, stored.value, user, doc).Ok? {
      EffectsKeepActivities(cfg, stored.value, user, doc);
      BlankIsBlank(doc.id);
    }
  }

  lemma BlankIsBlank(id: string)
    ensures id == "" ==> TrimSpace(id) == ""
  {
  }

  /** Activities other than follows, reactions and undos have no effect of their own. */
  lemma OtherPostsHaveNoEffect(cfg: Instance, db: Db, user: string, doc: Activity)
    requires doc.kind !in {Follow, Like, Announce, Undo}
    ensures OutboxEffects(cfg, db, user, doc) == Ok((db, false))
  {
  }

  /** A posted Undo removes exactly the user's rows with the id it names, bare or embedded; it must name one. */
  lemma PostedUndoRemovesTheUsersRows(cfg: Instance, db: Db, user: string, doc: Activity)
    requires DbOk(cfg, db) && doc.kind == Undo
    ensures var id := if doc.obj.NoObject? then "" else TrimSpace(if doc.obj.Iri? then doc.obj.iri else doc.obj.id);
            if id == "" then OutboxEffects(cfg, db, user, doc).Err?
            else OutboxEffects(cfg, db, user, doc).Ok? && !OutboxEffects(cfg, db, user, doc).value.1
                 && Gone(db, OutboxEffects(cfg, db, user, doc).value.0, user, id)
  {
    hide DbOk, UndoCascade, Gone, DeleteEverywhere, TrimSpace;
    var target := UndoTarget(doc);
    if target.Some? {
      CascadeDeletesEverywhere(cfg, db, target.value, user);
      EverywhereIsGone(db, user, target.value);
    }
  }

  /** A posted Like or Announce is recorded for the user and the canonical form of its object. */
  lemma PostedReactionIsRecorded(cfg: Instance, db: Db, user: string, doc: Activity, target: string)
    requires doc.kind in {Like, Announce} && doc.ObjectIri() == Some(target)
    ensures var r := OutboxEffects(cfg, db, user, doc); var n := if r.Ok? then r.value.0 else db;
            var ok := Canonical(target) != "" && r.Ok?;
            && (r.Ok? ==> !r.value.1 && Canonical(target) != "")
            && (Canonical(target) != "" ==>
                  if doc.kind == Like
                  then Recorded(db.likes, n.likes, ok, (user, Canonical(target)), doc.id) && n == db.(likes := n.likes)
                  else Recorded(db.announces, n.announces, ok, (user, Canonical(target)), doc.id)
                       && n == db.(announces := n.announces))
  {
    hide Canonical;
  }

  /**
    A posted follow of a local actor or of a remote one that can be resolved: its edge is left pending for the
    remote answer, or to the local handler; nobody follows themselves.
   */
  lemma PostedFollowWaits(cfg: Instance, db: Db, user: string, doc: Activity, target: string)
    requires doc.kind == Follow && doc.ObjectIri() == Some(target)
    ensures var remote := Canonical(target);
            var followee := if cfg.localFollowee(target).Some? then cfg.localFollowee(target).value else remote;
            var known := cfg.localFollowee(target).Some? || (!cfg.onOwnHost(target) && cfg.usableActor(remote));
            OutboxEffects(cfg, db, user, doc) ==
              if !known || followee == user then Err
              else if cfg.isLocalFollowObject(remote) then Ok((db, true))
              else if !FollowFits(db.follows, (user, followee), doc.id) then Err
              else Ok((db.(follows := db.follows[(user, followee) := Edge(PendingRemote, doc.id)]), false))
  {
    hide Canonical;
  }
}
