/**
  Two instances running this code and a network between them that may lose, duplicate,
  reorder and misroute messages, and carry anything else third parties send.

  Signatures are ideal: a request that names an actor of the other instance passes
  verification only if that instance signed this very body before.
 */
module TwoInstances {
  import opened Wrappers
  import opened Text
  import opened Vocabulary
  import opened Tables
  import opened Inbox
  import opened Transactions
  import opened Federation
  import opened Guarantees
  import SqlQueue

  /** `sentHome` and `sentAway` are the bodies either instance has ever put on the wire. */
  datatype Pair = Pair(home: Server, away: Server, sentHome: set<Activity>, sentAway: set<Activity>)

  datatype Event =
    | AtHome(a: Action)
    | AtAway(a: Action)
    | HomeSends(job: nat)      // a worker runs this delivery job, perhaps not for the first time
    | AwaySends(job: nat)

  /** SharedInbox's signature check, against the bodies the other instance signed. */
  predicate Admissible(other: Instance, sent: set<Activity>, a: Action) {
    a.Deliver? && other.isLocal(TrimRight(a.doc.actor, '/')) ==> a.doc in sent
  }

  function Bodies(s: Server, job: nat): set<Activity> {
    if job in s.db.jobs.rows && s.db.jobs.rows[job].payload.DeliverPayload? then {s.db.jobs.rows[job].payload.body}
    else {}
  }

  ghost function Next2(home: Instance, away: Instance, p: Pair, e: Event): Pair {
    match e
    case AtHome(a) => if Admissible(away, p.sentAway, a) then p.(home := Federation.Next(home, p.home, a)) else p
    case AtAway(a) => if Admissible(home, p.sentHome, a) then p.(away := Federation.Next(away, p.away, a)) else p
    case HomeSends(job) => p.(sentHome := p.sentHome + Bodies(p.home, job))
    case AwaySends(job) => p.(sentAway := p.sentAway + Bodies(p.away, job))
  }

  ghost function Exec2(home: Instance, away: Instance, p: Pair, run: seq<Event>): Pair
    decreases |run|
  {
    if run == [] then p else Exec2(home, away, Next2(home, away, p, run[0]), run[1..])
  }

  const START: Pair := Pair(INITIAL, INITIAL, {}, {})

  /** Nobody at the away instance posts an Accept by hand. */
  predicate NoHandWrittenAccept(e: Event) {
    !(e.AtAway? && e.a.PostOutbox? && e.a.doc.kind == Accept)
  }

  /** Local actor URLs are stored without a trailing slash. */
  ghost predicate CanonicalFollowees(cfg: Instance) {
    forall iri | cfg.localFollowee(iri).Some? ::
      TrimRight(cfg.localFollowee(iri).value, '/') == cfg.localFollowee(iri).value
  }

  // ----- Where stored activities come from -----

  /** Outbox rows are by the local actor they name; inbound rows of the other instance's actors were signed there. */
  ghost predicate OriginOk(own: Instance, other: Instance, sent: set<Activity>, row: ActivityRow) {
    if row.origin.Outbox? then own.isLocal(row.actor) && TrimRight(row.doc.actor, '/') == TrimRight(row.actor, '/')
    else row.actor == TrimRight(row.doc.actor, '/') && (other.isLocal(row.actor) ==> row.doc in sent)
  }

  ghost predicate OriginsOk(own: Instance, other: Instance, sent: set<Activity>, activities: Activities) {
    forall id | id in activities :: OriginOk(own, other, sent, activities[id])
  }

  ghost predicate NoAcceptPosted(activities: Activities) {
    forall id | id in activities :: activities[id].origin.Outbox? ==> activities[id].doc.kind != Accept
  }

  ghost predicate SentByJobs(s: Server, sent: set<Activity>) {
    forall doc | doc in sent ::
      exists i | i in s.db.jobs.rows ::
        s.db.jobs.rows[i].payload.DeliverPayload? && s.db.jobs.rows[i].payload.body == doc
  }

  ghost predicate Inv2(home: Instance, away: Instance, p: Pair) {
    && Federation.Inv(home, p.home) && Federation.Inv(away, p.away)
    && OriginsOk(home, away, p.sentAway, p.home.db.activities)
    && OriginsOk(away, home, p.sentHome, p.away.db.activities)
    && NoAcceptPosted(p.away.db.activities)
    && SentByJobs(p.home, p.sentHome) && SentByJobs(p.away, p.sentAway)
  }

  lemma ReactionAddsNoActivity(db: Db, row: ActivityRow)
    ensures StartReaction(db, row).0.activities == db.activities
  {
    hide PutReaction, PutBlock;
  }

  lemma WritingAddsNoActivity(db: Db, row: ActivityRow, world: World)
    ensures StartCreate(db, row, world).0.activities == db.activities
    ensures StartUpdate(db, row).0.activities == db.activities
    ensures StartDelete(db, row).0.activities == db.activities
  {
    hide Authentic, AttributedToActor, CreatedObject, UpsertObject, Owner;
  }

  lemma StartAddsNoActivity(cfg: Instance, db: Db, row: ActivityRow, world: World)
    ensures StartTask(cfg, db, row, world).0.activities == db.activities
  {
    hide StartReaction, StartCreate, StartUpdate, StartDelete, DeleteFollow, DeleteById, FindFollow, PutFollow;
    ReactionAddsNoActivity(db, row);
    WritingAddsNoActivity(db, row, world);
  }

  lemma UndoAndEnqueueAddNoActivity(cfg: Instance, db: Db, row: ActivityRow, followee: string, table: nat, world: World)
    ensures EnqueueAccept(cfg, db, row, followee, world).0.activities == db.activities
    ensures UndoStep(db, row, followee, table).0.activities == db.activities
  {
    hide DeleteFollow, DeleteById, AcceptJob, SqlQueue.Insert;
  }

  lemma StepAddsNoActivity(cfg: Instance, db: Db, task: Task, world: World)
    ensures StepTask(cfg, db, task, world).0.activities == db.activities
  {
    hide StartTask, EnqueueAccept, UndoStep, UpsertObject, SoftDelete, SetFollowState;
    match task {
      case Start(row) => StartAddsNoActivity(cfg, db, row, world);
      case FollowEnqueue(row, followee) => UndoAndEnqueueAddNoActivity(cfg, db, row, followee, 0, world);
      case UndoFrom(row, target, table) => UndoAndEnqueueAddNoActivity(cfg, db, row, target, table, world);
      case _ =>
    }
  }

  lemma ReceiveStores(cfg: Instance, db: Db, doc: Activity, now: int, id: string)
    requires Receive(cfg, db, doc, now).Ok? && id in Receive(cfg, db, doc, now).value.activities && id !in db.activities
    ensures var row := Receive(cfg, db, doc, now).value.activities[id];
            row.doc == doc && row.origin == Inbound && row.actor == TrimRight(doc.actor, '/')
  {
    hide SqlQueue.Insert, TrimSpace, TrimRight;
  }

  lemma PostStores(cfg: Instance, db: Db, user: string, doc: Activity, inboxes: seq<string>, now: int, id: string)
    requires Post(cfg, db, user, doc, inboxes, now).Ok? && id !in db.activities
    requires id in Post(cfg, db, user, doc, inboxes, now).value.activities
    ensures var row := Post(cfg, db, user, doc, inboxes, now).value.activities[id];
            && row.doc == doc && row.origin.Outbox? && row.actor == user
            && TrimRight(doc.actor, '/') == TrimRight(user, '/')
  {
    hide OutboxEffects, EnqueueDeliveries, SqlQueue.Insert, TrimSpace, TrimRight;
    if doc.id !in db.activities {
      var stored := InsertActivity(db, user, doc, Outbox(inboxes)).value;
      if OutboxEffects(cfg, stored, user, doc).Ok? {
        EffectsKeepActivities(cfg, stored, user, doc);
      }
    }
  }

  /** An action stores at most one activity: the one received or posted. */
  lemma NewActivities(cfg: Instance, s: Server, a: Action, id: string)
    requires id in Federation.Next(cfg, s, a).db.activities && id !in s.db.activities
    ensures var row := Federation.Next(cfg, s, a).db.activities[id];
            || (a.Deliver? && row.doc == a.doc && row.origin == Inbound && row.actor == TrimRight(a.doc.actor, '/'))
            || (a.PostOutbox? && row.doc == a.doc && row.origin.Outbox? && row.actor == a.user && cfg.isLocal(a.user)
                && TrimRight(row.doc.actor, '/') == TrimRight(row.actor, '/'))
  {
    hide Post, Receive, StepTask, TrimRight;
    match a {
      case Deliver(doc, now) => ReceiveStores(cfg, s.db, doc, now, id);
      case PostOutbox(user, doc, inboxes, now) => PostStores(cfg, s.db, user, doc, inboxes, now, id);
      case Advance(w, world) => StepAddsNoActivity(cfg, s.db, s.tasks[w], world);
      case _ =>
    }
  }

  lemma NextKeepsOrigins(own: Instance, other: Instance, s: Server, sent: set<Activity>, a: Action)
    requires Federation.Inv(own, s) && OriginsOk(own, other, sent, s.db.activities) && Admissible(other, sent, a)
    ensures OriginsOk(own, other, sent, Federation.Next(own, s, a).db.activities)
  {
    hide Federation.Inv, Federation.Next, TrimRight;
    NextKeepsInv(own, s, a);
    var n := Federation.Next(own, s, a);
    forall id | id in n.db.activities ensures OriginOk(own, other, sent, n.db.activities[id]) {
      if id in s.db.activities {
        assert OriginOk(own, other, sent, s.db.activities[id]);
      } else {
        NewActivities(own, s, a, id);
      }
    }
  }

  lemma NextKeepsSent(own: Instance, s: Server, sent: set<Activity>, a: Action)
    requires Federation.Inv(own, s) && SentByJobs(s, sent)
    ensures SentByJobs(Federation.Next(own, s, a), sent)
  {
    hide Federation.Inv, Federation.Next;
    NextKeepsInv(own, s, a);
    var n := Federation.Next(own, s, a);
    forall doc | doc in sent
      ensures exists i | i in n.db.jobs.rows ::
                n.db.jobs.rows[i].payload.DeliverPayload? && n.db.jobs.rows[i].payload.body == doc
    {
      var i :| i in s.db.jobs.rows && s.db.jobs.rows[i].payload.DeliverPayload?
               && s.db.jobs.rows[i].payload.body == doc;
      assert n.db.jobs.rows[i].payload == s.db.jobs.rows[i].payload;
    }
  }

  lemma NextPostsNoAccept(away: Instance, s: Server, a: Action)
    requires Federation.Inv(away, s) && NoAcceptPosted(s.db.activities) && NoHandWrittenAccept(AtAway(a))
    ensures NoAcceptPosted(Federation.Next(away, s, a).db.activities)
  {
    hide Federation.Inv, Federation.Next, TrimRight;
    NextKeepsInv(away, s, a);
    var n := Federation.Next(away, s, a);
    forall id | id in n.db.activities && n.db.activities[id].origin.Outbox?
      ensures n.db.activities[id].doc.kind != Accept
    {
      if id !in s.db.activities {
        NewActivities(away, s, a, id);
      }
    }
  }

  /** Sending more bodies takes nothing back. */
  lemma MoreSentKeepsOrigins(own: Instance, other: Instance, sent: set<Activity>, more: set<Activity>, acts: Activities)
    requires OriginsOk(own, other, sent, acts) && sent <= more
    ensures OriginsOk(own, other, more, acts)
  {
    hide TrimRight;
    forall id | id in acts ensures OriginOk(own, other, more, acts[id]) {
      assert OriginOk(own, other, sent, acts[id]);
    }
  }

  lemma Next2KeepsInv2(home: Instance, away: Instance, p: Pair, e: Event)
    requires Inv2(home, away, p) && NoHandWrittenAccept(e)
    ensures Inv2(home, away, Next2(home, away, p, e))
  {
    hide Federation.Inv, Federation.Next, OriginsOk, NoAcceptPosted;
    match e {
      case AtHome(a) =>
        if Admissible(away, p.sentAway, a) {
          NextKeepsInv(home, p.home, a);
          NextKeepsOrigins(home, away, p.home, p.sentAway, a);
          NextKeepsSent(home, p.home, p.sentHome, a);
        }
      case AtAway(a) =>
        if Admissible(home, p.sentHome, a) {
          NextKeepsInv(away, p.away, a);
          NextKeepsOrigins(away, home, p.away, p.sentHome, a);
          NextKeepsSent(away, p.away, p.sentAway, a);
          NextPostsNoAccept(away, p.away, a);
        }
      case HomeSends(job) =>
        MoreSentKeepsOrigins(away, home, p.sentHome, p.sentHome + Bodies(p.home, job), p.away.db.activities);
      case AwaySends(job) =>
        MoreSentKeepsOrigins(home, away, p.sentAway, p.sentAway + Bodies(p.away, job), p.home.db.activities);
    }
  }

  lemma {:induction false} Exec2KeepsInv2(home: Instance, away: Instance, p: Pair, run: seq<Event>)
    requires Inv2(home, away, p) && forall e | e in run :: NoHandWrittenAccept(e)
    ensures Inv2(home, away, Exec2(home, away, p, run))
    decreases |run|
  {
    hide Inv2, Next2;
    if run != [] {
      Next2KeepsInv2(home, away, p, run[0]);
      assert forall e | e in run[1..] :: e in run;
      Exec2KeepsInv2(home, away, Next2(home, away, p, run[0]), run[1..]);
    }
  }

  lemma FollowTargetIsCanonical(cfg: Instance, doc: Activity)
    requires CanonicalFollowees(cfg) && FollowTarget(cfg, doc).Some?
    ensures TrimRight(FollowTarget(cfg, doc).value, '/') == FollowTarget(cfg, doc).value
  {
    var iri := doc.ObjectIri().value;
    if cfg.localFollowee(iri).None? {
      var r := TrimRight(TrimSpace(iri), '/');
      assert TrimRight(r, '/') == r;
    }
  }

  /** A body naming `followee` that the away instance signed as an Accept of `id` came out of its follow handler. */
  lemma SignedAcceptWasEarned(away: Instance, s: Server, sent: set<Activity>, doc: Activity, followee: string,
                              id: string)
    requires Federation.Inv(away, s) && NoAcceptPosted(s.db.activities) && SentByJobs(s, sent)
    requires CanonicalFollowees(away)
    requires doc in sent && doc.kind == Accept && doc.ObjectIri() == Some(id) && TrimRight(doc.actor, '/') == followee
    ensures id in s.db.activities && s.db.activities[id].doc.kind == Follow
    ensures FollowTarget(away, s.db.activities[id].doc) == Some(followee)
    ensures AcceptQueued(away, s.db.jobs, followee, id)
  {
    hide SocialOk, FollowTarget, NeedsProcessing, AcceptKey, DeliverKey, TasksOk;
    var i :| i in s.db.jobs.rows && s.db.jobs.rows[i].payload.DeliverPayload? && s.db.jobs.rows[i].payload.body == doc;
    var job := s.db.jobs.rows[i];
    assert Provenance(away, s.db.activities, job);
    assert !FromOutbox(s.db.activities, job);
    assert !FromProcessing(away, s.db.activities, job);
    var f :| f in s.db.activities && s.db.activities[f].doc.kind == Follow
             && FollowTarget(away, s.db.activities[f].doc) == Some(job.payload.user)
             && IsAcceptJob(away, job, job.payload.user, f);
    assert doc == AcceptDoc(away, job.payload.user, f);
    assert f == id;
    FollowTargetIsCanonical(away, s.db.activities[f].doc);
    assert job.payload.user == followee;
  }

  /**
    Whenever the home instance shows a follow `id` of an actor of the away instance as accepted,
    the away instance has stored a follow of that actor under that id, whoever its author, and
    has run its handler far enough to queue the Accept.
   */
  lemma AcceptedFollowsWereHandled(home: Instance, away: Instance, run: seq<Event>, p: (string, string))
    requires CanonicalFollowees(away) && away.isLocal(p.1) && !home.isLocal(p.1)
    requires forall e | e in run :: NoHandWrittenAccept(e)
    requires p in Exec2(home, away, START, run).home.db.follows
    requires Exec2(home, away, START, run).home.db.follows[p].state == Accepted
    ensures var s := Exec2(home, away, START, run); var id := s.home.db.follows[p].id;
            && id in s.away.db.activities
            && s.away.db.activities[id].doc.kind == Follow
            && FollowTarget(away, s.away.db.activities[id].doc) == Some(p.1)
            && AcceptQueued(away, s.away.db.jobs, p.1, id)
  {
    hide FollowTarget, JobsOk, EdgesOk, TasksOk;
    InitialInv(home);
    InitialInv(away);
    Exec2KeepsInv2(home, away, START, run);
    var s := Exec2(home, away, START, run);
    var db := s.home.db;
    var id := db.follows[p].id;
    assert HasEvidence(home, db, p, db.follows[p]);
    var x :| x in db.activities && db.activities[x].doc.kind == Accept && db.activities[x].actor == p.1
             && db.activities[x].doc.ObjectIri() == Some(id);
    assert OriginOk(home, away, s.sentAway, db.activities[x]);
    SignedAcceptWasEarned(away, s.away, s.sentAway, db.activities[x].doc, p.1, id);
  }

  // ----- When the two instances mean the same follow -----

  /** No actor is local to both instances. */
  ghost predicate Apart(home: Instance, away: Instance) {
    forall actor :: !(home.isLocal(actor) && away.isLocal(actor))
  }

  lemma FollowJobIsFromOutbox(home: Instance, activities: Activities, job: SqlQueue.Job)
    requires Provenance(home, activities, job) && job.payload.DeliverPayload? && job.payload.body.kind == Follow
    ensures FromOutbox(activities, job)
  {
    hide FollowTarget, NeedsProcessing, AcceptKey, DeliverKey;
  }

  lemma DeliverJobCarriesDocument(job: SqlQueue.Job, row: ActivityRow, inbox: string)
    requires IsDeliverJob(job, row, inbox)
    ensures job.payload.DeliverPayload? && job.payload.body == row.doc
  {
  }

  lemma JobHasProvenance(home: Instance, s: Server, i: nat)
    requires Federation.Inv(home, s) && i in s.db.jobs.rows
    ensures Provenance(home, s.db.activities, s.db.jobs.rows[i])
  {
    hide SocialOk, TasksOk, Provenance, SqlQueue.WellFormed;
  }

  /** A Follow that the home instance signed is one of its own outbox activities. */
  lemma SignedFollowIsPosted(home: Instance, s: Server, sent: set<Activity>, doc: Activity)
    requires Federation.Inv(home, s) && SentByJobs(s, sent) && doc in sent && doc.kind == Follow
    ensures doc.id in s.db.activities && s.db.activities[doc.id].doc == doc && s.db.activities[doc.id].origin.Outbox?
  {
    hide Federation.Inv, Provenance, DeliverKey;
    var i :| i in s.db.jobs.rows && s.db.jobs.rows[i].payload.DeliverPayload? && s.db.jobs.rows[i].payload.body == doc;
    var job := s.db.jobs.rows[i];
    JobHasProvenance(home, s, i);
    FollowJobIsFromOutbox(home, s.db.activities, job);
    var f :| f in s.db.activities && s.db.activities[f].origin.Outbox?
             && IsDeliverJob(job, s.db.activities[f], job.payload.inbox);
    DeliverJobCarriesDocument(job, s.db.activities[f], job.payload.inbox);
    StoredUnderOwnId(home, s, f);
  }

  lemma StoredUnderOwnId(cfg: Instance, s: Server, id: string)
    requires Federation.Inv(cfg, s) && id in s.db.activities
    ensures s.db.activities[id].doc.id == id
  {
    hide EdgesOk, EvidenceOk, JobsOk, TasksOk;
  }

  /** What the away instance stores under the id is the home follow exactly if it is by a home actor. */
  lemma StoredFollowIsTheSignedOne(home: Instance, away: Instance, p: Pair, follower: string, id: string)
    requires Inv2(home, away, p) && Apart(home, away)
    requires id in p.home.db.activities && p.home.db.activities[id].actor == follower
    requires id in p.away.db.activities && p.away.db.activities[id].doc.kind == Follow
    requires home.isLocal(follower) && TrimRight(follower, '/') == follower
    ensures home.isLocal(p.away.db.activities[id].actor) <==> p.away.db.activities[id].actor == follower
    ensures home.isLocal(p.away.db.activities[id].actor) ==>
              p.away.db.activities[id].doc == p.home.db.activities[id].doc
  {
    hide Federation.Inv, TrimRight;
    var row := p.away.db.activities[id];
    assert OriginOk(away, home, p.sentHome, row);
    if home.isLocal(row.actor) {
      assert row.origin.Inbound? && row.doc in p.sentHome;
      StoredUnderOwnId(away, p.away, id);
      SignedFollowIsPosted(home, p.home, p.sentHome, row.doc);
      assert OriginOk(home, away, p.sentAway, p.home.db.activities[id]);
    }
  }

  /** The follow shown at the home instance: by the edge's follower, stored there. */
  lemma ShownFollowIsStored(home: Instance, s: Server, p: (string, string))
    requires Federation.Inv(home, s) && p in s.db.follows
    ensures s.db.follows[p].id in s.db.activities && s.db.activities[s.db.follows[p].id].actor == p.0
  {
    hide EvidenceOk, JobsOk, TasksOk, FollowTarget;
    assert FollowNamesActivity(home, s.db.activities, p, s.db.follows[p]);
  }

  /**
    Agreement, exactly: a follow by a local actor of the home instance that is shown as accepted
    there is the very activity that the away instance stored under its id, and whose Accept it
    queued, if and only if what it stored is by an actor of the home instance at all.
   */
  lemma AcceptedFollowsAgreeIffIdIsHomes(home: Instance, away: Instance, run: seq<Event>, p: (string, string))
    requires CanonicalFollowees(away) && away.isLocal(p.1) && !home.isLocal(p.1) && Apart(home, away)
    requires home.isLocal(p.0) && TrimRight(p.0, '/') == p.0
    requires forall e | e in run :: NoHandWrittenAccept(e)
    requires p in Exec2(home, away, START, run).home.db.follows
    requires Exec2(home, away, START, run).home.db.follows[p].state == Accepted
    ensures var s := Exec2(home, away, START, run); var id := s.home.db.follows[p].id;
            && id in s.home.db.activities && id in s.away.db.activities
            && FollowTarget(away, s.away.db.activities[id].doc) == Some(p.1)
            && AcceptQueued(away, s.away.db.jobs, p.1, id)
            && (home.isLocal(s.away.db.activities[id].actor) <==> s.away.db.activities[id].actor == p.0)
            && (home.isLocal(s.away.db.activities[id].actor) <==>
                  s.away.db.activities[id].actor == p.0 && s.away.db.activities[id].doc == s.home.db.activities[id].doc)
  {
    hide FollowTarget, Federation.Inv, Exec2, AcceptQueued, TrimRight;
    InitialInv(home);
    InitialInv(away);
    Exec2KeepsInv2(home, away, START, run);
    AcceptedFollowsWereHandled(home, away, run, p);
    var s := Exec2(home, away, START, run);
    ShownFollowIsStored(home, s.home, p);
    StoredFollowIsTheSignedOne(home, away, s, p.0, s.home.db.follows[p].id);
  }

  // ----- A condition on the run -----

  /** Documents with this id reach the away instance only from actors of the home instance. */
  predicate OnlyFromHome(home: Instance, id: string, e: Event) {
    e.AtAway? ==>
      && (e.a.Deliver? && e.a.doc.id == id ==> home.isLocal(TrimRight(e.a.doc.actor, '/')))
      && (e.a.PostOutbox? ==> e.a.doc.id != id)
  }

  ghost predicate StoredFromHome(home: Instance, id: string, p: Pair) {
    id in p.away.db.activities ==> home.isLocal(p.away.db.activities[id].actor)
  }

  lemma Next2KeepsStoredFromHome(home: Instance, away: Instance, p: Pair, e: Event, id: string)
    requires Inv2(home, away, p) && NoHandWrittenAccept(e) && StoredFromHome(home, id, p) && OnlyFromHome(home, id, e)
    ensures StoredFromHome(home, id, Next2(home, away, p, e))
  {
    hide Federation.Inv, Federation.Next, OriginsOk, TrimRight;
    if e.AtAway? && Admissible(home, p.sentHome, e.a) {
      NextKeepsInv(away, p.away, e.a);
      var n := Federation.Next(away, p.away, e.a);
      if id in n.db.activities && id !in p.away.db.activities {
        NewActivities(away, p.away, e.a, id);
        StoredUnderOwnId(away, n, id);
      }
    }
  }

  lemma {:induction false} Exec2KeepsStoredFromHome(home: Instance, away: Instance, p: Pair, run: seq<Event>,
                                                    id: string)
    requires Inv2(home, away, p) && StoredFromHome(home, id, p)
    requires forall e | e in run :: NoHandWrittenAccept(e) && OnlyFromHome(home, id, e)
    ensures StoredFromHome(home, id, Exec2(home, away, p, run))
    decreases |run|
  {
    hide Inv2, Next2, StoredFromHome, OnlyFromHome;
    if run != [] {
      Next2KeepsInv2(home, away, p, run[0]);
      Next2KeepsStoredFromHome(home, away, p, run[0], id);
      assert forall e | e in run[1..] :: e in run;
      Exec2KeepsStoredFromHome(home, away, Next2(home, away, p, run[0]), run[1..], id);
    }
  }

  /**
    Two-instance agreement: if documents with the follow's id reach the away instance only from
    actors of the home instance, an accepted follow of a home actor is stored there too, the
    same activity by the same follower, and its Accept was queued by the follow handler.
   */
  lemma AcceptedFollowsAgree(home: Instance, away: Instance, run: seq<Event>, p: (string, string))
    requires CanonicalFollowees(away) && away.isLocal(p.1) && !home.isLocal(p.1) && Apart(home, away)
    requires home.isLocal(p.0) && TrimRight(p.0, '/') == p.0
    requires p in Exec2(home, away, START, run).home.db.follows
    requires Exec2(home, away, START, run).home.db.follows[p].state == Accepted
    requires forall e | e in run ::
               NoHandWrittenAccept(e) && OnlyFromHome(home, Exec2(home, away, START, run).home.db.follows[p].id, e)
    ensures var s := Exec2(home, away, START, run); var id := s.home.db.follows[p].id;
            && id in s.home.db.activities && id in s.away.db.activities
            && s.away.db.activities[id].actor == p.0 && s.away.db.activities[id].doc == s.home.db.activities[id].doc
            && FollowTarget(away, s.away.db.activities[id].doc) == Some(p.1)
            && AcceptQueued(away, s.away.db.jobs, p.1, id)
  {
    hide FollowTarget, Federation.Inv, Exec2, AcceptQueued, TrimRight, OnlyFromHome;
    InitialInv(home);
    InitialInv(away);
    AcceptedFollowsAgreeIffIdIsHomes(home, away, run, p);
    var s := Exec2(home, away, START, run);
    Exec2KeepsStoredFromHome(home, away, START, run, s.home.db.follows[p].id);
  }
}
