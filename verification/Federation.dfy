/**
  One instance as a step system: requests arrive, local users post, and any number of
  workers run handlers statement by statement over the same tables.

  A worker may start on any stored activity at any time and give up at any point, which
  covers every schedule the job queue allows, including retries and crashes.
 */
module Federation {
  import opened Wrappers
  import opened Text
  import opened Vocabulary
  import opened Tables
  import opened Inbox
  import opened Transactions
  import SqlQueue

  datatype Server = Server(db: Db, tasks: map<nat, Task>)

  datatype Action =
    | Deliver(doc: Activity, now: int)                                      // POST to the shared inbox
    | PostOutbox(user: string, doc: Activity, inboxes: seq<string>, now: int)
    | Begin(w: nat, id: string)                                             // a worker loads an activity
    | Advance(w: nat, world: World)                                         // and runs its next statement
    | Abandon(w: nat)
    | MoveJobs(jobs: SqlQueue.Table)                                        // dequeue, ack, nack

  /** Queue statements other than INSERT change no job's kind, payload or key. */
  ghost predicate SameJobs(t: SqlQueue.Table, u: SqlQueue.Table) {
    && u.rows.Keys == t.rows.Keys && u.nextId == t.nextId
    && forall i | i in t.rows ::
         u.rows[i].kind == t.rows[i].kind && u.rows[i].payload == t.rows[i].payload && u.rows[i].key == t.rows[i].key
  }

  ghost function AfterStep(s: Server, w: nat, step: (Db, Progress)): Server {
    Server(step.0, if step.1.Continue? then s.tasks[w := step.1.task] else s.tasks - {w})
  }

  ghost function Next(cfg: Instance, s: Server, a: Action): Server {
    match a
    case Deliver(doc, now) =>
      (match Receive(cfg, s.db, doc, now)
       case Ok(db) => s.(db := db)
       case Err => s)
    case PostOutbox(user, doc, inboxes, now) =>
      if !cfg.isLocal(user) then s
      else
        (match Post(cfg, s.db, user, doc, inboxes, now)
         case Ok(db) => s.(db := db)
         case Err => s)
    case Begin(w, id) =>
      if id in s.db.activities && w !in s.tasks then s.(tasks := s.tasks[w := Start(s.db.activities[id])]) else s
    case Advance(w, world) =>
      if w in s.tasks then AfterStep(s, w, StepTask(cfg, s.db, s.tasks[w], world)) else s
    case Abandon(w) => s.(tasks := s.tasks - {w})
    case MoveJobs(jobs) => if SameJobs(s.db.jobs, jobs) then s.(db := s.db.(jobs := jobs)) else s
  }

  ghost function Exec(cfg: Instance, s: Server, run: seq<Action>): Server
    decreases |run|
  {
    if run == [] then s else Exec(cfg, Next(cfg, s, run[0]), run[1..])
  }

  const INITIAL: Server := Server(Db(map[], 0, map[], map[], map[], map[], map[], SqlQueue.EMPTY), map[])

  // ----- The invariant -----

  type Activities = map<string, ActivityRow>

  ghost predicate ActivitiesOk(db: Db) {
    && (forall id | id in db.activities ::
          id != "" && db.activities[id].doc.id == id && db.activities[id].dbId < db.nextDbId)
    && (forall id, jd | id in db.activities && jd in db.activities
                        && db.activities[id].dbId == db.activities[jd].dbId :: id == jd)
  }

  ghost predicate FollowNamesActivity(cfg: Instance, activities: Activities, p: (string, string), edge: Edge) {
    && edge.id in activities
    && activities[edge.id].doc.kind == Follow
    && activities[edge.id].actor == p.0
    && FollowTarget(cfg, activities[edge.id].doc) == Some(p.1)
  }

  ghost predicate FollowsNameActivities(cfg: Instance, activities: Activities, follows: map<(string, string), Edge>) {
    forall p | p in follows :: FollowNamesActivity(cfg, activities, p, follows[p])
  }

  ghost predicate RowsNameActivities(activities: Activities, m: Interactions, kind: Kind) {
    && UniqueIds(m)
    && forall k | k in m ::
         m[k] in activities && activities[m[k]].doc.kind == kind && activities[m[k]].actor == k.0
  }

  /** Every edge names a stored activity of its own actor and of its table's kind. */
  ghost predicate EdgesOk(cfg: Instance, db: Db) {
    && FollowsNameActivities(cfg, db.activities, db.follows)
    && RowsNameActivities(db.activities, db.likes, Like)
    && RowsNameActivities(db.activities, db.announces, Announce)
    && RowsNameActivities(db.activities, db.blocks, Block)
  }

  /** `who` has answered the follow `id` with a stored Accept or Reject. */
  ghost predicate Answered(activities: Activities, kind: Kind, who: string, id: string) {
    exists a | a in activities ::
      activities[a].doc.kind == kind && activities[a].actor == who && activities[a].doc.ObjectIri() == Some(id)
  }

  predicate IsAcceptJob(cfg: Instance, job: SqlQueue.Job, followee: string, id: string) {
    && job.kind.DeliverActivity?
    && job.payload.DeliverPayload?
    && job.payload.body == AcceptDoc(cfg, followee, id)
    && job.payload.user == followee
    && job.key == AcceptKey(id, job.payload.inbox)
  }

  ghost predicate AcceptQueued(cfg: Instance, jobs: SqlQueue.Table, followee: string, id: string) {
    exists i | i in jobs.rows :: IsAcceptJob(cfg, jobs.rows[i], followee, id)
  }

  ghost predicate HasEvidence(cfg: Instance, db: Db, p: (string, string), edge: Edge) {
    && (edge.state == Accepted ==>
          Answered(db.activities, Accept, p.1, edge.id)
          || (cfg.isLocal(p.1) && AcceptQueued(cfg, db.jobs, p.1, edge.id)))
    && (edge.state == Rejected ==> Answered(db.activities, Reject, p.1, edge.id))
  }

  ghost predicate EvidenceOk(cfg: Instance, db: Db) {
    forall p | p in db.follows :: HasEvidence(cfg, db, p, db.follows[p])
  }

  predicate IsProcessJob(job: SqlQueue.Job, row: ActivityRow) {
    job.kind.ProcessInboxActivity? && job.payload == ProcessPayload(row.dbId) && job.key == row.doc.id
  }

  predicate IsDeliverJob(job: SqlQueue.Job, row: ActivityRow, inbox: string) {
    && job.kind.DeliverActivity?
    && job.payload == DeliverPayload(inbox, row.doc, row.actor)
    && job.key == DeliverKey(row.doc.id, inbox)
  }

  /** Inbound activities, and local follows of local actors, are processed by a worker. */
  predicate NeedsProcessing(cfg: Instance, row: ActivityRow) {
    row.origin.Inbound? || LocalFollow(cfg, row.doc)
  }

  ghost predicate FromProcessing(cfg: Instance, activities: Activities, job: SqlQueue.Job) {
    exists id | id in activities :: IsProcessJob(job, activities[id]) && NeedsProcessing(cfg, activities[id])
  }

  ghost predicate FromOutbox(activities: Activities, job: SqlQueue.Job) {
    && job.payload.DeliverPayload?
    && exists id | id in activities ::
         && activities[id].origin.Outbox?
         && job.payload.inbox in activities[id].origin.inboxes
         && IsDeliverJob(job, activities[id], job.payload.inbox)
  }

  ghost predicate FromFollow(cfg: Instance, activities: Activities, job: SqlQueue.Job) {
    && job.payload.DeliverPayload?
    && cfg.isLocal(job.payload.user)
    && exists id | id in activities ::
         && activities[id].doc.kind == Follow
         && FollowTarget(cfg, activities[id].doc) == Some(job.payload.user)
         && IsAcceptJob(cfg, job, job.payload.user, id)
  }

  /** Every job was enqueued by one of the three transactions, for a stored activity. */
  ghost predicate Provenance(cfg: Instance, activities: Activities, job: SqlQueue.Job) {
    FromProcessing(cfg, activities, job) || FromOutbox(activities, job) || FromFollow(cfg, activities, job)
  }

  ghost predicate ProcessJobIn(jobs: SqlQueue.Table, row: ActivityRow) {
    exists i | i in jobs.rows :: IsProcessJob(jobs.rows[i], row)
  }

  ghost predicate DeliverJobIn(jobs: SqlQueue.Table, row: ActivityRow, inbox: string) {
    exists i | i in jobs.rows :: IsDeliverJob(jobs.rows[i], row, inbox)
  }

  /** No stored activity lacks a job it was to be given. */
  ghost predicate JobsComplete(cfg: Instance, jobs: SqlQueue.Table, row: ActivityRow) {
    && (NeedsProcessing(cfg, row) ==> ProcessJobIn(jobs, row))
    && (row.origin.Outbox? ==> forall inbox | inbox in row.origin.inboxes :: DeliverJobIn(jobs, row, inbox))
  }

  ghost predicate JobsOk(cfg: Instance, activities: Activities, jobs: SqlQueue.Table) {
    && SqlQueue.WellFormed(jobs)
    && (forall i | i in jobs.rows :: Provenance(cfg, activities, jobs.rows[i]))
    && (forall id | id in activities :: JobsComplete(cfg, jobs, activities[id]))
  }

  ghost predicate Stored(activities: Activities, row: ActivityRow) {
    row.doc.id in activities && activities[row.doc.id] == row
  }

  /** What a handler knows between its statements. */
  ghost predicate TaskOk(cfg: Instance, db: Db, task: Task) {
    && Stored(db.activities, task.row)
    && match task
       case FollowEnqueue(row, followee) => row.doc.kind == Follow && FollowTarget(cfg, row.doc) == Some(followee)
       case FollowMark(row) =>
         && row.doc.kind == Follow
         && exists followee ::
              && FollowTarget(cfg, row.doc) == Some(followee)
              && cfg.isLocal(followee)
              && AcceptQueued(cfg, db.jobs, followee, row.doc.id)
       case SetState(row, target, follower, state) =>
         && (state == Accepted || state == Rejected)
         && row.doc.kind == (if state == Accepted then Accept else Reject)
         && row.doc.ObjectIri() == Some(target)
         && target in db.activities
         && FollowTarget(cfg, db.activities[target].doc) == Some(row.actor)
       case ObjectWrite(row) => row.doc.kind == Update
       case ObjectDelete(row, _) => row.doc.kind == Delete
       case UndoFrom(row, _, _) => row.doc.kind == Undo
       case Start(_) => true
  }

  ghost predicate TasksOk(cfg: Instance, db: Db, tasks: map<nat, Task>) {
    forall w | w in tasks :: TaskOk(cfg, db, tasks[w])
  }

  ghost predicate SocialOk(cfg: Instance, db: Db) {
    ActivitiesOk(db) && EdgesOk(cfg, db) && EvidenceOk(cfg, db)
  }

  ghost predicate DbOk(cfg: Instance, db: Db) {
    SocialOk(cfg, db) && JobsOk(cfg, db.activities, db.jobs)
  }

  ghost predicate Inv(cfg: Instance, s: Server) {
    DbOk(cfg, s.db) && TasksOk(cfg, s.db, s.tasks)
  }

  // ----- Growth: stored activities and enqueued jobs are never lost or altered -----

  ghost predicate JobsGrow(t: SqlQueue.Table, u: SqlQueue.Table) {
    forall i | i in t.rows ::
      && i in u.rows
      && u.rows[i].kind == t.rows[i].kind && u.rows[i].payload == t.rows[i].payload && u.rows[i].key == t.rows[i].key
  }

  ghost predicate ActivitiesGrow(a: Activities, b: Activities) {
    forall id | id in a :: id in b && b[id] == a[id]
  }

  lemma TaskSurvives(cfg: Instance, db: Db, next: Db, task: Task)
    requires TaskOk(cfg, db, task) && ActivitiesGrow(db.activities, next.activities) && JobsGrow(db.jobs, next.jobs)
    ensures TaskOk(cfg, next, task)
  {
    hide FollowTarget, AcceptDoc;
    if task.FollowMark? {
      var followee :| FollowTarget(cfg, task.row.doc) == Some(followee) && cfg.isLocal(followee)
                      && AcceptQueued(cfg, db.jobs, followee, task.row.doc.id);
      AcceptJobSurvives(cfg, db.jobs, next.jobs, followee, task.row.doc.id);
    }
  }

  lemma AcceptJobSurvives(cfg: Instance, t: SqlQueue.Table, u: SqlQueue.Table, followee: string, id: string)
    requires AcceptQueued(cfg, t, followee, id) && JobsGrow(t, u)
    ensures AcceptQueued(cfg, u, followee, id)
  {
    hide AcceptDoc, AcceptKey;
    var i :| i in t.rows && IsAcceptJob(cfg, t.rows[i], followee, id);
    assert IsAcceptJob(cfg, u.rows[i], followee, id);
  }

  lemma AnswerSurvives(a: Activities, b: Activities, kind: Kind, who: string, id: string)
    requires Answered(a, kind, who, id) && ActivitiesGrow(a, b)
    ensures Answered(b, kind, who, id)
  {
    var x :| x in a && a[x].doc.kind == kind && a[x].actor == who && a[x].doc.ObjectIri() == Some(id);
    assert b[x] == a[x];
  }

  lemma EvidenceSurvives(cfg: Instance, db: Db, next: Db, p: (string, string), edge: Edge)
    requires HasEvidence(cfg, db, p, edge)
    requires ActivitiesGrow(db.activities, next.activities) && JobsGrow(db.jobs, next.jobs)
    ensures HasEvidence(cfg, next, p, edge)
  {
    if edge.state == Accepted {
      if Answered(db.activities, Accept, p.1, edge.id) {
        AnswerSurvives(db.activities, next.activities, Accept, p.1, edge.id);
      } else {
        AcceptJobSurvives(cfg, db.jobs, next.jobs, p.1, edge.id);
      }
    } else if edge.state == Rejected {
      AnswerSurvives(db.activities, next.activities, Reject, p.1, edge.id);
    }
  }

  lemma ProvenanceSurvives(cfg: Instance, a: Activities, b: Activities, job: SqlQueue.Job)
    requires Provenance(cfg, a, job) && ActivitiesGrow(a, b)
    ensures Provenance(cfg, b, job)
  {
    hide IsProcessJob, IsDeliverJob, IsAcceptJob, FollowTarget, NeedsProcessing;
    if FromProcessing(cfg, a, job) {
      var id :| id in a && IsProcessJob(job, a[id]) && NeedsProcessing(cfg, a[id]);
      assert b[id] == a[id];
    } else if FromOutbox(a, job) {
      var id :| id in a && a[id].origin.Outbox? && job.payload.inbox in a[id].origin.inboxes
                && IsDeliverJob(job, a[id], job.payload.inbox);
      assert b[id] == a[id];
    } else {
      var id :| id in a && a[id].doc.kind == Follow && FollowTarget(cfg, a[id].doc) == Some(job.payload.user)
                && IsAcceptJob(cfg, job, job.payload.user, id);
      assert b[id] == a[id];
    }
  }

  lemma CompletenessSurvives(cfg: Instance, t: SqlQueue.Table, u: SqlQueue.Table, row: ActivityRow)
    requires JobsComplete(cfg, t, row) && JobsGrow(t, u)
    ensures JobsComplete(cfg, u, row)
  {
    hide NeedsProcessing, DeliverKey;
    if NeedsProcessing(cfg, row) {
      var i :| i in t.rows && IsProcessJob(t.rows[i], row);
      assert IsProcessJob(u.rows[i], row);
    }
    if row.origin.Outbox? {
      forall inbox | inbox in row.origin.inboxes
        ensures DeliverJobIn(u, row, inbox)
      {
        assert DeliverJobIn(t, row, inbox);
        var i :| i in t.rows && IsDeliverJob(t.rows[i], row, inbox);
        assert IsDeliverJob(u.rows[i], row, inbox);
      }
    }
  }

  // ----- Replacing one table -----

  lemma NewFollowsKeepSocial(cfg: Instance, db: Db, follows: map<(string, string), Edge>)
    requires SocialOk(cfg, db) && FollowsNameActivities(cfg, db.activities, follows)
    requires forall p | p in follows :: HasEvidence(cfg, db, p, follows[p])
    ensures SocialOk(cfg, db.(follows := follows))
  {
    hide FollowTarget, RowsNameActivities;
    var next := db.(follows := follows);
    assert forall p | p in follows :: HasEvidence(cfg, next, p, follows[p]);
  }

  lemma SameFollowsSameEvidence(cfg: Instance, db: Db, next: Db)
    requires SocialOk(cfg, db) && next.follows == db.follows
    requires ActivitiesGrow(db.activities, next.activities) && JobsGrow(db.jobs, next.jobs)
    ensures EvidenceOk(cfg, next) && FollowsNameActivities(cfg, next.activities, next.follows)
  {
    hide FollowTarget, HasEvidence;
    forall p | p in next.follows
      ensures HasEvidence(cfg, next, p, next.follows[p])
    {
      EvidenceSurvives(cfg, db, next, p, next.follows[p]);
    }
  }

  /** Likes, announces, blocks and objects carry no obligation beyond naming their activities. */
  lemma NewRowsKeepSocial(cfg: Instance, db: Db, next: Db)
    requires SocialOk(cfg, db)
    requires next == db.(likes := next.likes, announces := next.announces, blocks := next.blocks,
                             objects := next.objects)
    requires RowsNameActivities(db.activities, next.likes, Like)
    requires RowsNameActivities(db.activities, next.announces, Announce)
    requires RowsNameActivities(db.activities, next.blocks, Block)
    ensures SocialOk(cfg, next)
  {
    hide FollowTarget, RowsNameActivities;
    SameFollowsSameEvidence(cfg, db, next);
  }

  lemma NewJobsKeepDb(cfg: Instance, db: Db, jobs: SqlQueue.Table)
    requires DbOk(cfg, db) && SqlQueue.WellFormed(jobs) && JobsGrow(db.jobs, jobs)
    requires forall i | i in jobs.rows :: Provenance(cfg, db.activities, jobs.rows[i])
    ensures DbOk(cfg, db.(jobs := jobs))
  {
    hide FollowTarget, RowsNameActivities, SqlQueue.WellFormed, Provenance, JobsComplete;
    var next := db.(jobs := jobs);
    SameFollowsSameEvidence(cfg, db, next);
    forall id | id in db.activities
      ensures JobsComplete(cfg, jobs, db.activities[id])
    {
      CompletenessSurvives(cfg, db.jobs, jobs, db.activities[id]);
    }
  }

  lemma InsertGrowsByOne(jobs: SqlQueue.Table, job: SqlQueue.NewJob, now: int)
    requires SqlQueue.WellFormed(jobs) && SqlQueue.Insert(jobs, job, now).Ok?
    ensures var t := SqlQueue.Insert(jobs, job, now).value;
            && SqlQueue.WellFormed(t) && JobsGrow(jobs, t)
            && jobs.nextId in t.rows && jobs.nextId !in jobs.rows
            && t.rows[jobs.nextId].kind == job.kind
            && t.rows[jobs.nextId].payload == job.payload
            && t.rows[jobs.nextId].key == job.key
            && (forall i | i in t.rows && i != jobs.nextId :: i in jobs.rows && t.rows[i] == jobs.rows[i])
  {
    SqlQueue.InsertKeepsWellFormed(jobs, job, now);
  }

  lemma InsertedJobKeepsDb(cfg: Instance, db: Db, job: SqlQueue.NewJob, now: int)
    requires DbOk(cfg, db) && SqlQueue.Insert(db.jobs, job, now).Ok?
    requires db.jobs.nextId in SqlQueue.Insert(db.jobs, job, now).value.rows
    requires Provenance(cfg, db.activities, SqlQueue.Insert(db.jobs, job, now).value.rows[db.jobs.nextId])
    ensures var t := SqlQueue.Insert(db.jobs, job, now).value;
            DbOk(cfg, db.(jobs := t)) && JobsGrow(db.jobs, t)
  {
    hide SqlQueue.Insert, SqlQueue.WellFormed, Provenance, EdgesOk, EvidenceOk, ActivitiesOk, JobsComplete;
    InsertGrowsByOne(db.jobs, job, now);
    NewJobsKeepDb(cfg, db, SqlQueue.Insert(db.jobs, job, now).value);
  }

  lemma PutRowNamesActivity(activities: Activities, m: Interactions, kind: Kind, obj: string, row: ActivityRow)
    requires RowsNameActivities(activities, m, kind) && Stored(activities, row) && row.doc.kind == kind
    requires PutInteraction(m, row.actor, obj, row.doc.id).Ok?
    ensures RowsNameActivities(activities, PutInteraction(m, row.actor, obj, row.doc.id).value, kind)
  {
  }

  lemma DeletedRowsNameActivities(activities: Activities, m: Interactions, kind: Kind, id: string, actor: string)
    requires RowsNameActivities(activities, m, kind)
    ensures RowsNameActivities(activities, DeleteById(m, id, actor), kind)
  {
  }

  // ----- Handler statements -----

  /** What one statement of a handler guarantees. */
  ghost predicate Keeps(cfg: Instance, db: Db, step: (Db, Progress)) {
    && DbOk(cfg, step.0)
    && ActivitiesGrow(db.activities, step.0.activities)
    && JobsGrow(db.jobs, step.0.jobs)
    && (step.1.Continue? ==> TaskOk(cfg, step.0, step.1.task))
  }

  lemma FollowKeeps(cfg: Instance, db: Db, row: ActivityRow)
    requires DbOk(cfg, db) && Stored(db.activities, row) && row.doc.kind == Follow
    ensures Keeps(cfg, db, StartFollow(cfg, db, row))
  {
    hide JobsOk, RowsNameActivities;
    var step := StartFollow(cfg, db, row);
    if step.0 != db {
      NewFollowsKeepSocial(cfg, db, step.0.follows);
    }
  }

  lemma EnqueueAcceptKeeps(cfg: Instance, db: Db, row: ActivityRow, followee: string, world: World)
    requires DbOk(cfg, db) && TaskOk(cfg, db, FollowEnqueue(row, followee))
    ensures Keeps(cfg, db, EnqueueAccept(cfg, db, row, followee, world))
  {
    hide FollowTarget, AcceptDoc, AcceptKey, DbOk, SqlQueue.Insert;
    var inbox := world.inbox(row.actor);
    if cfg.isLocal(followee) && inbox.Some? {
      var job := AcceptJob(cfg, followee, row.doc.id, inbox.value);
      if SqlQueue.Insert(db.jobs, job, world.now).Ok? {
        assert SqlQueue.WellFormed(db.jobs) by {
          WellFormedJobs(cfg, db);
        }
        InsertGrowsByOne(db.jobs, job, world.now);
        var jobs := SqlQueue.Insert(db.jobs, job, world.now).value;
        assert IsAcceptJob(cfg, jobs.rows[db.jobs.nextId], followee, row.doc.id);
        assert FromFollow(cfg, db.activities, jobs.rows[db.jobs.nextId]);
        InsertedJobKeepsDb(cfg, db, job, world.now);
        assert AcceptQueued(cfg, jobs, followee, row.doc.id);
      }
    }
  }

  lemma WellFormedJobs(cfg: Instance, db: Db)
    requires DbOk(cfg, db)
    ensures SqlQueue.WellFormed(db.jobs)
  {
  }

  lemma MarkKeeps(cfg: Instance, db: Db, row: ActivityRow)
    requires DbOk(cfg, db) && TaskOk(cfg, db, FollowMark(row))
    ensures DbOk(cfg, db.(follows := SetFollowState(db.follows, row.doc.id, Accepted, row.actor)))
  {
    hide FollowTarget, JobsOk, RowsNameActivities;
    var follows := SetFollowState(db.follows, row.doc.id, Accepted, row.actor);
    forall p | p in follows
      ensures HasEvidence(cfg, db, p, follows[p]) && FollowNamesActivity(cfg, db.activities, p, follows[p])
    {
      assert FollowNamesActivity(cfg, db.activities, p, db.follows[p]);
      assert HasEvidence(cfg, db, p, db.follows[p]);
    }
    NewFollowsKeepSocial(cfg, db, follows);
  }

  lemma AnswerKeeps(cfg: Instance, db: Db, row: ActivityRow, state: FollowState)
    requires DbOk(cfg, db) && Stored(db.activities, row)
    requires (state == Accepted && row.doc.kind == Accept) || (state == Rejected && row.doc.kind == Reject)
    ensures Keeps(cfg, db, StartAnswer(db, row, state))
  {
    hide FollowTarget, JobsOk, RowsNameActivities, EvidenceOk, ActivitiesOk;
    var target := row.doc.ObjectIri();
    if target.Some? {
      var found := FindFollow(db.follows, target.value);
      if found.Some? {
        assert FollowNamesActivity(cfg, db.activities, found.value, db.follows[found.value]);
      }
    }
  }

  lemma SetStateKeeps(cfg: Instance, db: Db, row: ActivityRow, target: string, follower: string, state: FollowState)
    requires DbOk(cfg, db) && TaskOk(cfg, db, SetState(row, target, follower, state))
    ensures DbOk(cfg, db.(follows := SetFollowState(db.follows, target, state, follower)))
  {
    hide FollowTarget, JobsOk, RowsNameActivities;
    var follows := SetFollowState(db.follows, target, state, follower);
    assert Answered(db.activities, row.doc.kind, row.actor, target);
    forall p | p in follows
      ensures HasEvidence(cfg, db, p, follows[p]) && FollowNamesActivity(cfg, db.activities, p, follows[p])
    {
      assert FollowNamesActivity(cfg, db.activities, p, db.follows[p]);
      assert HasEvidence(cfg, db, p, db.follows[p]);
    }
    NewFollowsKeepSocial(cfg, db, follows);
  }

  lemma DeleteKeeps(cfg: Instance, db: Db, kind: Kind, id: string, actor: string)
    requires SocialOk(cfg, db)
    ensures var next := DeleteTyped(db, kind, id, actor);
            && SocialOk(cfg, next)
            && next.activities == db.activities && next.nextDbId == db.nextDbId && next.jobs == db.jobs
  {
    hide FollowTarget, RowsNameActivities;
    match kind {
      case Follow =>
        var follows := DeleteFollow(db.follows, id, actor);
        forall p | p in follows
          ensures HasEvidence(cfg, db, p, follows[p]) && FollowNamesActivity(cfg, db.activities, p, follows[p])
        {
          assert HasEvidence(cfg, db, p, db.follows[p]);
        }
        NewFollowsKeepSocial(cfg, db, follows);
      case Like =>
        DeletedRowsNameActivities(db.activities, db.likes, Like, id, actor);
        NewRowsKeepSocial(cfg, db, DeleteTyped(db, kind, id, actor));
      case Announce =>
        DeletedRowsNameActivities(db.activities, db.announces, Announce, id, actor);
        NewRowsKeepSocial(cfg, db, DeleteTyped(db, kind, id, actor));
      case Block =>
        DeletedRowsNameActivities(db.activities, db.blocks, Block, id, actor);
        NewRowsKeepSocial(cfg, db, DeleteTyped(db, kind, id, actor));
      case _ =>
    }
  }

  lemma DeleteKeepsDb(cfg: Instance, db: Db, kind: Kind, id: string, actor: string)
    requires DbOk(cfg, db)
    ensures var next := DeleteTyped(db, kind, id, actor);
            DbOk(cfg, next) && next.activities == db.activities && next.jobs == db.jobs
  {
    hide SocialOk, JobsOk, DeleteTyped;
    DeleteKeeps(cfg, db, kind, id, actor);
  }

  lemma ReactionKeeps(cfg: Instance, db: Db, row: ActivityRow)
    requires DbOk(cfg, db) && Stored(db.activities, row) && row.doc.kind in {Like, Announce, Block}
    ensures Keeps(cfg, db, StartReaction(db, row))
  {
    hide FollowTarget, JobsOk, EvidenceOk, RowsNameActivities, Canonical, PutInteraction;
    var next := StartReaction(db, row).0;
    if next != db {
      var target := row.doc.ObjectIri().value;
      match row.doc.kind {
        case Like => PutRowNamesActivity(db.activities, db.likes, Like, target, row);
        case Announce => PutRowNamesActivity(db.activities, db.announces, Announce, target, row);
        case Block => PutRowNamesActivity(db.activities, db.blocks, Block, Canonical(target), row);
      }
      NewRowsKeepSocial(cfg, db, next);
    }
  }

  lemma ObjectsKeep(cfg: Instance, db: Db, objects: map<string, ObjectRow>)
    requires DbOk(cfg, db)
    ensures DbOk(cfg, db.(objects := objects))
  {
    hide FollowTarget, RowsNameActivities;
    NewRowsKeepSocial(cfg, db, db.(objects := objects));
  }

  lemma StartKeeps(cfg: Instance, db: Db, row: ActivityRow, world: World)
    requires DbOk(cfg, db) && Stored(db.activities, row)
    ensures Keeps(cfg, db, StartTask(cfg, db, row, world))
  {
    hide DbOk, CreatedObject, FollowTarget, Canonical, Authentic, AttributedToActor, StartFollow, StartAnswer,
      StartReaction, DeleteTyped;
    var step := StartTask(cfg, db, row, world);
    match row.doc.kind {
      case Follow => FollowKeeps(cfg, db, row);
      case Accept => AnswerKeeps(cfg, db, row, Accepted);
      case Reject => AnswerKeeps(cfg, db, row, Rejected);
      case Like => ReactionKeeps(cfg, db, row);
      case Announce => ReactionKeeps(cfg, db, row);
      case Block => ReactionKeeps(cfg, db, row);
      case Undo =>
        if row.doc.obj.Node? {
          DeleteKeepsDb(cfg, db, row.doc.obj.kind, row.doc.obj.id, row.actor);
        }
      case Create => ObjectsKeep(cfg, db, step.0.objects);
      case Update =>
      case Delete =>
      case Other(_) =>
    }
  }

  lemma StepKeeps(cfg: Instance, db: Db, task: Task, world: World)
    requires DbOk(cfg, db) && TaskOk(cfg, db, task)
    ensures Keeps(cfg, db, StepTask(cfg, db, task, world))
  {
    hide DbOk, FollowTarget, StartTask, EnqueueAccept, SetFollowState, DeleteTyped;
    var step := StepTask(cfg, db, task, world);
    match task {
      case Start(row) => StartKeeps(cfg, db, row, world);
      case FollowEnqueue(row, followee) => EnqueueAcceptKeeps(cfg, db, row, followee, world);
      case FollowMark(row) => MarkKeeps(cfg, db, row);
      case SetState(row, target, follower, state) => SetStateKeeps(cfg, db, row, target, follower, state);
      case UndoFrom(row, target, table) => DeleteKeepsDb(cfg, db, UndoKind(table), target, row.actor);
      case ObjectWrite(_) => ObjectsKeep(cfg, db, step.0.objects);
      case ObjectDelete(_, _) => ObjectsKeep(cfg, db, step.0.objects);
    }
  }

  // ----- Transactions -----

  lemma RowsSurvive(a: Activities, b: Activities, m: Interactions, kind: Kind)
    requires RowsNameActivities(a, m, kind) && ActivitiesGrow(a, b)
    ensures RowsNameActivities(b, m, kind)
  {
  }

  /** Storing one more activity, as the first statement of either transaction does. */
  lemma StoringKeepsSocial(cfg: Instance, db: Db, actor: string, doc: Activity, origin: Origin)
    requires SocialOk(cfg, db) && doc.id != "" && InsertActivity(db, actor, doc, origin).Some?
    ensures var next := InsertActivity(db, actor, doc, origin).value;
            && SocialOk(cfg, next) && ActivitiesGrow(db.activities, next.activities)
            && Stored(next.activities, ActivityRowFor(db, actor, doc, origin))
  {
    hide FollowTarget, RowsNameActivities;
    var next := InsertActivity(db, actor, doc, origin).value;
    SameFollowsSameEvidence(cfg, db, next);
    RowsSurvive(db.activities, next.activities, db.likes, Like);
    RowsSurvive(db.activities, next.activities, db.announces, Announce);
    RowsSurvive(db.activities, next.activities, db.blocks, Block);
  }

  /** The commit: one more activity with all its jobs. */
  lemma CommitKeepsDb(cfg: Instance, db: Db, next: Db, row: ActivityRow)
    requires DbOk(cfg, db) && SocialOk(cfg, next) && SqlQueue.WellFormed(next.jobs)
    requires row.doc.id !in db.activities && next.activities == db.activities[row.doc.id := row]
    requires forall i | i in db.jobs.rows :: i in next.jobs.rows && next.jobs.rows[i] == db.jobs.rows[i]
    requires forall i | i in next.jobs.rows && i !in db.jobs.rows :: Provenance(cfg, next.activities, next.jobs.rows[i])
    requires JobsComplete(cfg, next.jobs, row)
    ensures DbOk(cfg, next)
  {
    hide SocialOk, Provenance, JobsComplete, SqlQueue.WellFormed;
    forall i | i in next.jobs.rows
      ensures Provenance(cfg, next.activities, next.jobs.rows[i])
    {
      if i in db.jobs.rows {
        ProvenanceSurvives(cfg, db.activities, next.activities, db.jobs.rows[i]);
      }
    }
    forall id | id in next.activities
      ensures JobsComplete(cfg, next.jobs, next.activities[id])
    {
      if id != row.doc.id {
        CompletenessSurvives(cfg, db.jobs, next.jobs, db.activities[id]);
      }
    }
  }

  lemma ReceiveKeeps(cfg: Instance, db: Db, doc: Activity, now: int)
    requires DbOk(cfg, db) && Receive(cfg, db, doc, now).Ok?
    ensures var next := Receive(cfg, db, doc, now).value;
            DbOk(cfg, next) && ActivitiesGrow(db.activities, next.activities) && JobsGrow(db.jobs, next.jobs)
  {
    hide SocialOk, SqlQueue.Insert, LocalFollow, TrimRight, SqlQueue.WellFormed;
    var actor := TrimRight(doc.actor, '/');
    var next := Receive(cfg, db, doc, now).value;
    if doc.id !in db.activities {
      StoringKeepsSocial(cfg, db, actor, doc, Inbound);
      var stored := InsertActivity(db, actor, doc, Inbound).value;
      var row := ActivityRowFor(db, actor, doc, Inbound);
      InsertGrowsByOne(db.jobs, ProcessJob(row), now);
      assert IsProcessJob(next.jobs.rows[db.jobs.nextId], row);
      assert FromProcessing(cfg, next.activities, next.jobs.rows[db.jobs.nextId]);
      assert ProcessJobIn(next.jobs, row);
      MoreJobsKeepSocial(cfg, stored, next.jobs);
      CommitKeepsDb(cfg, db, next, row);
    }
  }

  lemma MoreJobsKeepSocial(cfg: Instance, db: Db, jobs: SqlQueue.Table)
    requires SocialOk(cfg, db) && JobsGrow(db.jobs, jobs)
    ensures SocialOk(cfg, db.(jobs := jobs))
  {
    hide FollowTarget, RowsNameActivities;
    SameFollowsSameEvidence(cfg, db, db.(jobs := jobs));
  }

  lemma {:induction false} CascadeKeeps(cfg: Instance, db: Db, id: string, actor: string, table: nat)
    requires SocialOk(cfg, db)
    ensures var next := UndoCascade(db, id, actor, table);
            && SocialOk(cfg, next)
            && next.activities == db.activities && next.nextDbId == db.nextDbId && next.jobs == db.jobs
    decreases 4 - table
  {
    hide SocialOk, DeleteTyped;
    DeleteKeeps(cfg, db, UndoKind(table), id, actor);
    var next := DeleteTyped(db, UndoKind(table), id, actor);
    if next == db && table < 3 {
      CascadeKeeps(cfg, next, id, actor, table + 1);
    }
  }

  lemma EffectsKeepSocial(cfg: Instance, db: Db, user: string, doc: Activity, origin: Origin, dbId: nat)
    requires SocialOk(cfg, db) && Stored(db.activities, ActivityRow(dbId, user, doc, origin))
    requires OutboxEffects(cfg, db, user, doc).Ok?
    ensures var (next, local) := OutboxEffects(cfg, db, user, doc).value;
            && SocialOk(cfg, next)
            && next.activities == db.activities && next.nextDbId == db.nextDbId && next.jobs == db.jobs
            && local == LocalFollow(cfg, doc)
  {
    hide SocialOk, FollowEffects, ReactionEffects, UndoCascade, Canonical, UndoTarget;
    var row := ActivityRow(dbId, user, doc, origin);
    match doc.kind {
      case Follow => FollowEffectsKeepSocial(cfg, db, row);
      case Like => ReactionEffectsKeepSocial(cfg, db, row);
      case Announce => ReactionEffectsKeepSocial(cfg, db, row);
      case Undo => CascadeKeeps(cfg, db, UndoTarget(doc).value, user, 0);
      case _ =>
    }
  }

  lemma ReactionEffectsKeepSocial(cfg: Instance, db: Db, row: ActivityRow)
    requires SocialOk(cfg, db) && Stored(db.activities, row) && (row.doc.kind == Like || row.doc.kind == Announce)
    requires ReactionEffects(db, row.actor, row.doc).Ok?
    ensures var (next, local) := ReactionEffects(db, row.actor, row.doc).value;
            && SocialOk(cfg, next) && !local
            && next.activities == db.activities && next.nextDbId == db.nextDbId && next.jobs == db.jobs
  {
    hide FollowTarget, Canonical, RowsNameActivities, PutInteraction, EvidenceOk, FollowsNameActivities, ActivitiesOk;
    var obj := Canonical(row.doc.ObjectIri().value);
    if row.doc.kind == Like {
      PutRowNamesActivity(db.activities, db.likes, Like, obj, row);
    } else {
      PutRowNamesActivity(db.activities, db.announces, Announce, obj, row);
    }
    NewRowsKeepSocial(cfg, db, ReactionEffects(db, row.actor, row.doc).value.0);
  }

  lemma FollowEffectsKeepSocial(cfg: Instance, db: Db, row: ActivityRow)
    requires SocialOk(cfg, db) && Stored(db.activities, row) && row.doc.kind == Follow
    requires FollowEffects(cfg, db, row.actor, row.doc).Ok?
    ensures var (next, local) := FollowEffects(cfg, db, row.actor, row.doc).value;
            && SocialOk(cfg, next) && local == LocalFollow(cfg, row.doc)
            && next.activities == db.activities && next.nextDbId == db.nextDbId && next.jobs == db.jobs
  {
    hide FollowTarget, RowsNameActivities, LocalFollow;
    var next := FollowEffects(cfg, db, row.actor, row.doc).value.0;
    if next != db {
      NewFollowsKeepSocial(cfg, db, next.follows);
    }
  }

  ghost predicate AddsDeliveries(t: SqlQueue.Table, u: SqlQueue.Table, row: ActivityRow, inboxes: seq<string>) {
    && SqlQueue.WellFormed(u)
    && (forall i | i in t.rows :: i in u.rows && u.rows[i] == t.rows[i])
    && (forall i | i in u.rows && i !in t.rows :: exists inbox | inbox in inboxes ::
        IsDeliverJob(u.rows[i], row, inbox))
    && (forall inbox | inbox in inboxes :: DeliverJobIn(u, row, inbox))
  }

  lemma {:induction false} EnqueuedDeliveries(jobs: SqlQueue.Table, row: ActivityRow, inboxes: seq<string>, now: int)
    requires SqlQueue.WellFormed(jobs) && EnqueueDeliveries(jobs, row, inboxes, now).Ok?
    ensures AddsDeliveries(jobs, EnqueueDeliveries(jobs, row, inboxes, now).value, row, inboxes)
    decreases |inboxes|
  {
    hide DeliverKey, SqlQueue.Insert, SqlQueue.WellFormed;
    if inboxes != [] {
      InsertGrowsByOne(jobs, DeliverJob(row, inboxes[0]), now);
      var t := SqlQueue.Insert(jobs, DeliverJob(row, inboxes[0]), now).value;
      assert IsDeliverJob(t.rows[jobs.nextId], row, inboxes[0]);
      EnqueuedDeliveries(t, row, inboxes[1..], now);
      var u := EnqueueDeliveries(t, row, inboxes[1..], now).value;
      assert IsDeliverJob(u.rows[jobs.nextId], row, inboxes[0]);
      forall inbox | inbox in inboxes
        ensures DeliverJobIn(u, row, inbox)
      {
        assert inbox == inboxes[0] || inbox in inboxes[1..];
      }
      forall i | i in u.rows && i !in jobs.rows
        ensures exists inbox | inbox in inboxes :: IsDeliverJob(u.rows[i], row, inbox)
      {
        if i in t.rows {
          assert i == jobs.nextId;
        } else {
          var inbox :| inbox in inboxes[1..] && IsDeliverJob(u.rows[i], row, inbox);
          assert inbox in inboxes;
        }
      }
    }
  }

  lemma BlankTrims()
    ensures TrimSpace("") == ""
  {
  }

  lemma PostKeeps(cfg: Instance, db: Db, user: string, doc: Activity, inboxes: seq<string>, now: int)
    requires DbOk(cfg, db) && Post(cfg, db, user, doc, inboxes, now).Ok?
    ensures var next := Post(cfg, db, user, doc, inboxes, now).value;
            DbOk(cfg, next) && ActivitiesGrow(db.activities, next.activities) && JobsGrow(db.jobs, next.jobs)
  {
    hide SocialOk, SqlQueue.Insert, OutboxEffects, LocalFollow, SqlQueue.WellFormed, EnqueueDeliveries, IsDeliverJob,
      DeliverJobIn, TrimSpace, TrimRight, DeliverKey, FromFollow, FromOutbox;
    var next := Post(cfg, db, user, doc, inboxes, now).value;
    if doc.id !in db.activities {
      var origin := Outbox(inboxes);
      var row := ActivityRowFor(db, user, doc, origin);
      BlankTrims();
      StoringKeepsSocial(cfg, db, user, doc, origin);
      var stored := InsertActivity(db, user, doc, origin).value;
      EffectsKeepSocial(cfg, stored, user, doc, origin, db.nextDbId);
      var (changed, local) := OutboxEffects(cfg, stored, user, doc).value;
      EnqueuedDeliveries(db.jobs, row, inboxes, now);
      var jobs := EnqueueDeliveries(db.jobs, row, inboxes, now).value;
      if local {
        InsertGrowsByOne(jobs, ProcessJob(row), now);
        assert IsProcessJob(next.jobs.rows[jobs.nextId], row);
        assert FromProcessing(cfg, next.activities, next.jobs.rows[jobs.nextId]);
      }
      DeliveriesHaveProvenance(cfg, db, next, jobs, row);
      MoreJobsKeepSocial(cfg, changed, next.jobs);
      CommitKeepsDb(cfg, db, next, row);
    }
  }

  lemma DeliveriesHaveProvenance(cfg: Instance, db: Db, next: Db, jobs: SqlQueue.Table, row: ActivityRow)
    requires row.origin.Outbox? && AddsDeliveries(db.jobs, jobs, row, row.origin.inboxes)
    requires next.activities == db.activities[row.doc.id := row]
    requires forall i | i in jobs.rows :: i in next.jobs.rows && next.jobs.rows[i] == jobs.rows[i]
    ensures forall i | i in jobs.rows && i !in db.jobs.rows :: Provenance(cfg, next.activities, jobs.rows[i])
    ensures forall inbox | inbox in row.origin.inboxes :: DeliverJobIn(next.jobs, row, inbox)
  {
    hide DeliverKey, SqlQueue.WellFormed, FromProcessing, FromFollow;
    forall i | i in jobs.rows && i !in db.jobs.rows
      ensures Provenance(cfg, next.activities, jobs.rows[i])
    {
      var inbox :| inbox in row.origin.inboxes && IsDeliverJob(jobs.rows[i], row, inbox);
      assert next.activities[row.doc.id] == row;
      assert FromOutbox(next.activities, jobs.rows[i]);
    }
    forall inbox | inbox in row.origin.inboxes
      ensures DeliverJobIn(next.jobs, row, inbox)
    {
      assert DeliverJobIn(jobs, row, inbox);
      var i :| i in jobs.rows && IsDeliverJob(jobs.rows[i], row, inbox);
      assert IsDeliverJob(next.jobs.rows[i], row, inbox);
    }
  }

  // ----- Every action keeps the invariant -----

  lemma GrowthKeepsTasks(cfg: Instance, db: Db, next: Db, tasks: map<nat, Task>)
    requires TasksOk(cfg, db, tasks) && ActivitiesGrow(db.activities, next.activities) && JobsGrow(db.jobs, next.jobs)
    ensures TasksOk(cfg, next, tasks)
  {
    hide TaskOk;
    forall w | w in tasks
      ensures TaskOk(cfg, next, tasks[w])
    {
      TaskSurvives(cfg, db, next, tasks[w]);
    }
  }

  lemma MovedJobsKeepDb(cfg: Instance, db: Db, jobs: SqlQueue.Table)
    requires DbOk(cfg, db) && SameJobs(db.jobs, jobs)
    ensures DbOk(cfg, db.(jobs := jobs)) && JobsGrow(db.jobs, jobs)
  {
    hide SocialOk, FollowTarget, JobsComplete, NeedsProcessing;
    forall i | i in jobs.rows
      ensures Provenance(cfg, db.activities, jobs.rows[i])
    {
      assert Provenance(cfg, db.activities, db.jobs.rows[i]);
      SameProvenance(cfg, db.activities, db.jobs.rows[i], jobs.rows[i]);
    }
    NewJobsKeepDb(cfg, db, jobs);
  }

  lemma SameProvenance(cfg: Instance, activities: Activities, job: SqlQueue.Job, moved: SqlQueue.Job)
    requires Provenance(cfg, activities, job)
    requires moved.kind == job.kind && moved.payload == job.payload && moved.key == job.key
    ensures Provenance(cfg, activities, moved)
  {
    hide FollowTarget, NeedsProcessing, AcceptDoc, AcceptKey, DeliverKey;
    if FromProcessing(cfg, activities, job) {
      var id :| id in activities && IsProcessJob(job, activities[id]) && NeedsProcessing(cfg, activities[id]);
      assert IsProcessJob(moved, activities[id]);
    } else if FromOutbox(activities, job) {
      var id :| id in activities && activities[id].origin.Outbox? && job.payload.inbox in activities[id].origin.inboxes
                && IsDeliverJob(job, activities[id], job.payload.inbox);
      assert IsDeliverJob(moved, activities[id], moved.payload.inbox);
    } else {
      var id :| id in activities && activities[id].doc.kind == Follow
                && FollowTarget(cfg, activities[id].doc) == Some(job.payload.user)
                && IsAcceptJob(cfg, job, job.payload.user, id);
      assert IsAcceptJob(cfg, moved, moved.payload.user, id);
    }
  }

  lemma NextKeepsInv(cfg: Instance, s: Server, a: Action)
    requires Inv(cfg, s)
    ensures Inv(cfg, Next(cfg, s, a))
    ensures ActivitiesGrow(s.db.activities, Next(cfg, s, a).db.activities)
    ensures JobsGrow(s.db.jobs, Next(cfg, s, a).db.jobs)
  {
    hide DbOk, Receive, Post, StepTask;
    var n := Next(cfg, s, a);
    match a {
      case Deliver(doc, now) =>
        if Receive(cfg, s.db, doc, now).Ok? {
          ReceiveKeeps(cfg, s.db, doc, now);
        }
      case PostOutbox(user, doc, inboxes, now) =>
        if Post(cfg, s.db, user, doc, inboxes, now).Ok? {
          PostKeeps(cfg, s.db, user, doc, inboxes, now);
        }
      case Begin(_, id) =>
        if id in s.db.activities {
          StoredUnderItsId(cfg, s.db, id);
        }
      case Advance(w, world) =>
        if w in s.tasks {
          StepKeeps(cfg, s.db, s.tasks[w], world);
        }
      case Abandon(_) =>
      case MoveJobs(jobs) =>
        if SameJobs(s.db.jobs, jobs) {
          MovedJobsKeepDb(cfg, s.db, jobs);
        }
    }
    GrowthKeepsTasks(cfg, s.db, n.db, s.tasks);
  }

  lemma StoredUnderItsId(cfg: Instance, db: Db, id: string)
    requires DbOk(cfg, db) && id in db.activities
    ensures Stored(db.activities, db.activities[id])
  {
  }

  lemma InitialInv(cfg: Instance)
    ensures Inv(cfg, INITIAL)
  {
  }

  lemma {:induction false} ExecKeepsInv(cfg: Instance, s: Server, run: seq<Action>)
    requires Inv(cfg, s)
    ensures Inv(cfg, Exec(cfg, s, run))
    decreases |run|
  {
    if run != [] {
      NextKeepsInv(cfg, s, run[0]);
      ExecKeepsInv(cfg, Next(cfg, s, run[0]), run[1..]);
    }
  }
}
