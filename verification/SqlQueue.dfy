/**
  The Postgres job queue (queue/sqlqueue/sqlqueue.go).

  `Table` is the `queue_jobs` table, the functions on it are the SQL statements, and the
  class `Queue` is the backend whose methods issue them.
 */
module SqlQueue {
  import opened Wrappers
  import opened Vocabulary

  datatype JobType = Noop | DeliverActivity | ProcessInboxActivity | Unknown(name: string)

  datatype Status = Pending | Processing | Done | Failed

  /** A job as handed to Enqueue; `runAfter` is None for Go's zero time. */
  datatype NewJob = NewJob(kind: JobType, payload: Payload, key: string, runAfter: Option<int>)

  datatype Job = Job(
    kind: JobType,
    payload: Payload,
    key: string,
    status: Status,
    runAfter: int,
    lockedAt: Option<int>,
    attempts: nat,
    finishedAt: Option<int>,
    lastError: string)

  /** Rows by BIGSERIAL id; `nextId` is the sequence behind it. */
  datatype Table = Table(rows: map<nat, Job>, nextId: nat)

  const EMPTY: Table := Table(map[], 0)

  datatype Lease = Lease(id: nat, kind: JobType, payload: Payload, attempts: nat)

  /** Ids come from the sequence, and the partial unique index covers non-empty idempotency keys. */
  ghost predicate WellFormed(t: Table) {
    && (forall i | i in t.rows :: i < t.nextId)
    && (forall i, k | i in t.rows && k in t.rows && t.rows[i].key == t.rows[k].key != "" :: i == k)
  }

  predicate KeyTaken(t: Table, key: string) {
    key != "" && exists i | i in t.rows :: t.rows[i].key == key
  }

  // ----- Statements -----

  function RunAt(job: NewJob, now: int): int {
    match job.runAfter
    case Some(at) => at
    case None => now
  }

  function NewRow(job: NewJob, now: int): Job {
    Job(job.kind, job.payload, job.key, Pending, RunAt(job, now), None, 0, None, "")
  }

  /** INSERT with the id drawn from the sequence, perhaps some time ago: fails on a duplicate idempotency key. */
  function InsertAt(t: Table, id: nat, job: NewJob, now: int): Result<Table> {
    if KeyTaken(t, job.key) then Err
    else Ok(Table(t.rows[id := NewRow(job, now)], if id < t.nextId then t.nextId else id + 1))
  }

  /** INSERT with the next id. */
  function Insert(t: Table, job: NewJob, now: int): Result<Table> {
    InsertAt(t, t.nextId, job, now)
  }

  function SetRow(t: Table, id: nat, row: Job): Table {
    t.(rows := t.rows[id := row])
  }

  /** `WHERE id = $1 AND status = 'processing'` */
  predicate InProcess(t: Table, id: nat) {
    id in t.rows && t.rows[id].status == Processing
  }

  function MarkProcessing(t: Table, id: nat, now: int): Table {
    if id in t.rows then SetRow(t, id, t.rows[id].(status := Processing, lockedAt := Some(now))) else t
  }

  function MarkDone(t: Table, id: nat, now: int): Table {
    if InProcess(t, id) then SetRow(t, id, t.rows[id].(status := Done, finishedAt := Some(now))) else t
  }

  function MarkFailed(t: Table, id: nat, now: int): Table {
    if InProcess(t, id) then SetRow(t, id, t.rows[id].(status := Failed, finishedAt := Some(now))) else t
  }

  function MarkFailedWith(t: Table, id: nat, now: int, lastError: string): Table {
    if InProcess(t, id) then
      SetRow(t, id, t.rows[id].(status := Failed, finishedAt := Some(now), lastError := lastError))
    else t
  }

  function RequeueNow(t: Table, id: nat, now: int): Table {
    if InProcess(t, id) then
      var row := t.rows[id];
      SetRow(t, id, row.(status := Pending, lockedAt := None, attempts := row.attempts + 1, runAfter := now))
    else t
  }

  function Reschedule(t: Table, id: nat, runAfter: int, lastError: string): Table {
    if InProcess(t, id) then
      var row := t.rows[id];
      SetRow(t, id, row.(status := Pending, lockedAt := None, attempts := row.attempts + 1,
                         runAfter := runAfter, lastError := lastError))
    else t
  }

  // ----- Choosing the next job -----

  /** `ORDER BY run_after, id` */
  predicate Before(t: Table, i: nat, k: nat) {
    && i in t.rows
    && k in t.rows
    && (t.rows[i].runAfter < t.rows[k].runAfter || (t.rows[i].runAfter == t.rows[k].runAfter && i < k))
  }

  /** Due rows that no other open transaction has locked (`FOR UPDATE SKIP LOCKED`). */
  predicate Claimable(t: Table, locked: set<nat>, now: int, i: nat) {
    && i in t.rows
    && t.rows[i].status == Pending
    && t.rows[i].runAfter <= now
    && i !in locked
  }

  /** The first claimable row, among the ids below `n`, in queue order. */
  function FirstBelow(t: Table, locked: set<nat>, now: int, n: nat): (r: Option<nat>)
    ensures r.None? ==> forall i | 0 <= i < n :: !Claimable(t, locked, now, i)
    ensures r.Some? ==> r.value < n && Claimable(t, locked, now, r.value)
    ensures r.Some? ==> forall i | 0 <= i < n && Claimable(t, locked, now, i) :: i == r.value || Before(t, r.value, i)
  {
    if n == 0 then None
    else
      var best := FirstBelow(t, locked, now, n - 1);
      if !Claimable(t, locked, now, n - 1) then best
      else if best.Some? && Before(t, best.value, n - 1) then best
      else Some(n - 1)
  }

  function NextDue(t: Table, locked: set<nat>, now: int): Option<nat> {
    FirstBelow(t, locked, now, t.nextId)
  }

  function LeaseOf(t: Table, id: nat): Lease
    requires id in t.rows
  {
    Lease(id, t.rows[id].kind, t.rows[id].payload, t.rows[id].attempts)
  }

  /** At most 4096 bytes of an error message are kept. */
  function Clip(lastError: string): (r: string)
    ensures |r| <= 4096 && r <= lastError
    ensures |lastError| <= 4096 ==> r == lastError
  {
    if |lastError| > 4096 then lastError[..4096] else lastError
  }

  // ----- What a statement leaves as it was -----

  ghost predicate OtherRowsSame(t: Table, u: Table, id: nat) {
    u.nextId == t.nextId && u.rows.Keys == t.rows.Keys && forall i | i in t.rows && i != id :: u.rows[i] == t.rows[i]
  }

  ghost predicate SameJob(a: Job, b: Job) {
    b.kind == a.kind && b.payload == a.payload && b.key == a.key
  }

  /** The job `id` is finished for good: same job, same attempts, claimable at no clock. */
  ghost predicate Closed(t: Table, u: Table, id: nat, status: Status, now: int, lastError: string) {
    && OtherRowsSame(t, u, id) && id in t.rows && id in u.rows && SameJob(t.rows[id], u.rows[id])
    && u.rows[id].status == status && u.rows[id].finishedAt == Some(now) && u.rows[id].attempts == t.rows[id].attempts
    && u.rows[id].lastError == lastError && forall clock :: !Claimable(u, {}, clock, id)
  }

  /** The job `id` is free again, one attempt later, and claimable from `at` on. */
  ghost predicate Requeued(t: Table, u: Table, id: nat, at: int, lastError: string) {
    && OtherRowsSame(t, u, id) && id in t.rows && id in u.rows && SameJob(t.rows[id], u.rows[id])
    && u.rows[id].attempts == t.rows[id].attempts + 1 && u.rows[id].lockedAt.None?
    && u.rows[id].lastError == lastError && forall clock :: Claimable(u, {}, clock, id) <==> at <= clock
  }

  // ----- The backend -----

  class Queue {
    var table: Table

    constructor ()
      ensures table == EMPTY
    {
      table := EMPTY;
    }

    /** Also EnqueueTx, when the surrounding transaction commits. */
    method Enqueue(job: NewJob, now: int) returns (ok: bool)
      modifies this
      ensures ok <==> !old(KeyTaken(table, job.key))
      ensures ok ==> Ok(table) == old(Insert(table, job, now))
      ensures ok ==> var at := if job.runAfter == None then now else job.runAfter.value;
                     table == Table(old(table).rows[old(table).nextId :=
                                      Job(job.kind, job.payload, job.key, Pending, at, None, 0, None, "")],
                                    old(table).nextId + 1)
      ensures !ok ==> table == old(table)
    {
      var inserted := Insert(table, job, now);
      match inserted {
        case Ok(t) =>
          table := t;
          ok := true;
        case Err =>
          ok := false;
      }
    }

    /** `locked` holds the rows locked by other transactions at that moment. */
    method Dequeue(locked: set<nat>, now: int) returns (lease: Option<Lease>)
      modifies this
      ensures lease.None? <==> old(NextDue(table, locked, now)).None?
      ensures lease.None? ==> table == old(table)
      ensures lease.Some? ==>
                var id := old(NextDue(table, locked, now)).value;
                && lease.value == old(LeaseOf(table, id)) && lease.value.id == id
                && lease.value.kind == old(table).rows[id].kind && lease.value.payload == old(table).rows[id].payload
                && lease.value.attempts == old(table).rows[id].attempts
                && table.rows == old(table).rows[id :=
                                   old(table).rows[id].(status := Processing, lockedAt := Some(now))]
                && table == old(MarkProcessing(table, id, now))
    {
      var next := NextDue(table, locked, now);
      if next.None? {
        return None;
      }
      var id := next.value;
      lease := Some(LeaseOf(table, id));
      table := MarkProcessing(table, id, now);
    }

    /** Finishes a job in process, so that it is never handed out again; fails, changing nothing, for any other. */
    method Ack(id: nat, now: int) returns (ok: bool)
      modifies this
      ensures ok <==> old(InProcess(table, id))
      ensures ok ==> Closed(old(table), table, id, Done, now, old(table).rows[id].lastError)
      ensures !ok ==> table == old(table)
      ensures !InProcess(table, id)
      ensures old(WellFormed(table)) ==> WellFormed(table)
      ensures table == old(MarkDone(table, id, now))
    {
      ok := InProcess(table, id);
      table := MarkDone(table, id, now);
    }

    /** Touches only a job in process: requeued, it is due now with one more attempt; otherwise it has failed. */
    method Nack(id: nat, requeue: bool, now: int)
      modifies this
      ensures old(InProcess(table, id)) ==>
                var lastError := old(table).rows[id].lastError;
                if requeue then Requeued(old(table), table, id, now, lastError)
                else Closed(old(table), table, id, Failed, now, lastError)
      ensures !old(InProcess(table, id)) ==> table == old(table)
      ensures !InProcess(table, id)
      ensures old(WellFormed(table)) ==> WellFormed(table)
      ensures table == if requeue then old(RequeueNow(table, id, now)) else old(MarkFailed(table, id, now))
    {
      if requeue {
        table := RequeueNow(table, id, now);
        return;
      }
      table := MarkFailed(table, id, now);
    }

    /** Touches only a job in process: dead-lettered, or due again at `runAfter`; it records the clipped error. */
    method NackSchedule(id: nat, permanent: bool, runAfter: Option<int>, lastErr: string, now: int)
      modifies this
      ensures old(InProcess(table, id)) ==>
                if permanent then Closed(old(table), table, id, Failed, now, Clip(lastErr))
                else Requeued(old(table), table, id, if runAfter.Some? then runAfter.value else now, Clip(lastErr))
      ensures !old(InProcess(table, id)) ==> table == old(table)
      ensures !InProcess(table, id)
      ensures old(WellFormed(table)) ==> WellFormed(table)
      ensures table == if permanent then old(MarkFailedWith(table, id, now, Clip(lastErr)))
                       else old(Reschedule(table, id, if runAfter.Some? then runAfter.value else now, Clip(lastErr)))
    {
      var msg := lastErr;
      if |msg| > 4096 {
        msg := msg[..4096];
      }
      if permanent {
        table := MarkFailedWith(table, id, now, msg);
        return;
      }
      var at := now;
      if runAfter.Some? {
        at := runAfter.value;
      }
      table := Reschedule(table, id, at, msg);
    }
  }

  // ----- What every statement keeps -----

  lemma InsertAtKeepsWellFormed(t: Table, id: nat, job: NewJob, now: int)
    requires WellFormed(t) && id !in t.rows && InsertAt(t, id, job, now).Ok?
    ensures WellFormed(InsertAt(t, id, job, now).value)
  {
  }

  lemma InsertKeepsWellFormed(t: Table, job: NewJob, now: int)
    requires WellFormed(t) && Insert(t, job, now).Ok?
    ensures WellFormed(Insert(t, job, now).value)
  {
  }

  /** A claimed job is due, unlocked, and ahead of every other such job; nothing is claimed only if none exists. */
  lemma NextDueIsFirst(t: Table, locked: set<nat>, now: int)
    requires WellFormed(t)
    ensures NextDue(t, locked, now).None? <==> forall i :: !Claimable(t, locked, now, i)
    ensures var r := NextDue(t, locked, now);
            r.Some? ==> Claimable(t, locked, now, r.value)
                        && forall i | Claimable(t, locked, now, i) :: i == r.value || Before(t, r.value, i)
  {
  }
}
