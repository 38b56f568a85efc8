/** What a worker does with a finished lease (internal/worker/delivery_fail.go, cmd/apw/main.go). */
module Delivery {
  import opened Wrappers
  import opened SqlQueue
  import Backoff

  /** A failed run: an HTTP status from the remote inbox, or any other error. */
  datatype JobError = HttpError(status: int, text: string) | OtherError(text: string)

  /** What ProcessLease returned. */
  datatype Outcome = Success | Failure(error: JobError)

  predicate Permanent4xx(code: int) {
    code in {400, 401, 403, 404, 405, 410, 422}
  }

  /** Dead-letter rather than retry: a permanent 4xx, or the attempt budget is spent. */
  predicate GivesUp(lease: Lease, error: JobError, cfg: Backoff.Config) {
    || (error.HttpError? && Permanent4xx(error.status))
    || lease.attempts + 1 >= cfg.MaxAttempts()
  }

  function AfterFailure(t: Table, lease: Lease, error: JobError, cfg: Backoff.Config, now: int): Table {
    if GivesUp(lease, error, cfg) then MarkFailedWith(t, lease.id, now, Clip(error.text))
    else Reschedule(t, lease.id, now + Backoff.Delay(lease.attempts, cfg), Clip(error.text))
  }

  method HandleDeliveryJobFailure(q: Queue, lease: Lease, error: JobError, cfg: Backoff.Config, now: int)
    modifies q
    ensures q.table == old(AfterFailure(q.table, lease, error, cfg, now))
  {
    var max := cfg.maxAttempts;
    if max < 1 {
      max := 25;
    }
    if error.HttpError? && Permanent4xx(error.status) {
      q.NackSchedule(lease.id, true, None, error.text, now);
      return;
    }
    if lease.attempts + 1 >= max {
      q.NackSchedule(lease.id, true, None, error.text, now);
      return;
    }
    var next := Backoff.NextDeliveryRunAfter(lease.attempts, cfg, now);
    q.NackSchedule(lease.id, false, Some(next), error.text, now);
  }

  /** Ack, backoff or requeue, depending on how the run ended. */
  function AfterRun(t: Table, lease: Lease, outcome: Outcome, cfg: Backoff.Config, now: int): Table {
    match outcome
    case Success => MarkDone(t, lease.id, now)
    case Failure(error) =>
      if lease.kind.DeliverActivity? then AfterFailure(t, lease, error, cfg, now)
      else RequeueNow(t, lease.id, now)
  }

  /**
    What the end of a run makes of its row: done after a success; after a failed delivery dead-lettered
    or due again after the delay; due again at once after any other failure.
   */
  ghost predicate Resolved(t: Table, u: Table, lease: Lease, outcome: Outcome, cfg: Backoff.Config, now: int)
    requires lease.id in t.rows
  {
    var kept, max := t.rows[lease.id].lastError, if cfg.maxAttempts < 1 then 25 else cfg.maxAttempts;
    match outcome
    case Success => Closed(t, u, lease.id, Done, now, kept)
    case Failure(error) =>
      if lease.kind != DeliverActivity then Requeued(t, u, lease.id, now, kept)
      else if (error.HttpError? && error.status in {400, 401, 403, 404, 405, 410, 422}) || lease.attempts + 1 >= max
      then Closed(t, u, lease.id, Failed, now, Clip(error.text))
      else Requeued(t, u, lease.id, now + Backoff.Delay(lease.attempts, cfg), Clip(error.text))
  }

  lemma AfterRunResolves(t: Table, lease: Lease, outcome: Outcome, cfg: Backoff.Config, now: int)
    ensures if InProcess(t, lease.id) then Resolved(t, AfterRun(t, lease, outcome, cfg, now), lease, outcome, cfg, now)
            else AfterRun(t, lease, outcome, cfg, now) == t
  {
    hide Backoff.Delay, Clip;
  }

  /**
    One pass of the worker loop: the clock, and whether Dequeue succeeds; the jobs enqueued
    until `done`, by the run itself or by others; how the run ends if a job was found, and
    whether the ack or nack reaches the database.
   */
  datatype Pass = Pass(now: int, dequeues: bool, arrivals: seq<NewJob>, done: int, outcome: Outcome, resolves: bool)

  /** Enqueues one after the other; one with a taken key fails alone. */
  function Enqueued(t: Table, jobs: seq<NewJob>, now: int): Table
    decreases |jobs|
  {
    if jobs == [] then t
    else
      match Insert(t, jobs[0], now)
      case Err => Enqueued(t, jobs[1..], now)
      case Ok(u) => Enqueued(u, jobs[1..], now)
  }

  function Found(t: Table, pass: Pass): Option<nat> {
    if pass.dequeues then NextDue(t, {}, pass.now) else None
  }

  function AfterPass(t: Table, pass: Pass, cfg: Backoff.Config): Table {
    match Found(t, pass)
    case None => Enqueued(t, pass.arrivals, pass.done)
    case Some(id) =>
      var busy := Enqueued(MarkProcessing(t, id, pass.now), pass.arrivals, pass.done);
      if pass.resolves then AfterRun(busy, LeaseOf(t, id), pass.outcome, cfg, pass.done) else busy
  }

  function AfterPasses(t: Table, passes: seq<Pass>, cfg: Backoff.Config): Table
    decreases |passes|
  {
    if passes == [] then t else AfterPasses(AfterPass(t, passes[0], cfg), passes[1..], cfg)
  }

  /** What else happens to the queue while a lease runs or the loop sleeps. */
  method EnqueueArrivals(q: Queue, jobs: seq<NewJob>, now: int)
    modifies q
    ensures q.table == Enqueued(old(q.table), jobs, now)
  {
    var i := 0;
    while i < |jobs|
      invariant 0 <= i <= |jobs|
      invariant Enqueued(q.table, jobs[i..], now) == Enqueued(old(q.table), jobs, now)
    {
      assert jobs[i..][1..] == jobs[i + 1..];
      var ok := q.Enqueue(jobs[i], now);
      i := i + 1;
    }
  }

  /** Acks a success, backs a failed delivery off, and requeues any other failed job. */
  method ResolveLease(q: Queue, lease: Lease, outcome: Outcome, cfg: Backoff.Config, now: int)
    modifies q
    ensures q.table == old(AfterRun(q.table, lease, outcome, cfg, now))
    ensures old(InProcess(q.table, lease.id)) ==> Resolved(old(q.table), q.table, lease, outcome, cfg, now)
    ensures !old(InProcess(q.table, lease.id)) ==> q.table == old(q.table)
  {
    hide Resolved;
    AfterRunResolves(q.table, lease, outcome, cfg, now);
    match outcome {
      case Failure(error) =>
        if lease.kind == DeliverActivity {
          HandleDeliveryJobFailure(q, lease, error, cfg, now);
        } else {
          q.Nack(lease.id, true, now);
        }
      case Success =>
        var acked := q.Ack(lease.id, now);
    }
  }

  /** A single worker. The source's endless loop ends when its context is cancelled; here it ends after `passes`. */
  method WorkerLoop(q: Queue, passes: seq<Pass>, cfg: Backoff.Config)
    modifies q
    ensures q.table == AfterPasses(old(q.table), passes, cfg)
  {
    hide AfterRun, Enqueued, NextDue;
    var i := 0;
    while i < |passes|
      invariant 0 <= i <= |passes|
      invariant AfterPasses(q.table, passes[i..], cfg) == AfterPasses(old(q.table), passes, cfg)
    {
      var pass := passes[i];
      assert passes[i..][1..] == passes[i + 1..];
      i := i + 1;
      var lease: Option<Lease> := None;
      if pass.dequeues {
        lease := q.Dequeue({}, pass.now);
      }
      EnqueueArrivals(q, pass.arrivals, pass.done);
      if lease.None? {
        continue;
      }
      if pass.resolves {
        ResolveLease(q, lease.value, pass.outcome, cfg, pass.done);
      }
    }
  }
}
