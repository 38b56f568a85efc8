/**
  Any number of workers over one queue: who may hold a job, how often a delivery runs, how
  long a job can be overtaken, and why deliveries come to an end.

  Every step is one SQL statement or transaction boundary. Steps that are not enabled leave
  the state alone, so a run is any sequence of steps.
 */
module WorkerProtocol {
  import opened Wrappers
  import opened SqlQueue
  import opened Delivery
  import Vocabulary
  import Backoff

  type Worker = nat

  /**
    `claims` are rows locked by open dequeue transactions, `leases` the jobs handed out and
    not yet resolved, and `runs` counts how often each job was handed out.
   */
  datatype State = State(
    table: Table,
    now: int,
    claims: map<Worker, nat>,
    leases: map<Worker, Lease>,
    runs: map<nat, nat>)

  datatype Step =
    | Tick(clock: int)                                     // time passes
    | EnqueueJob(id: nat, job: NewJob, stamp: int)         // an enqueue commits; it drew `id` and read `stamp` before
    | Claim(w: Worker)                                     // SELECT .. FOR UPDATE SKIP LOCKED
    | CommitClaim(w: Worker)                               // UPDATE .. 'processing' and COMMIT; the job is run
    | Rollback(w: Worker)                                  // the dequeue transaction is lost
    | Finish(w: Worker, outcome: Outcome, stamp: int)      // ack or nack, decided at clock reading `stamp`
    | Crash(w: Worker)                                     // the lease is lost, its row stays as it is

  predicate Enabled(s: State, e: Step) {
    match e
    case Tick(clock) => s.now <= clock
    case EnqueueJob(id, _, stamp) => id !in s.table.rows && stamp <= s.now
    case Claim(w) => w !in s.claims && w !in s.leases
    case CommitClaim(w) => w in s.claims
    case Rollback(w) => w in s.claims
    case Finish(w, _, stamp) => w in s.leases && stamp <= s.now
    case Crash(w) => w in s.leases
  }

  function Runs(s: State, id: nat): nat {
    if id in s.runs then s.runs[id] else 0
  }

  function AfterEnqueue(s: State, id: nat, job: NewJob, stamp: int): State {
    match InsertAt(s.table, id, job, stamp)
    case Ok(t) => s.(table := t)
    case Err => s
  }

  function AfterClaim(s: State, w: Worker): State {
    match NextDue(s.table, s.claims.Values, s.now)
    case Some(id) => s.(claims := s.claims[w := id])
    case None => s
  }

  function AfterCommit(s: State, w: Worker): State
    requires w in s.claims
  {
    var id := s.claims[w];
    if id !in s.table.rows then s
    else
      State(MarkProcessing(s.table, id, s.now), s.now, s.claims - {w},
            s.leases[w := LeaseOf(s.table, id)], s.runs[id := Runs(s, id) + 1])
  }

  /** A delivery failure reads the worker's clock; every other resolution uses the database's. */
  function AfterFinish(s: State, w: Worker, outcome: Outcome, stamp: int, cfg: Backoff.Config): State
    requires w in s.leases
  {
    var lease := s.leases[w];
    var at := if outcome.Failure? && lease.kind.DeliverActivity? then stamp else s.now;
    s.(table := AfterRun(s.table, lease, outcome, cfg, at), leases := s.leases - {w})
  }

  function Next(s: State, e: Step, cfg: Backoff.Config): State {
    if !Enabled(s, e) then s
    else
      match e
      case Tick(clock) => s.(now := clock)
      case EnqueueJob(id, job, stamp) => AfterEnqueue(s, id, job, stamp)
      case Claim(w) => AfterClaim(s, w)
      case CommitClaim(w) => AfterCommit(s, w)
      case Rollback(w) => s.(claims := s.claims - {w})
      case Finish(w, outcome, stamp) => AfterFinish(s, w, outcome, stamp, cfg)
      case Crash(w) => s.(leases := s.leases - {w})
  }

  function Exec(s: State, run: seq<Step>, cfg: Backoff.Config): State
    decreases |run|
  {
    if run == [] then s else Exec(Next(s, run[0], cfg), run[1..], cfg)
  }

  const INITIAL: State := State(EMPTY, 0, map[], map[], map[])

  // ----- The invariant -----

  predicate Deliver(row: Job) {
    row.kind.DeliverActivity?
  }

  ghost predicate LeaseMatchesRow(t: Table, lease: Lease) {
    && lease.id in t.rows
    && t.rows[lease.id].status == Processing
    && lease == LeaseOf(t, lease.id)
  }

  ghost predicate ClaimsOk(s: State) {
    && (forall w | w in s.claims ::
          w !in s.leases && s.claims[w] in s.table.rows && s.table.rows[s.claims[w]].status == Pending)
    && (forall w, v | w in s.claims && v in s.claims && s.claims[w] == s.claims[v] :: w == v)
  }

  ghost predicate LeasesOk(s: State) {
    && (forall w | w in s.leases :: LeaseMatchesRow(s.table, s.leases[w]))
    && (forall w, v | w in s.leases && v in s.leases && s.leases[w].id == s.leases[v].id :: w == v)
  }

  /** A delivery has been handed out once per recorded attempt, and once more after it left `pending`. */
  ghost predicate BudgetOk(s: State, id: nat, max: int) {
    id in s.table.rows && Deliver(s.table.rows[id]) ==>
      var row := s.table.rows[id];
      row.attempts <= max - 1 && Runs(s, id) == row.attempts + (if row.status == Pending then 0 else 1)
  }

  ghost predicate BudgetsOk(s: State, max: int) {
    && (forall id | id in s.table.rows :: BudgetOk(s, id, max))
    && (forall id | id in s.runs :: id in s.table.rows)
  }

  ghost predicate Inv(s: State, max: int) {
    && WellFormed(s.table)
    && ClaimsOk(s)
    && LeasesOk(s)
    && BudgetsOk(s, max)
  }

  /** The row and the time that a step writes to run_after, if it leaves a row pending by writing one. */
  function Written(s: State, e: Step, cfg: Backoff.Config): Option<(nat, int)> {
    match e
    case EnqueueJob(id, job, stamp) => if KeyTaken(s.table, job.key) then None else Some((id, RunAt(job, stamp)))
    case Finish(w, Failure(error), stamp) =>
      if w !in s.leases then None
      else
        var lease := s.leases[w];
        if !lease.kind.DeliverActivity? then Some((lease.id, s.now))
        else if GivesUp(lease, error, cfg) then None
        else Some((lease.id, stamp + Backoff.Delay(lease.attempts, cfg)))
    case _ => None
  }

  /** Resolving a lease rewrites exactly its row: finished, or pending again with one more attempt. */
  lemma FinishShape(s: State, w: Worker, outcome: Outcome, stamp: int, cfg: Backoff.Config) returns (row: Job)
    requires w in s.leases && LeaseMatchesRow(s.table, s.leases[w])
    ensures var id := s.leases[w].id; var prior := s.table.rows[id];
            && AfterFinish(s, w, outcome, stamp, cfg)
               == s.(table := SetRow(s.table, id, row), leases := s.leases - {w})
            && row.kind == prior.kind && row.key == prior.key
            && (row.status == Done || row.status == Failed ==> row.attempts == prior.attempts)
            && (outcome.Success? ==> row.finishedAt == Some(s.now))
            && (row.status == Pending || row.status == Done || row.status == Failed)
            && (row.status == Pending ==>
                  && row.attempts == prior.attempts + 1
                  && (Deliver(prior) ==> row.attempts <= cfg.MaxAttempts() - 1)
                  && Written(s, Finish(w, outcome, stamp), cfg) == Some((id, row.runAfter)))
  {
    hide Backoff.Delay, Clip;
    row := AfterFinish(s, w, outcome, stamp, cfg).table.rows[s.leases[w].id];
  }

  lemma ReplacingRowKeepsWellFormed(t: Table, id: nat, row: Job)
    requires WellFormed(t) && id in t.rows && row.key == t.rows[id].key
    ensures WellFormed(SetRow(t, id, row))
  {
  }

  /** Handing a row over to a claimant leaves the other claims and leases intact. */
  lemma CommitKeepsOwnership(s: State, w: Worker)
    requires ClaimsOk(s) && LeasesOk(s) && w in s.claims
    ensures ClaimsOk(AfterCommit(s, w)) && LeasesOk(AfterCommit(s, w))
  {
    var n := AfterCommit(s, w);
    var id := s.claims[w];
    forall v | v in s.leases
      ensures s.leases[v].id != id && LeaseMatchesRow(n.table, s.leases[v])
    {
      assert LeaseMatchesRow(s.table, s.leases[v]);
    }
    assert LeaseMatchesRow(n.table, n.leases[w]);
  }

  lemma CommitKeepsInv(s: State, w: Worker, max: int)
    requires Inv(s, max) && w in s.claims
    ensures Inv(AfterCommit(s, w), max)
  {
    hide WellFormed;
    CommitKeepsOwnership(s, w);
    var n := AfterCommit(s, w);
    var id := s.claims[w];
    var row := n.table.rows[id];
    ReplacingRowKeepsWellFormed(s.table, id, row);
    assert n.table == SetRow(s.table, id, row);
    CommitKeepsBudgets(s, w, max);
  }

  lemma CommitKeepsBudgets(s: State, w: Worker, max: int)
    requires BudgetsOk(s, max) && ClaimsOk(s) && WellFormed(s.table) && w in s.claims
    ensures BudgetsOk(AfterCommit(s, w), max)
  {
    var n := AfterCommit(s, w);
    forall i | i in n.table.rows
      ensures BudgetOk(n, i, max)
    {
      assert BudgetOk(s, i, max);
    }
  }

  /** Giving up a lease and rewriting its row leaves every other claim and lease intact. */
  lemma ReleaseKeepsOwnership(s: State, w: Worker, row: Job)
    requires ClaimsOk(s) && LeasesOk(s) && w in s.leases
    ensures var n := s.(table := SetRow(s.table, s.leases[w].id, row), leases := s.leases - {w});
            ClaimsOk(n) && LeasesOk(n)
  {
    var id := s.leases[w].id;
    assert LeaseMatchesRow(s.table, s.leases[w]);
    var n := s.(table := SetRow(s.table, id, row), leases := s.leases - {w});
    forall v | v in n.leases
      ensures LeaseMatchesRow(n.table, n.leases[v])
    {
      assert LeaseMatchesRow(s.table, s.leases[v]);
    }
    forall v | v in n.claims
      ensures n.claims[v] != id
    {
    }
  }

  lemma FinishKeepsInv(s: State, w: Worker, outcome: Outcome, stamp: int, cfg: Backoff.Config)
    requires Inv(s, cfg.MaxAttempts()) && w in s.leases
    ensures Inv(AfterFinish(s, w, outcome, stamp, cfg), cfg.MaxAttempts())
  {
    hide AfterFinish, WellFormed;
    var id := s.leases[w].id;
    assert LeaseMatchesRow(s.table, s.leases[w]);
    var row := FinishShape(s, w, outcome, stamp, cfg);
    ReplacingRowKeepsWellFormed(s.table, id, row);
    ReleaseKeepsOwnership(s, w, row);
    var n := s.(table := SetRow(s.table, id, row), leases := s.leases - {w});
    forall i | i in n.table.rows
      ensures BudgetOk(n, i, cfg.MaxAttempts())
    {
      assert BudgetOk(s, i, cfg.MaxAttempts());
    }
  }

  lemma ClaimKeepsInv(s: State, w: Worker, max: int)
    requires Inv(s, max) && w !in s.claims && w !in s.leases
    ensures Inv(AfterClaim(s, w), max)
  {
    hide WellFormed, LeasesOk, ClaimsOk;
    var n := AfterClaim(s, w);
    forall i | i in n.table.rows
      ensures BudgetOk(n, i, max)
    {
      assert BudgetOk(s, i, max);
    }
    ClaimKeepsOwnership(s, w);
  }

  lemma ClaimKeepsOwnership(s: State, w: Worker)
    requires ClaimsOk(s) && LeasesOk(s) && w !in s.claims && w !in s.leases
    ensures ClaimsOk(AfterClaim(s, w)) && LeasesOk(AfterClaim(s, w))
  {
    hide FirstBelow;
    forall v | v in s.claims
      ensures s.claims[v] in s.claims.Values
    {
    }
  }

  lemma EnqueueKeepsInv(s: State, id: nat, job: NewJob, stamp: int, max: int)
    requires Inv(s, max) && max >= 1 && id !in s.table.rows
    ensures Inv(AfterEnqueue(s, id, job, stamp), max)
  {
    var inserted := InsertAt(s.table, id, job, stamp);
    if inserted.Ok? {
      InsertAtKeepsWellFormed(s.table, id, job, stamp);
      AppendKeepsInv(s, id, inserted.value, max);
    }
  }

  /** A fresh pending row changes nothing for the rows that were there. */
  lemma AppendKeepsInv(s: State, id: nat, t: Table, max: int)
    requires Inv(s, max) && WellFormed(t) && id in t.rows && id !in s.table.rows
    requires t.rows == s.table.rows[id := t.rows[id]]
    requires t.rows[id].status == Pending && t.rows[id].attempts == 0 && max >= 1
    ensures Inv(s.(table := t), max)
  {
    hide WellFormed;
    var n := s.(table := t);
    assert forall i | i in s.table.rows :: i in t.rows && t.rows[i] == s.table.rows[i];
    forall i | i in t.rows
      ensures BudgetOk(n, i, max)
    {
      if i != id {
        assert i in s.table.rows;
        assert BudgetOk(s, i, max);
      }
    }
    forall v | v in n.leases
      ensures LeaseMatchesRow(t, n.leases[v])
    {
      assert LeaseMatchesRow(s.table, s.leases[v]);
    }
  }

  /** Time, lost transactions and lost leases do not touch the table. */
  lemma LossKeepsInv(s: State, n: State, max: int)
    requires Inv(s, max) && n.table == s.table && n.runs == s.runs
    requires n.claims.Keys <= s.claims.Keys && n.leases.Keys <= s.leases.Keys
    requires forall w | w in n.claims :: n.claims[w] == s.claims[w]
    requires forall w | w in n.leases :: n.leases[w] == s.leases[w]
    ensures Inv(n, max)
  {
    hide WellFormed;
    assert forall i | i in s.table.rows :: BudgetOk(s, i, max) ==> BudgetOk(n, i, max);
    assert forall w | w in n.claims :: w in s.claims;
    assert forall w | w in n.leases :: w in s.leases;
  }

  lemma NextKeepsInv(s: State, e: Step, cfg: Backoff.Config)
    requires Inv(s, cfg.MaxAttempts())
    ensures Inv(Next(s, e, cfg), cfg.MaxAttempts())
  {
    hide Inv, AfterEnqueue, AfterClaim, AfterCommit, AfterFinish;
    if Enabled(s, e) {
      match e {
        case EnqueueJob(id, job, stamp) => EnqueueKeepsInv(s, id, job, stamp, cfg.MaxAttempts());
        case Claim(w) => ClaimKeepsInv(s, w, cfg.MaxAttempts());
        case CommitClaim(w) => CommitKeepsInv(s, w, cfg.MaxAttempts());
        case Finish(w, outcome, stamp) => FinishKeepsInv(s, w, outcome, stamp, cfg);
        case _ => LossKeepsInv(s, Next(s, e, cfg), cfg.MaxAttempts());
      }
    }
  }

  lemma {:induction false} ExecKeepsInv(s: State, run: seq<Step>, cfg: Backoff.Config)
    requires Inv(s, cfg.MaxAttempts())
    ensures Inv(Exec(s, run, cfg), cfg.MaxAttempts())
    decreases |run|
  {
    if run != [] {
      NextKeepsInv(s, run[0], cfg);
      ExecKeepsInv(Next(s, run[0], cfg), run[1..], cfg);
    }
  }

  // ----- Lease exclusivity and the delivery budget -----

  /** Over every interleaving, crashes included: one lease per job, showing the row's attempts, type and payload. */
  lemma LeaseExclusivity(run: seq<Step>, cfg: Backoff.Config, w: Worker, v: Worker)
    ensures var s := Exec(INITIAL, run, cfg);
            && (w in s.leases && v in s.leases && s.leases[w].id == s.leases[v].id ==> w == v)
            && (w in s.leases ==> s.leases[w].id in s.table.rows
                                  && s.table.rows[s.leases[w].id].status == Processing
                                  && s.table.rows[s.leases[w].id].attempts == s.leases[w].attempts
                                  && s.table.rows[s.leases[w].id].kind == s.leases[w].kind
                                  && s.table.rows[s.leases[w].id].payload == s.leases[w].payload)
            && (w in s.claims && v in s.leases ==> s.claims[w] != s.leases[v].id)
  {
    ExecKeepsInv(INITIAL, run, cfg);
    var s := Exec(INITIAL, run, cfg);
    if w in s.leases {
      assert LeaseMatchesRow(s.table, s.leases[w]);
    }
    if v in s.leases {
      assert LeaseMatchesRow(s.table, s.leases[v]);
    }
  }

  /** A delivery is handed out at most MaxAttempts times, and one recorded attempt fewer. */
  lemma DeliveryBudget(run: seq<Step>, cfg: Backoff.Config, id: nat)
    ensures var s := Exec(INITIAL, run, cfg);
            id in s.table.rows && Deliver(s.table.rows[id]) ==>
              && s.table.rows[id].attempts <= cfg.MaxAttempts() - 1
              && Runs(s, id) <= cfg.MaxAttempts()
  {
    ExecKeepsInv(INITIAL, run, cfg);
    var s := Exec(INITIAL, run, cfg);
    if id in s.table.rows {
      assert BudgetOk(s, id, cfg.MaxAttempts());
    }
  }

  /**
    A failed run is dead-lettered exactly when the inbox refused for good or this was the last
    run of the budget; otherwise it waits out the backoff.
   */
  lemma DeadLetterIsEarned(s: State, w: Worker, error: JobError, stamp: int, cfg: Backoff.Config)
    requires Inv(s, cfg.MaxAttempts()) && Backoff.Safe(cfg)
    requires Enabled(s, Finish(w, Failure(error), stamp)) && s.leases[w].kind.DeliverActivity?
    ensures var id := s.leases[w].id;
            var row := Next(s, Finish(w, Failure(error), stamp), cfg).table.rows[id];
            if (error.HttpError? && Permanent4xx(error.status)) || Runs(s, id) == cfg.MaxAttempts() then
              row.status == Failed
            else
              row.status == Pending && row.runAfter == stamp + Backoff.ClosedForm(s.leases[w].attempts, cfg)
  {
    var lease := s.leases[w];
    assert LeaseMatchesRow(s.table, lease);
    assert BudgetOk(s, lease.id, cfg.MaxAttempts());
    Backoff.SafeDelay(lease.attempts, cfg);
  }

  predicate Finished(row: Job) {
    row.status == Done || row.status == Failed
  }

  lemma NextKeepsFinished(s: State, e: Step, cfg: Backoff.Config, id: nat)
    requires Inv(s, cfg.MaxAttempts())
    requires id in s.table.rows && Finished(s.table.rows[id])
    ensures var n := Next(s, e, cfg); id in n.table.rows && n.table.rows[id] == s.table.rows[id]
  {
    hide FirstBelow, WellFormed, BudgetsOk, AfterRun;
    if e.Finish? && Enabled(s, e) {
      assert LeaseMatchesRow(s.table, s.leases[e.w]);
      var row := FinishShape(s, e.w, e.outcome, e.stamp, cfg);
    }
  }

  /** Done and failed are absorbing: no later step touches the row. */
  lemma {:induction false} FinishedIsFinal(s: State, run: seq<Step>, cfg: Backoff.Config, id: nat)
    requires Inv(s, cfg.MaxAttempts())
    requires id in s.table.rows && Finished(s.table.rows[id])
    ensures var n := Exec(s, run, cfg); id in n.table.rows && n.table.rows[id] == s.table.rows[id]
    decreases |run|
  {
    if run != [] {
      NextKeepsInv(s, run[0], cfg);
      NextKeepsFinished(s, run[0], cfg, id);
      FinishedIsFinal(Next(s, run[0], cfg), run[1..], cfg, id);
    }
  }

  // ----- Deliveries come to an end -----

  /** Two units per attempt left; being handed out costs one, being resolved the other. */
  function Weight(t: Table, max: int, id: nat): int {
    if id !in t.rows || !Deliver(t.rows[id]) || Finished(t.rows[id]) then 0
    else 2 * (max - t.rows[id].attempts) - (if t.rows[id].status == Processing then 1 else 0)
  }

  function TotalWeight(t: Table, max: int, n: nat): int {
    if n == 0 then 0 else TotalWeight(t, max, n - 1) + Weight(t, max, n - 1)
  }

  function Work(s: State, max: int): int {
    TotalWeight(s.table, max, s.table.nextId)
  }

  /** A dequeue, ack or nack of a delivery. */
  predicate DeliveryStep(s: State, e: Step) {
    && Enabled(s, e)
    && match e
       case CommitClaim(w) => s.claims[w] in s.table.rows && Deliver(s.table.rows[s.claims[w]])
       case Finish(w, _, _) => s.leases[w].kind.DeliverActivity?
       case _ => false
  }

  predicate AddsDelivery(e: Step) {
    e.EnqueueJob? && e.job.kind.DeliverActivity?
  }

  function DeliverySteps(s: State, run: seq<Step>, cfg: Backoff.Config): nat
    decreases |run|
  {
    if run == [] then 0
    else (if DeliveryStep(s, run[0]) then 1 else 0) + DeliverySteps(Next(s, run[0], cfg), run[1..], cfg)
  }

  lemma {:induction false} OneRowWeight(t: Table, u: Table, max: int, n: nat, id: nat)
    requires forall i: nat | i < n && i != id :: Weight(t, max, i) == Weight(u, max, i)
    ensures TotalWeight(u, max, n) - TotalWeight(t, max, n)
            == if id < n then Weight(u, max, id) - Weight(t, max, id) else 0
    decreases n
  {
    if n > 0 {
      OneRowWeight(t, u, max, n - 1, id);
    }
  }

  lemma {:induction false} WorkIsNonnegative(s: State, max: int, n: nat)
    requires Inv(s, max)
    ensures TotalWeight(s.table, max, n) >= 0
    decreases n
  {
    if n > 0 {
      WorkIsNonnegative(s, max, n - 1);
      if n - 1 in s.table.rows {
        assert BudgetOk(s, n - 1, max);
      }
    }
  }

  lemma FinishLowersWork(s: State, w: Worker, outcome: Outcome, stamp: int, cfg: Backoff.Config)
    requires Inv(s, cfg.MaxAttempts()) && w in s.leases
    ensures var max := cfg.MaxAttempts(); var work := Work(AfterFinish(s, w, outcome, stamp, cfg), max);
            if s.leases[w].kind.DeliverActivity? then work < Work(s, max) else work == Work(s, max)
  {
    hide AfterFinish, WellFormed;
    var id := s.leases[w].id;
    assert LeaseMatchesRow(s.table, s.leases[w]);
    assert BudgetOk(s, id, cfg.MaxAttempts());
    assert id < s.table.nextId by {
      IdsBelowNext(s.table, id);
    }
    var row := FinishShape(s, w, outcome, stamp, cfg);
    OneRowWeight(s.table, SetRow(s.table, id, row), cfg.MaxAttempts(), s.table.nextId, id);
  }

  lemma IdsBelowNext(t: Table, id: nat)
    requires WellFormed(t) && id in t.rows
    ensures id < t.nextId
  {
  }

  lemma CommitLowersWork(s: State, w: Worker, max: int)
    requires Inv(s, max) && w in s.claims
    ensures var work := Work(AfterCommit(s, w), max);
            if Deliver(s.table.rows[s.claims[w]]) then work < Work(s, max) else work == Work(s, max)
  {
    var id := s.claims[w];
    OneRowWeight(s.table, MarkProcessing(s.table, id, s.now), max, s.table.nextId, id);
  }

  lemma {:induction false} NothingAboveWeighs(t: Table, max: int, n: nat)
    requires WellFormed(t) && t.nextId <= n
    ensures TotalWeight(t, max, n) == TotalWeight(t, max, t.nextId)
    decreases n
  {
    if t.nextId < n {
      NothingAboveWeighs(t, max, n - 1);
    }
  }

  lemma EnqueueKeepsWork(s: State, id: nat, job: NewJob, stamp: int, max: int)
    requires WellFormed(s.table) && id !in s.table.rows && !job.kind.DeliverActivity?
    ensures Work(AfterEnqueue(s, id, job, stamp), max) == Work(s, max)
  {
    var t := AfterEnqueue(s, id, job, stamp).table;
    if t != s.table {
      OneRowWeight(s.table, t, max, t.nextId, id);
      NothingAboveWeighs(s.table, max, t.nextId);
    }
  }

  lemma NextLowersWork(s: State, e: Step, cfg: Backoff.Config)
    requires Inv(s, cfg.MaxAttempts()) && !AddsDelivery(e)
    ensures var max := cfg.MaxAttempts(); var work := Work(Next(s, e, cfg), max);
            if DeliveryStep(s, e) then work < Work(s, max) else work == Work(s, max)
  {
    hide AfterEnqueue, AfterCommit, AfterFinish;
    if Enabled(s, e) {
      match e {
        case EnqueueJob(id, job, stamp) => EnqueueKeepsWork(s, id, job, stamp, cfg.MaxAttempts());
        case CommitClaim(w) => CommitLowersWork(s, w, cfg.MaxAttempts());
        case Finish(w, outcome, stamp) => FinishLowersWork(s, w, outcome, stamp, cfg);
        case _ =>
      }
    }
  }

  /**
    Without new deliveries a run holds at most `Work` delivery steps: every dequeue, ack and
    delivery failure uses some of it up, whatever the other jobs do.
   */
  lemma {:induction false} DeliveryTerminates(s: State, run: seq<Step>, cfg: Backoff.Config)
    requires Inv(s, cfg.MaxAttempts())
    requires forall e | e in run :: !AddsDelivery(e)
    ensures DeliverySteps(s, run, cfg) + Work(Exec(s, run, cfg), cfg.MaxAttempts()) <= Work(s, cfg.MaxAttempts())
    ensures DeliverySteps(s, run, cfg) <= Work(s, cfg.MaxAttempts())
    decreases |run|
  {
    var max := cfg.MaxAttempts();
    if run == [] {
      WorkIsNonnegative(s, max, s.table.nextId);
    } else {
      NextKeepsInv(s, run[0], cfg);
      NextLowersWork(s, run[0], cfg);
      var n := Next(s, run[0], cfg);
      WorkIsNonnegative(n, max, n.table.nextId);
      DeliveryTerminates(n, run[1..], cfg);
      ExecKeepsInv(n, run[1..], cfg);
      var last := Exec(n, run[1..], cfg);
      WorkIsNonnegative(last, max, last.table.nextId);
    }
  }

  /** No row is `processing` without a lease; only a crash can break this. */
  ghost predicate NothingStranded(s: State) {
    forall id | id in s.table.rows && s.table.rows[id].status == Processing ::
      exists w :: w in s.leases && s.leases[w].id == id
  }

  lemma FinishStrandsNothing(s: State, w: Worker, outcome: Outcome, stamp: int, cfg: Backoff.Config)
    requires Inv(s, cfg.MaxAttempts()) && NothingStranded(s) && w in s.leases
    ensures NothingStranded(AfterFinish(s, w, outcome, stamp, cfg))
  {
    hide AfterFinish, WellFormed, BudgetsOk;
    var row := FinishShape(s, w, outcome, stamp, cfg);
    var n := s.(table := SetRow(s.table, s.leases[w].id, row), leases := s.leases - {w});
    forall id | id in n.table.rows && n.table.rows[id].status == Processing
      ensures exists v :: v in n.leases && n.leases[v].id == id
    {
      var v :| v in s.leases && s.leases[v].id == id;
      assert v in n.leases && n.leases[v].id == id;
    }
  }

  lemma CommitStrandsNothing(s: State, w: Worker)
    requires NothingStranded(s) && ClaimsOk(s) && w in s.claims
    ensures NothingStranded(AfterCommit(s, w))
  {
    var n := AfterCommit(s, w);
    forall id | id in n.table.rows && n.table.rows[id].status == Processing
      ensures exists v :: v in n.leases && n.leases[v].id == id
    {
      if s.claims[w] == id {
        assert w in n.leases && n.leases[w].id == id;
      } else {
        var v :| v in s.leases && s.leases[v].id == id;
        assert v in n.leases && n.leases[v].id == id;
      }
    }
  }

  lemma EnqueueStrandsNothing(s: State, id: nat, job: NewJob, stamp: int)
    requires NothingStranded(s) && id !in s.table.rows
    ensures NothingStranded(AfterEnqueue(s, id, job, stamp))
  {
    var n := AfterEnqueue(s, id, job, stamp);
    forall i | i in n.table.rows && n.table.rows[i].status == Processing
      ensures exists v :: v in n.leases && n.leases[v].id == i
    {
      var v :| v in s.leases && s.leases[v].id == i;
    }
  }

  lemma NextStrandsNothing(s: State, e: Step, cfg: Backoff.Config)
    requires Inv(s, cfg.MaxAttempts()) && NothingStranded(s) && !e.Crash?
    ensures NothingStranded(Next(s, e, cfg))
  {
    hide NothingStranded, AfterEnqueue, AfterCommit, AfterFinish;
    if Enabled(s, e) {
      match e {
        case EnqueueJob(id, job, stamp) => EnqueueStrandsNothing(s, id, job, stamp);
        case CommitClaim(w) => CommitStrandsNothing(s, w);
        case Finish(w, outcome, stamp) => FinishStrandsNothing(s, w, outcome, stamp, cfg);
        case _ => SameRowsStrandNothing(s, Next(s, e, cfg));
      }
    }
  }

  lemma SameRowsStrandNothing(s: State, n: State)
    requires NothingStranded(s) && n.table == s.table && n.leases == s.leases
    ensures NothingStranded(n)
  {
  }

  lemma {:induction false} CrashFreeStrandsNothing(s: State, run: seq<Step>, cfg: Backoff.Config)
    requires Inv(s, cfg.MaxAttempts()) && NothingStranded(s)
    requires forall e | e in run :: !e.Crash?
    ensures NothingStranded(Exec(s, run, cfg))
    decreases |run|
  {
    if run != [] {
      NextKeepsInv(s, run[0], cfg);
      NextStrandsNothing(s, run[0], cfg);
      CrashFreeStrandsNothing(Next(s, run[0], cfg), run[1..], cfg);
    }
  }

  /**
    After a crash-free run, a job that nobody holds and that no dequeue can ever claim is
    finished, whatever the other jobs do.
   */
  lemma UnclaimableJobsHaveFinished(run: seq<Step>, cfg: Backoff.Config, id: nat)
    requires forall e | e in run :: !e.Crash?
    requires var s := Exec(INITIAL, run, cfg);
             && id in s.table.rows
             && (forall w | w in s.leases :: s.leases[w].id != id)
             && forall clock: int :: !Claimable(s.table, {}, clock, id)
    ensures Finished(Exec(INITIAL, run, cfg).table.rows[id])
  {
    hide Exec;
    CrashFreeStrandsNothing(INITIAL, run, cfg);
    var s := Exec(INITIAL, run, cfg);
    assert !Claimable(s.table, {}, s.table.rows[id].runAfter, id);
  }

  // ----- Bounded overtaking -----

  /** Due strictly before now, pending, and not locked by a dequeue transaction. */
  ghost predicate Waiting(s: State, j: nat) {
    && j in s.table.rows
    && s.table.rows[j].status == Pending
    && s.table.rows[j].runAfter < s.now
    && j !in s.claims.Values
  }

  ghost predicate WaitingThroughout(s: State, run: seq<Step>, j: nat, cfg: Backoff.Config)
    decreases |run|
  {
    Waiting(s, j) && (run != [] ==> WaitingThroughout(Next(s, run[0], cfg), run[1..], j, cfg))
  }

  /** Pending jobs that the dequeue order puts before `j`. */
  ghost function Ahead(s: State, j: nat): set<nat> {
    set i | i in s.table.rows && s.table.rows[i].status == Pending && Before(s.table, i, j)
  }

  /** The jobs that can still be handed out before `j`: those ahead of it, and those already locked. */
  ghost function Rivals(s: State, j: nat): set<nat> {
    Ahead(s, j) + s.claims.Values
  }

  /** The step writes a time that puts its row before `j`. */
  predicate Overtakes(s: State, e: Step, cfg: Backoff.Config, j: nat) {
    && Enabled(s, e) && j in s.table.rows && Written(s, e, cfg).Some?
    && var (id, time) := Written(s, e, cfg).value;
    var due := s.table.rows[j].runAfter;
    time < due || (time == due && id < j)
  }

  function Overtakings(s: State, run: seq<Step>, cfg: Backoff.Config, j: nat): nat
    decreases |run|
  {
    if run == [] then 0
    else (if Overtakes(s, run[0], cfg, j) then 1 else 0) + Overtakings(Next(s, run[0], cfg), run[1..], cfg, j)
  }

  function Commits(s: State, run: seq<Step>, cfg: Backoff.Config): nat
    decreases |run|
  {
    if run == [] then 0
    else (if run[0].CommitClaim? && Enabled(s, run[0]) then 1 else 0)
         + Commits(Next(s, run[0], cfg), run[1..], cfg)
  }

  /** The row a step moves before `j`, if it does. */
  function Overtaker(s: State, e: Step, cfg: Backoff.Config, j: nat): set<nat> {
    if Overtakes(s, e, cfg, j) then {Written(s, e, cfg).value.0} else {}
  }

  lemma FinishAddsOvertaker(s: State, w: Worker, outcome: Outcome, stamp: int, cfg: Backoff.Config, j: nat)
    requires LeasesOk(s) && Waiting(s, j) && Enabled(s, Finish(w, outcome, stamp))
    ensures var n := AfterFinish(s, w, outcome, stamp, cfg);
            && j in n.table.rows && n.table.rows[j] == s.table.rows[j]
            && Rivals(n, j) <= Rivals(s, j) + Overtaker(s, Finish(w, outcome, stamp), cfg, j)
  {
    hide AfterFinish, Written;
    assert LeaseMatchesRow(s.table, s.leases[w]);
    var row := FinishShape(s, w, outcome, stamp, cfg);
    var n := s.(table := SetRow(s.table, s.leases[w].id, row), leases := s.leases - {w});
    assert forall i | i in Ahead(n, j) && i != s.leases[w].id :: i in Ahead(s, j);
  }

  lemma ClaimPicksRival(s: State, w: Worker, j: nat)
    requires WellFormed(s.table) && Waiting(s, j)
    requires w !in s.claims && j !in AfterClaim(s, w).claims.Values
    ensures Rivals(AfterClaim(s, w), j) <= Rivals(s, j)
  {
    NextDueIsFirst(s.table, s.claims.Values, s.now);
    assert Claimable(s.table, s.claims.Values, s.now, j);
    var id := NextDue(s.table, s.claims.Values, s.now).value;
    var n := s.(claims := s.claims[w := id]);
    assert n.claims[w] in n.claims.Values;
    assert id in Ahead(s, j);
    assert n.claims.Values <= s.claims.Values + {id};
  }

  lemma CommittedIsNotAhead(s: State, w: Worker, j: nat)
    requires ClaimsOk(s) && Waiting(s, j) && w in s.claims
    ensures var n := AfterCommit(s, w);
            && j in n.table.rows && n.table.rows[j] == s.table.rows[j]
            && Ahead(n, j) <= Ahead(s, j) - {s.claims[w]}
  {
    assert s.claims[w] in s.claims.Values;
  }

  lemma CommittedIsNotClaimed(claims: map<Worker, nat>, w: Worker)
    requires w in claims && forall v | v in claims && claims[v] == claims[w] :: v == w
    ensures (claims - {w}).Values <= claims.Values - {claims[w]} && claims[w] in claims.Values
  {
  }

  lemma CommitRemovesRival(s: State, w: Worker, j: nat)
    requires ClaimsOk(s) && Waiting(s, j) && w in s.claims
    ensures var n := AfterCommit(s, w);
            && j in n.table.rows && n.table.rows[j] == s.table.rows[j]
            && Rivals(n, j) <= Rivals(s, j) && |Rivals(n, j)| < |Rivals(s, j)|
  {
    hide Ahead, MarkProcessing;
    CommittedIsNotAhead(s, w, j);
    CommittedIsNotClaimed(s.claims, w);
    SubsetCardinality(Rivals(AfterCommit(s, w), j), Rivals(s, j) - {s.claims[w]});
  }

  lemma EnqueueAddsOvertaker(s: State, id: nat, job: NewJob, stamp: int, cfg: Backoff.Config, j: nat)
    requires j in s.table.rows && Enabled(s, EnqueueJob(id, job, stamp))
    ensures var n := AfterEnqueue(s, id, job, stamp);
            && j in n.table.rows && n.table.rows[j] == s.table.rows[j]
            && Rivals(n, j) <= Rivals(s, j) + Overtaker(s, EnqueueJob(id, job, stamp), cfg, j)
  {
    var n := AfterEnqueue(s, id, job, stamp);
    assert forall i | i in Ahead(n, j) && i != id :: i in Ahead(s, j);
  }

  lemma SameTableSameRivals(s: State, n: State, j: nat)
    requires n.table == s.table && n.claims.Values <= s.claims.Values
    ensures Rivals(n, j) <= Rivals(s, j)
  {
    assert Ahead(n, j) == Ahead(s, j);
  }

  /** While `j` waits only an overtaking step adds a rival, and each committed dequeue removes one. */
  lemma NextRemovesRivals(s: State, e: Step, cfg: Backoff.Config, j: nat)
    requires Inv(s, cfg.MaxAttempts()) && Waiting(s, j) && Waiting(Next(s, e, cfg), j)
    ensures var n := Next(s, e, cfg);
            && n.table.rows[j] == s.table.rows[j]
            && Rivals(n, j) <= Rivals(s, j) + Overtaker(s, e, cfg, j)
            && (e.CommitClaim? && Enabled(s, e) ==> |Rivals(n, j)| < |Rivals(s, j)|)
  {
    hide AfterEnqueue, AfterCommit, AfterFinish, Rivals, BudgetsOk, Overtaker;
    if Enabled(s, e) {
      match e {
        case EnqueueJob(id, job, stamp) => EnqueueAddsOvertaker(s, id, job, stamp, cfg, j);
        case Claim(w) => ClaimPicksRival(s, w, j);
        case CommitClaim(w) => CommitRemovesRival(s, w, j);
        case Finish(w, outcome, stamp) => FinishAddsOvertaker(s, w, outcome, stamp, cfg, j);
        case Rollback(w) =>
          assert (s.claims - {w}).Values <= s.claims.Values;
          SameTableSameRivals(s, Next(s, e, cfg), j);
        case _ => SameTableSameRivals(s, Next(s, e, cfg), j);
      }
    }
  }

  lemma {:induction false} SubsetCardinality(a: set<nat>, b: set<nat>)
    requires a <= b
    ensures |a| <= |b|
    decreases a
  {
    if a != {} {
      var x :| x in a;
      SubsetCardinality(a - {x}, b - {x});
    }
  }

  lemma CommitsDoNotOvertake(s: State, e: Step, cfg: Backoff.Config, j: nat)
    ensures e.CommitClaim? ==> !Overtakes(s, e, cfg, j)
  {
  }

  /** One step's share of the bound. */
  lemma OneStepOvertaking(s: State, e: Step, cfg: Backoff.Config, j: nat)
    requires Inv(s, cfg.MaxAttempts()) && Waiting(s, j) && Waiting(Next(s, e, cfg), j)
    ensures (if e.CommitClaim? && Enabled(s, e) then 1 else 0) + |Rivals(Next(s, e, cfg), j)|
            <= |Rivals(s, j)| + if Overtakes(s, e, cfg, j) then 1 else 0
  {
    hide Rivals, Overtakes, Inv, Waiting, Next, Enabled;
    NextRemovesRivals(s, e, cfg, j);
    CommitsDoNotOvertake(s, e, cfg, j);
    SubsetCardinality(Rivals(Next(s, e, cfg), j), Rivals(s, j) + Overtaker(s, e, cfg, j));
  }

  /**
    Bounded overtaking: as long as a due job waits, the dequeues committed meanwhile are no
    more than its rivals at the start plus the steps that write an earlier time to run_after.
   */
  lemma {:induction false} BoundedOvertaking(s: State, run: seq<Step>, cfg: Backoff.Config, j: nat)
    requires Inv(s, cfg.MaxAttempts()) && WaitingThroughout(s, run, j, cfg)
    ensures Commits(s, run, cfg) + |Rivals(Exec(s, run, cfg), j)| <= |Rivals(s, j)| + Overtakings(s, run, cfg, j)
    decreases |run|
  {
    hide Inv, Waiting, Next, Rivals, Overtakes;
    if run != [] {
      NextKeepsInv(s, run[0], cfg);
      OneStepOvertaking(s, run[0], cfg, j);
      BoundedOvertaking(Next(s, run[0], cfg), run[1..], cfg, j);
    }
  }

  /** A clock reading that is written to run_after was taken after `due`; no caller sets Job.RunAfter. */
  predicate StampedAfter(e: Step, due: int) {
    match e
    case EnqueueJob(_, job, stamp) => job.runAfter.None? && due < stamp
    case Finish(_, Failure(_), stamp) => due < stamp
    case _ => true
  }

  lemma FreshStampDoesNotOvertake(s: State, e: Step, cfg: Backoff.Config, j: nat)
    requires Inv(s, cfg.MaxAttempts()) && Backoff.Safe(cfg) && Waiting(s, j)
        && StampedAfter(e, s.table.rows[j].runAfter)
    ensures !Overtakes(s, e, cfg, j)
  {
    hide Backoff.Safe, Backoff.Delay, GivesUp;
    if e.Finish? && e.outcome.Failure? && e.w in s.leases {
      var attempts := s.leases[e.w].attempts;
      Backoff.DelayIsBoundedAndMonotone(attempts, attempts, cfg);
    }
  }

  /** With fresh clock readings nothing overtakes: a waiting job sees at most its initial rivals dequeued. */
  lemma {:induction false} FreshStampsDoNotOvertake(s: State, run: seq<Step>, cfg: Backoff.Config, j: nat)
    requires Inv(s, cfg.MaxAttempts()) && Backoff.Safe(cfg) && WaitingThroughout(s, run, j, cfg)
    requires forall e | e in run :: StampedAfter(e, s.table.rows[j].runAfter)
    ensures Overtakings(s, run, cfg, j) == 0
    decreases |run|
  {
    hide Inv, Next, Rivals, Overtakes, Backoff.Safe;
    if run != [] {
      NextKeepsInv(s, run[0], cfg);
      NextRemovesRivals(s, run[0], cfg, j);
      FreshStampDoesNotOvertake(s, run[0], cfg, j);
      assert forall e | e in run[1..] :: e in run;
      FreshStampsDoNotOvertake(Next(s, run[0], cfg), run[1..], cfg, j);
    }
  }

  /** Once its rivals are used up, the next dequeue takes the job. */
  lemma WithoutRivalsTheJobIsNext(s: State, w: Worker, cfg: Backoff.Config, j: nat)
    requires Inv(s, cfg.MaxAttempts()) && Waiting(s, j) && Enabled(s, Claim(w))
    requires Ahead(s, j) <= s.claims.Values
    ensures w in Next(s, Claim(w), cfg).claims && Next(s, Claim(w), cfg).claims[w] == j
  {
    NextDueIsFirst(s.table, s.claims.Values, s.now);
    assert Claimable(s.table, s.claims.Values, s.now, j);
  }

  /**
    An enqueue gets ahead of a waiting job exactly when its time is earlier, or the same and its
    id smaller: EnqueueTx reads the clock and draws the id before its transaction commits.
   */
  lemma EnqueueOvertakesIffSortedFirst(s: State, id: nat, job: NewJob, stamp: int, cfg: Backoff.Config, j: nat)
    requires j in s.table.rows && Enabled(s, EnqueueJob(id, job, stamp)) && !KeyTaken(s.table, job.key)
    ensures var due := s.table.rows[j].runAfter;
            Ahead(Next(s, EnqueueJob(id, job, stamp), cfg), j) != Ahead(s, j)
            <==> RunAt(job, stamp) < due || (RunAt(job, stamp) == due && id < j)
  {
    var n := Next(s, EnqueueJob(id, job, stamp), cfg);
    var due := s.table.rows[j].runAfter;
    if RunAt(job, stamp) < due || (RunAt(job, stamp) == due && id < j) {
      assert id in Ahead(n, j) && id !in Ahead(s, j);
    } else {
      assert forall i :: i in Ahead(n, j) <==> i in Ahead(s, j);
    }
  }

  const NOOP := NewJob(Noop, Vocabulary.ProcessPayload(0), "", None)

  /**
    Job 6 is due since 1 and first in line at 2. Another job, whose enqueue read the clock at 0,
    or at 1 as well but drew id 5, commits later and is claimed first.
   */
  lemma LaterCommitIsServedFirst(cfg: Backoff.Config, w: Worker, id: nat, stamp: int)
    requires (id == 5 && stamp == 1) || (id == 7 && stamp == 0)
    ensures var s := Exec(INITIAL, [Tick(2), EnqueueJob(6, NOOP, 1)], cfg);
            var n := Next(Next(s, EnqueueJob(id, NOOP, stamp), cfg), Claim(w), cfg);
            Waiting(s, 6) && Ahead(s, 6) == {} && n.claims == map[w := id]
  {
    hide FirstBelow;
    var s1 := INITIAL.(now := 2);
    var s := s1.(table := Table(map[6 := NewRow(NOOP, 1)], 7));
    assert [Tick(2), EnqueueJob(6, NOOP, 1)][1..] == [EnqueueJob(6, NOOP, 1)];
    ExecOne(s1, EnqueueJob(6, NOOP, 1), cfg);
    assert Next(s1, EnqueueJob(6, NOOP, 1), cfg) == s;
    var t := Table(s.table.rows[id := NewRow(NOOP, stamp)], if id < 7 then 7 else 8);
    assert Next(s, EnqueueJob(id, NOOP, stamp), cfg) == s.(table := t);
    assert s.claims.Values == {};
    NextDueIsFirst(t, {}, 2);
    assert Claimable(t, {}, 2, id) && Before(t, id, 6);
  }

  // ----- The worker loop is one such run -----

  /** The jobs arrive one after the other, each drawing the next id. */
  function Arrivals(t: Table, jobs: seq<NewJob>, stamp: int): seq<Step>
    decreases |jobs|
  {
    if jobs == [] then []
    else [EnqueueJob(t.nextId, jobs[0], stamp)] + Arrivals(Enqueued(t, [jobs[0]], stamp), jobs[1..], stamp)
  }

  function DequeueSteps(w: Worker, p: Pass): seq<Step> {
    [Tick(p.now), Claim(w), if p.dequeues then CommitClaim(w) else Rollback(w)]
  }

  function ResolveSteps(t: Table, w: Worker, p: Pass): seq<Step> {
    [Tick(p.done)] + Arrivals(t, p.arrivals, p.done) + [if p.resolves then Finish(w, p.outcome, p.done) else Crash(w)]
  }

  /** The table once the job found is handed out. */
  function Busy(t: Table, p: Pass): Table {
    match Found(t, p)
    case None => t
    case Some(id) => MarkProcessing(t, id, p.now)
  }

  /** The steps worker `w` takes in its passes when it is alone. */
  function Script(t: Table, w: Worker, passes: seq<Pass>, cfg: Backoff.Config): seq<Step>
    decreases |passes|
  {
    if passes == [] then []
    else
      DequeueSteps(w, passes[0]) + ResolveSteps(Busy(t, passes[0]), w, passes[0])
      + Script(AfterPass(t, passes[0], cfg), w, passes[1..], cfg)
  }

  ghost predicate ClockRuns(from: int, passes: seq<Pass>)
    decreases |passes|
  {
    passes != [] ==> from <= passes[0].now <= passes[0].done && ClockRuns(passes[0].done, passes[1..])
  }

  lemma {:induction false} ExecConcat(s: State, a: seq<Step>, b: seq<Step>, cfg: Backoff.Config)
    ensures Exec(s, a + b, cfg) == Exec(Exec(s, a, cfg), b, cfg)
    decreases |a|
  {
    hide Next;
    if a == [] {
      assert a + b == b;
    } else {
      assert (a + b)[1..] == a[1..] + b;
      ExecConcat(Next(s, a[0], cfg), a[1..], b, cfg);
    }
  }

  lemma ExecOne(s: State, a: Step, cfg: Backoff.Config)
    ensures Exec(s, [a], cfg) == Next(s, a, cfg)
  {
    hide Next;
    assert [a][1..] == [];
    assert Exec(Next(s, a, cfg), [], cfg) == Next(s, a, cfg);
  }

  lemma ExecThree(s: State, a: Step, b: Step, c: Step, cfg: Backoff.Config)
    ensures Exec(s, [a, b, c], cfg) == Next(Next(Next(s, a, cfg), b, cfg), c, cfg)
  {
    hide Next, Exec;
    ExecOne(s, a, cfg);
    ExecConcat(s, [a], [b], cfg);
    ExecOne(Next(s, a, cfg), b, cfg);
    ExecConcat(s, [a] + [b], [c], cfg);
    ExecOne(Next(Next(s, a, cfg), b, cfg), c, cfg);
    assert [a] + [b] + [c] == [a, b, c];
  }

  lemma EnqueueStep(s: State, job: NewJob, stamp: int, cfg: Backoff.Config)
    requires stamp <= s.now && WellFormed(s.table)
    ensures var n := Next(s, EnqueueJob(s.table.nextId, job, stamp), cfg);
            n == s.(table := Enqueued(s.table, [job], stamp)) && WellFormed(n.table)
  {
    assert [job][1..] == [];
    if InsertAt(s.table, s.table.nextId, job, stamp).Ok? {
      InsertAtKeepsWellFormed(s.table, s.table.nextId, job, stamp);
    }
    assert forall t :: Enqueued(t, [], stamp) == t;
  }

  lemma EnqueuedFirst(t: Table, jobs: seq<NewJob>, now: int)
    requires jobs != []
    ensures Enqueued(t, jobs, now) == Enqueued(Enqueued(t, [jobs[0]], now), jobs[1..], now)
  {
    assert [jobs[0]][1..] == [];
    assert forall u :: Enqueued(u, [], now) == u;
  }

  lemma {:induction false} ArrivalsEnqueue(s: State, jobs: seq<NewJob>, stamp: int, cfg: Backoff.Config)
    requires stamp <= s.now && WellFormed(s.table)
    ensures var n := Exec(s, Arrivals(s.table, jobs, stamp), cfg);
            n == s.(table := Enqueued(s.table, jobs, stamp)) && WellFormed(n.table)
    decreases |jobs|
  {
    hide WellFormed, Next;
    if jobs == [] {
      assert Enqueued(s.table, jobs, stamp) == s.table;
    } else {
      hide Enqueued;
      EnqueueStep(s, jobs[0], stamp, cfg);
      EnqueuedFirst(s.table, jobs, stamp);
      var n := Next(s, EnqueueJob(s.table.nextId, jobs[0], stamp), cfg);
      assert Arrivals(s.table, jobs, stamp)[1..] == Arrivals(n.table, jobs[1..], stamp);
      ArrivalsEnqueue(n, jobs[1..], stamp, cfg);
    }
  }

  /** What Dequeue leaves: the job found is leased, or nothing but time has passed. */
  function Leased(s: State, w: Worker, p: Pass): State {
    match Found(s.table, p)
    case None => s.(now := p.now)
    case Some(id) =>
      State(MarkProcessing(s.table, id, p.now), p.now, map[], map[w := LeaseOf(s.table, id)],
            s.runs[id := Runs(s, id) + 1])
  }

  lemma DequeueLeases(s: State, w: Worker, p: Pass, cfg: Backoff.Config)
    requires s.claims == map[] && s.leases == map[] && s.now <= p.now
    ensures Exec(s, DequeueSteps(w, p), cfg) == Leased(s, w, p)
  {
    hide Exec;
    ExecThree(s, Tick(p.now), Claim(w), if p.dequeues then CommitClaim(w) else Rollback(w), cfg);
    var s1 := s.(now := p.now);
    assert s1.claims.Values == {};
    var next := NextDue(s.table, {}, p.now);
    if next.Some? {
      var s2 := s1.(claims := map[w := next.value]);
      assert Next(s1, Claim(w), cfg) == s2;
      assert s2.claims - {w} == map[];
    }
  }

  lemma ResolveLeaves(s: State, w: Worker, p: Pass, cfg: Backoff.Config)
    requires s.claims == map[] && s.leases.Keys <= {w} && s.now <= p.done && WellFormed(s.table)
    ensures var n := Exec(s, ResolveSteps(s.table, w, p), cfg); var busy := Enqueued(s.table, p.arrivals, p.done);
            && n.claims == map[] && n.leases == map[] && n.now == p.done
            && WellFormed(busy)
            && n.table == if w in s.leases && p.resolves then AfterRun(busy, s.leases[w], p.outcome, cfg, p.done)
                          else busy
  {
    hide Exec, AfterRun, Enqueued, WellFormed;
    var arrivals := Arrivals(s.table, p.arrivals, p.done);
    var last := if p.resolves then Finish(w, p.outcome, p.done) else Crash(w);
    var later := s.(now := p.done);
    var busy := later.(table := Enqueued(s.table, p.arrivals, p.done));
    ExecOne(s, Tick(p.done), cfg);
    assert Next(s, Tick(p.done), cfg) == later;
    ArrivalsEnqueue(later, p.arrivals, p.done, cfg);
    ExecConcat(s, [Tick(p.done)], arrivals, cfg);
    ExecConcat(s, [Tick(p.done)] + arrivals, [last], cfg);
    ExecOne(busy, last, cfg);
    assert s.leases - {w} == map[];
    assert w !in s.leases ==> s.leases == map[];
  }

  lemma MarkingKeepsWellFormed(t: Table, p: Pass)
    requires WellFormed(t)
    ensures WellFormed(Busy(t, p))
  {
    hide FirstBelow;
  }

  lemma RunKeepsWellFormed(t: Table, lease: Lease, outcome: Outcome, cfg: Backoff.Config, now: int)
    requires WellFormed(t)
    ensures WellFormed(AfterRun(t, lease, outcome, cfg, now))
  {
    hide Backoff.Delay, Clip;
  }

  lemma OnePass(s: State, w: Worker, p: Pass, cfg: Backoff.Config)
    requires s.claims == map[] && s.leases == map[] && s.now <= p.now <= p.done && WellFormed(s.table)
    ensures var n := Exec(s, DequeueSteps(w, p) + ResolveSteps(Busy(s.table, p), w, p), cfg);
            && n.table == AfterPass(s.table, p, cfg) && WellFormed(n.table)
            && n.claims == map[] && n.leases == map[] && n.now == p.done
  {
    hide Exec, AfterRun, Enqueued, NextDue, ResolveSteps, DequeueSteps, WellFormed;
    DequeueLeases(s, w, p, cfg);
    MarkingKeepsWellFormed(s.table, p);
    ExecConcat(s, DequeueSteps(w, p), ResolveSteps(Busy(s.table, p), w, p), cfg);
    var leased := Leased(s, w, p);
    ResolveLeaves(leased, w, p, cfg);
    if w in leased.leases {
      RunKeepsWellFormed(Enqueued(leased.table, p.arrivals, p.done), leased.leases[w], p.outcome, cfg, p.done);
    }
  }

  /** WorkerLoop's effect on the table is the effect of a run of the protocol in which one worker acts alone. */
  lemma {:induction false} WorkerLoopIsARun(s: State, w: Worker, passes: seq<Pass>, cfg: Backoff.Config)
    requires s.claims == map[] && s.leases == map[] && ClockRuns(s.now, passes) && WellFormed(s.table)
    ensures Exec(s, Script(s.table, w, passes, cfg), cfg).table == AfterPasses(s.table, passes, cfg)
    decreases |passes|
  {
    hide AfterPass, Next, ResolveSteps, DequeueSteps, WellFormed;
    if passes != [] {
      var first := DequeueSteps(w, passes[0]) + ResolveSteps(Busy(s.table, passes[0]), w, passes[0]);
      OnePass(s, w, passes[0], cfg);
      ExecConcat(s, first, Script(AfterPass(s.table, passes[0], cfg), w, passes[1..], cfg), cfg);
      WorkerLoopIsARun(Exec(s, first, cfg), w, passes[1..], cfg);
    }
  }
}
