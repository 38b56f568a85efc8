/** Over whole runs: where the rows and leases of the queue come from, and what the final rows say about the runs. */
module JobHistory {
  import opened Wrappers
  import opened SqlQueue
  import opened Delivery
  import opened WorkerProtocol
  import Backoff

  // ----- Runs from their last step -----

  lemma ExecLast(run: seq<Step>, cfg: Backoff.Config)
    requires run != []
    ensures var front := run[..|run| - 1];
            Exec(INITIAL, run, cfg) == Next(Exec(INITIAL, front, cfg), run[|run| - 1], cfg)
    ensures Inv(Exec(INITIAL, run[..|run| - 1], cfg), cfg.MaxAttempts())
  {
    hide Next, Exec, Inv;
    var front, e := run[..|run| - 1], run[|run| - 1];
    assert run == front + [e];
    ExecConcat(INITIAL, front, [e], cfg);
    ExecOne(Exec(INITIAL, front, cfg), e, cfg);
    InitialInv(cfg);
    ExecKeepsInv(INITIAL, front, cfg);
  }

  lemma InitialInv(cfg: Backoff.Config)
    ensures Inv(INITIAL, cfg.MaxAttempts())
  {
  }

  // ----- Where rows and leases come from -----

  ghost predicate Enqueues(s: State, e: Step, id: nat) {
    e.EnqueueJob? && Enabled(s, e) && e.id == id && !KeyTaken(s.table, e.job.key)
  }

  ghost predicate EnqueuedAt(run: seq<Step>, cfg: Backoff.Config, i: nat, id: nat) {
    i < |run| && Enqueues(Exec(INITIAL, run[..i], cfg), run[i], id)
  }

  ghost predicate IsJob(row: Job, job: NewJob) {
    row.kind == job.kind && row.payload == job.payload && row.key == job.key
  }

  lemma NextKeepsJobs(s: State, e: Step, cfg: Backoff.Config, id: nat)
    requires Inv(s, cfg.MaxAttempts()) && id in Next(s, e, cfg).table.rows
    ensures var row := Next(s, e, cfg).table.rows[id];
            if id in s.table.rows then SameJob(s.table.rows[id], row) else Enqueues(s, e, id) && IsJob(row, e.job)
  {
    if e.Finish? && Enabled(s, e) {
      hide AfterRun, WellFormed, BudgetsOk;
      var lease := s.leases[e.w];
      assert LeaseMatchesRow(s.table, lease);
      var at := if e.outcome.Failure? && lease.kind.DeliverActivity? then e.stamp else s.now;
      AfterRunResolves(s.table, lease, e.outcome, cfg, at);
      ResolvedKeepsJobs(s.table, AfterRun(s.table, lease, e.outcome, cfg, at), lease, e.outcome, cfg, at);
    } else {
      hide FirstBelow, AfterFinish;
    }
  }

  lemma ResolvedKeepsJobs(t: Table, u: Table, lease: Lease, outcome: Outcome, cfg: Backoff.Config, at: int)
    requires lease.id in t.rows && Resolved(t, u, lease, outcome, cfg, at)
    ensures u.rows.Keys == t.rows.Keys && forall id | id in t.rows :: SameJob(t.rows[id], u.rows[id])
  {
    hide Backoff.Delay, Clip, Claimable;
  }

  /** Every row carries the type, payload and key of the one enqueue that inserted it, whatever happened since. */
  lemma {:induction false} RowsAreTheJobsEnqueued(run: seq<Step>, cfg: Backoff.Config, id: nat)
    requires id in Exec(INITIAL, run, cfg).table.rows
    ensures exists i: nat :: EnqueuedAt(run, cfg, i, id) && IsJob(Exec(INITIAL, run, cfg).table.rows[id], run[i].job)
    decreases |run|
  {
    hide Exec, Next, Inv;
    if run == [] {
      assert Exec(INITIAL, [], cfg) == INITIAL by {
        ExecNothing(cfg);
      }
    } else {
      var front, e := run[..|run| - 1], run[|run| - 1];
      ExecLast(run, cfg);
      NextKeepsJobs(Exec(INITIAL, front, cfg), e, cfg, id);
      if id in Exec(INITIAL, front, cfg).table.rows {
        RowsAreTheJobsEnqueued(front, cfg, id);
        var i: nat :| EnqueuedAt(front, cfg, i, id) && IsJob(Exec(INITIAL, front, cfg).table.rows[id], front[i].job);
        assert run[..i] == front[..i] && run[i] == front[i];
        assert EnqueuedAt(run, cfg, i, id);
      } else {
        assert EnqueuedAt(run, cfg, |run| - 1, id);
      }
    }
  }

  lemma ExecNothing(cfg: Backoff.Config)
    ensures Exec(INITIAL, [], cfg) == INITIAL
  {
  }

  /** A worker runs what was enqueued: its lease has the type and payload of the enqueue that inserted its row. */
  lemma LeasesShowTheJobsEnqueued(run: seq<Step>, cfg: Backoff.Config, w: Worker)
    requires w in Exec(INITIAL, run, cfg).leases
    ensures var lease := Exec(INITIAL, run, cfg).leases[w];
            exists i: nat :: EnqueuedAt(run, cfg, i, lease.id)
                        && lease.kind == run[i].job.kind && lease.payload == run[i].job.payload
  {
    hide Exec;
    LeaseExclusivity(run, cfg, w, w);
    var id := Exec(INITIAL, run, cfg).leases[w].id;
    RowsAreTheJobsEnqueued(run, cfg, id);
    var i: nat :| EnqueuedAt(run, cfg, i, id) && IsJob(Exec(INITIAL, run, cfg).table.rows[id], run[i].job);
  }

  // ----- What a finished row says -----

  /** The step ends a run of job `id`: with success, or with the failure that the delivery is given up for. */
  ghost predicate Ends(s: State, e: Step, cfg: Backoff.Config, id: nat, status: Status) {
    && e.Finish? && Enabled(s, e) && s.leases[e.w].id == id
    && match status
       case Done => e.outcome.Success?
       case Failed =>
         && e.outcome.Failure? && s.leases[e.w].kind.DeliverActivity?
         && ((e.outcome.error.HttpError? && e.outcome.error.status in {400, 401, 403, 404, 405, 410, 422})
             || Runs(s, id) == cfg.MaxAttempts())
       case _ => false
  }

  ghost predicate EndedAt(run: seq<Step>, cfg: Backoff.Config, i: nat, id: nat, status: Status) {
    i < |run| && Ends(Exec(INITIAL, run[..i], cfg), run[i], cfg, id, status)
  }

  ghost predicate HasStatus(s: State, id: nat, status: Status) {
    id in s.table.rows && s.table.rows[id].status == status
  }

  lemma FinishSetsStatus(s: State, e: Step, cfg: Backoff.Config, id: nat, status: Status)
    requires Inv(s, cfg.MaxAttempts()) && e.Finish? && Enabled(s, e) && status in {Done, Failed}
    ensures HasStatus(Next(s, e, cfg), id, status) <==> HasStatus(s, id, status) || Ends(s, e, cfg, id, status)
  {
    hide Backoff.Delay, Clip, WellFormed;
    var lease := s.leases[e.w];
    assert LeaseMatchesRow(s.table, lease);
    assert BudgetOk(s, lease.id, cfg.MaxAttempts());
  }

  lemma NotEnding(s: State, e: Step, cfg: Backoff.Config, id: nat, status: Status)
    requires !(e.Finish? && Enabled(s, e))
    ensures !Ends(s, e, cfg, id, status)
  {
  }

  lemma OtherStepsFinishNothing(s: State, e: Step, cfg: Backoff.Config, id: nat, status: Status)
    requires Inv(s, cfg.MaxAttempts()) && !(e.Finish? && Enabled(s, e)) && status in {Done, Failed}
    ensures HasStatus(Next(s, e, cfg), id, status) <==> HasStatus(s, id, status)
  {
    hide AfterFinish, FirstBelow, BudgetsOk, LeasesOk, WellFormed;
  }

  lemma NextSetsStatus(s: State, e: Step, cfg: Backoff.Config, id: nat, status: Status)
    requires Inv(s, cfg.MaxAttempts()) && status in {Done, Failed}
    ensures HasStatus(Next(s, e, cfg), id, status) <==> HasStatus(s, id, status) || Ends(s, e, cfg, id, status)
  {
    if e.Finish? && Enabled(s, e) {
      FinishSetsStatus(s, e, cfg, id, status);
    } else {
      hide AfterFinish, Inv, FirstBelow, Ends;
      OtherStepsFinishNothing(s, e, cfg, id, status);
      assert !Ends(s, e, cfg, id, status) by {
        NotEnding(s, e, cfg, id, status);
      }
    }
  }

  /**
    A row is done exactly if a run of its job succeeded, and failed exactly if its job is a delivery that
    was given up: on a permanent 4xx or on its last allowed run.
   */
  lemma {:induction false} StatusTellsHowRunsEnded(run: seq<Step>, cfg: Backoff.Config, id: nat, status: Status)
    requires status in {Done, Failed}
    ensures HasStatus(Exec(INITIAL, run, cfg), id, status) <==> exists i: nat :: EndedAt(run, cfg, i, id, status)
    decreases |run|
  {
    hide Exec, Next, Inv, Ends;
    if run == [] {
      ExecNothing(cfg);
    } else {
      var front, e := run[..|run| - 1], run[|run| - 1];
      ExecLast(run, cfg);
      NextSetsStatus(Exec(INITIAL, front, cfg), e, cfg, id, status);
      StatusTellsHowRunsEnded(front, cfg, id, status);
      forall i | 0 <= i < |front| ensures EndedAt(front, cfg, i, id, status) <==> EndedAt(run, cfg, i, id, status) {
        assert run[..i] == front[..i] && run[i] == front[i];
      }
      if i: nat :| EndedAt(run, cfg, i, id, status) {
        assert i == |front| || EndedAt(front, cfg, i, id, status);
      }
      if i: nat :| EndedAt(front, cfg, i, id, status) {
        assert EndedAt(run, cfg, i, id, status);
      }
      assert Ends(Exec(INITIAL, front, cfg), e, cfg, id, status) ==> EndedAt(run, cfg, |front|, id, status);
    }
  }
}
