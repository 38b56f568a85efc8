/**
  Deliveries can always be brought to an end: from every state that a crash-free run reaches,
  time and workers alone finish all of them, however the runs of the jobs turn out.
 */
module Progress {
  import opened SqlQueue
  import opened Delivery
  import opened WorkerProtocol
  import Backoff

  /** How each run ends, chosen in advance for every lease. */
  type Results = Lease -> Outcome

  /** Time passes, or a worker dequeues a job or resolves its lease with the chosen outcome. */
  predicate Scheduled(s: State, e: Step, result: Results) {
    && Enabled(s, e)
    && match e
       case Finish(w, outcome, stamp) => outcome == result(s.leases[w]) && stamp == s.now
       case Tick(_) => true
       case Claim(_) => true
       case CommitClaim(_) => true
       case _ => false
  }

  predicate Driven(s: State, run: seq<Step>, cfg: Backoff.Config, result: Results)
    decreases |run|
  {
    run != [] ==> Scheduled(s, run[0], result) && Driven(Next(s, run[0], cfg), run[1..], cfg, result)
  }

  predicate DeliveriesFinished(s: State) {
    forall id | id in s.table.rows && Deliver(s.table.rows[id]) :: Finished(s.table.rows[id])
  }

  /** What every crash-free run keeps. */
  ghost predicate Sound(s: State, cfg: Backoff.Config) {
    Inv(s, cfg.MaxAttempts()) && NothingStranded(s)
  }

  lemma {:induction false} DrivenConcat(s: State, a: seq<Step>, b: seq<Step>, cfg: Backoff.Config, result: Results)
    requires Driven(s, a, cfg, result) && Driven(Exec(s, a, cfg), b, cfg, result)
    ensures Driven(s, a + b, cfg, result) && Exec(s, a + b, cfg) == Exec(Exec(s, a, cfg), b, cfg)
    decreases |a|
  {
    hide Next, Scheduled;
    if a == [] {
      assert a + b == b;
    } else {
      assert (a + b)[1..] == a[1..] + b;
      DrivenConcat(Next(s, a[0], cfg), a[1..], b, cfg, result);
    }
  }

  lemma OneStep(s: State, e: Step, cfg: Backoff.Config, result: Results)
    requires Sound(s, cfg) && Scheduled(s, e, result)
    ensures Driven(s, [e], cfg, result) && Exec(s, [e], cfg) == Next(s, e, cfg)
    ensures Sound(Next(s, e, cfg), cfg)
    ensures var max := cfg.MaxAttempts(); var work := Work(Next(s, e, cfg), max);
            if DeliveryStep(s, e) then work < Work(s, max) else work == Work(s, max)
  {
    hide Inv, NothingStranded, Next, Work, DeliveryStep;
    assert [e][1..] == [];
    assert Exec(Next(s, e, cfg), [], cfg) == Next(s, e, cfg);
    NextKeepsInv(s, e, cfg);
    NextStrandsNothing(s, e, cfg);
    NextLowersWork(s, e, cfg);
  }

  // ----- One idle worker gets through to a waiting delivery -----

  predicate Idle(s: State) {
    s.leases == map[] && s.claims == map[]
  }

  /** The worker claims the first job due. */
  lemma ClaimFirst(s: State, w: Worker, cfg: Backoff.Config, j: nat) returns (id: nat)
    requires Inv(s, cfg.MaxAttempts()) && Idle(s) && Waiting(s, j)
    ensures id in s.table.rows && Next(s, Claim(w), cfg) == s.(claims := map[w := id])
  {
    NextDueIsFirst(s.table, {}, s.now);
    assert s.claims.Values == {};
    assert Claimable(s.table, {}, s.now, j);
    id := NextDue(s.table, {}, s.now).value;
  }

  lemma CommitClaimed(s: State, w: Worker, id: nat, cfg: Backoff.Config)
    requires s.leases == map[] && s.claims == map[w := id] && id in s.table.rows
    ensures Next(s, CommitClaim(w), cfg)
            == State(MarkProcessing(s.table, id, s.now), s.now, map[], map[w := LeaseOf(s.table, id)],
                     s.runs[id := Runs(s, id) + 1])
  {
    assert s.claims - {w} == map[];
  }

  /** A job that is no delivery and is dequeued first leaves the waiting delivery with one rival less. */
  lemma RivalPasses(s: State, w: Worker, id: nat, cfg: Backoff.Config, result: Results, j: nat) returns (n: State)
    requires Sound(s, cfg) && s.leases == map[] && s.claims == map[w := id] && id in s.table.rows
    requires Waiting(s, j) && !Deliver(s.table.rows[id])
    ensures var taken := Next(s, CommitClaim(w), cfg);
            && taken.leases.Keys == {w}
            && n == Next(taken, Finish(w, result(taken.leases[w]), taken.now), cfg)
            && Scheduled(s, CommitClaim(w), result)
            && Scheduled(taken, Finish(w, result(taken.leases[w]), taken.now), result)
            && Idle(n) && Waiting(n, j) && n.table.rows[j] == s.table.rows[j] && |Rivals(n, j)| < |Rivals(s, j)|
  {
    hide Rivals, NothingStranded, Inv;
    CommitClaimed(s, w, id, cfg);
    var taken := Next(s, CommitClaim(w), cfg);
    var e := Finish(w, result(taken.leases[w]), taken.now);
    n := Next(taken, e, cfg);
    assert Waiting(taken, j);
    NextRemovesRivals(s, CommitClaim(w), cfg, j);
    NextKeepsInv(s, CommitClaim(w), cfg);
    FinishLeavesTheRest(taken, w, e.outcome, e.stamp, cfg, j);
    NextRemovesRivals(taken, e, cfg, j);
    assert Overtaker(taken, e, cfg, j) == {};
    assert Rivals(n, j) <= Rivals(taken, j);
    SubsetCardinality(Rivals(n, j), Rivals(taken, j));
  }

  lemma FinishLeavesTheRest(s: State, w: Worker, outcome: Outcome, stamp: int, cfg: Backoff.Config, j: nat)
    requires Inv(s, cfg.MaxAttempts()) && s.leases.Keys == {w} && s.claims == map[] && Waiting(s, j)
    ensures var n := AfterFinish(s, w, outcome, stamp, cfg); Idle(n) && Waiting(n, j)
  {
    hide AfterFinish;
    assert LeaseMatchesRow(s.table, s.leases[w]);
    var row := FinishShape(s, w, outcome, stamp, cfg);
    assert s.leases - {w} == map[];
  }

  /** From an idle state with a delivery waiting, one worker soon takes some delivery. */
  lemma {:induction false} WorkGoesOn(s: State, w: Worker, cfg: Backoff.Config, result: Results, j: nat)
    returns (run: seq<Step>)
    requires Sound(s, cfg) && Idle(s) && Waiting(s, j) && Deliver(s.table.rows[j])
    ensures Driven(s, run, cfg, result) && Sound(Exec(s, run, cfg), cfg)
    ensures Work(Exec(s, run, cfg), cfg.MaxAttempts()) < Work(s, cfg.MaxAttempts())
    decreases |Rivals(s, j)|
  {
    hide Inv, NothingStranded, Rivals, Work, Exec, Driven;
    var id := ClaimFirst(s, w, cfg, j);
    OneStep(s, Claim(w), cfg, result);
    var s1 := Next(s, Claim(w), cfg);
    OneStep(s1, CommitClaim(w), cfg, result);
    DrivenConcat(s, [Claim(w)], [CommitClaim(w)], cfg, result);
    run := [Claim(w)] + [CommitClaim(w)];
    if !Deliver(s.table.rows[id]) {
      ClaimAddsNoRival(s, w, id, cfg, j);
      var n := RivalPasses(s1, w, id, cfg, result, j);
      var s2 := Next(s1, CommitClaim(w), cfg);
      var e := Finish(w, result(s2.leases[w]), s2.now);
      OneStep(s2, e, cfg, result);
      DrivenConcat(s, run, [e], cfg, result);
      run := run + [e];
      var rest := WorkGoesOn(n, w, cfg, result, j);
      DrivenConcat(s, run, rest, cfg, result);
      run := run + rest;
    }
  }

  lemma ClaimAddsNoRival(s: State, w: Worker, id: nat, cfg: Backoff.Config, j: nat)
    requires Inv(s, cfg.MaxAttempts()) && Idle(s) && Waiting(s, j)
    requires Next(s, Claim(w), cfg) == s.(claims := map[w := id]) && id != j
    ensures var n := Next(s, Claim(w), cfg); Waiting(n, j) && |Rivals(n, j)| <= |Rivals(s, j)|
  {
    hide Rivals, Inv;
    var n := s.(claims := map[w := id]);
    assert n.claims.Values == {id};
    NextRemovesRivals(s, Claim(w), cfg, j);
    SubsetCardinality(Rivals(n, j), Rivals(s, j));
  }

  // ----- All of them -----

  /** Open work that is no delivery's: claims to commit, leases to resolve. */
  function Open(s: State): nat {
    2 * |s.claims| + |s.leases|
  }

  lemma OneLess<T>(m: map<Worker, T>, w: Worker)
    requires w in m
    ensures |m - {w}| == |m| - 1
  {
    assert m.Keys == (m - {w}).Keys + {w};
  }

  lemma OneMore<T>(m: map<Worker, T>, w: Worker, x: T)
    requires w !in m
    ensures |m[w := x]| == |m| + 1
  {
    assert m[w := x].Keys == m.Keys + {w};
  }

  lemma ResolveOne(s: State, w: Worker, cfg: Backoff.Config, result: Results)
    requires Sound(s, cfg) && w in s.leases
    ensures var e := Finish(w, result(s.leases[w]), s.now); var n := Next(s, e, cfg);
            && Scheduled(s, e, result) && Open(n) < Open(s)
  {
    hide Inv, NothingStranded, AfterRun;
    OneLess(s.leases, w);
  }

  lemma CommitOne(s: State, w: Worker, cfg: Backoff.Config, result: Results)
    requires Sound(s, cfg) && w in s.claims
    ensures var n := Next(s, CommitClaim(w), cfg);
            Scheduled(s, CommitClaim(w), result) && Open(n) < Open(s)
  {
    hide LeasesOk, BudgetsOk, WellFormed, NothingStranded, MarkProcessing;
    OneLess(s.claims, w);
    OneMore(s.leases, w, LeaseOf(s.table, s.claims[w]));
  }

  /** Once idle, an unfinished delivery is pending; it waits as soon as the clock has passed its time. */
  lemma PendingWaits(s: State, cfg: Backoff.Config, result: Results, j: nat) returns (e: Step)
    requires Sound(s, cfg) && Idle(s) && j in s.table.rows && !Finished(s.table.rows[j])
    ensures Scheduled(s, e, result) && !DeliveryStep(s, e)
    ensures Idle(Next(s, e, cfg)) && Waiting(Next(s, e, cfg), j) && Next(s, e, cfg).table == s.table
  {
    assert s.table.rows[j].status == Pending;
    var due := s.table.rows[j].runAfter;
    e := Tick(if s.now > due then s.now else due + 1);
    assert s.claims.Values == {};
  }

  /**
    From any sound state, for any worker and any outcomes of the runs, time and workers can
    finish every delivery, without a new enqueue, a crash or a rollback.
   */
  lemma {:induction false} DeliveriesCanFinish(s: State, w: Worker, cfg: Backoff.Config, result: Results)
    returns (run: seq<Step>)
    requires Sound(s, cfg)
    ensures Driven(s, run, cfg, result) && DeliveriesFinished(Exec(s, run, cfg))
    decreases Work(s, cfg.MaxAttempts()), Open(s)
  {
    hide Inv, NothingStranded, Work, Next, Scheduled, DeliveryStep, Waiting, Driven, Exec, Open;
    var max := cfg.MaxAttempts();
    WorkIsAtLeastZero(s, cfg);
    if s.leases != map[] {
      var v :| v in s.leases;
      var e := Finish(v, result(s.leases[v]), s.now);
      ResolveOne(s, v, cfg, result);
      OneStep(s, e, cfg, result);
      var rest := DeliveriesCanFinish(Next(s, e, cfg), w, cfg, result);
      DrivenConcat(s, [e], rest, cfg, result);
      run := [e] + rest;
    } else if s.claims != map[] {
      var v :| v in s.claims;
      CommitOne(s, v, cfg, result);
      OneStep(s, CommitClaim(v), cfg, result);
      var rest := DeliveriesCanFinish(Next(s, CommitClaim(v), cfg), w, cfg, result);
      DrivenConcat(s, [CommitClaim(v)], rest, cfg, result);
      run := [CommitClaim(v)] + rest;
    } else if j :| j in s.table.rows && Deliver(s.table.rows[j]) && !Finished(s.table.rows[j]) {
      var e := PendingWaits(s, cfg, result, j);
      OneStep(s, e, cfg, result);
      var go := WorkGoesOn(Next(s, e, cfg), w, cfg, result, j);
      DrivenConcat(s, [e], go, cfg, result);
      var rest := DeliveriesCanFinish(Exec(s, [e] + go, cfg), w, cfg, result);
      DrivenConcat(s, [e] + go, rest, cfg, result);
      run := [e] + go + rest;
    } else {
      run := [];
      NoSteps(s, cfg, result);
    }
  }

  lemma NoSteps(s: State, cfg: Backoff.Config, result: Results)
    ensures Driven(s, [], cfg, result) && Exec(s, [], cfg) == s
  {
  }

  lemma WorkIsAtLeastZero(s: State, cfg: Backoff.Config)
    requires Sound(s, cfg)
    ensures Work(s, cfg.MaxAttempts()) >= 0
  {
    WorkIsNonnegative(s, cfg.MaxAttempts(), s.table.nextId);
  }

  /** No crash-free run can leave the deliveries in a state from which they do not come to an end. */
  lemma EveryDeliveryCanFinish(before: seq<Step>, w: Worker, cfg: Backoff.Config, result: Results)
    returns (run: seq<Step>)
    requires forall e | e in before :: !e.Crash?
    ensures var s := Exec(INITIAL, before, cfg); Driven(s, run, cfg, result) && DeliveriesFinished(Exec(s, run, cfg))
  {
    CrashFreeStrandsNothing(INITIAL, before, cfg);
    ExecKeepsInv(INITIAL, before, cfg);
    run := DeliveriesCanFinish(Exec(INITIAL, before, cfg), w, cfg, result);
  }
}
