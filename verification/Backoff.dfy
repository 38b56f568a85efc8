/**
  Retry delays of failed deliveries (internal/worker/delivery_fail.go).

  A Go `time.Duration` is an int64 count of nanoseconds, so every conversion and every
  doubling is written here with two's-complement wrap-around.
 */
module Backoff {

  const TWO_63: int := 0x8000_0000_0000_0000
  const TWO_64: int := 0x1_0000_0000_0000_0000
  const SECOND: int := 1_000_000_000
  const MAX_DOUBLINGS: nat := 20

  /** The largest number of whole seconds a Duration can hold. */
  const DURATION_SECONDS: int := 9_223_372_036

  /** From this many seconds on, doubling a Duration overflows. */
  const DOUBLING_LIMIT: int := 4_611_686_019

  function Wrap64(x: int): (r: int)
    ensures -TWO_63 <= r < TWO_63
    ensures -TWO_63 <= x < TWO_63 ==> r == x
    ensures TWO_63 <= x < TWO_64 ==> r == x - TWO_64
  {
    (x + TWO_63) % TWO_64 - TWO_63
  }

  datatype Config = Config(maxAttempts: int, initialSec: int, maxSec: int)
  {
    function InitialSec(): int {
      if initialSec < 1 then 30 else initialSec
    }

    function MaxSec(): int {
      if maxSec < InitialSec() then InitialSec() else maxSec
    }

    function MaxAttempts(): int {
      if maxAttempts < 1 then 25 else maxAttempts
    }
  }

  /** What is left of the doubling loop when `n` iterations remain. */
  function Doubled(d: int, maxD: int, n: nat): int
    decreases n
  {
    if n == 0 then d
    else if d >= maxD then maxD
    else
      var e := Wrap64(d * 2);
      Doubled(if e > maxD then maxD else e, maxD, n - 1)
  }

  function Doublings(prior: int): nat {
    if prior < 0 then 0 else if prior > MAX_DOUBLINGS then MAX_DOUBLINGS else prior
  }

  function Delay(prior: int, cfg: Config): int {
    Doubled(Wrap64(cfg.InitialSec() * SECOND), Wrap64(cfg.MaxSec() * SECOND), Doublings(prior))
  }

  /** The loop itself; `now` is the worker's clock reading. */
  method NextDeliveryRunAfter(prior: int, cfg: Config, now: int) returns (runAfter: int)
    ensures runAfter == now + Delay(prior, cfg)
  {
    hide Wrap64;
    var initSec := cfg.initialSec;
    if initSec < 1 {
      initSec := 30;
    }
    var maxSec := cfg.maxSec;
    if maxSec < initSec {
      maxSec := initSec;
    }
    var d := Wrap64(initSec * SECOND);
    var maxD := Wrap64(maxSec * SECOND);
    var exp := prior;
    if exp > MAX_DOUBLINGS {
      exp := MAX_DOUBLINGS;
    }
    var i := 0;
    while i < exp
      invariant 0 <= i && (i <= exp || exp < 0)
      invariant Doubled(d, maxD, if i < exp then exp - i else 0) == Delay(prior, cfg)
    {
      if d >= maxD {
        d := maxD;
        break;
      }
      d := Wrap64(d * 2);
      if d > maxD {
        d := maxD;
      }
      i := i + 1;
    }
    return now + d;
  }

  // ----- The intended value and the configurations that reach it -----

  function Pow2(n: nat): (p: nat)
    ensures p >= 1
  {
    if n == 0 then 1 else 2 * Pow2(n - 1)
  }

  /** `x` doubled `n` times. */
  function Grown(x: int, n: nat): int {
    x * Pow2(n)
  }

  function Min(a: int, b: int): int {
    if a < b then a else b
  }

  /** The delay in exact arithmetic: the initial delay doubled once per earlier failure, capped. */
  function ClosedForm(prior: int, cfg: Config): int {
    Min(cfg.MaxSec(), Grown(cfg.InitialSec(), Doublings(prior))) * SECOND
  }

  /** In the numbers of the configuration: 30 seconds to start with by default, doubled at most 20 times. */
  lemma ClosedFormInNumbers(prior: int, cfg: Config)
    ensures var initial := if cfg.initialSec < 1 then 30 else cfg.initialSec;
            var cap := if cfg.maxSec < initial then initial else cfg.maxSec;
            var grown := initial * Pow2(if prior < 0 then 0 else if prior > 20 then 20 else prior);
            ClosedForm(prior, cfg) == (if cap < grown then cap else grown) * 1_000_000_000
  {
  }

  /** No delay below the cap is ever large enough for the next doubling to overflow. */
  ghost predicate NoDoublingOverflows(x: int, m: int, n: nat) {
    forall k: nat :: k < n ==> !(DOUBLING_LIMIT <= Grown(x, k) < m)
  }

  /** A condition an operator can check on the configuration alone. */
  ghost predicate Safe(cfg: Config) {
    if cfg.MaxSec() <= DURATION_SECONDS then
      NoDoublingOverflows(cfg.InitialSec(), cfg.MaxSec(), MAX_DOUBLINGS)
    else
      Grown(cfg.InitialSec(), MAX_DOUBLINGS) * SECOND <= Wrap64(cfg.MaxSec() * SECOND)
  }

  lemma GrownStep(x: int, n: nat)
    requires x >= 0
    ensures Grown(x, 0) == x
    ensures Grown(x, n + 1) == Grown(2 * x, n)
    ensures Grown(x, n) >= x
  {
    var p := Pow2(n);
    assert x * (2 * p) == 2 * x * p;
    assert x * p >= x * 1;
  }

  lemma {:induction false} GrownMonotone(x: int, a: nat, b: nat)
    requires x >= 0 && a <= b
    ensures Grown(x, a) <= Grown(x, b)
    decreases b
  {
    if a < b {
      GrownMonotone(x, a, b - 1);
      var p := Pow2(b - 1);
      assert x * (2 * p) == x * p + x * p;
      assert x * p >= 0;
    }
  }

  lemma {:induction false} DoubledIsCapped(x: int, m: int, n: nat)
    requires 1 <= x <= m <= DURATION_SECONDS
    requires NoDoublingOverflows(x, m, n)
    ensures Doubled(x * SECOND, m * SECOND, n) == Min(m, Grown(x, n)) * SECOND
    decreases n
  {
    GrownStep(x, n);
    if n > 0 && x < m {
      GrownStep(x, n - 1);
      GrownStep(2 * x, n - 1);
      assert Grown(x, 0) < DOUBLING_LIMIT;
      if 2 * x > m {
        assert Doubled(m * SECOND, m * SECOND, n - 1) == m * SECOND;
      } else {
        forall k: nat | k < n - 1
          ensures !(DOUBLING_LIMIT <= Grown(2 * x, k) < m)
        {
          GrownStep(x, k);
          assert !(DOUBLING_LIMIT <= Grown(x, k + 1) < m);
        }
        DoubledIsCapped(2 * x, m, n - 1);
      }
    }
  }

  /** One doubling too many turns the delay negative. */
  lemma {:induction false} OverflowIsNegative(x: int, m: int, k: nat)
    requires 1 <= x && DOUBLING_LIMIT <= Grown(x, k) < m <= DURATION_SECONDS
    ensures Doubled(x * SECOND, m * SECOND, k + 1) < 0
    decreases k
  {
    GrownStep(x, k);
    if k == 0 {
      assert Doubled(Wrap64(x * SECOND * 2), m * SECOND, 0) < 0;
    } else {
      GrownStep(x, k - 1);
      GrownStep(2 * x, k - 1);
      OverflowIsNegative(2 * x, m, k - 1);
    }
  }

  lemma {:induction false} UncappedDoubling(x: int, w: int, n: nat)
    requires 1 <= x && Grown(x, n) * SECOND <= w < TWO_63
    ensures Doubled(x * SECOND, w, n) == Grown(x, n) * SECOND
    decreases n
  {
    GrownStep(x, n);
    if n > 0 {
      GrownStep(x, n - 1);
      GrownStep(2 * x, n - 1);
      UncappedDoubling(2 * x, w, n - 1);
    }
  }

  lemma {:induction false} NeverAboveCap(d: int, w: int, n: nat)
    requires n >= 1
    ensures Doubled(d, w, n) <= w
    decreases n
  {
    if n > 1 && d < w {
      var e := Wrap64(d * 2);
      NeverAboveCap(if e > w then w else e, w, n - 1);
    }
  }

  lemma SafeDelay(prior: int, cfg: Config)
    requires Safe(cfg)
    ensures Delay(prior, cfg) == ClosedForm(prior, cfg)
  {
    var x, m, n := cfg.InitialSec(), cfg.MaxSec(), Doublings(prior);
    if m <= DURATION_SECONDS {
      DoubledIsCapped(x, m, n);
    } else {
      GrownMonotone(x, n, MAX_DOUBLINGS);
      GrownStep(x, n);
      UncappedDoubling(x, Wrap64(m * SECOND), n);
    }
  }

  lemma UnsafeDelay(cfg: Config) returns (prior: nat)
    requires !Safe(cfg)
    ensures Delay(prior, cfg) != ClosedForm(prior, cfg)
  {
    var x, m := cfg.InitialSec(), cfg.MaxSec();
    if m <= DURATION_SECONDS {
      var k: nat :| k < MAX_DOUBLINGS && DOUBLING_LIMIT <= Grown(x, k) < m;
      OverflowIsNegative(x, m, k);
      GrownStep(x, k + 1);
      prior := k + 1;
    } else {
      NeverAboveCap(Wrap64(x * SECOND), Wrap64(m * SECOND), MAX_DOUBLINGS);
      prior := MAX_DOUBLINGS;
    }
  }

  /** The loop computes the intended delay for every failure count exactly on safe configurations. */
  lemma DelayIsClosedFormIffSafe(cfg: Config)
    ensures (forall prior: int :: Delay(prior, cfg) == ClosedForm(prior, cfg)) <==> Safe(cfg)
  {
    if Safe(cfg) {
      forall prior: int ensures Delay(prior, cfg) == ClosedForm(prior, cfg) {
        SafeDelay(prior, cfg);
      }
    } else {
      var prior := UnsafeDelay(cfg);
    }
  }

  /** On a safe configuration delays stay within their bounds and never shrink as failures accumulate. */
  lemma DelayIsBoundedAndMonotone(prior: int, later: int, cfg: Config)
    requires Safe(cfg) && prior <= later
    ensures cfg.InitialSec() * SECOND <= Delay(prior, cfg) <= Delay(later, cfg) <= cfg.MaxSec() * SECOND
  {
    SafeDelay(prior, cfg);
    SafeDelay(later, cfg);
    var x := cfg.InitialSec();
    GrownMonotone(x, Doublings(prior), Doublings(later));
    GrownStep(x, Doublings(prior));
  }

  /** A cap of at most 4611686018 seconds (about 146 years) is always safe. */
  lemma SmallCapIsSafe(cfg: Config)
    requires cfg.MaxSec() < DOUBLING_LIMIT
    ensures forall prior: int :: Delay(prior, cfg) == ClosedForm(prior, cfg)
  {
    DelayIsClosedFormIffSafe(cfg);
  }

  /** A cap just past what a Duration holds wraps, and already the first retry is scheduled in the past. */
  lemma WrappedCapRetriesInThePast()
    ensures Delay(1, Config(25, 30, DURATION_SECONDS + 1)) < 0
  {
    var cfg := Config(25, 30, DURATION_SECONDS + 1);
    assert Delay(1, cfg) == Doubled(30 * SECOND, Wrap64(cfg.MaxSec() * SECOND), 1);
  }
}
