/** The adaptive benchmark runner: it initialises the pipeline, calibrates
    an iteration count by doubling it until one timed span lasts at least
    1e6 microseconds, scales the count so that the measured span lasts about
    11 seconds (and at least 10 iterations), times that many runs and turns
    the count and the elapsed time into a score.

    The pipeline and the clock are not modelled: a Platform holds what they
    return (the sequence of clock readings, which run calls fail, whether
    initialisation fails) and counts how much of each the runner has used. */
module AudioMarkRunner {
  import opened Float32
  import opened CTypes

  /** The span, in microseconds, a calibration pass must reach. */
  const CALIBRATION_SPAN: nat := 1_000_000
  /** The span, in microseconds, the measurement aims at. */
  const MEASURE_SPAN: nat := 11_000_000
  /** The least number of iterations the measurement runs. */
  const MIN_ITERATIONS: nat := 10

  class Platform {
    /** The k-th reading of the microsecond clock. */
    const clock: nat -> U64
    /** Whether the k-th call of the benchmark run returns nonzero. */
    const runFails: nat -> bool
    /** Whether initialisation returns nonzero. */
    const initFails: bool

    /** Clock readings taken so far. */
    var clockReads: nat
    /** Run calls made so far. */
    var runCalls: nat
    /** Initialise calls made so far. */
    var initCalls: nat
    /** Release calls made so far. */
    var releaseCalls: nat

    constructor (clock: nat -> U64, runFails: nat -> bool, initFails: bool)
      ensures this.clock == clock && this.runFails == runFails && this.initFails == initFails
      ensures clockReads == 0 && runCalls == 0 && initCalls == 0 && releaseCalls == 0
    {
      this.clock, this.runFails, this.initFails := clock, runFails, initFails;
      clockReads, runCalls, initCalls, releaseCalls := 0, 0, 0, 0;
    }

    /** The next clock reading. */
    method Microseconds() returns (t: U64)
      modifies this`clockReads
      ensures t == clock(old(clockReads)) && clockReads == old(clockReads) + 1
    {
      t := clock(clockReads);
      clockReads := clockReads + 1;
    }

    /** One run of the pipeline; true when it returns nonzero. */
    method Run() returns (failed: bool)
      modifies this`runCalls
      ensures failed == runFails(old(runCalls)) && runCalls == old(runCalls) + 1
    {
      failed := runFails(runCalls);
      runCalls := runCalls + 1;
    }

    /** Initialisation of the pipeline; true when it returns nonzero. */
    method Initialize() returns (failed: bool)
      modifies this`initCalls
      ensures failed == initFails && initCalls == old(initCalls) + 1
    {
      failed := initFails;
      initCalls := initCalls + 1;
    }

    /** Release of the pipeline's resources. */
    method Release()
      modifies this`releaseCalls
      ensures releaseCalls == old(releaseCalls) + 1
    {
      releaseCalls := releaseCalls + 1;
    }
  }

  /** t1 - t0 in uint64_t arithmetic: the true difference when the clock did
      not go backwards, and the difference plus 2^64 when it did. */
  function Elapsed(t0: U64, t1: U64): (dt: U64)
    ensures t0 <= t1 ==> dt == t1 - t0
    ensures t1 < t0 ==> dt == t1 - t0 + TWO64
  {
    (t1 - t0) % TWO64
  }

  /** The span timed by clock readings i and i + 1. */
  function Span(clock: nat -> U64, i: nat): U64
  {
    Elapsed(clock(i), clock(i + 1))
  }

  /** No run numbered from `from` up to (not including) `to` fails. */
  ghost predicate RunsSucceed(runFails: nat -> bool, from: nat, to: int)
  {
    forall j :: from <= j < to ==> !runFails(j)
  }

  // ---------------------------------------------------------------------
  // One timed span
  // ---------------------------------------------------------------------

  /** Times `iterations` run calls in one span: a clock reading, the calls
      until the first failure, a second clock reading; dt is the second
      reading minus the first in uint64_t arithmetic, written on both
      outcomes. */
  method TimeAudiomarkRun(p: Platform, iterations: U32) returns (err: bool, dt: U64)
    modifies p`clockReads, p`runCalls
    ensures p.clockReads == old(p.clockReads) + 2
    ensures dt == Span(p.clock, old(p.clockReads))
    ensures old(p.runCalls) <= p.runCalls <= old(p.runCalls) + iterations
    ensures !err ==> p.runCalls == old(p.runCalls) + iterations
    ensures err ==> p.runCalls > old(p.runCalls) && p.runFails(p.runCalls - 1)
    ensures RunsSucceed(p.runFails, old(p.runCalls), p.runCalls - (if err then 1 else 0))
  {
    ghost var start := p.runCalls;
    var t0 := p.Microseconds();
    err := false;
    for i := 0 to iterations
      invariant p.runCalls == start + i && p.clockReads == old(p.clockReads) + 1
      invariant RunsSucceed(p.runFails, start, start + i)
      invariant !err
    {
      var failed := p.Run();
      if failed {
        err := true;
        break;
      }
    }
    var t1 := p.Microseconds();
    dt := (t1 - t0) % TWO64;
  }

  // ---------------------------------------------------------------------
  // Calibration
  // ---------------------------------------------------------------------

  function Pow2(k: nat): nat
  {
    if k == 0 then 1 else 2 * Pow2(k - 1)
  }

  /** The uint32_t count after k doublings of 1, wrapping at 2^32. */
  function DoubledCount(k: nat): U32
  {
    if k == 0 then 1 else (2 * DoubledCount(k - 1)) % TWO32
  }

  lemma {:induction false} Pow2Add(a: nat, b: nat)
    ensures Pow2(a + b) == Pow2(a) * Pow2(b)
    decreases a
  {
    if a > 0 {
      Pow2Add(a - 1, b);
      assert Pow2(a + b) == 2 * (Pow2(a - 1) * Pow2(b));
      assert 2 * (Pow2(a - 1) * Pow2(b)) == (2 * Pow2(a - 1)) * Pow2(b);
    }
  }

  lemma Pow2Of32()
    ensures Pow2(32) == TWO32
  {
    assert Pow2(4) == 16;
    Pow2Add(4, 4);
    Pow2Add(8, 8);
    Pow2Add(16, 16);
  }

  /** Doubling 2^k for k < 32 reaches at most 2^32. */
  lemma {:induction false} Pow2Below32(k: nat)
    requires k < 32
    ensures 2 * Pow2(k) <= TWO32
    decreases 32 - k
  {
    if k == 31 {
      Pow2Of32();
    } else {
      Pow2Below32(k + 1);
    }
  }

  /** After k < 32 doublings the count is 2^k. */
  lemma {:induction false} DoubledCountBelow32(k: nat)
    requires k < 32
    ensures DoubledCount(k) == Pow2(k)
  {
    if k > 0 {
      DoubledCountBelow32(k - 1);
      Pow2Below32(k);
      var d := 2 * DoubledCount(k - 1);
      assert d == Pow2(k) < TWO32;
      assert d % TWO32 == d;
    }
  }

  /** The 32nd doubling wraps the count to 0, where further doublings
      leave it. */
  lemma {:induction false} DoubledCountFrom32(k: nat)
    requires k >= 32
    ensures DoubledCount(k) == 0
  {
    if k == 32 {
      DoubledCountBelow32(31);
      Pow2Of32();
    } else {
      DoubledCountFrom32(k - 1);
    }
  }

  /** Two adjacent ranges of successful runs form one. */
  lemma RunsSucceedJoin(runFails: nat -> bool, first: nat, middle: nat, end: int)
    requires first <= middle
    requires RunsSucceed(runFails, first, middle) && RunsSucceed(runFails, middle, end)
    ensures RunsSucceed(runFails, first, end)
  {
  }

  /** The runs calibration passes 0 .. n - 1 make together when none fails:
      pass k doubles the count to DoubledCount(k + 1) and times that many. */
  function CalibrationRuns(n: nat): nat
  {
    if n == 0 then 0 else CalibrationRuns(n - 1) + DoubledCount(n)
  }

  /** The first n <= 31 passes make 2 + 4 + ... + 2^n = 2^(n+1) - 2 runs. */
  lemma {:induction false} CalibrationRunsBelow32(n: nat)
    requires n < 32
    ensures CalibrationRuns(n) == 2 * Pow2(n) - 2
  {
    if n > 0 {
      CalibrationRunsBelow32(n - 1);
      DoubledCountBelow32(n);
    }
  }

  /** From the 32nd pass on the count has wrapped to 0: later passes make
      no run, so calibration never makes more than 2^32 - 2 runs. */
  lemma {:induction false} CalibrationRunsFrom31(n: nat)
    requires n >= 31
    ensures CalibrationRuns(n) == TWO32 - 2
  {
    if n == 31 {
      CalibrationRunsBelow32(31);
      Pow2Below32(31);
      Pow2Of32();
    } else {
      CalibrationRunsFrom31(n - 1);
      DoubledCountFrom32(n);
    }
  }

  /** Whether calibration pass k (from 0), counted from clock reading
      firstRead, spans at least CALIBRATION_SPAN: each pass takes two
      readings. */
  ghost predicate LongPass(clock: nat -> U64, firstRead: nat, k: nat)
  {
    Span(clock, firstRead + 2 * k) >= CALIBRATION_SPAN
  }

  /** Whether one of the runs of calibration pass k, counted from run call
      firstCall, fails (given that the earlier passes made all their runs). */
  ghost predicate FailingPass(runFails: nat -> bool, firstCall: nat, k: nat)
  {
    !RunsSucceed(runFails, firstCall + CalibrationRuns(k), firstCall + CalibrationRuns(k + 1))
  }

  /** Whether calibration, if it reaches pass k, stops there: the pass is
      long or one of its runs fails. */
  ghost predicate StoppingPass(clock: nat -> U64, runFails: nat -> bool, firstRead: nat, firstCall: nat, k: nat)
  {
    LongPass(clock, firstRead, k) || FailingPass(runFails, firstCall, k)
  }

  /** A failing first run stops the search in its first pass, whatever
      the clock shows. */
  lemma FirstRunFailureStops(clock: nat -> U64, runFails: nat -> bool, firstRead: nat, firstCall: nat)
    requires runFails(firstCall)
    ensures StoppingPass(clock, runFails, firstRead, firstCall, 0)
  {
    assert CalibrationRuns(1) == 2;
  }

  /** From the 32nd pass (k = 31) on, a pass makes no run, so only a long
      span can stop the search. */
  lemma {:induction false} LatePassesNeverFail(runFails: nat -> bool, firstCall: nat, k: nat)
    requires k >= 31
    ensures !FailingPass(runFails, firstCall, k)
  {
    CalibrationRunsFrom31(k);
    CalibrationRunsFrom31(k + 1);
  }

  /** None of the first n calibration passes is long. */
  ghost predicate ShortPasses(clock: nat -> U64, firstRead: nat, n: int)
  {
    forall k :: 0 <= k < n ==> !LongPass(clock, firstRead, k)
  }

  /** The state of the doubling search after `passes` passes that were
      all short and whose runs all succeeded, counted from clock reading
      firstRead and run call firstCall: the count has been doubled
      `passes` times, two readings were taken per pass and every pass made
      its runs. */
  ghost predicate Searched(clock: nat -> U64, runFails: nat -> bool, firstRead: nat, firstCall: nat,
                           passes: nat, iterations: U32, readings: nat, calls: nat)
  {
    && iterations == DoubledCount(passes)
    && readings == firstRead + 2 * passes
    && calls == firstCall + CalibrationRuns(passes)
    && ShortPasses(clock, firstRead, passes)
    && RunsSucceed(runFails, firstCall, calls)
  }

  /** How the doubling search ended, counted from clock reading firstRead
      and run call firstCall: it took `passes` passes; the last doubled the
      count to `iterations` and timed span `dt` between the last two
      readings; only the last pass may be long; a search that did not fail
      ended on a long pass after all the runs of its passes, and one that
      failed stopped at its first failing run, inside the last pass; every
      run before that succeeded. */
  ghost predicate Calibrated(clock: nat -> U64, runFails: nat -> bool, firstRead: nat, firstCall: nat,
                             passes: nat, err: bool, iterations: U32, dt: U64, readings: nat, calls: nat)
  {
    && passes >= 1
    && iterations == DoubledCount(passes)
    && readings == firstRead + 2 * passes
    && dt == Span(clock, readings - 2)
    && ShortPasses(clock, firstRead, passes - 1)
    && (!err ==> dt >= CALIBRATION_SPAN && calls == firstCall + CalibrationRuns(passes))
    && (err ==> firstCall + CalibrationRuns(passes) - iterations < calls <= firstCall + CalibrationRuns(passes))
    && (err ==> runFails(calls - 1))
    && RunsSucceed(runFails, firstCall, calls - (if err then 1 else 0))
  }

  /** One calibration pass: pass k (from 0), entered in the state the
      earlier passes left, doubles the count in uint32_t and times that
      many runs. A pass that fails or is long ends the search after k + 1
      passes; any other leaves the state of k + 1 passes, and is not the
      pass `stop` that ends the search. */
  method CalibrationPass(p: Platform, previous: U32, ghost firstRead: nat, ghost firstCall: nat, ghost k: nat, ghost stop: nat)
    returns (err: bool, iterations: U32, dt: U64)
    requires Searched(p.clock, p.runFails, firstRead, firstCall, k, previous, p.clockReads, p.runCalls)
    requires k <= stop && StoppingPass(p.clock, p.runFails, firstRead, firstCall, stop)
    modifies p`clockReads, p`runCalls
    ensures err || dt >= CALIBRATION_SPAN ==>
              Calibrated(p.clock, p.runFails, firstRead, firstCall, k + 1, err, iterations, dt, p.clockReads, p.runCalls)
    ensures !err && dt < CALIBRATION_SPAN ==>
              && Searched(p.clock, p.runFails, firstRead, firstCall, k + 1, iterations, p.clockReads, p.runCalls)
              && k < stop
  {
    ghost var start := p.runCalls;
    iterations := (previous * 2) % TWO32;
    err, dt := TimeAudiomarkRun(p, iterations);
    assert dt >= CALIBRATION_SPAN <==> LongPass(p.clock, firstRead, k);
    RunsSucceedJoin(p.runFails, firstCall, start, p.runCalls - (if err then 1 else 0));
    if !err && dt < CALIBRATION_SPAN {
      assert !StoppingPass(p.clock, p.runFails, firstRead, firstCall, k);
    }
  }

  /** The doubling search. Pass k doubles the count (in uint32_t) to
      DoubledCount(k + 1) and times that many runs; the search stops after
      the first pass that fails or spans at least CALIBRATION_SPAN. It
      terminates only because some pass stops it: with a clock that never
      shows such a span and runs that never fail it runs forever (from the
      32nd pass on with a count of 0). */
  method Calibrate(p: Platform) returns (err: bool, iterations: U32, dt: U64, ghost passes: nat)
    requires exists k: nat :: StoppingPass(p.clock, p.runFails, p.clockReads, p.runCalls, k)
    modifies p`clockReads, p`runCalls
    ensures Calibrated(p.clock, p.runFails, old(p.clockReads), old(p.runCalls), passes, err, iterations, dt, p.clockReads, p.runCalls)
  {
    ghost var r0, c0 := p.clockReads, p.runCalls;
    ghost var bound: nat :| StoppingPass(p.clock, p.runFails, r0, c0, bound);
    iterations, passes := 1, 0;
    while true
      invariant passes <= bound
      invariant Searched(p.clock, p.runFails, r0, c0, passes, iterations, p.clockReads, p.runCalls)
      decreases bound - passes
    {
      ghost var k := passes;
      err, iterations, dt := CalibrationPass(p, iterations, r0, c0, k, bound);
      passes := k + 1;
      if err || dt >= CALIBRATION_SPAN {
        break;
      }
    }
  }

  // ---------------------------------------------------------------------
  // Scaling, measurement and score
  // ---------------------------------------------------------------------

  /** The product the count is scaled to: the calibrated count times the
      ratio MEASURE_SPAN / dt, in exact reals. */
  function ScaledProduct(calibrated: U32, dt: U64): real
    requires dt > 0
  {
    calibrated as real * (MEASURE_SPAN as real / dt as real)
  }

  /** The quotient of n by d, counted as the number of times d can be
      taken from n. */
  function Quotient(n: nat, d: nat): nat
    requires d > 0
    decreases n
  {
    if n < d then 0 else 1 + Quotient(n - d, d)
  }

  /** The quotient q is the one with q * d <= n < (q + 1) * d. */
  lemma {:induction false} QuotientBounds(n: nat, d: nat)
    requires d > 0
    ensures Quotient(n, d) * d <= n < Quotient(n, d) * d + d
    decreases n
  {
    if n >= d {
      QuotientBounds(n - d, d);
      var q := Quotient(n - d, d);
      assert (1 + q) * d == q * d + d;
    }
  }

  /** The scaled product converted to uint32_t: truncated toward zero (for
      these nonnegative operands the quotient of calibrated times
      MEASURE_SPAN by dt), and reduced modulo 2^32 when it does not fit. */
  function ScaledCount(calibrated: U32, dt: U64): U32
    requires dt > 0
  {
    Quotient(calibrated * MEASURE_SPAN, dt) % TWO32
  }

  /** The measurement count: the scaled count, raised to MIN_ITERATIONS
      when it is below. */
  function MeasurementCount(calibrated: U32, dt: U64): U32
    requires dt > 0
  {
    var n := ScaledCount(calibrated, dt);
    if n < MIN_ITERATIONS then MIN_ITERATIONS else n
  }

  lemma DivBetween(nr: real, dr: real, qr: real)
    requires dr > 0.0 && qr * dr <= nr < (qr + 1.0) * dr
    ensures qr <= nr / dr < qr + 1.0
  {
    DivOffset(nr, qr, dr);
    DivOffset(nr, qr + 1.0, dr);
  }

  lemma DivOffset(a: real, b: real, d: real)
    requires d > 0.0
    ensures a / d - b == (a - b * d) / d
    ensures a >= b * d ==> a / d - b >= 0.0
    ensures a < b * d ==> a / d - b < 0.0
  {
  }

  lemma FloorOfQuotient(n: nat, d: nat, q: nat)
    requires d > 0 && q * d <= n < q * d + d
    ensures (n as real / d as real).Floor == q
  {
    var dr, qr, nr := d as real, q as real, n as real;
    assert (q * d) as real == qr * dr;
    assert (q * d + d) as real == (qr + 1.0) * dr;
    DivBetween(nr, dr, qr);
  }

  /** The quotient used for the count is the truncation of the real scaled
      product. */
  lemma ScaledCountTruncatesProduct(calibrated: U32, dt: U64)
    requires dt > 0
    ensures Quotient(calibrated * MEASURE_SPAN, dt) == ScaledProduct(calibrated, dt).Floor
    ensures ScaledCount(calibrated, dt) == ScaledProduct(calibrated, dt).Floor % TWO32
  {
    var n: nat, d: nat := calibrated * MEASURE_SPAN, dt;
    QuotientBounds(n, d);
    FloorOfQuotient(n, d, Quotient(n, d));
    var c := calibrated as real;
    assert c * (MEASURE_SPAN as real / d as real) == (c * MEASURE_SPAN as real) / d as real;
    assert n as real == c * MEASURE_SPAN as real;
  }

  /** The scaling as the runner computes it: the ratio MEASURE_SPAN / dt,
      the calibrated count times it converted to uint32_t, then raised to
      MIN_ITERATIONS. */
  method ScaleIterations(calibrated: U32, dt: U64) returns (iterations: U32)
    requires dt > 0
    ensures iterations == MeasurementCount(calibrated, dt)
  {
    var scale := MEASURE_SPAN as real / dt as real;
    ScaledCountTruncatesProduct(calibrated, dt);
    assert calibrated as real * scale == ScaledProduct(calibrated, dt);
    iterations := (calibrated as real * scale).Floor % TWO32;
    iterations := if iterations < MIN_ITERATIONS then MIN_ITERATIONS else iterations;
  }

  lemma MulMonotone(q: nat, a: nat, b: nat)
    requires a <= b
    ensures q * a <= q * b
  {
  }

  lemma QuotientAtMostEleven(c: nat, d: nat)
    requires d >= CALIBRATION_SPAN
    ensures Quotient(c * MEASURE_SPAN, d) <= 11 * c
  {
    var q := Quotient(c * MEASURE_SPAN, d);
    QuotientBounds(c * MEASURE_SPAN, d);
    MulMonotone(q, CALIBRATION_SPAN, d);
  }

  /** After a calibration span of at least CALIBRATION_SPAN the scaled
      count, before conversion, is at most 11 times the calibrated count;
      when that bound fits in uint32_t nothing wraps and the measurement
      count lies between MIN_ITERATIONS and the larger of MIN_ITERATIONS and
      11 times the calibrated count. */
  lemma MeasurementCountBounds(calibrated: U32, dt: U64)
    requires dt >= CALIBRATION_SPAN
    ensures Quotient(calibrated * MEASURE_SPAN, dt) <= 11 * calibrated
    ensures 11 * calibrated < TWO32 ==>
              MIN_ITERATIONS <= MeasurementCount(calibrated, dt) <= if 11 * calibrated < MIN_ITERATIONS then MIN_ITERATIONS else 11 * calibrated
  {
    QuotientAtMostEleven(calibrated, dt);
  }

  /** One iteration processes 24000 samples at 16 kHz: 1.5 s of audio. */
  const AUDIO_SECONDS_PER_ITERATION: real := 1.5

  /** The score of `iterations` runs timed over dt microseconds: the run
      rate in iterations per second, times 1000, divided by the seconds of
      audio one iteration processes. A zero span gives +infinity, or NaN
      when no iteration ran. */
  function Score(iterations: nat, dt: nat): Float
  {
    if dt == 0 then (if iterations == 0 then NaN else PosInf)
    else Num(1000.0 * (iterations as real * 1000000.0 / dt as real) / AUDIO_SECONDS_PER_ITERATION)
  }

  lemma ScoreArithmetic(i: real, d: real)
    requires d > 0.0
    ensures i / (d / 1000000.0) * 1000.0 * (1.0 / 1.5) == 1000.0 * (i * 1000000.0 / d) / 1.5
  {
    assert i / (d / 1000000.0) == i * 1000000.0 / d;
  }

  /** The score as the runner computes it in float32 operations:
      sec = dt / 1e6, then iterations / sec * 1000 * (1 / 1.5). */
  method ComputeScore(iterations: U32, dt: U64) returns (score: Float)
    ensures score == Score(iterations, dt)
  {
    var sec := Div(Num(dt as real), Num(1000000.0));
    score := Mul(Mul(Div(Num(iterations as real), sec), Num(1000.0)), Div(Num(1.0), Num(1.5)));
    if dt > 0 {
      var i, d := iterations as real, dt as real;
      assert sec == Num(d / 1000000.0);
      assert Div(Num(i), sec) == Num(i / (d / 1000000.0));
      MulNums(i / (d / 1000000.0), 1000.0);
      MulNums(i / (d / 1000000.0) * 1000.0, 1.0 / 1.5);
      ScoreArithmetic(i, d);
    }
  }

  /** Over one span the score is additive in the iteration count. */
  lemma ScoreLinearInIterations(i: nat, j: nat, dt: nat)
    requires dt > 0
    ensures Score(i + j, dt).val == Score(i, dt).val + Score(j, dt).val
  {
    var d := dt as real;
    assert (i + j) as real * 1000000.0 / d == i as real * 1000000.0 / d + j as real * 1000000.0 / d;
  }

  /** Stretching the span by a factor c divides the score by c. */
  lemma ScoreInverseInTime(i: nat, dt: nat, c: nat)
    requires dt > 0 && c > 0
    ensures Score(i, c * dt).val * c as real == Score(i, dt).val
  {
    var n, d, k := i as real * 1000000.0, dt as real, c as real;
    assert (c * dt) as real == k * d;
    assert n / (k * d) * k == n / d;
  }

  /** Running exactly at the pace of the audio (one iteration per 1.5 s of
      wall-clock time) scores 4000 / 9, about 444.4. */
  lemma ScoreAtRealTimePace(i: nat)
    requires i > 0
    ensures Score(i, 1_500_000 * i) == Num(4000.0 / 9.0)
  {
    var r := i as real;
    assert (1_500_000 * i) as real == 1500000.0 * r;
    assert r * 1000000.0 / (1500000.0 * r) == 1.0 / 1.5;
  }

  // ---------------------------------------------------------------------
  // The runner
  // ---------------------------------------------------------------------

  datatype Outcome =
    | InitFailed
    | CalibrationFailed
    | MeasurementFailed
    | Scored(iterations: U32, dt: U64, score: Float)

  /** The measurement: the calibrated count scaled to the measurement
      count, that many runs timed in one span, and on success their score. */
  method Measure(p: Platform, calibrated: U32, calibrationDt: U64) returns (outcome: Outcome)
    requires calibrationDt >= CALIBRATION_SPAN
    modifies p`clockReads, p`runCalls
    ensures outcome.MeasurementFailed? || outcome.Scored?
    ensures p.clockReads == old(p.clockReads) + 2
    ensures outcome.MeasurementFailed? ==>
              && old(p.runCalls) < p.runCalls <= old(p.runCalls) + MeasurementCount(calibrated, calibrationDt)
              && p.runFails(p.runCalls - 1)
              && RunsSucceed(p.runFails, old(p.runCalls), p.runCalls - 1)
    ensures outcome.Scored? ==>
              && outcome.iterations == MeasurementCount(calibrated, calibrationDt)
              && outcome.iterations >= MIN_ITERATIONS
              && outcome.dt == Span(p.clock, old(p.clockReads))
              && p.runCalls == old(p.runCalls) + outcome.iterations
              && RunsSucceed(p.runFails, old(p.runCalls), p.runCalls)
              && outcome.score == Score(outcome.iterations, outcome.dt)
  {
    var iterations := ScaleIterations(calibrated, calibrationDt);
    var err, dt := TimeAudiomarkRun(p, iterations);
    if err {
      outcome := MeasurementFailed;
    } else {
      var score := ComputeScore(iterations, dt);
      outcome := Scored(iterations, dt, score);
    }
  }

  /** A scored run whose clock readings began at firstRead: calibration
      took `passes` passes, the last timed with the doubled count
      `calibrated` over a span of at least CALIBRATION_SPAN; the measured
      count is that count scaled to MEASURE_SPAN, timed in the span right
      after; and the score is that of the measured count over that span. */
  ghost predicate Completed(clock: nat -> U64, firstRead: nat, passes: nat, calibrated: U32, calibrationDt: U64, outcome: Outcome)
  {
    && outcome.Scored?
    && passes >= 1
    && calibrated == DoubledCount(passes)
    && calibrationDt == Span(clock, firstRead + 2 * passes - 2)
    && calibrationDt >= CALIBRATION_SPAN
    && outcome.iterations == MeasurementCount(calibrated, calibrationDt)
    && outcome.iterations >= MIN_ITERATIONS
    && outcome.dt == Span(clock, firstRead + 2 * passes)
    && outcome.score == Score(outcome.iterations, outcome.dt)
  }

  /** The run calls of a benchmark that began at run call firstCall and
      stopped before run call endCall. A scored benchmark made the
      CalibrationRuns(passes) runs of its passes and then the measured
      count, and all of them succeeded. A failed one stopped at its first
      failing run: inside the last calibration pass, or inside the
      measurement of MeasurementCount(calibrated, calibrationDt) runs. */
  ghost predicate RunsMade(runFails: nat -> bool, firstCall: nat, endCall: nat, passes: nat,
                           calibrated: U32, calibrationDt: U64, outcome: Outcome)
  {
    && passes >= 1
    && (outcome.Scored? ==>
          && endCall == firstCall + CalibrationRuns(passes) + outcome.iterations
          && RunsSucceed(runFails, firstCall, endCall))
    && (outcome.CalibrationFailed? ==>
          firstCall + CalibrationRuns(passes) - calibrated < endCall <= firstCall + CalibrationRuns(passes))
    && (outcome.MeasurementFailed? ==>
          && calibrationDt >= CALIBRATION_SPAN
          && firstCall + CalibrationRuns(passes) < endCall
          && endCall <= firstCall + CalibrationRuns(passes) + MeasurementCount(calibrated, calibrationDt))
    && (!outcome.Scored? ==> endCall > firstCall && runFails(endCall - 1) && RunsSucceed(runFails, firstCall, endCall - 1))
  }

  /** How the calibration of a benchmark whose clock readings began at
      firstRead ended: after `passes` passes, all but the last short, with
      the doubled count `calibrated` and the span `calibrationDt` of the
      last pass; unless calibration failed, that pass was long. */
  ghost predicate CalibrationEnded(clock: nat -> U64, firstRead: nat, passes: nat, calibrated: U32, calibrationDt: U64, outcome: Outcome)
  {
    && passes >= 1
    && calibrated == DoubledCount(passes)
    && calibrationDt == Span(clock, firstRead + 2 * passes - 2)
    && ShortPasses(clock, firstRead, passes - 1)
    && (!outcome.CalibrationFailed? ==> calibrationDt >= CALIBRATION_SPAN)
  }

  /** A calibration that did not fail ended on the first long pass, so the
      number of passes it took is determined by the clock. */
  lemma FirstLongPassUnique(clock: nat -> U64, firstRead: nat, a: nat, b: nat)
    requires a >= 1 && ShortPasses(clock, firstRead, a - 1) && LongPass(clock, firstRead, a - 1)
    requires b >= 1 && ShortPasses(clock, firstRead, b - 1) && LongPass(clock, firstRead, b - 1)
    ensures a == b
  {
  }

  /** The phases add up: a calibration that ended as `Calibrated` says
      after run call calibrationEnd, then, unless it failed, the
      measurement up to endCall, give the run calls of `RunsMade` and the
      calibration of `CalibrationEnded`. */
  lemma BenchmarkRuns(clock: nat -> U64, runFails: nat -> bool, firstRead: nat, firstCall: nat, readings: nat,
                      calibrationEnd: nat, endCall: nat, passes: nat,
                      err: bool, calibrated: U32, calibrationDt: U64, outcome: Outcome)
    requires Calibrated(clock, runFails, firstRead, firstCall, passes, err, calibrated, calibrationDt, readings, calibrationEnd)
    requires err ==> outcome.CalibrationFailed? && endCall == calibrationEnd
    requires !err ==> outcome.MeasurementFailed? || outcome.Scored?
    requires outcome.MeasurementFailed? ==>
               && calibrationEnd < endCall <= calibrationEnd + MeasurementCount(calibrated, calibrationDt)
               && runFails(endCall - 1)
               && RunsSucceed(runFails, calibrationEnd, endCall - 1)
    requires outcome.Scored? ==>
               && endCall == calibrationEnd + outcome.iterations
               && RunsSucceed(runFails, calibrationEnd, endCall)
    ensures RunsMade(runFails, firstCall, endCall, passes, calibrated, calibrationDt, outcome)
    ensures CalibrationEnded(clock, firstRead, passes, calibrated, calibrationDt, outcome)
  {
    if !err {
      RunsSucceedJoin(runFails, firstCall, calibrationEnd, endCall - (if outcome.Scored? then 0 else 1));
    }
  }

  /** The two phases after initialisation: the calibration, and unless it
      failed the measurement and its score. */
  method Benchmark(p: Platform) returns (outcome: Outcome, ghost passes: nat, ghost calibrated: U32, ghost calibrationDt: U64)
    requires exists k: nat :: StoppingPass(p.clock, p.runFails, p.clockReads, p.runCalls, k)
    modifies p`clockReads, p`runCalls
    ensures outcome.CalibrationFailed? || outcome.MeasurementFailed? || outcome.Scored?
    ensures passes >= 1
    ensures outcome.CalibrationFailed? ==> p.clockReads == old(p.clockReads) + 2 * passes
    ensures !outcome.CalibrationFailed? ==> p.clockReads == old(p.clockReads) + 2 * passes + 2
    ensures CalibrationEnded(p.clock, old(p.clockReads), passes, calibrated, calibrationDt, outcome)
    ensures RunsMade(p.runFails, old(p.runCalls), p.runCalls, passes, calibrated, calibrationDt, outcome)
    ensures outcome.Scored? ==>
              Completed(p.clock, old(p.clockReads), passes, calibrated, calibrationDt, outcome)
  {
    ghost var r0, c0 := p.clockReads, p.runCalls;
    var err, iterations, dt;
    err, iterations, dt, passes := Calibrate(p);
    calibrated, calibrationDt := iterations, dt;
    ghost var m, c1 := p.clockReads, p.runCalls;
    if err {
      outcome := CalibrationFailed;
    } else {
      assert calibrationDt == Span(p.clock, r0 + 2 * passes - 2);
      outcome := Measure(p, iterations, dt);
    }
    BenchmarkRuns(p.clock, p.runFails, r0, c0, m, c1, p.runCalls, passes, err, calibrated, calibrationDt, outcome);
  }

  /** The whole runner. Initialisation failure returns -1 without release;
      every other path releases exactly once and returns -1 exactly when a
      run failed. A calibration failure skips the measurement. A completed
      run measures MeasurementCount(calibrated count, calibration span)
      iterations in one span and scores them. */
  method AudioMarkMain(p: Platform) returns (exitCode: int, outcome: Outcome, ghost passes: nat, ghost calibrated: U32, ghost calibrationDt: U64)
    requires !p.initFails ==> exists k: nat :: StoppingPass(p.clock, p.runFails, p.clockReads, p.runCalls, k)
    modifies p
    ensures exitCode == (if outcome.Scored? then 0 else -1)
    ensures outcome.InitFailed? <==> p.initFails
    ensures p.initCalls == old(p.initCalls) + 1
    ensures p.releaseCalls == old(p.releaseCalls) + (if outcome.InitFailed? then 0 else 1)
    ensures outcome.InitFailed? ==> p.runCalls == old(p.runCalls) && p.clockReads == old(p.clockReads)
    ensures outcome.CalibrationFailed? ==> p.clockReads == old(p.clockReads) + 2 * passes
    ensures outcome.MeasurementFailed? || outcome.Scored? ==> p.clockReads == old(p.clockReads) + 2 * passes + 2
    ensures !outcome.InitFailed? ==>
              CalibrationEnded(p.clock, old(p.clockReads), passes, calibrated, calibrationDt, outcome)
    ensures !outcome.InitFailed? ==>
              RunsMade(p.runFails, old(p.runCalls), p.runCalls, passes, calibrated, calibrationDt, outcome)
    ensures outcome.Scored? ==>
              Completed(p.clock, old(p.clockReads), passes, calibrated, calibrationDt, outcome)
  {
    var failed := p.Initialize();
    if failed {
      return -1, InitFailed, 0, 0, 0;
    }
    ghost var stop: nat :| StoppingPass(p.clock, p.runFails, old(p.clockReads), old(p.runCalls), stop);
    assert StoppingPass(p.clock, p.runFails, p.clockReads, p.runCalls, stop);
    outcome, passes, calibrated, calibrationDt := Benchmark(p);
    p.Release();
    exitCode := if outcome.Scored? then 0 else -1;
  }
}
