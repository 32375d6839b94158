/** The keyword-spotting conformance test: 93 audio frames go through the
    network; every frame on which the network completes an inference is
    paired with the next row of a 73-row golden table, scored by the
    Jensen-Shannon divergence of the two normalised rows unless both rows
    are noise, and the divergences are summed, maximised and counted
    against a per-row threshold. A verdict then combines five checks.

    The network is not modelled: its outputs are the input trace, one
    (class row, new-inference flag) pair per frame. This module models the
    test with the noise test as its comment intends and with the golden row
    read only on inference frames; the test as written differs in both
    respects (see NoiseCheckAsWritten and AsWrittenReadsInBounds). */
module KwsValidator {
  import opened Float32
  import opened KwsRows
  import opened KwsDivergence

  const NBUFFERS: nat := 93
  const NINFERS: nat := 73

  /** Per-row divergence tolerance. */
  const ROW_JSD_THRESH: real := 0.015
  /** Tolerance on the mean divergence over all inferences. */
  const MEAN_JSD_THRESH: real := 0.0025
  /** Tolerance on the largest divergence. */
  const MAX_JSD_THRESH: real := 0.05
  /** Tolerated share of rows above ROW_JSD_THRESH. */
  const MAX_TOL_JSD_RATIO: real := 0.01

  /** What the network leaves after one frame: its class row and whether
      the frame completed an inference. */
  datatype Frame = Frame(classes: Row, newInference: bool)

  datatype Option<T> = None | Some(value: T)

  /** The test's running state: the inference counter, the cursor into the
      golden table, the sum of divergences (kept in mean_jsd until the
      verdict divides it), the largest divergence and the violation count. */
  datatype Tally = Tally(inferences: nat, idxCheck: nat, jsdSum: Float, maxJsd: Float, violations: nat)

  const Start: Tally := Tally(0, 0, Num(0.0), Num(0.0), 0)

  /** The divergence frame f is scored with, given the state before it:
      none for a frame without an inference, for a noise frame, or once the
      golden table is used up; otherwise the divergence of the normalised
      golden row (first argument) and the normalised produced row. */
  function ScoredJsd(t: Tally, f: Frame, golden: seq<Row>, log2: real -> real): Option<Float>
  {
    if f.newInference && t.idxCheck < |golden| && !IsNoise(f.classes, golden[t.idxCheck]) then
      Some(Jsd(Normalized(golden[t.idxCheck]), Normalized(f.classes), log2))
    else
      None
  }

  /** Adds one divergence: to the sum, to the maximum when it compares
      greater, and to the violations when it compares greater than the
      per-row tolerance. */
  function Accumulate(t: Tally, jsd: Float): Tally
  {
    t.(jsdSum := Add(t.jsdSum, jsd),
       maxJsd := if Gt(jsd, t.maxJsd) then jsd else t.maxJsd,
       violations := if Gt(jsd, Num(ROW_JSD_THRESH)) then t.violations + 1 else t.violations)
  }

  /** One frame: an inference frame advances the counter and the cursor
      together and is scored unless ScoredJsd says otherwise; any other
      frame changes nothing. */
  function Step(t: Tally, f: Frame, golden: seq<Row>, log2: real -> real): Tally
  {
    if !f.newInference then t
    else
      var advanced := t.(inferences := t.inferences + 1, idxCheck := t.idxCheck + 1);
      match ScoredJsd(t, f, golden, log2)
      case None => advanced
      case Some(jsd) => Accumulate(advanced, jsd)
  }

  /** The state after a sequence of frames. */
  function Run(frames: seq<Frame>, golden: seq<Row>, log2: real -> real): Tally
    decreases |frames|
  {
    if frames == [] then Start
    else Step(Run(frames[..|frames| - 1], golden, log2), frames[|frames| - 1], golden, log2)
  }

  /** The number of frames that completed an inference. */
  function CountInferences(frames: seq<Frame>): (n: nat)
    ensures n <= |frames|
  {
    if frames == [] then 0
    else CountInferences(frames[..|frames| - 1]) + (if frames[|frames| - 1].newInference then 1 else 0)
  }

  /** The divergence frame i is scored with in a run over frames. */
  function ScoredAt(frames: seq<Frame>, golden: seq<Row>, log2: real -> real, i: nat): Option<Float>
    requires i < |frames|
  {
    ScoredJsd(Run(frames[..i], golden, log2), frames[i], golden, log2)
  }

  // ---------------------------------------------------------------------
  // The verdict
  // ---------------------------------------------------------------------

  /** The failed checks, in the order the test reports them. */
  datatype Failure =
    | NoInferences        // no inference at all
    | CountMismatch       // inferences != NINFERS
    | DivergenceExceeded  // max > MAX_JSD_THRESH or violation ratio > MAX_TOL_JSD_RATIO
    | MeanExceeded        // mean > MEAN_JSD_THRESH

  datatype Report = Report(
    inferences: nat, violations: nat, maxJsd: Float,
    meanJsd: Float, violationRatio: Float,
    failures: seq<Failure>, exitCode: int)

  /** The verdict on a final state: the mean and the violation ratio are
      divided by the inference count (so 0 / 0 is NaN when there was no
      inference), and each check that fires adds its failure. */
  function Judge(t: Tally): Report
  {
    var n := Num(t.inferences as real);
    var mean := Div(t.jsdSum, n);
    var ratio := Div(Num(t.violations as real), n);
    var failures :=
      (if t.inferences == 0 then [NoInferences] else [])
      + (if t.inferences != NINFERS then [CountMismatch] else [])
      + (if Gt(t.maxJsd, Num(MAX_JSD_THRESH)) || Gt(ratio, Num(MAX_TOL_JSD_RATIO)) then [DivergenceExceeded] else [])
      + (if Gt(mean, Num(MEAN_JSD_THRESH)) then [MeanExceeded] else []);
    Report(t.inferences, t.violations, t.maxJsd, mean, ratio, failures, if failures != [] then -1 else 0)
  }

  // ---------------------------------------------------------------------
  // The test itself
  // ---------------------------------------------------------------------

  /** The body of the frame loop: on an inference frame, counts it, scores
      it against the golden row under the cursor unless the table is used up
      or both rows are noise, and advances the cursor. The two arrays are the
      buffers the normalised rows are written to. */
  method ScoreFrame(t: Tally, f: Frame, golden: seq<Row>, log2: real -> real,
                    refProba: array<Float>, classesProba: array<Float>) returns (next: Tally)
    requires refProba.Length == NCLASSES && classesProba.Length == NCLASSES
    requires refProba != classesProba
    modifies refProba, classesProba
    ensures next == Step(t, f, golden, log2)
  {
    next := t;
    if f.newInference {
      next := next.(inferences := next.inferences + 1);
      if t.idxCheck < |golden| {
        var expected := golden[t.idxCheck];
        var noise := NoiseCheck(f.classes, expected);
        if !noise {
          NormalizeQ8(expected, refProba);
          NormalizeQ8(f.classes, classesProba);
          var jsd := JensenShannon(refProba, classesProba, log2);
          next := next.(jsdSum := Add(next.jsdSum, jsd));
          if Gt(jsd, next.maxJsd) {
            next := next.(maxJsd := jsd);
          }
          if Gt(jsd, Num(ROW_JSD_THRESH)) {
            next := next.(violations := next.violations + 1);
          }
        }
      }
      next := next.(idxCheck := next.idxCheck + 1);
    }
  }

  /** The verdict computed from the final counters: the mean and the
      violation ratio, then one failure per check that fires. */
  method Verdict(t: Tally) returns (report: Report)
    ensures report == Judge(t)
    ensures report.exitCode == -1 <==> report.failures != []
  {
    var failures := [];
    if t.inferences == 0 {
      failures := failures + [NoInferences];
    }
    if t.inferences != NINFERS {
      failures := failures + [CountMismatch];
    }
    var n := Num(t.inferences as real);
    var meanJsd := Div(t.jsdSum, n);
    var ratio := Div(Num(t.violations as real), n);
    if Gt(t.maxJsd, Num(MAX_JSD_THRESH)) || Gt(ratio, Num(MAX_TOL_JSD_RATIO)) {
      failures := failures + [DivergenceExceeded];
    }
    if Gt(meanJsd, Num(MEAN_JSD_THRESH)) {
      failures := failures + [MeanExceeded];
    }
    var err := failures != [];
    report := Report(t.inferences, t.violations, t.maxJsd, meanJsd, ratio, failures, if err then -1 else 0);
  }

  /** Runs the frames through the pairing, scoring and accumulation loop
      and returns the verdict. */
  method Validate(frames: seq<Frame>, golden: seq<Row>, log2: real -> real) returns (report: Report)
    requires |frames| == NBUFFERS && |golden| == NINFERS
    ensures report == Judge(Run(frames, golden, log2))
    ensures report.inferences == CountInferences(frames)
    ensures report.exitCode == -1 <==> report.failures != []
  {
    var t := Start;
    var refProba := new Float[NCLASSES];
    var classesProba := new Float[NCLASSES];
    for i := 0 to |frames|
      invariant t == Run(frames[..i], golden, log2)
    {
      assert frames[..i + 1][..i] == frames[..i];
      t := ScoreFrame(t, frames[i], golden, log2, refProba, classesProba);
    }
    assert frames[..|frames|] == frames;
    RunCursor(frames, golden, log2);
    report := Verdict(t);
  }

  // ---------------------------------------------------------------------
  // Properties of the run
  // ---------------------------------------------------------------------

  /** The two counters advance together: after any prefix of frames the
      inference counter and the golden-table cursor both equal the number
      of inference frames, so the k-th inference is paired with golden row
      k, in order. */
  lemma {:induction false} RunCursor(frames: seq<Frame>, golden: seq<Row>, log2: real -> real)
    ensures Run(frames, golden, log2).inferences == CountInferences(frames)
    ensures Run(frames, golden, log2).idxCheck == CountInferences(frames)
  {
    if frames != [] {
      RunCursor(frames[..|frames| - 1], golden, log2);
    }
  }

  /** A noise frame still counts as an inference and still consumes its
      golden row, but adds nothing to the divergence statistics. */
  lemma NoiseFrameConsumesRow(t: Tally, f: Frame, golden: seq<Row>, log2: real -> real)
    requires f.newInference && t.idxCheck < |golden| && IsNoise(f.classes, golden[t.idxCheck])
    ensures Step(t, f, golden, log2) == t.(inferences := t.inferences + 1, idxCheck := t.idxCheck + 1)
  {
  }

  /** The violation count never exceeds the inference count. */
  lemma {:induction false} ViolationsBounded(frames: seq<Frame>, golden: seq<Row>, log2: real -> real)
    ensures Run(frames, golden, log2).violations <= Run(frames, golden, log2).inferences
  {
    if frames != [] {
      ViolationsBounded(frames[..|frames| - 1], golden, log2);
    }
  }

  /** The recorded maximum starts at 0 and never drops below it (nor
      becomes NaN), and no
      scored divergence exceeds it. */
  lemma {:induction false} MaxDominates(frames: seq<Frame>, golden: seq<Row>, log2: real -> real)
    ensures Le(Num(0.0), Run(frames, golden, log2).maxJsd)
    ensures forall i :: 0 <= i < |frames| && ScoredAt(frames, golden, log2, i).Some? ==>
              !Gt(ScoredAt(frames, golden, log2, i).value, Run(frames, golden, log2).maxJsd)
  {
    if frames != [] {
      var n := |frames| - 1;
      var init := frames[..n];
      MaxDominates(init, golden, log2);
      var before, after := Run(init, golden, log2), Run(frames, golden, log2);
      assert after.maxJsd == before.maxJsd || Gt(after.maxJsd, before.maxJsd);
      NonNegativeRaised(before.maxJsd, after.maxJsd);
      forall i | 0 <= i < |frames| && ScoredAt(frames, golden, log2, i).Some?
        ensures !Gt(ScoredAt(frames, golden, log2, i).value, after.maxJsd)
      {
        var d := ScoredAt(frames, golden, log2, i).value;
        if i < n {
          assert frames[..i] == init[..i];
          assert ScoredAt(frames, golden, log2, i) == ScoredAt(init, golden, log2, i);
          NotGtRaised(d, before.maxJsd, after.maxJsd);
        } else {
          assert frames[..i] == init;
          GtIrreflexive(d);
        }
      }
    }
  }

  /** The recorded maximum is 0 or one of the scored divergences. */
  lemma {:induction false} MaxIsAScore(frames: seq<Frame>, golden: seq<Row>, log2: real -> real)
    ensures Run(frames, golden, log2).maxJsd == Num(0.0)
            || exists i :: 0 <= i < |frames| && ScoredAt(frames, golden, log2, i) == Some(Run(frames, golden, log2).maxJsd)
  {
    if frames != [] {
      var n := |frames| - 1;
      var init := frames[..n];
      MaxIsAScore(init, golden, log2);
      var before, after := Run(init, golden, log2), Run(frames, golden, log2);
      if after.maxJsd != before.maxJsd {
        assert frames[..n] == init;
        assert ScoredAt(frames, golden, log2, n) == Some(after.maxJsd);
      } else if before.maxJsd != Num(0.0) {
        var i :| 0 <= i < n && ScoredAt(init, golden, log2, i) == Some(before.maxJsd);
        assert frames[..i] == init[..i];
        assert ScoredAt(frames, golden, log2, i) == Some(after.maxJsd);
      }
    }
  }

  /** A run that does not complete exactly NINFERS inferences fails with
      CountMismatch, whatever the divergences are; one without any
      inference also fails with NoInferences. */
  lemma CountMismatchFails(frames: seq<Frame>, golden: seq<Row>, log2: real -> real)
    requires CountInferences(frames) != NINFERS
    ensures CountMismatch in Judge(Run(frames, golden, log2)).failures
    ensures CountInferences(frames) == 0 ==> NoInferences in Judge(Run(frames, golden, log2)).failures
    ensures Judge(Run(frames, golden, log2)).exitCode == -1
  {
    RunCursor(frames, golden, log2);
  }

  /** A single scored divergence above MAX_JSD_THRESH fails the run on the
      divergence check; averaging over the other rows cannot hide it. */
  lemma LargeDivergenceFails(frames: seq<Frame>, golden: seq<Row>, log2: real -> real, i: nat)
    requires i < |frames| && ScoredAt(frames, golden, log2, i).Some?
    requires Gt(ScoredAt(frames, golden, log2, i).value, Num(MAX_JSD_THRESH))
    ensures DivergenceExceeded in Judge(Run(frames, golden, log2)).failures
    ensures Judge(Run(frames, golden, log2)).exitCode == -1
  {
    MaxDominates(frames, golden, log2);
    var d, m := ScoredAt(frames, golden, log2, i).value, Run(frames, golden, log2).maxJsd;
    GtThroughBound(d, m, Num(MAX_JSD_THRESH));
  }

  /** Once a scored divergence is NaN (a scored row whose entries are all
      -128 normalises to NaN), the sum stays NaN to the end of the run. */
  lemma {:induction false} NaNSumPersists(frames: seq<Frame>, golden: seq<Row>, log2: real -> real, i: nat)
    requires i < |frames| && ScoredAt(frames, golden, log2, i) == Some(NaN)
    ensures Run(frames, golden, log2).jsdSum == NaN
  {
    var n := |frames| - 1;
    var init := frames[..n];
    if i < n {
      assert frames[..i] == init[..i];
      assert ScoredAt(init, golden, log2, i) == ScoredAt(frames, golden, log2, i);
      NaNSumPersists(init, golden, log2, i);
    } else {
      assert frames[..i] == init;
    }
  }

  /** A NaN divergence makes the mean NaN, so the mean check can no longer
      fire. */
  lemma NaNSilencesMean(frames: seq<Frame>, golden: seq<Row>, log2: real -> real, i: nat)
    requires i < |frames| && ScoredAt(frames, golden, log2, i) == Some(NaN)
    ensures Judge(Run(frames, golden, log2)).meanJsd == NaN
    ensures MeanExceeded !in Judge(Run(frames, golden, log2)).failures
  {
    NaNSumPersists(frames, golden, log2, i);
  }

  /** A scored frame whose produced or golden row is all -128 gets a NaN
      divergence. */
  lemma DegenerateRowGivesNaN(t: Tally, f: Frame, golden: seq<Row>, log2: real -> real)
    requires ScoredJsd(t, f, golden, log2).Some?
    requires RowSum(f.classes) == 0 || RowSum(golden[t.idxCheck]) == 0
    ensures ScoredJsd(t, f, golden, log2) == Some(NaN)
  {
    var g := golden[t.idxCheck];
    if RowSum(g) == 0 {
      NormalizedDegenerate(g);
      JsdNaN(Normalized(g), Normalized(f.classes), log2, 0);
    } else {
      NormalizedDegenerate(f.classes);
      JsdNaN(Normalized(g), Normalized(f.classes), log2, 0);
    }
  }

  /** On an inference frame whose produced row equals its golden row, the
      scored divergence (if any) is exactly 0. */
  lemma IdenticalRowScoresZero(t: Tally, f: Frame, golden: seq<Row>, log2: real -> real)
    requires ScoredJsd(t, f, golden, log2).Some?
    requires golden[t.idxCheck] == f.classes
    ensures ScoredJsd(t, f, golden, log2) == Some(Num(0.0))
  {
    NotSilentHasPositiveSum(f.classes);
    NormalizedIsDistribution(f.classes);
    JsdSelfIsZero(Normalized(f.classes), log2);
  }

  /** Golden rows that equal the produced rows give a sum, a maximum and a
      violation count of 0. */
  lemma {:induction false} IdenticalRowsScoreZero(frames: seq<Frame>, golden: seq<Row>, log2: real -> real)
    requires forall i :: 0 <= i < |frames| && frames[i].newInference && CountInferences(frames[..i]) < |golden| ==>
               golden[CountInferences(frames[..i])] == frames[i].classes
    ensures Run(frames, golden, log2).jsdSum == Num(0.0)
    ensures Run(frames, golden, log2).maxJsd == Num(0.0)
    ensures Run(frames, golden, log2).violations == 0
  {
    if frames != [] {
      var n := |frames| - 1;
      var init := frames[..n];
      forall i | 0 <= i < n && init[i].newInference && CountInferences(init[..i]) < |golden|
        ensures golden[CountInferences(init[..i])] == init[i].classes
      {
        assert init[..i] == frames[..i];
      }
      IdenticalRowsScoreZero(init, golden, log2);
      var t := Run(init, golden, log2);
      RunCursor(init, golden, log2);
      if ScoredJsd(t, frames[n], golden, log2).Some? {
        assert init == frames[..n];
        IdenticalRowScoresZero(t, frames[n], golden, log2);
      }
    }
  }

  /** Golden rows equal to the produced rows, with exactly NINFERS
      inferences, pass: no failure, exit code 0, mean, maximum and
      violation count all 0. */
  lemma IdenticalRowsPass(frames: seq<Frame>, golden: seq<Row>, log2: real -> real)
    requires CountInferences(frames) == NINFERS
    requires forall i :: 0 <= i < |frames| && frames[i].newInference && CountInferences(frames[..i]) < |golden| ==>
               golden[CountInferences(frames[..i])] == frames[i].classes
    ensures Judge(Run(frames, golden, log2)).failures == []
    ensures Judge(Run(frames, golden, log2)).exitCode == 0
    ensures Judge(Run(frames, golden, log2)).meanJsd == Num(0.0)
    ensures Judge(Run(frames, golden, log2)).maxJsd == Num(0.0)
    ensures Judge(Run(frames, golden, log2)).violations == 0
  {
    IdenticalRowsScoreZero(frames, golden, log2);
    RunCursor(frames, golden, log2);
  }

  // ---------------------------------------------------------------------
  // The golden row read as written
  // ---------------------------------------------------------------------

  /** As written, the test reads golden row idx_check on every frame, before
      it looks at the inference flag; idx_check then equals the number of
      inferences of the earlier frames. The reads stay inside the NINFERS
      rows exactly when this holds. */
  predicate AsWrittenReadsInBounds(frames: seq<Frame>)
  {
    forall i :: 0 <= i < |frames| ==> CountInferences(frames[..i]) < NINFERS
  }

  /** The inference count of a prefix grows with the prefix. */
  lemma {:induction false} CountMonotone(frames: seq<Frame>, i: nat, j: nat)
    requires i <= j <= |frames|
    ensures CountInferences(frames[..i]) <= CountInferences(frames[..j])
  {
    if i < j {
      assert frames[..j][..j - 1] == frames[..j - 1];
      CountMonotone(frames, i, j - 1);
    }
  }

  /** As written, the reads stay in bounds exactly when the frames before
      the last complete fewer than NINFERS inferences. */
  lemma AsWrittenReadsInBoundsIff(frames: seq<Frame>)
    requires frames != []
    ensures AsWrittenReadsInBounds(frames) <==> CountInferences(frames[..|frames| - 1]) < NINFERS
  {
    forall i | 0 <= i < |frames| {
      CountMonotone(frames, i, |frames| - 1);
    }
  }

  /** A passing run whose last frame completes no inference reads past the
      golden table as written: after the NINFERS-th inference every later
      frame reads row NINFERS. */
  lemma PassingRunReadsPastTable(frames: seq<Frame>)
    requires frames != [] && !frames[|frames| - 1].newInference
    requires CountInferences(frames) == NINFERS
    ensures !AsWrittenReadsInBounds(frames)
  {
    AsWrittenReadsInBoundsIff(frames);
  }
}
