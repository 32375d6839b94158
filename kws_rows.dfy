/** Class-score rows of the keyword-spotting network: the 12 signed 8-bit
    scores the network writes after an inference and the rows of the golden
    table it is compared with. This module holds the two per-row operations
    of the conformance test: the probability normalisation and the
    "both rows are noise" test. */
module KwsRows {
  import opened Float32
  import opened CTypes

  const NCLASSES: nat := 12

  type Int8 = x: int | -128 <= x < 128

  /** A row of NCLASSES scores. */
  type Row = r: seq<Int8> | |r| == NCLASSES witness [0, 0, 0, 0, 0, 0, 0, 0, 0, 0, 0, 0]

  // ---------------------------------------------------------------------
  // Normalisation of a q8 row into probabilities
  // ---------------------------------------------------------------------

  /** An entry shifted by +128 into [0, 255]. */
  function Shifted(x: Int8): (k: int)
    ensures 0 <= k <= 255
  {
    x as int + 128
  }

  /** The sum of the entries of a row after each is shifted by +128. Each
      shifted entry lies in [0, 255], so the sum lies in [0, 255 * |row|]
      (at most 3060 for a row of NCLASSES). */
  function RowSum(row: seq<Int8>): (s: int)
    ensures 0 <= s <= 255 * |row|
  {
    if row == [] then 0 else RowSum(row[..|row| - 1]) + Shifted(row[|row| - 1])
  }

  /** Every shifted entry is bounded by the sum. */
  lemma {:induction false} EntryAtMostSum(row: seq<Int8>, i: nat)
    requires i < |row|
    ensures 0 <= Shifted(row[i]) <= RowSum(row)
  {
    var n := |row| - 1;
    if i < n {
      assert row[..n][i] == row[i];
      EntryAtMostSum(row[..n], i);
    }
  }

  /** The sum is zero exactly when every entry is -128. */
  lemma {:induction false} RowSumZeroIff(row: seq<Int8>)
    ensures RowSum(row) == 0 <==> forall i :: 0 <= i < |row| ==> row[i] == -128
  {
    if row != [] {
      var n := |row| - 1;
      RowSumZeroIff(row[..n]);
      if RowSum(row) == 0 {
        forall i | 0 <= i < |row| ensures row[i] == -128 {
          if i < n {
            assert row[..n][i] == row[i];
          }
        }
      }
      if forall i :: 0 <= i < |row| ==> row[i] == -128 {
        assert forall i :: 0 <= i < n ==> row[..n][i] == -128;
      }
    }
  }

  /** The reciprocal 1 / sum as float32 computes it: +infinity for a zero
      sum. */
  function Reciprocal(sum: int): Float
  {
    Div(Num(1.0), Num(sum as real))
  }

  /** The probabilities the normalisation writes: each shifted entry times
      the reciprocal of the row's sum. */
  function Normalized(row: seq<Int8>): (probs: seq<Float>)
    ensures |probs| == |row|
  {
    var inv := Reciprocal(RowSum(row));
    seq(|row|, i requires 0 <= i < |row| => Mul(Num(Shifted(row[i]) as real), inv))
  }

  /** The total of a sequence of floats, accumulated from the front. */
  function Total(xs: seq<Float>): Float
  {
    if xs == [] then Num(0.0) else Add(Total(xs[..|xs| - 1]), xs[|xs| - 1])
  }

  /** The shifted entries, each divided by a fixed divisor. */
  function Scaled(row: seq<Int8>, s: real): (xs: seq<Float>)
    requires s > 0.0
    ensures |xs| == |row|
  {
    seq(|row|, i requires 0 <= i < |row| => Num(Shifted(row[i]) as real / s))
  }

  lemma DivAdd(a: real, b: real, s: real)
    requires s > 0.0
    ensures a / s + b / s == (a + b) / s
  {
  }

  lemma DivSelf(s: real)
    requires s > 0.0
    ensures s / s == 1.0
  {
  }

  lemma DivAtMostOne(k: real, s: real)
    requires s > 0.0 && 0.0 <= k <= s
    ensures 0.0 <= k / s <= 1.0
  {
    var r := 1.0 / s;
    assert r > 0.0;
    assert k * r <= s * r;
    assert s * r == 1.0;
    assert k / s == k * r;
  }

  /** Dividing every shifted entry by the same positive divisor divides
      their total by it. */
  lemma {:induction false} ScaledTotal(row: seq<Int8>, s: real)
    requires s > 0.0
    ensures Total(Scaled(row, s)) == Num(RowSum(row) as real / s)
  {
    if row != [] {
      var n := |row| - 1;
      assert Scaled(row, s)[..n] == Scaled(row[..n], s);
      ScaledTotal(row[..n], s);
      DivAdd(RowSum(row[..n]) as real, Shifted(row[n]) as real, s);
    }
  }

  /** With a positive sum, entry i of the normalised row is the shifted
      entry divided by the sum. */
  lemma NormalizedEntry(row: seq<Int8>, i: nat)
    requires RowSum(row) > 0 && i < |row|
    ensures Normalized(row)[i] == Num(Shifted(row[i]) as real / RowSum(row) as real)
  {
    MulByReciprocal(Shifted(row[i]) as real, RowSum(row) as real);
  }

  /** When the sum is positive the normalised row is a probability
      distribution: every entry is a number in [0, 1] and the entries total
      exactly 1. */
  lemma NormalizedIsDistribution(row: seq<Int8>)
    requires RowSum(row) > 0
    ensures forall i :: 0 <= i < |row| ==>
              Normalized(row)[i].Num? && 0.0 <= Normalized(row)[i].val <= 1.0
    ensures Total(Normalized(row)) == Num(1.0)
  {
    var s := RowSum(row) as real;
    forall i | 0 <= i < |row|
      ensures Normalized(row)[i] == Scaled(row, s)[i] && 0.0 <= Scaled(row, s)[i].val <= 1.0
    {
      NormalizedEntry(row, i);
      EntryAtMostSum(row, i);
      DivAtMostOne(Shifted(row[i]) as real, s);
    }
    assert Normalized(row) == Scaled(row, s);
    ScaledTotal(row, s);
    DivSelf(s);
  }

  /** When the sum is zero (every entry -128) the reciprocal is +infinity
      and every entry is 0 * infinity, which is NaN. */
  lemma NormalizedDegenerate(row: seq<Int8>)
    requires RowSum(row) == 0
    ensures forall i :: 0 <= i < |row| ==> Normalized(row)[i].NaN?
  {
    RowSumZeroIff(row);
  }

  /** Normalisation of one row into a caller-provided array of NCLASSES
      floats: first the shifted sum, then each shifted entry times 1 / sum. */
  method NormalizeQ8(row: Row, outProb: array<Float>)
    requires outProb.Length == NCLASSES
    modifies outProb
    ensures outProb[..] == Normalized(row)
  {
    var sum := 0;
    for i := 0 to NCLASSES
      invariant sum == RowSum(row[..i])
    {
      assert row[..i + 1][..i] == row[..i];
      sum := sum + Shifted(row[i]);
    }
    assert row[..NCLASSES] == row;
    var inv := Reciprocal(sum);
    for i := 0 to NCLASSES
      invariant forall k :: 0 <= k < i ==> outProb[k] == Normalized(row)[k]
    {
      outProb[i] := Mul(Num(Shifted(row[i]) as real), inv);
    }
  }

  // ---------------------------------------------------------------------
  // The noise test
  // ---------------------------------------------------------------------

  /** A row says "no active class": every score is negative. */
  predicate Silent(row: seq<Int8>)
  {
    forall j :: 0 <= j < |row| ==> row[j] < 0
  }

  /** A frame is noise when the produced row and the expected row are both
      silent; such a frame is not scored. */
  predicate IsNoise(classes: seq<Int8>, expected: seq<Int8>)
  {
    Silent(classes) && Silent(expected)
  }

  /** A row that is not silent has a positive sum, so it normalises to a
      distribution. */
  lemma {:induction false} NotSilentHasPositiveSum(row: seq<Int8>)
    requires !Silent(row)
    ensures RowSum(row) >= 128
  {
    var j :| 0 <= j < |row| && row[j] >= 0;
    EntryAtMostSum(row, j);
  }

  /** The noise test with signed maxima, as the comment on it intends: each
      maximum starts at -127 and takes in the row's entries; the frame is
      noise when both maxima are negative. */
  method NoiseCheck(classes: Row, expected: Row) returns (noise: bool)
    ensures noise == IsNoise(classes, expected)
  {
    var a, b := -127, -127;
    for j := 0 to NCLASSES
      invariant -127 <= a < 128 && -127 <= b < 128
      invariant a < 0 <==> Silent(classes[..j])
      invariant b < 0 <==> Silent(expected[..j])
    {
      assert classes[..j + 1] == classes[..j] + [classes[j]];
      assert expected[..j + 1] == expected[..j] + [expected[j]];
      a := if a > classes[j] then a else classes[j];
      b := if b > expected[j] then b else expected[j];
    }
    assert classes[..NCLASSES] == classes && expected[..NCLASSES] == expected;
    noise := a < 0 && b < 0;
  }

  /** The conversion of a signed value to uint32_t: reduction modulo 2^32. */
  function ToU32(x: int): U32
  {
    x % TWO32
  }

  /** The noise test as the harness writes it: the maxima are uint32_t, so
      MAX compares the int8 scores converted to unsigned, and the test
      "maximum < 0" of an unsigned value never holds. Every inference frame
      is therefore scored. */
  method NoiseCheckAsWritten(classes: Row, expected: Row) returns (noise: bool)
    ensures !noise
  {
    var a: U32, b: U32 := ToU32(-127), ToU32(-127);
    for j := 0 to NCLASSES {
      a := if a > ToU32(classes[j]) then a else ToU32(classes[j]);
      b := if b > ToU32(expected[j]) then b else ToU32(expected[j]);
    }
    noise := a < 0 && b < 0;
  }

  /** A pair of all-negative rows is noise for the intended test, while the
      test as written reports no noise for it (or for any pair). */
  lemma AllNegativePairIsNoise(row: Row)
    requires forall j :: 0 <= j < NCLASSES ==> row[j] == -1
    ensures IsNoise(row, row)
  {
  }
}
