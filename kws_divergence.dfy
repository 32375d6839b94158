/** The Jensen-Shannon divergence of two probability rows, as the
    conformance test computes it: an entry that is not positive is replaced
    by a small epsilon, and the two half-terms of each entry are added to a
    running total in order. The base-2 logarithm is transcendental and is a
    parameter of the model; what is proved here holds whatever it is. */
module KwsDivergence {
  import opened Float32

  /** The floor substituted for an entry that is not positive (1e-12). */
  const EPS: real := 0.000000000001

  /** The value used in the log terms for one entry: EPS when the entry
      compares <= 0, the entry itself otherwise (NaN compares false, so it
      stays NaN). */
  function Floored(x: Float): (p: Float)
    ensures Le(x, Num(0.0)) ==> p == Num(EPS)
    ensures !Le(x, Num(0.0)) ==> p == x
    ensures p.Num? ==> p.val > 0.0
    ensures x.NaN? <==> p.NaN?
  {
    if Le(x, Num(0.0)) then Num(EPS) else x
  }

  /** The two half-terms entry (p, q) adds:
      0.5 p (log2 p - log2 m) and 0.5 q (log2 q - log2 m), m = 0.5 (p + q).
      A NaN entry makes both NaN. An infinite entry (normalisation yields
      none) is not given its IEEE half-terms: both are taken as NaN, which
      is what their sum is in IEEE arithmetic (the infinite entry's term is
      infinity times (infinity - infinity)). */
  function HalfTerms(p: Float, q: Float, log2: real -> real): (Float, Float)
  {
    if p.Num? && q.Num? then
      var m := 0.5 * (p.val + q.val);
      (Num(0.5 * p.val * (log2(p.val) - log2(m))), Num(0.5 * q.val * (log2(q.val) - log2(m))))
    else
      (NaN, NaN)
  }

  /** The running total after the first n entries. */
  function JsdPrefix(P: seq<Float>, Q: seq<Float>, log2: real -> real, n: nat): Float
    requires n <= |P| == |Q|
  {
    if n == 0 then Num(0.0)
    else
      var terms := HalfTerms(Floored(P[n - 1]), Floored(Q[n - 1]), log2);
      Add(Add(JsdPrefix(P, Q, log2, n - 1), terms.0), terms.1)
  }

  /** The divergence of two rows of the same length. */
  function Jsd(P: seq<Float>, Q: seq<Float>, log2: real -> real): Float
    requires |P| == |Q|
  {
    JsdPrefix(P, Q, log2, |P|)
  }

  /** Every argument the logarithm is applied to is positive: the floored
      entries and their mean. */
  lemma LogArgumentsPositive(x: Float, y: Float)
    requires Floored(x).Num? && Floored(y).Num?
    ensures Floored(x).val > 0.0 && Floored(y).val > 0.0
    ensures 0.5 * (Floored(x).val + Floored(y).val) > 0.0
  {
  }

  /** The divergence is symmetric. */
  lemma {:induction false} JsdPrefixSymmetric(P: seq<Float>, Q: seq<Float>, log2: real -> real, n: nat)
    requires n <= |P| == |Q|
    ensures JsdPrefix(P, Q, log2, n) == JsdPrefix(Q, P, log2, n)
  {
    if n > 0 {
      JsdPrefixSymmetric(P, Q, log2, n - 1);
      var p, q := Floored(P[n - 1]), Floored(Q[n - 1]);
      var pq, qp := HalfTerms(p, q, log2), HalfTerms(q, p, log2);
      if p.Num? && q.Num? {
        assert 0.5 * (p.val + q.val) == 0.5 * (q.val + p.val);
      }
      assert qp == (pq.1, pq.0);
      AddSwap(JsdPrefix(P, Q, log2, n - 1), pq.0, pq.1);
    }
  }

  lemma JsdSymmetric(P: seq<Float>, Q: seq<Float>, log2: real -> real)
    requires |P| == |Q|
    ensures Jsd(P, Q, log2) == Jsd(Q, P, log2)
  {
    JsdPrefixSymmetric(P, Q, log2, |P|);
  }

  /** A row of numbers has divergence exactly 0 from itself. */
  lemma {:induction false} JsdPrefixSelf(P: seq<Float>, log2: real -> real, n: nat)
    requires n <= |P|
    requires forall i :: 0 <= i < |P| ==> P[i].Num?
    ensures JsdPrefix(P, P, log2, n) == Num(0.0)
  {
    if n > 0 {
      JsdPrefixSelf(P, log2, n - 1);
      var p := Floored(P[n - 1]);
      assert 0.5 * (p.val + p.val) == p.val;
    }
  }

  lemma JsdSelfIsZero(P: seq<Float>, log2: real -> real)
    requires forall i :: 0 <= i < |P| ==> P[i].Num?
    ensures Jsd(P, P, log2) == Num(0.0)
  {
    JsdPrefixSelf(P, log2, |P|);
  }

  /** A NaN entry in either row makes the divergence NaN: it reaches the
      running total and stays there. */
  lemma {:induction false} JsdPrefixNaN(P: seq<Float>, Q: seq<Float>, log2: real -> real, n: nat, k: nat)
    requires k < n <= |P| == |Q|
    requires P[k].NaN? || Q[k].NaN?
    ensures JsdPrefix(P, Q, log2, n).NaN?
  {
    if k < n - 1 {
      JsdPrefixNaN(P, Q, log2, n - 1, k);
    }
  }

  lemma JsdNaN(P: seq<Float>, Q: seq<Float>, log2: real -> real, k: nat)
    requires k < |P| == |Q|
    requires P[k].NaN? || Q[k].NaN?
    ensures Jsd(P, Q, log2).NaN?
  {
    JsdPrefixNaN(P, Q, log2, |P|, k);
  }

  /** The divergence loop over two arrays of probabilities. */
  method JensenShannon(P: array<Float>, Q: array<Float>, log2: real -> real) returns (jsd: Float)
    requires P.Length == Q.Length
    ensures jsd == Jsd(P[..], Q[..], log2)
  {
    jsd := Num(0.0);
    for i := 0 to P.Length
      invariant jsd == JsdPrefix(P[..], Q[..], log2, i)
    {
      var terms := HalfTerms(Floored(P[i]), Floored(Q[i]), log2);
      jsd := Add(jsd, terms.0);
      jsd := Add(jsd, terms.1);
    }
  }
}
