/**
 * The score arithmetic the three `count` phases share:
 * `base.saturating_sub(p1).saturating_sub(p2)... * 100 / base`, then
 * `score * weight / 100`, on unsigned integers with truncating division.
 */
module Scoring {

  /** `u64::saturating_sub`: subtraction that stops at zero. */
  function SaturatingSub(a: nat, b: nat): (r: nat)
    ensures r <= a
    ensures b <= a ==> r + b == a
    ensures a <= b ==> r == 0
  {
    if a >= b then a - b else 0
  }

  function Sum(ps: seq<nat>): nat {
    if ps == [] then 0 else ps[0] + Sum(ps[1..])
  }

  /** The chain `x.saturating_sub(ps[0]).saturating_sub(ps[1])...`. */
  function ChainSub(x: nat, ps: seq<nat>): nat {
    if ps == [] then x else ChainSub(SaturatingSub(x, ps[0]), ps[1..])
  }

  /** Chained saturating subtraction is one saturating subtraction of the total. */
  lemma {:induction false} ChainSubIsSubOfSum(x: nat, ps: seq<nat>)
    ensures ChainSub(x, ps) == SaturatingSub(x, Sum(ps))
  {
    if ps != [] {
      ChainSubIsSubOfSum(SaturatingSub(x, ps[0]), ps[1..]);
    }
  }

  /** The chain of two subtractions, as `count` writes it out. */
  lemma ChainSubPair(x: nat, a: nat, b: nat)
    ensures ChainSub(x, [a, b]) == SaturatingSub(SaturatingSub(x, a), b)
    ensures Sum([a, b]) == a + b
  {
    assert [a, b][1..] == [b];
    assert [b][1..] == [];
    assert ChainSub(x, [a, b]) == ChainSub(SaturatingSub(x, a), [b]);
    assert ChainSub(SaturatingSub(x, a), [b]) == ChainSub(SaturatingSub(SaturatingSub(x, a), b), []);
    assert Sum([a, b]) == a + Sum([b]);
    assert Sum([b]) == b + Sum([]);
  }

  /** The chain of three subtractions. */
  lemma ChainSubTriple(x: nat, a: nat, b: nat, c: nat)
    ensures ChainSub(x, [a, b, c]) == SaturatingSub(SaturatingSub(SaturatingSub(x, a), b), c)
    ensures Sum([a, b, c]) == a + b + c
  {
    assert [a, b, c][1..] == [b, c];
    ChainSubPair(SaturatingSub(x, a), b, c);
  }

  /** The chain of four subtractions. */
  lemma ChainSubQuad(x: nat, a: nat, b: nat, c: nat, d: nat)
    ensures ChainSub(x, [a, b, c, d]) == SaturatingSub(SaturatingSub(SaturatingSub(SaturatingSub(x, a), b), c), d)
    ensures Sum([a, b, c, d]) == a + b + c + d
  {
    assert [a, b, c, d][1..] == [b, c, d];
    ChainSubTriple(SaturatingSub(x, a), b, c, d);
  }

  lemma ScaledBound(x: nat, base: nat)
    requires 0 < base && x <= base
    ensures x * 100 / base <= 100
    ensures x == base ==> x * 100 / base == 100
  {
    var q := x * 100 / base;
    assert q * base + x * 100 % base == x * 100;
    if q > 100 {
      MulMonotone(101, q, base);
      assert false;
    }
    if x == base && q < 100 {
      MulMonotone(q + 1, 100, base);
      assert false;
    }
  }

  /** The raw 0..100 score: penalties are taken from `base`, the rest scaled to a percentage. */
  function RawScore(base: nat, penalties: seq<nat>): (r: nat)
    requires base > 0
    ensures r <= 100
    ensures Sum(penalties) >= base ==> r == 0
    ensures Sum(penalties) == 0 ==> r == 100
  {
    ChainSubIsSubOfSum(base, penalties);
    ScaledBound(ChainSub(base, penalties), base);
    ChainSub(base, penalties) * 100 / base
  }

  /** More penalty never raises the score. */
  lemma {:induction false} RawScoreMonotone(base: nat, ps: seq<nat>, qs: seq<nat>)
    requires base > 0 && |ps| == |qs|
    requires forall i :: 0 <= i < |ps| ==> ps[i] <= qs[i]
    ensures RawScore(base, qs) <= RawScore(base, ps)
  {
    SumMonotone(ps, qs);
    ChainSubIsSubOfSum(base, ps);
    ChainSubIsSubOfSum(base, qs);
    var a, b := ChainSub(base, qs), ChainSub(base, ps);
    assert a <= b;
    assert a * 100 <= b * 100;
    DivMonotone(a * 100, b * 100, base);
  }

  lemma {:induction false} SumMonotone(ps: seq<nat>, qs: seq<nat>)
    requires |ps| == |qs|
    requires forall i :: 0 <= i < |ps| ==> ps[i] <= qs[i]
    ensures Sum(ps) <= Sum(qs)
  {
    if ps != [] {
      SumMonotone(ps[1..], qs[1..]);
    }
  }

  lemma DivMonotone(a: nat, b: nat, d: nat)
    requires a <= b && d > 0
    ensures a / d <= b / d
  {
    var qa, qb := a / d, b / d;
    assert qa * d + a % d == a;
    assert qb * d + b % d == b;
    if qa > qb {
      MulMonotone(qb + 1, qa, d);
      assert false;
    }
  }

  lemma MulMonotone(x: nat, y: nat, d: nat)
    requires x <= y
    ensures x * d <= y * d
  {
  }

  lemma NormalizeBound(score: nat, weight: nat)
    ensures score <= 100 ==> score * weight / 100 <= weight
  {
    if score <= 100 {
      assert score * weight <= 100 * weight;
    }
  }

  /** `score * weight / 100`: the largest whole number not above the exact product. */
  function Normalize(score: nat, weight: nat): (r: nat)
    ensures r * 100 <= score * weight < (r + 1) * 100
    ensures score <= 100 ==> r <= weight
  {
    NormalizeBound(score, weight);
    score * weight / 100
  }

  /** base 100, two denials at 20 each, weight 50: raw score 60, normalised 30. */
  lemma ScoreExample()
    ensures RawScore(100, [2 * 20, 0 * 5]) == 60
    ensures Normalize(60, 50) == 30
  {
    assert ChainSub(100, [40, 0]) == ChainSub(60, [0]) == ChainSub(60, []) == 60;
  }
}
