/**
  The decisions and formulas of morph::Anneal as pure functions: the generating
  distribution, the bounds and force-change test of a candidate, the cooling
  schedule, the acceptance probability, the reanneal test's ratio, the
  sensitivity estimate of a reanneal and the truncating cast of the new step
  count. The class in module Annealing applies them to its fields.
 */
module AnnealRules {
  import opened RealSeq
  import opened FloatModel

  datatype Option<T> = None | Some(value: T)

  /** One more than the largest unsigned int. */
  const UintLimit: int := 0x1_0000_0000

  /** vVector::signum on one element: -1, 0 or 1. */
  function Signum(r: real): real
  {
    if r > 0.0 then 1.0 else if r < 0.0 then -1.0 else 0.0
  }

  function Abs(r: real): real
  {
    if r < 0.0 then -r else r
  }

  /** lo[i] <= v[i] <= hi[i] for every i (x_new <= range_max && x_new >= range_min). */
  predicate Within(v: seq<real>, lo: seq<real>, hi: seq<real>)
  {
    |v| == |lo| == |hi| && forall i :: 0 <= i < |v| ==> lo[i] <= v[i] <= hi[i]
  }

  /** Every element of v differs from the one of w: (v - w).has_zero() is false. */
  predicate AllChanged(v: seq<real>, w: seq<real>)
  {
    |v| == |w| && !HasZero(ElementwiseDifference(v, w))
  }

  /** Every element is strictly negative. */
  predicate Negative(a: seq<real>)
  {
    forall i :: 0 <= i < |a| ==> a[i] < 0.0
  }

  /** The objective improved: lower when descending, higher when ascending. */
  predicate IsImprovement(downhill: bool, fCand: real, fX: real)
  {
    (downhill && fCand < fX) || (!downhill && fCand > fX)
  }

  /** The starting objective set by init(): the largest value when descending, the lowest when ascending. */
  function Sentinel(ops: FloatOps, downhill: bool): (f: real)
    ensures forall g :: ops.lowest <= g <= ops.max ==> !IsImprovement(downhill, f, g)
  {
    if downhill then ops.max else ops.lowest
  }

  /**
    Ingber's generating step for uniform draws u in [0, 1):
    y[i] = sgn(u[i] - 1/2) * T[i] * ((1 + 1/T[i])^|2u[i] - 1| - 1).
   */
  function GeneratingStep(ops: FloatOps, temp: seq<real>, u: seq<real>): (y: seq<real>)
    requires |u| == |temp|
    ensures |y| == |temp|
    ensures forall i :: 0 <= i < |y| && u[i] == 0.5 ==> y[i] == 0.0
  {
    var y := seq(|temp|, i requires 0 <= i < |temp| =>
      Signum(u[i] - 0.5) * temp[i] * (ops.pow(ops.quot(1.0, temp[i]) + 1.0, Abs(u[i] * 2.0 - 1.0)) - 1.0));
    assert forall i :: 0 <= i < |y| && u[i] == 0.5 ==> Signum(u[i] - 0.5) == 0.0;
    y
  }

  /** The candidate x_start + y that one draw produces. */
  function Candidate(ops: FloatOps, temp: seq<real>, xStart: seq<real>, u: seq<real>): (x: seq<real>)
    requires |xStart| == |temp| == |u|
    ensures |x| == |xStart|
    ensures forall i :: 0 <= i < |x| ==> x[i] - xStart[i] == GeneratingStep(ops, temp, u)[i]
  {
    ElementwiseSum(xStart, GeneratingStep(ops, temp, u))
  }

  /** A candidate ends the rejection loop: it lies in range and, when forced, changes every element. */
  predicate Admissible(xNew: seq<real>, xStart: seq<real>, lo: seq<real>, hi: seq<real>, force: bool)
  {
    Within(xNew, lo, hi) && (force ==> AllChanged(xNew, xStart))
  }

  /** The generating step moves element i in the direction of its draw. */
  lemma StepFollowsDraw(ops: FloatOps, temp: seq<real>, u: seq<real>, i: int)
    requires ops.QuotExact() && ops.PowAtLeastOne()
    requires |u| == |temp| && 0 <= i < |temp| && temp[i] > 0.0
    ensures u[i] > 0.5 ==> GeneratingStep(ops, temp, u)[i] >= 0.0
    ensures u[i] < 0.5 ==> GeneratingStep(ops, temp, u)[i] <= 0.0
    ensures u[i] == 0.5 ==> GeneratingStep(ops, temp, u)[i] == 0.0
  {
    var t: real := temp[i];
    var inv := ops.quot(1.0, t);
    assert inv == 1.0 / t;
    assert inv > 0.0;
    var e := Abs(u[i] * 2.0 - 1.0);
    var p := ops.pow(inv + 1.0, e);
    assert p >= 1.0;
    assert t * (p - 1.0) >= 0.0;
  }

  /**
    The temperatures after cooling_schedule: t0[i] * exp(-c[i] * count^(1/D)),
    with count the step count k (parameter temperatures) or the number of
    accepted points (acceptance temperatures).
   */
  function CooledTemperatures(ops: FloatOps, t0: seq<real>, c: seq<real>, count: nat, d: nat): (t: seq<real>)
    requires |c| == |t0| && d > 0
    ensures |t| == |t0|
  {
    seq(|t0|, i requires 0 <= i < |t0| => t0[i] * Decay(ops, c[i], count, d))
  }

  /** The cooling factor exp(-c * count^(1/D)) of one dimension. */
  function Decay(ops: FloatOps, c: real, count: nat, d: nat): real
    requires d > 0
  {
    ops.exp(-c * ops.pow(count as real, 1.0 / (d as real)))
  }

  /** Cooling keeps positive temperatures positive. */
  lemma CoolingKeepsPositive(ops: FloatOps, t0: seq<real>, c: seq<real>, count: nat, d: nat)
    requires ops.ExpPositive()
    requires |c| == |t0| && d > 0 && Positive(t0)
    ensures Positive(CooledTemperatures(ops, t0, c, count, d))
  {
    var t := CooledTemperatures(ops, t0, c, count, d);
    forall i | 0 <= i < |t|
      ensures t[i] > 0.0
    {
      var a: real := t0[i];
      var e := Decay(ops, c[i], count, d);
      assert e > 0.0;
      assert t[i] == a * e;
      assert a * e > 0.0;
    }
  }

  /** exp applied to every element. */
  function ElementwiseExp(ops: FloatOps, a: seq<real>): (r: seq<real>)
    ensures |r| == |a|
  {
    seq(|a|, i requires 0 <= i < |a| => ops.exp(a[i]))
  }

  /** The acceptance probability exp(-(f_cand - f_x) / (epsilon + mean(temp_cost))). */
  function AcceptanceProbability(ops: FloatOps, fCand: real, fX: real, tempCost: seq<real>): (p: real)
    requires |tempCost| > 0
    ensures ops.ExpPositive() ==> p > 0.0
  {
    var q := ops.quot(-(fCand - fX), ops.epsilon + Mean(tempCost));
    assert ops.ExpPositive() ==> ops.exp(q) > 0.0;
    ops.exp(q)
  }

  /** A vector of positive elements has a positive sum. */
  lemma {:induction false} SumPositive(a: seq<real>)
    requires |a| > 0 && Positive(a)
    ensures Sum(a) > 0.0
  {
    var last: real := a[|a| - 1];
    assert last > 0.0;
    if |a| > 1 {
      var front := a[..|a| - 1];
      assert forall i :: 0 <= i < |front| ==> front[i] == a[i];
      SumPositive(front);
    }
  }

  /**
    A candidate whose objective is not higher than the current one is always
    accepted (the draw u lies below 1). The probability does not depend on
    downhill: when ascending, every candidate that is worse or equal passes.
   */
  lemma NonIncreasingCandidateAccepted(ops: FloatOps, fCand: real, fX: real, tempCost: seq<real>, u: real)
    requires ops.Sound()
    requires |tempCost| > 0 && Positive(tempCost) && u < 1.0
    requires fCand <= fX
    ensures AcceptanceProbability(ops, fCand, fX, tempCost) > u
  {
    SumPositive(tempCost);
    var den := ops.epsilon + Mean(tempCost);
    assert den > 0.0;
    var q := ops.quot(-(fCand - fX), den);
    assert q == -(fCand - fX) / den;
    assert q >= 0.0;
    assert ops.exp(q) >= 1.0;
  }

  /** accepted_vs_generated: the fraction of generated candidates that were accepted. */
  function AcceptedRatio(accepted: nat, generated: nat): (r: real)
    requires generated > 0
    ensures r * (generated as real) == accepted as real
    ensures r >= 0.0
    ensures accepted <= generated ==> r <= 1.0
  {
    (accepted as real) / (generated as real)
  }

  /**
    reanneal_test's decision: reanneal unless both fewer than reanneal_after
    steps have passed since the last one and the acceptance ratio has not
    dropped below the threshold.
   */
  predicate ReannealDue(kR: nat, after: nat, ratio: real, threshold: real)
  {
    !(kR < after && ratio >= threshold)
  }

  /** The first n samples all differ from x in every element. */
  predicate SamplesChanged(xSet: seq<seq<real>>, x: seq<real>, n: nat)
  {
    n <= |xSet| && forall i :: 0 <= i < n ==> AllChanged(xSet[i], x)
  }

  /** (f_sample - f_x) / (sample - x), elementwise: one finite-difference estimate of the gradient. */
  function DifferenceQuotient(sample: seq<real>, fSample: real, x: seq<real>, fX: real): (q: seq<real>)
    requires AllChanged(sample, x)
    ensures |q| == |x|
    ensures forall j :: 0 <= j < |q| ==> q[j] == Quotient(sample, fSample, x, fX, j)
  {
    ScalarOver(fSample - fX, ElementwiseDifference(sample, x))
  }

  /** The sum of the first n difference quotients, accumulated into a zeroed vector. */
  function PartialsSum(xSet: seq<seq<real>>, fXSet: seq<real>, x: seq<real>, fX: real, n: nat): (p: seq<real>)
    requires n <= |fXSet| && SamplesChanged(xSet, x, n)
    ensures |p| == |x|
  {
    if n == 0 then Filled(|x|, 0.0)
    else
      var sample: seq<real> := xSet[n - 1];
      assert AllChanged(sample, x);
      ElementwiseSum(PartialsSum(xSet, fXSet, x, fX, n - 1), DifferenceQuotient(sample, fXSet[n - 1], x, fX))
  }

  /** The quotients (f_set[i] - f_x) / (x_set[i][j] - x[j]) of dimension j, over the first n samples. */
  function QuotientsAlong(xSet: seq<seq<real>>, fXSet: seq<real>, x: seq<real>, fX: real, n: nat, j: nat): (q: seq<real>)
    requires n <= |fXSet| && SamplesChanged(xSet, x, n) && j < |x|
    ensures |q| == n
  {
    seq(n, i requires 0 <= i < n => Quotient(xSet[i], fXSet[i], x, fX, j))
  }

  /** The element j of one difference quotient. */
  function Quotient(sample: seq<real>, fSample: real, x: seq<real>, fX: real, j: nat): real
    requires AllChanged(sample, x) && j < |x|
  {
    assert ElementwiseDifference(sample, x)[j] != 0.0;
    (fSample - fX) / (sample[j] - x[j])
  }

  /** Element j of the accumulated partials is the sum of the quotients along dimension j. */
  lemma {:induction false} PartialsSumAlong(xSet: seq<seq<real>>, fXSet: seq<real>, x: seq<real>, fX: real, n: nat, j: nat)
    requires n <= |fXSet| && SamplesChanged(xSet, x, n) && j < |x|
    ensures PartialsSum(xSet, fXSet, x, fX, n)[j] == Sum(QuotientsAlong(xSet, fXSet, x, fX, n, j))
  {
    var q := QuotientsAlong(xSet, fXSet, x, fX, n, j);
    if n > 0 {
      PartialsSumAlong(xSet, fXSet, x, fX, n - 1, j);
      var sample: seq<real> := xSet[n - 1];
      assert AllChanged(sample, x);
      assert q[..n - 1] == QuotientsAlong(xSet, fXSet, x, fX, n - 1, j);
      assert DifferenceQuotient(sample, fXSet[n - 1], x, fX)[j] == q[n - 1];
    }
  }

  /** The partials: the accumulated difference quotients divided by the number of samples. */
  function Partials(xSet: seq<seq<real>>, fXSet: seq<real>, x: seq<real>, fX: real, n: nat): (p: seq<real>)
    requires 0 < n <= |fXSet| && SamplesChanged(xSet, x, n)
    ensures |p| == |x|
    ensures forall j :: 0 <= j < |p| ==> p[j] * (n as real) == PartialsSum(xSet, fXSet, x, fX, n)[j]
  {
    Divided(PartialsSum(xSet, fXSet, x, fX, n), n as real)
  }

  /** Each partial derivative estimate is the mean of the n difference quotients along its dimension. */
  lemma PartialIsMeanQuotient(xSet: seq<seq<real>>, fXSet: seq<real>, x: seq<real>, fX: real, n: nat, j: nat)
    requires 0 < n <= |fXSet| && SamplesChanged(xSet, x, n) && j < |x|
    ensures Partials(xSet, fXSet, x, fX, n)[j] == Mean(QuotientsAlong(xSet, fXSet, x, fX, n, j))
  {
    PartialsSumAlong(xSet, fXSet, x, fX, n, j);
  }

  /** True when some element is NaN or infinite (vVector::has_nan_or_inf). */
  predicate AnyNonFinite(ops: FloatOps, a: seq<real>)
  {
    exists i :: 0 <= i < |a| && ops.nonFinite(a[i])
  }

  /** The sensitivities s = -rdelta * partials, that is (A - B) * dL/dx. */
  function Sensitivities(rdelta: seq<real>, partials: seq<real>): (s: seq<real>)
    requires |rdelta| == |partials|
    ensures |s| == |partials|
    ensures Positive(rdelta) ==> forall i :: 0 <= i < |s| ==> (s[i] == 0.0 <==> partials[i] == 0.0)
    ensures Positive(rdelta) ==> forall i :: 0 <= i < |s| ==> (s[i] > 0.0 <==> partials[i] < 0.0)
  {
    ElementwiseProduct(Negated(rdelta), partials)
  }

  /** The temperatures a reanneal proposes: temp * (max(s) / s). */
  function RescaledTemperatures(ops: FloatOps, temp: seq<real>, s: seq<real>): (t: seq<real>)
    requires |temp| == |s| > 0
    ensures |t| == |temp|
    ensures ops.QuotExact() && !HasZero(s) ==> forall i :: 0 <= i < |t| && s[i] == Max(s) ==> t[i] == temp[i]
  {
    var t := seq(|temp|, i requires 0 <= i < |temp| => temp[i] * ops.quot(Max(s), s[i]));
    var m := Max(s);
    assert !HasZero(s) ==> m != 0.0;
    assert m != 0.0 ==> m / m == 1.0;
    assert ops.QuotExact() && m != 0.0 ==> ops.quot(m, m) == m / m;
    t
  }

  /**
    With positive temperatures and no zero sensitivity, the proposed
    temperatures are all positive exactly when the sensitivities all have the
    same sign; otherwise the reanneal keeps k and the temperatures.
   */
  lemma RescalePositiveIffSameSign(ops: FloatOps, temp: seq<real>, s: seq<real>)
    requires ops.QuotExact()
    requires |temp| == |s| > 0 && Positive(temp) && !HasZero(s)
    ensures Positive(RescaledTemperatures(ops, temp, s)) <==> (Positive(s) || Negative(s))
  {
    var t := RescaledTemperatures(ops, temp, s);
    var mx := Max(s);
    if Positive(s) {
      forall i | 0 <= i < |t| ensures t[i] > 0.0 {
        RescaledElementPositive(ops, temp, s, i);
      }
    } else if Negative(s) {
      forall i | 0 <= i < |t| ensures t[i] > 0.0 {
        RescaledElementPositive(ops, temp, s, i);
      }
    } else {
      var neg :| 0 <= neg < |s| && s[neg] <= 0.0;
      var pos :| 0 <= pos < |s| && s[pos] >= 0.0;
      assert s[neg] != 0.0 && s[pos] != 0.0;
      var sn: real := s[neg];
      var tn: real := temp[neg];
      assert mx >= s[pos] > 0.0;
      var q := ops.quot(mx, sn);
      assert q == mx / sn;
      assert q < 0.0;
      assert tn * q < 0.0;
      assert t[neg] == tn * q;
    }
  }

  /** One proposed temperature when all sensitivities share a sign. */
  lemma RescaledElementPositive(ops: FloatOps, temp: seq<real>, s: seq<real>, i: int)
    requires ops.QuotExact()
    requires |temp| == |s| > 0 && Positive(temp) && (Positive(s) || Negative(s))
    requires 0 <= i < |temp|
    ensures RescaledTemperatures(ops, temp, s)[i] > 0.0
  {
    var mx := Max(s);
    var si: real := s[i];
    var ti: real := temp[i];
    if Positive(s) {
      assert si > 0.0;
      assert mx >= si;
    } else {
      var w :| 0 <= w < |s| && s[w] == mx;
      var sw: real := s[w];
      assert sw < 0.0;
      assert si < 0.0;
    }
    var q := ops.quot(mx, si);
    assert q == mx / si;
    assert q > 0.0;
    assert ti * q > 0.0;
  }

  /** static_cast<unsigned int> of a floating-point value: defined only between -1 and 2^32, truncating toward zero. */
  function UnsignedCast(r: real): (o: Option<nat>)
    ensures o.Some? <==> -1.0 < r < UintLimit as real
    ensures o.Some? ==> o.value < UintLimit
    ensures o.Some? && r >= 0.0 ==> o.value as real <= r < o.value as real + 1.0
    ensures o.Some? && r < 0.0 ==> o.value == 0
  {
    if -1.0 < r < UintLimit as real then Some(if r >= 0.0 then r.Floor else 0) else None
  }

  /**
    The step count a reanneal proposes for the temperatures tempRe:
    mean((log(temp0 / tempRe) / c)^D), truncated to an unsigned int.
   */
  function ReannealedStepCount(ops: FloatOps, temp0: seq<real>, tempRe: seq<real>, c: seq<real>): (o: Option<nat>)
    requires |temp0| == |tempRe| == |c| > 0 && Positive(tempRe)
    ensures o.Some? ==> o.value < UintLimit
  {
    var d := |temp0|;
    var terms := seq(d, i requires 0 <= i < d => ops.pow(ops.quot(ops.log(temp0[i] / tempRe[i]), c[i]), d as real));
    UnsignedCast(Mean(terms))
  }
}
