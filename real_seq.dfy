/**
  Pointwise arithmetic on finite sequences of reals: the value semantics of
  morph::vVector and morph::Vector, and of the elementwise vector expressions
  in morph::Anneal. Floating point is modelled by exact reals.
 */
module RealSeq {

  /** n copies of v (a vector constructed with a size and a fill value). */
  function Filled(n: nat, v: real): seq<real>
  {
    seq(n, _ => v)
  }

  /** a[i] + b[i] over the length of a; b may be longer. */
  function ElementwiseSum(a: seq<real>, b: seq<real>): seq<real>
    requires |a| <= |b|
  {
    seq(|a|, i requires 0 <= i < |a| => a[i] + b[i])
  }

  /** a[i] - b[i] over the length of a; b may be longer. */
  function ElementwiseDifference(a: seq<real>, b: seq<real>): seq<real>
    requires |a| <= |b|
  {
    seq(|a|, i requires 0 <= i < |a| => a[i] - b[i])
  }

  /** a[i] * b[i] over the length of a; b may be longer. */
  function ElementwiseProduct(a: seq<real>, b: seq<real>): seq<real>
    requires |a| <= |b|
  {
    seq(|a|, i requires 0 <= i < |a| => a[i] * b[i])
  }

  /** s / b[i] for a scalar numerator (scalar divided by a vector). */
  function ScalarOver(s: real, b: seq<real>): seq<real>
    requires forall i :: 0 <= i < |b| ==> b[i] != 0.0
  {
    seq(|b|, i requires 0 <= i < |b| => s / b[i])
  }

  /** a[i] * s */
  function Scaled(a: seq<real>, s: real): seq<real>
  {
    seq(|a|, i requires 0 <= i < |a| => a[i] * s)
  }

  /** a[i] / s */
  function Divided(a: seq<real>, s: real): seq<real>
    requires s != 0.0
  {
    seq(|a|, i requires 0 <= i < |a| => a[i] / s)
  }

  /** a[i] + s */
  function Shifted(a: seq<real>, s: real): seq<real>
  {
    seq(|a|, i requires 0 <= i < |a| => a[i] + s)
  }

  /** -a[i] */
  function Negated(a: seq<real>): seq<real>
  {
    seq(|a|, i requires 0 <= i < |a| => -a[i])
  }

  /** The sum of a, accumulated from the front as std::accumulate does. */
  function Sum(a: seq<real>): real
  {
    if |a| == 0 then 0.0 else Sum(a[..|a| - 1]) + a[|a| - 1]
  }

  /** The arithmetic mean of a non-empty vector. */
  function Mean(a: seq<real>): real
    requires |a| > 0
  {
    Sum(a) / (|a| as real)
  }

  /** The scalar product over the length of a, accumulated from the front. */
  function DotProduct(a: seq<real>, b: seq<real>): real
    requires |a| <= |b|
  {
    if |a| == 0 then 0.0
    else DotProduct(a[..|a| - 1], b) + a[|a| - 1] * b[|a| - 1]
  }

  /** The three-dimensional cross product a x b. */
  function CrossProduct(a: seq<real>, b: seq<real>): seq<real>
    requires |a| == 3 && |b| == 3
  {
    [a[1] * b[2] - a[2] * b[1],
     a[2] * b[0] - a[0] * b[2],
     a[0] * b[1] - a[1] * b[0]]
  }

  /** The largest element of a non-empty vector. */
  function Max(a: seq<real>): (r: real)
    requires |a| > 0
    ensures forall i :: 0 <= i < |a| ==> a[i] <= r
    ensures exists i :: 0 <= i < |a| && a[i] == r
  {
    if |a| == 1 then a[0]
    else
      var rest := Max(a[..|a| - 1]);
      assert forall i :: 0 <= i < |a| - 1 ==> a[..|a| - 1][i] == a[i];
      if a[|a| - 1] > rest then a[|a| - 1] else rest
  }

  /** True when some element is exactly zero (vVector::has_zero). */
  predicate HasZero(a: seq<real>)
  {
    exists i :: 0 <= i < |a| && a[i] == 0.0
  }

  /** True when every element is strictly positive (vVector > 0). */
  predicate Positive(a: seq<real>)
  {
    forall i :: 0 <= i < |a| ==> a[i] > 0.0
  }

  /** The vector resized to n: a prefix is kept and new elements take the fill value. */
  function Resized<T>(a: seq<T>, n: nat, fill: T): (r: seq<T>)
    ensures |r| == n
    ensures forall i :: 0 <= i < n ==> r[i] == if i < |a| then a[i] else fill
  {
    if n <= |a| then a[..n] else a + seq(n - |a|, _ => fill)
  }

  /** Resizing an empty vector fills it. */
  lemma ResizedEmpty(n: nat, fill: real)
    ensures Resized([], n, fill) == Filled(n, fill)
  {
    assert forall i :: 0 <= i < n ==> Resized([], n, fill)[i] == Filled(n, fill)[i];
  }

  // Algebraic identities of the pointwise operations.

  /** Subtracting b undoes adding b. */
  lemma DifferenceUndoesSum(a: seq<real>, b: seq<real>)
    requires |a| == |b|
    ensures ElementwiseDifference(ElementwiseSum(a, b), b) == a
  {
    var r := ElementwiseDifference(ElementwiseSum(a, b), b);
    assert forall i :: 0 <= i < |a| ==> r[i] == a[i];
  }

  /** Negation is an involution. */
  lemma NegationInvolutive(a: seq<real>)
    ensures Negated(Negated(a)) == a
  {
    var r := Negated(Negated(a));
    assert forall i :: 0 <= i < |a| ==> r[i] == a[i];
  }

  /** Dividing by a non-zero scalar undoes multiplying by it. */
  lemma DividedUndoesScaled(a: seq<real>, s: real)
    requires s != 0.0
    ensures Divided(Scaled(a, s), s) == a
  {
    var r := Divided(Scaled(a, s), s);
    forall i | 0 <= i < |a| ensures r[i] == a[i] {
      calc {
        r[i];
      ==
        (a[i] * s) / s;
      ==
        a[i];
      }
    }
  }

  /** The scalar product is symmetric for vectors of equal length. */
  lemma {:induction false} DotProductSymmetric(a: seq<real>, b: seq<real>)
    requires |a| == |b|
    ensures DotProduct(a, b) == DotProduct(b, a)
  {
    if |a| > 0 {
      var n := |a| - 1;
      DotProductIgnoresTail(a[..n], b, b[..n]);
      DotProductIgnoresTail(b[..n], a, a[..n]);
      DotProductSymmetric(a[..n], b[..n]);
    }
  }

  /** Only the first |a| elements of the second operand matter. */
  lemma {:induction false} DotProductIgnoresTail(a: seq<real>, b: seq<real>, c: seq<real>)
    requires |a| <= |b| && |a| <= |c|
    requires b[..|a|] == c[..|a|]
    ensures DotProduct(a, b) == DotProduct(a, c)
  {
    if |a| > 0 {
      var n := |a| - 1;
      assert b[..n] == b[..|a|][..n] && c[..n] == c[..|a|][..n];
      assert b[n] == b[..|a|][n] && c[n] == c[..|a|][n];
      DotProductIgnoresTail(a[..n], b, c);
    }
  }

  /** The scalar product of a vector with itself is never negative. */
  lemma {:induction false} DotProductSelfNonNegative(a: seq<real>)
    ensures DotProduct(a, a) >= 0.0
  {
    if |a| > 0 {
      var n := |a| - 1;
      DotProductIgnoresTail(a[..n], a, a[..n]);
      DotProductSelfNonNegative(a[..n]);
      assert a[n] * a[n] >= 0.0;
    }
  }

  /** The scalar product of three-vectors, written out. */
  lemma DotProductOfThree(a: seq<real>, b: seq<real>)
    requires |a| == 3 && |b| == 3
    ensures DotProduct(a, b) == a[0] * b[0] + a[1] * b[1] + a[2] * b[2]
  {
    assert a[..3][..2] == a[..2];
    assert a[..2][..1] == a[..1];
    assert a[..3] == a;
    assert DotProduct(a[..1], b) == a[0] * b[0];
  }

  /** A vector crossed with itself is the zero vector. */
  lemma CrossProductSelfZero(a: seq<real>)
    requires |a| == 3
    ensures CrossProduct(a, a) == Filled(3, 0.0)
  {
  }

  /** The cross product is orthogonal to its first factor. */
  lemma CrossProductOrthogonal(a: seq<real>, b: seq<real>)
    requires |a| == 3 && |b| == 3
    ensures DotProduct(a, CrossProduct(a, b)) == 0.0
  {
    CrossProductTermsCancel(a, b);
    DotProductOfThree(a, CrossProduct(a, b));
  }

  /** The three products of CrossProductOrthogonal, written out, cancel. */
  lemma CrossProductTermsCancel(a: seq<real>, b: seq<real>)
    requires |a| == 3 && |b| == 3
    ensures var c := CrossProduct(a, b); a[0] * c[0] + a[1] * c[1] + a[2] * c[2] == 0.0
  {
    var c := CrossProduct(a, b);
    TripleProductVanishes(a[0], a[1], a[2], b[0], b[1], b[2], c[0], c[1], c[2]);
  }

  /** The polynomial identity behind CrossProductOrthogonal. */
  lemma TripleProductVanishes(a0: real, a1: real, a2: real, b0: real, b1: real, b2: real,
                              c0: real, c1: real, c2: real)
    requires c0 == a1 * b2 - a2 * b1 && c1 == a2 * b0 - a0 * b2 && c2 == a0 * b1 - a1 * b0
    ensures a0 * c0 + a1 * c1 + a2 * c2 == 0.0
  {
    assert a0 * c0 == a0 * a1 * b2 - a0 * a2 * b1;
    assert a1 * c1 == a1 * a2 * b0 - a0 * a1 * b2;
    assert a2 * c2 == a0 * a2 * b1 - a1 * a2 * b0;
  }

  /** The cross product is anti-commutative. */
  lemma CrossProductAntiCommutative(a: seq<real>, b: seq<real>)
    requires |a| == 3 && |b| == 3
    ensures CrossProduct(a, b) == Negated(CrossProduct(b, a))
  {
  }
}
