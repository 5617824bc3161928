/**
  morph::Vector<Flt, N>: a fixed-size vector of N reals held in an array.
  Compound assignments update the array in place; the value forms fill a fresh
  array and return its contents.
 */
module Vectors {
  import opened RealSeq
  import opened Format

  class Vector {
    const N: nat
    const comps: array<real>

    ghost predicate Valid()
      reads this
    {
      comps.Length == N
    }

    constructor (init: seq<real>)
      ensures Valid() && N == |init|
      ensures fresh(comps) && comps[..] == init
    {
      N := |init|;
      comps := new real[|init|](i requires 0 <= i < |init| => init[i]);
    }

    /** asString(): "(" + the components joined by "," + ")". */
    method AsString(show: real -> string) returns (text: string)
      requires Valid()
      ensures text == Coordinates(show, comps[..])
    {
      text := "(";
      var first := true;
      var i := 0;
      while i < N
        invariant 0 <= i <= N
        invariant first <==> i == 0
        invariant text == "(" + Join(show, comps[..i])
      {
        assert comps[..i + 1][..i] == comps[..i];
        if first {
          text := text + show(comps[i]);
          first := false;
        } else {
          text := text + "," + show(comps[i]);
        }
        i := i + 1;
      }
      assert comps[..i] == comps[..];
      text := text + ")";
    }

    /** Unary minus. */
    method Negate() returns (r: seq<real>)
      requires Valid()
      ensures r == Negated(comps[..])
    {
      var rtn := new real[N];
      for i := 0 to N
        invariant forall j :: 0 <= j < i ==> rtn[j] == -comps[j]
      {
        rtn[i] := -comps[i];
      }
      r := rtn[..];
    }

    /** Vector * (only for N == 3): the cross product with v2. */
    method Cross(v2: seq<real>) returns (r: seq<real>)
      requires Valid() && N == 3 && |v2| == 3
      ensures r == CrossProduct(comps[..], v2)
    {
      var a := comps[..];
      var v := new real[3];
      v[0] := a[1] * v2[2] - a[2] * v2[1];
      v[1] := a[2] * v2[0] - a[0] * v2[2];
      v[2] := a[0] * v2[1] - a[1] * v2[0];
      ghost var c := CrossProduct(a, v2);
      assert v[0] == c[0] && v[1] == c[1] && v[2] == c[2];
      r := v[..];
    }

    /**
      Vector *= (only for N == 3): the cross product is computed into a
      temporary, so every component is read before any is overwritten.
     */
    method CrossAssign(v2: seq<real>)
      requires Valid() && N == 3 && |v2| == 3
      modifies comps
      ensures comps[..] == CrossProduct(old(comps[..]), v2)
    {
      var a := comps[..];
      var v := new real[3];
      v[0] := a[1] * v2[2] - a[2] * v2[1];
      v[1] := a[2] * v2[0] - a[0] * v2[2];
      v[2] := a[0] * v2[1] - a[1] * v2[0];
      ghost var c := CrossProduct(a, v2);
      assert v[0] == c[0] && v[1] == c[1] && v[2] == c[2];
      comps[0] := v[0];
      comps[1] := v[1];
      comps[2] := v[2];
    }

    /** dot(v2): the sum of the pairwise products. */
    method Dot(v2: seq<real>) returns (r: real)
      requires Valid() && |v2| == N
      ensures r == DotProduct(comps[..], v2)
    {
      r := 0.0;
      for i := 0 to N
        invariant r == DotProduct(comps[..i], v2)
      {
        assert comps[..i + 1][..i] == comps[..i];
        r := r + comps[i] * v2[i];
      }
      assert comps[..N] == comps[..];
    }

    /** Scalar *. */
    method Multiply(s: real) returns (r: seq<real>)
      requires Valid()
      ensures r == Scaled(comps[..], s)
    {
      var rtn := new real[N];
      for i := 0 to N
        invariant forall j :: 0 <= j < i ==> rtn[j] == comps[j] * s
      {
        rtn[i] := comps[i] * s;
      }
      r := rtn[..];
      assert forall j :: 0 <= j < N ==> r[j] == Scaled(comps[..], s)[j];
    }

    /** Scalar *=. */
    method MultiplyAssign(s: real)
      requires Valid()
      modifies comps
      ensures comps[..] == Scaled(old(comps[..]), s)
    {
      for i := 0 to N
        invariant forall j :: 0 <= j < i ==> comps[j] == old(comps[j]) * s
        invariant forall j :: i <= j < N ==> comps[j] == old(comps[j])
      {
        comps[i] := comps[i] * s;
      }
      assert forall j :: 0 <= j < N ==> comps[..][j] == Scaled(old(comps[..]), s)[j];
    }

    /** Scalar /. */
    method Divide(s: real) returns (r: seq<real>)
      requires Valid() && s != 0.0
      ensures r == Divided(comps[..], s)
    {
      var rtn := new real[N];
      for i := 0 to N
        invariant forall j :: 0 <= j < i ==> rtn[j] == comps[j] / s
      {
        rtn[i] := comps[i] / s;
      }
      r := rtn[..];
    }

    /** Scalar /=. */
    method DivideAssign(s: real)
      requires Valid() && s != 0.0
      modifies comps
      ensures comps[..] == Divided(old(comps[..]), s)
    {
      for i := 0 to N
        invariant forall j :: 0 <= j < i ==> comps[j] == old(comps[j]) / s
        invariant forall j :: i <= j < N ==> comps[j] == old(comps[j])
      {
        comps[i] := comps[i] / s;
      }
    }

    /** Vector +. */
    method Add(v2: seq<real>) returns (r: seq<real>)
      requires Valid() && |v2| == N
      ensures r == ElementwiseSum(comps[..], v2)
    {
      var v := new real[N];
      for i := 0 to N
        invariant forall j :: 0 <= j < i ==> v[j] == comps[j] + v2[j]
      {
        v[i] := comps[i] + v2[i];
      }
      r := v[..];
    }

    /** Vector +=. */
    method AddAssign(v2: seq<real>)
      requires Valid() && |v2| == N
      modifies comps
      ensures comps[..] == ElementwiseSum(old(comps[..]), v2)
    {
      for i := 0 to N
        invariant forall j :: 0 <= j < i ==> comps[j] == old(comps[j]) + v2[j]
        invariant forall j :: i <= j < N ==> comps[j] == old(comps[j])
      {
        comps[i] := comps[i] + v2[i];
      }
    }

    /** Vector -. */
    method Subtract(v2: seq<real>) returns (r: seq<real>)
      requires Valid() && |v2| == N
      ensures r == ElementwiseDifference(comps[..], v2)
    {
      var v := new real[N];
      for i := 0 to N
        invariant forall j :: 0 <= j < i ==> v[j] == comps[j] - v2[j]
      {
        v[i] := comps[i] - v2[i];
      }
      r := v[..];
    }

    /** Vector -=. */
    method SubtractAssign(v2: seq<real>)
      requires Valid() && |v2| == N
      modifies comps
      ensures comps[..] == ElementwiseDifference(old(comps[..]), v2)
    {
      for i := 0 to N
        invariant forall j :: 0 <= j < i ==> comps[j] == old(comps[j]) - v2[j]
        invariant forall j :: i <= j < N ==> comps[j] == old(comps[j])
      {
        comps[i] := comps[i] - v2[i];
      }
    }

    /** Scalar +. */
    method AddScalar(s: real) returns (r: seq<real>)
      requires Valid()
      ensures r == Shifted(comps[..], s)
    {
      var rtn := new real[N];
      for i := 0 to N
        invariant forall j :: 0 <= j < i ==> rtn[j] == comps[j] + s
      {
        rtn[i] := comps[i] + s;
      }
      r := rtn[..];
    }

    /** Scalar +=. */
    method AddScalarAssign(s: real)
      requires Valid()
      modifies comps
      ensures comps[..] == Shifted(old(comps[..]), s)
    {
      for i := 0 to N
        invariant forall j :: 0 <= j < i ==> comps[j] == old(comps[j]) + s
        invariant forall j :: i <= j < N ==> comps[j] == old(comps[j])
      {
        comps[i] := comps[i] + s;
      }
    }

    /** Scalar -. */
    method SubtractScalar(s: real) returns (r: seq<real>)
      requires Valid()
      ensures r == Shifted(comps[..], -s)
    {
      var rtn := new real[N];
      for i := 0 to N
        invariant forall j :: 0 <= j < i ==> rtn[j] == comps[j] - s
      {
        rtn[i] := comps[i] - s;
      }
      r := rtn[..];
    }

    /** Scalar -=. */
    method SubtractScalarAssign(s: real)
      requires Valid()
      modifies comps
      ensures comps[..] == Shifted(old(comps[..]), -s)
    {
      for i := 0 to N
        invariant forall j :: 0 <= j < i ==> comps[j] == old(comps[j]) - s
        invariant forall j :: i <= j < N ==> comps[j] == old(comps[j])
      {
        comps[i] := comps[i] - s;
      }
    }
  }
}
