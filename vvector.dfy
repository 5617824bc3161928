/**
  morph::vVector: a resizable vector of reals. Its arithmetic operators either
  build a fresh vector (modelled by the sequence they return) or update this
  vector in place (modelled by the field elems, which they reassign).
 */
module VVectors {
  import opened RealSeq
  import opened Format

  class VVector {
    var elems: seq<real>

    constructor (init: seq<real>)
      ensures elems == init
    {
      elems := init;
    }

    /** zero(): every element becomes 0 and the length is kept. */
    method Zero()
      modifies this
      ensures elems == Filled(|old(elems)|, 0.0)
    {
      var i := 0;
      while i < |elems|
        invariant 0 <= i <= |elems| == |old(elems)|
        invariant forall j :: 0 <= j < i ==> elems[j] == 0.0
      {
        elems := elems[i := 0.0];
        i := i + 1;
      }
    }

    /**
      set_from(std::vector): copies vec over the front of this vector without
      resizing it; a longer vec would be written past the end.
     */
    method SetFrom(vec: seq<real>)
      requires |vec| <= |elems|
      modifies this
      ensures elems == vec + old(elems)[|vec|..]
    {
      var i := 0;
      while i < |vec|
        invariant 0 <= i <= |vec| && |elems| == |old(elems)|
        invariant forall j :: 0 <= j < i ==> elems[j] == vec[j]
        invariant forall j :: i <= j < |elems| ==> elems[j] == old(elems)[j]
      {
        elems := elems[i := vec[i]];
        i := i + 1;
      }
    }

    /** set_from(std::array): resizes to the array's length, then copies it. */
    method SetFromArray(ar: seq<real>)
      modifies this
      ensures elems == ar
    {
      elems := Resized(elems, |ar|, 0.0);
      var i := 0;
      while i < |ar|
        invariant 0 <= i <= |ar| == |elems|
        invariant forall j :: 0 <= j < i ==> elems[j] == ar[j]
      {
        elems := elems[i := ar[i]];
        i := i + 1;
      }
    }

    /**
      set_from_onelonger(v): when v is exactly one element longer than this
      vector, copies all of v but its last element; otherwise does nothing.
     */
    method SetFromOneLonger(v: seq<real>)
      modifies this
      ensures |v| == |old(elems)| + 1 ==> elems == v[..|old(elems)|]
      ensures |v| != |old(elems)| + 1 ==> elems == old(elems)
    {
      if |v| == |elems| + 1 {
        var i := 0;
        while i < |elems|
          invariant 0 <= i <= |elems| == |old(elems)|
          invariant forall j :: 0 <= j < i ==> elems[j] == v[j]
        {
          elems := elems[i := v[i]];
          i := i + 1;
        }
      }
    }

    /** str(): the coordinate text "(e0,e1,...)", built with a first-element flag. */
    method Str(show: real -> string) returns (text: string)
      ensures text == Coordinates(show, elems)
    {
      text := "(";
      var first := true;
      var i := 0;
      while i < |elems|
        invariant 0 <= i <= |elems|
        invariant first <==> i == 0
        invariant text == "(" + Join(show, elems[..i])
      {
        assert elems[..i + 1][..i] == elems[..i];
        if first {
          text := text + show(elems[i]);
          first := false;
        } else {
          text := text + "," + show(elems[i]);
        }
        i := i + 1;
      }
      assert elems[..i] == elems;
      text := text + ")";
    }

    /** Unary minus: a fresh vector of the same length with every element negated. */
    method Negate() returns (r: seq<real>)
      ensures r == Negated(elems)
    {
      r := Filled(|elems|, 0.0);
      for i := 0 to |elems|
        invariant |r| == |elems|
        invariant forall j :: 0 <= j < i ==> r[j] == -elems[j]
      {
        r := r[i := -elems[i]];
      }
    }

    /** Vector *: the cross product when both operands have three elements, else empty. */
    method Cross(v: seq<real>) returns (r: seq<real>)
      ensures |elems| == 3 && |v| == 3 ==> r == CrossProduct(elems, v)
      ensures !(|elems| == 3 && |v| == 3) ==> r == []
    {
      r := [];
      if |elems| == 3 && |v| == 3 {
        r := Filled(3, 0.0);
        r := r[0 := elems[1] * v[2] - elems[2] * v[1]];
        r := r[1 := elems[2] * v[0] - elems[0] * v[2]];
        r := r[2 := elems[0] * v[1] - elems[1] * v[0]];
      }
    }

    /**
      Vector *=: when both operands have three elements, computes the cross
      product into a temporary and copies it back; otherwise does nothing.
     */
    method CrossAssign(v: seq<real>)
      modifies this
      ensures |old(elems)| == 3 && |v| == 3 ==> elems == CrossProduct(old(elems), v)
      ensures !(|old(elems)| == 3 && |v| == 3) ==> elems == old(elems)
    {
      if |elems| == 3 && |v| == 3 {
        var tmp := Filled(3, 0.0);
        tmp := tmp[0 := elems[1] * v[2] - elems[2] * v[1]];
        tmp := tmp[1 := elems[2] * v[0] - elems[0] * v[2]];
        tmp := tmp[2 := elems[0] * v[1] - elems[1] * v[0]];
        elems := tmp;
      }
    }

    /** dot(v): the scalar product over this vector's length; v must be at least as long. */
    method Dot(v: seq<real>) returns (r: real)
      requires |elems| <= |v|
      ensures r == DotProduct(elems, v)
    {
      r := 0.0;
      for i := 0 to |elems|
        invariant r == DotProduct(elems[..i], v)
      {
        assert elems[..i + 1][..i] == elems[..i];
        r := r + elems[i] * v[i];
      }
      assert elems[..|elems|] == elems;
    }

    /**
      hadamard(v): a fresh vector of v's length, zero-filled, whose first
      |elems| elements are the elementwise products.
     */
    method Hadamard(v: seq<real>) returns (r: seq<real>)
      requires |elems| <= |v|
      ensures r == ElementwiseProduct(elems, v) + Filled(|v| - |elems|, 0.0)
    {
      r := Filled(|v|, 0.0);
      for i := 0 to |elems|
        invariant |r| == |v|
        invariant forall j :: 0 <= j < i ==> r[j] == elems[j] * v[j]
        invariant forall j :: i <= j < |v| ==> r[j] == 0.0
      {
        r := r[i := elems[i] * v[i]];
      }
      var expected := ElementwiseProduct(elems, v) + Filled(|v| - |elems|, 0.0);
      assert forall j :: 0 <= j < |v| ==> r[j] == expected[j];
    }

    /** Scalar *: a fresh vector with every element multiplied by s. */
    method Multiply(s: real) returns (r: seq<real>)
      ensures r == Scaled(elems, s)
    {
      r := Filled(|elems|, 0.0);
      for i := 0 to |elems|
        invariant |r| == |elems|
        invariant forall j :: 0 <= j < i ==> r[j] == elems[j] * s
      {
        r := r[i := elems[i] * s];
      }
      assert forall j :: 0 <= j < |r| ==> r[j] == Scaled(elems, s)[j];
    }

    /** Scalar *=: every element multiplied by s in place. */
    method MultiplyAssign(s: real)
      modifies this
      ensures elems == Scaled(old(elems), s)
    {
      var i := 0;
      while i < |elems|
        invariant 0 <= i <= |elems| == |old(elems)|
        invariant forall j :: 0 <= j < i ==> elems[j] == old(elems)[j] * s
        invariant forall j :: i <= j < |elems| ==> elems[j] == old(elems)[j]
      {
        elems := elems[i := elems[i] * s];
        i := i + 1;
      }
      assert forall j :: 0 <= j < |elems| ==> elems[j] == Scaled(old(elems), s)[j];
    }

    /** Scalar /: a fresh vector with every element divided by s. */
    method Divide(s: real) returns (r: seq<real>)
      requires s != 0.0
      ensures r == Divided(elems, s)
    {
      r := Filled(|elems|, 0.0);
      for i := 0 to |elems|
        invariant |r| == |elems|
        invariant forall j :: 0 <= j < i ==> r[j] == elems[j] / s
      {
        r := r[i := elems[i] / s];
      }
    }

    /** Scalar /=: every element divided by s in place. */
    method DivideAssign(s: real)
      requires s != 0.0
      modifies this
      ensures elems == Divided(old(elems), s)
    {
      var i := 0;
      while i < |elems|
        invariant 0 <= i <= |elems| == |old(elems)|
        invariant forall j :: 0 <= j < i ==> elems[j] == old(elems)[j] / s
        invariant forall j :: i <= j < |elems| ==> elems[j] == old(elems)[j]
      {
        elems := elems[i := elems[i] / s];
        i := i + 1;
      }
    }

    /** Vector +: a fresh vector of this length; v must be at least as long. */
    method Add(v: seq<real>) returns (r: seq<real>)
      requires |elems| <= |v|
      ensures r == ElementwiseSum(elems, v)
    {
      r := Filled(|elems|, 0.0);
      for i := 0 to |elems|
        invariant |r| == |elems|
        invariant forall j :: 0 <= j < i ==> r[j] == elems[j] + v[j]
      {
        r := r[i := elems[i] + v[i]];
      }
    }

    /** Vector +=: v added elementwise in place. */
    method AddAssign(v: seq<real>)
      requires |elems| <= |v|
      modifies this
      ensures elems == ElementwiseSum(old(elems), v)
    {
      var i := 0;
      while i < |elems|
        invariant 0 <= i <= |elems| == |old(elems)|
        invariant forall j :: 0 <= j < i ==> elems[j] == old(elems)[j] + v[j]
        invariant forall j :: i <= j < |elems| ==> elems[j] == old(elems)[j]
      {
        elems := elems[i := elems[i] + v[i]];
        i := i + 1;
      }
    }

    /** Vector -: a fresh vector of this length; v must be at least as long. */
    method Subtract(v: seq<real>) returns (r: seq<real>)
      requires |elems| <= |v|
      ensures r == ElementwiseDifference(elems, v)
    {
      r := Filled(|elems|, 0.0);
      for i := 0 to |elems|
        invariant |r| == |elems|
        invariant forall j :: 0 <= j < i ==> r[j] == elems[j] - v[j]
      {
        r := r[i := elems[i] - v[i]];
      }
    }

    /** Vector -=: v subtracted elementwise in place. */
    method SubtractAssign(v: seq<real>)
      requires |elems| <= |v|
      modifies this
      ensures elems == ElementwiseDifference(old(elems), v)
    {
      var i := 0;
      while i < |elems|
        invariant 0 <= i <= |elems| == |old(elems)|
        invariant forall j :: 0 <= j < i ==> elems[j] == old(elems)[j] - v[j]
        invariant forall j :: i <= j < |elems| ==> elems[j] == old(elems)[j]
      {
        elems := elems[i := elems[i] - v[i]];
        i := i + 1;
      }
    }

    /** Scalar +: a fresh vector with s added to every element. */
    method AddScalar(s: real) returns (r: seq<real>)
      ensures r == Shifted(elems, s)
    {
      r := Filled(|elems|, 0.0);
      for i := 0 to |elems|
        invariant |r| == |elems|
        invariant forall j :: 0 <= j < i ==> r[j] == elems[j] + s
      {
        r := r[i := elems[i] + s];
      }
    }

    /** Scalar +=: s added to every element in place. */
    method AddScalarAssign(s: real)
      modifies this
      ensures elems == Shifted(old(elems), s)
    {
      var i := 0;
      while i < |elems|
        invariant 0 <= i <= |elems| == |old(elems)|
        invariant forall j :: 0 <= j < i ==> elems[j] == old(elems)[j] + s
        invariant forall j :: i <= j < |elems| ==> elems[j] == old(elems)[j]
      {
        elems := elems[i := elems[i] + s];
        i := i + 1;
      }
    }

    /** Scalar -=: s subtracted from every element in place. */
    method SubtractScalarAssign(s: real)
      modifies this
      ensures elems == Shifted(old(elems), -s)
    {
      var i := 0;
      while i < |elems|
        invariant 0 <= i <= |elems| == |old(elems)|
        invariant forall j :: 0 <= j < i ==> elems[j] == old(elems)[j] - s
        invariant forall j :: i <= j < |elems| ==> elems[j] == old(elems)[j]
      {
        elems := elems[i := elems[i] - s];
        i := i + 1;
      }
    }
  }
}
