/**
  The coordinate text of a vector, "(1,1,2)": elements written one after the
  other, separated by commas, in parentheses. How one number is written
  (std::stringstream's formatting of a floating-point value) is a parameter,
  show.
 */
module Format {

  /** The elements of s, each written by show, separated by commas. */
  function Join(show: real -> string, s: seq<real>): string
  {
    if |s| == 0 then ""
    else if |s| == 1 then show(s[0])
    else Join(show, s[..|s| - 1]) + "," + show(s[|s| - 1])
  }

  /** "(" + the joined elements + ")". */
  function Coordinates(show: real -> string, s: seq<real>): string
  {
    "(" + Join(show, s) + ")"
  }

  /** The number of times c occurs in t. */
  function Occurrences(c: char, t: string): nat
  {
    if |t| == 0 then 0
    else Occurrences(c, t[..|t| - 1]) + (if t[|t| - 1] == c then 1 else 0)
  }

  lemma {:induction false} OccurrencesConcat(c: char, a: string, b: string)
    ensures Occurrences(c, a + b) == Occurrences(c, a) + Occurrences(c, b)
  {
    if |b| == 0 {
      assert a + b == a;
    } else {
      assert (a + b)[..|a + b| - 1] == a + b[..|b| - 1];
      assert (a + b)[|a + b| - 1] == b[|b| - 1];
      OccurrencesConcat(c, a, b[..|b| - 1]);
    }
  }

  /** True when t holds no comma. */
  predicate CommaFree(t: string)
  {
    ',' !in t
  }

  /** The coordinate text of the empty vector is "()". */
  lemma CoordinatesOfEmpty(show: real -> string)
    ensures Coordinates(show, []) == "()"
  {
  }

  /**
    When no number is written with a comma, the joined text of a non-empty
    vector holds exactly one comma fewer than the vector has elements.
   */
  lemma {:induction false} JoinSeparators(show: real -> string, s: seq<real>)
    requires |s| > 0
    requires forall r :: CommaFree(show(r))
    ensures Occurrences(',', Join(show, s)) == |s| - 1
  {
    var e: real := s[|s| - 1];
    var last := show(e);
    assert CommaFree(last);
    NoOccurrences(',', last);
    if |s| > 1 {
      JoinSeparators(show, s[..|s| - 1]);
      OccurrencesConcat(',', Join(show, s[..|s| - 1]), ",");
      OccurrencesConcat(',', Join(show, s[..|s| - 1]) + ",", last);
      assert Occurrences(',', ",") == 1 by {
        assert ","[..0] == "";
      }
    }
  }

  lemma {:induction false} NoOccurrences(c: char, t: string)
    requires c !in t
    ensures Occurrences(c, t) == 0
  {
    if |t| > 0 {
      assert forall i :: 0 <= i < |t| - 1 ==> t[..|t| - 1][i] == t[i];
      NoOccurrences(c, t[..|t| - 1]);
    }
  }
}
