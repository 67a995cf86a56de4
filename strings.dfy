/** The two operations of Haiku's BString that the status report is built
    with: Append, which is sequence concatenation, and ReplaceFirst, which
    replaces the FIRST occurrence of a pattern anywhere in the string and
    leaves the string alone when the pattern does not occur. */
module Strings {

  datatype Option<T> = None | Some(value: T)

  /** `t` occurs in `s` starting at index `i`. */
  predicate OccursAt(s: string, t: string, i: nat) {
    i + |t| <= |s| && s[i..i + |t|] == t
  }

  /** `t` occurs nowhere in `s`. */
  ghost predicate Absent(s: string, t: string) {
    forall i: nat :: !OccursAt(s, t, i)
  }

  /** `i` is the first index at which `t` occurs in `s`. */
  ghost predicate FirstAt(s: string, t: string, i: nat) {
    OccursAt(s, t, i) && forall j: nat :: j < i ==> !OccursAt(s, t, j)
  }

  /** The first index at or after `from` at which `t` occurs in `s`. */
  function FindFrom(s: string, t: string, from: nat): (r: Option<nat>)
    decreases |s| - from
    ensures r.Some? ==> from <= r.value && OccursAt(s, t, r.value)
    ensures r.Some? ==> forall j: nat :: from <= j < r.value ==> !OccursAt(s, t, j)
    ensures r.None? ==> forall j: nat :: from <= j ==> !OccursAt(s, t, j)
  {
    if from + |t| > |s| then None
    else if OccursAt(s, t, from) then Some(from)
    else FindFrom(s, t, from + 1)
  }

  /** BString::ReplaceFirst: the first occurrence of `t` in `s` becomes `w`. */
  function ReplaceFirst(s: string, t: string, w: string): (r: string)
    ensures Absent(s, t) ==> r == s
    ensures forall i: nat :: FirstAt(s, t, i) ==> r == s[..i] + w + s[i + |t|..]
  {
    match FindFrom(s, t, 0)
    case None => s
    case Some(i) => s[..i] + w + s[i + |t|..]
  }

  /** When `x` does not contain `t` and no occurrence can straddle the end of
      `x`, the first occurrence of `t` in `x + y` is the one `y` starts with. */
  lemma ReplaceAfter(x: string, y: string, t: string, w: string)
    requires Absent(x, t)
    requires x == [] || x[|x| - 1] !in t
    requires |t| <= |y| && y[..|t|] == t
    ensures ReplaceFirst(x + y, t, w) == x + w + y[|t|..]
  {
    var s := x + y;
    assert s[|x|..|x| + |t|] == y[..|t|];
    assert OccursAt(s, t, |x|);
    forall j: nat | j < |x|
      ensures !OccursAt(s, t, j)
    {
      if j + |t| <= |x| {
        assert s[j..j + |t|] == x[j..j + |t|];
        assert !OccursAt(x, t, j);
      } else {
        var u := s[j..j + |t|];
        assert u[|x| - 1 - j] == x[|x| - 1];
        assert u[|x| - 1 - j] !in t;
      }
    }
    assert FirstAt(s, t, |x|);
    assert s[..|x|] == x;
    assert s[|x| + |t|..] == y[|t|..];
  }

  /** Concatenation creates no new occurrence of `t` when the join itself
      cannot be part of one. */
  lemma AbsentConcat(x: string, y: string, t: string)
    requires Absent(x, t) && Absent(y, t)
    requires x == [] || y == [] || x[|x| - 1] !in t || y[0] !in t
    ensures Absent(x + y, t)
  {
    var s := x + y;
    forall i: nat
      ensures !OccursAt(s, t, i)
    {
      if i + |t| <= |s| {
        var u := s[i..i + |t|];
        if i + |t| <= |x| {
          assert u == x[i..i + |t|];
          assert !OccursAt(x, t, i);
        } else if i >= |x| {
          assert u == y[i - |x|..i - |x| + |t|];
          assert !OccursAt(y, t, i - |x|);
        } else if x[|x| - 1] !in t {
          assert u[|x| - 1 - i] == x[|x| - 1];
        } else {
          assert u[|x| - i] == y[0];
        }
      }
    }
  }

  /** A string that lacks the first character of `t` does not contain `t`. */
  lemma AbsentWithoutLead(s: string, t: string)
    requires |t| > 0 && t[0] !in s
    ensures Absent(s, t)
  {
    forall i: nat
      ensures !OccursAt(s, t, i)
    {
      if i + |t| <= |s| {
        assert s[i..i + |t|][0] == s[i];
      }
    }
  }

  lemma AppendEmpty<T>(s: seq<T>)
    ensures s + [] == s && [] + s == s
  {
  }

  lemma AppendAssoc<T>(a: seq<T>, b: seq<T>, c: seq<T>)
    ensures a + b + c == a + (b + c)
  {
  }

  /** Four sequences joined left to right equal the same four nested to
      the right, ending in the empty sequence. */
  lemma Nest4<T>(a: seq<T>, b: seq<T>, c: seq<T>, d: seq<T>)
    ensures a + b + c + d == a + (b + (c + (d + [])))
  {
    assert d + [] == d;
    assert c + (d + []) == c + d;
    assert b + (c + d) == b + c + d;
  }
}
