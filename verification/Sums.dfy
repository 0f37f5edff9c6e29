/** Sums over sequences, and how they react when one element changes; counting and maxima. */
module Sums {

  function One(b: bool): int { if b then 1 else 0 }

  function Max(a: int, b: int): int { if a < b then b else a }

  function Sum<T>(f: T -> int, s: seq<T>): int {
    if s == [] then 0 else f(s[0]) + Sum(f, s[1..])
  }

  lemma SumOne<T>(f: T -> int, x: T)
    ensures Sum(f, [x]) == f(x)
  {
    assert [x][1..] == [];
  }

  lemma SumTwo<T>(f: T -> int, x: T, y: T)
    ensures Sum(f, [x, y]) == f(x) + f(y)
  {
    assert [x, y][1..] == [y];
    SumOne(f, y);
  }

  lemma SumThree<T>(f: T -> int, x: T, y: T, z: T)
    ensures Sum(f, [x, y, z]) == f(x) + f(y) + f(z)
  {
    assert [x, y, z][1..] == [y, z];
    SumTwo(f, y, z);
  }

  lemma {:induction false} SumUpdate<T>(f: T -> int, s: seq<T>, i: nat, x: T)
    requires i < |s|
    ensures Sum(f, s[i := x]) == Sum(f, s) - f(s[i]) + f(x)
  {
    if i == 0 {
      assert s[i := x][1..] == s[1..];
    } else {
      assert s[i := x][1..] == s[1..][i - 1 := x];
      SumUpdate(f, s[1..], i - 1, x);
    }
  }

  lemma {:induction false} SumAppend<T>(f: T -> int, s: seq<T>, x: T)
    ensures Sum(f, s + [x]) == Sum(f, s) + f(x)
  {
    if s == [] {
      assert (s + [x])[1..] == [];
    } else {
      assert (s + [x])[1..] == s[1..] + [x];
      SumAppend(f, s[1..], x);
    }
  }

  lemma {:induction false} SumConcat<T>(f: T -> int, s: seq<T>, t: seq<T>)
    ensures Sum(f, s + t) == Sum(f, s) + Sum(f, t)
  {
    if s == [] {
      assert s + t == t;
    } else {
      assert (s + t)[1..] == s[1..] + t;
      SumConcat(f, s[1..], t);
    }
  }

  lemma {:induction false} SumNonNegative<T>(f: T -> int, s: seq<T>)
    requires forall i :: 0 <= i < |s| ==> f(s[i]) >= 0
    ensures Sum(f, s) >= 0
  {
    if s != [] { SumNonNegative(f, s[1..]); }
  }

  lemma {:induction false} SumAtLeast<T>(f: T -> int, s: seq<T>, i: nat)
    requires i < |s|
    requires forall j :: 0 <= j < |s| ==> f(s[j]) >= 0
    ensures Sum(f, s) >= f(s[i])
  {
    if i == 0 { SumNonNegative(f, s[1..]); } else { SumAtLeast(f, s[1..], i - 1); }
  }

  lemma {:induction false} SumAtLeastTwo<T>(f: T -> int, s: seq<T>, i: nat, j: nat)
    requires i < j < |s|
    requires forall k :: 0 <= k < |s| ==> f(s[k]) >= 0
    ensures Sum(f, s) >= f(s[i]) + f(s[j])
  {
    if i == 0 { SumAtLeast(f, s[1..], j - 1); } else { SumAtLeastTwo(f, s[1..], i - 1, j - 1); }
  }

  lemma {:induction false} SumZero<T>(f: T -> int, s: seq<T>)
    requires forall i :: 0 <= i < |s| ==> f(s[i]) == 0
    ensures Sum(f, s) == 0
  {
    if s != [] { SumZero(f, s[1..]); }
  }

  // A positive sum of non-negative terms has a positive term.
  lemma {:induction false} SumPositive<T>(f: T -> int, s: seq<T>) returns (i: nat)
    requires Sum(f, s) > 0
    ensures i < |s| && f(s[i]) > 0
  {
    if f(s[0]) > 0 {
      i := 0;
    } else {
      var j := SumPositive(f, s[1..]);
      i := j + 1;
    }
  }

  // Two sums that agree everywhere but at one index.
  lemma {:induction false} SumShift<T>(f: T -> int, s: seq<T>, g: T -> int, t: seq<T>, i: nat)
    requires i < |s| == |t|
    requires forall j :: 0 <= j < |s| && j != i ==> f(s[j]) == g(t[j])
    ensures Sum(g, t) == Sum(f, s) - f(s[i]) + g(t[i])
  {
    if i == 0 {
      SumSame(f, s[1..], g, t[1..]);
    } else {
      SumShift(f, s[1..], g, t[1..], i - 1);
    }
  }

  lemma {:induction false} SumSame<T>(f: T -> int, s: seq<T>, g: T -> int, t: seq<T>)
    requires |s| == |t|
    requires forall j :: 0 <= j < |s| ==> f(s[j]) == g(t[j])
    ensures Sum(g, t) == Sum(f, s)
  {
    if s != [] { SumSame(f, s[1..], g, t[1..]); }
  }
}
