/** Integer sums over sequences: the one tool behind every counting argument in this project. */
module Sums {

  function Sum<T>(s: seq<T>, f: T -> int): int
  {
    if s == [] then 0 else Sum(s[..|s| - 1], f) + f(s[|s| - 1])
  }

  lemma {:induction false} SumConcat<T>(a: seq<T>, b: seq<T>, f: T -> int)
    ensures Sum(a + b, f) == Sum(a, f) + Sum(b, f)
  {
    if b == [] {
      assert a + b == a;
    } else {
      assert (a + b)[..|a + b| - 1] == a + b[..|b| - 1];
      SumConcat(a, b[..|b| - 1], f);
    }
  }

  lemma SumEmpty<T>(f: T -> int)
    ensures Sum([], f) == 0
  {
  }

  lemma SumOne<T>(x: T, f: T -> int)
    ensures Sum([x], f) == f(x)
  {
    assert [x][..0] == [];
  }

  /** The sum splits around any position; removal and update follow from it. */
  lemma SumAround<T>(s: seq<T>, i: nat, f: T -> int)
    requires i < |s|
    ensures Sum(s, f) == Sum(s[..i], f) + f(s[i]) + Sum(s[i + 1..], f)
  {
    hide Sum;
    calc {
      Sum(s, f);
      { assert s == s[..i] + [s[i]] + s[i + 1..]; }
      Sum(s[..i] + [s[i]] + s[i + 1..], f);
      { SumConcat(s[..i] + [s[i]], s[i + 1..], f); }
      Sum(s[..i] + [s[i]], f) + Sum(s[i + 1..], f);
      { SumConcat(s[..i], [s[i]], f); SumOne(s[i], f); }
      Sum(s[..i], f) + f(s[i]) + Sum(s[i + 1..], f);
    }
  }

  lemma SumRemove<T>(s: seq<T>, i: nat, f: T -> int)
    requires i < |s|
    ensures Sum(s[..i] + s[i + 1..], f) == Sum(s, f) - f(s[i])
  {
    hide Sum;
    SumAround(s, i, f);
    SumConcat(s[..i], s[i + 1..], f);
  }

  lemma SumUpdate<T>(s: seq<T>, i: nat, x: T, f: T -> int)
    requires i < |s|
    ensures Sum(s[i := x], f) == Sum(s, f) - f(s[i]) + f(x)
  {
    hide Sum;
    SumAround(s, i, f);
    var t := s[i := x];
    SumAround(t, i, f);
    assert t[..i] == s[..i] && t[i + 1..] == s[i + 1..];
  }

  /** A pointwise bound between two weights carries over to their sums. */
  lemma {:induction false} SumBound<T>(s: seq<T>, f: T -> int, k: int, g: T -> int)
    requires forall x :: x in s ==> f(x) <= k * g(x)
    ensures Sum(s, f) <= k * Sum(s, g)
  {
    if s != [] {
      SumBound(s[..|s| - 1], f, k, g);
      assert s[|s| - 1] in s;
    }
  }

  function Zero<T>(): T -> int
  {
    (x: T) => 0
  }

  /** A weight that is zero on every element sums to zero. */
  lemma {:induction false} SumZero<T>(s: seq<T>, f: T -> int)
    requires forall x :: x in s ==> f(x) == 0
    ensures Sum(s, f) == 0
  {
    if s != [] {
      assert s[|s| - 1] in s;
      SumZero(s[..|s| - 1], f);
    }
  }

  /** No term of a sum of non-negative weights exceeds the sum. */
  lemma SumAtLeast<T>(s: seq<T>, i: nat, f: T -> int)
    requires i < |s|
    requires forall x :: x in s ==> 0 <= f(x)
    ensures f(s[i]) <= Sum(s, f)
  {
    SumAround(s, i, f);
    SumNonNegative(s[..i], f);
    SumNonNegative(s[i + 1..], f);
  }

  /** Two terms at different positions are both part of the sum. */
  lemma SumAtLeastTwo<T>(s: seq<T>, i: nat, j: nat, f: T -> int)
    requires i < j < |s|
    requires forall x :: x in s ==> 0 <= f(x)
    ensures f(s[i]) + f(s[j]) <= Sum(s, f)
  {
    SumAround(s, j, f);
    SumAtLeast(s[..j], i, f);
    SumNonNegative(s[j + 1..], f);
  }

  lemma {:induction false} SumNonNegative<T>(s: seq<T>, f: T -> int)
    requires forall x :: x in s ==> 0 <= f(x)
    ensures 0 <= Sum(s, f)
  {
    if s != [] {
      SumNonNegative(s[..|s| - 1], f);
      assert s[|s| - 1] in s;
    }
  }

  /** A positive sum has a positive term. */
  lemma {:induction false} SumWitness<T>(s: seq<T>, f: T -> int) returns (i: nat)
    requires 0 < Sum(s, f)
    ensures i < |s| && 0 < f(s[i])
  {
    if 0 < f(s[|s| - 1]) {
      i := |s| - 1;
    } else {
      i := SumWitness(s[..|s| - 1], f);
    }
  }

  /** Where a non-negative weight sums to nothing, so does every weight it dominates. */
  lemma {:induction false} SumVanishes<T>(s: seq<T>, h: T -> int, f: T -> int)
    requires forall x :: x in s ==> 0 <= h(x) && (h(x) == 0 ==> f(x) == 0)
    requires Sum(s, h) == 0
    ensures Sum(s, f) == 0
  {
    if s != [] {
      assert s[|s| - 1] in s;
      SumNonNegative(s[..|s| - 1], h);
      SumVanishes(s[..|s| - 1], h, f);
    }
  }

  /** If the whole of a non-negative weight sits at one position, so does every weight it dominates. */
  lemma SumConcentrated<T>(s: seq<T>, i: nat, h: T -> int, f: T -> int)
    requires i < |s|
    requires forall x :: x in s ==> 0 <= h(x) && (h(x) == 0 ==> f(x) == 0)
    requires Sum(s, h) == h(s[i])
    ensures Sum(s, f) == f(s[i])
  {
    var rest := s[..i] + s[i + 1..];
    SumRemove(s, i, h);
    SumRemove(s, i, f);
    assert forall x :: x in rest ==> x in s;
    SumVanishes(rest, h, f);
  }
}
