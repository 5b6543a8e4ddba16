/** Finite sums over sequences, the one piece of arithmetic every part of the project shares. */
module Sums {

  function SumOf<T>(s: seq<T>, f: T -> int): int {
    if s == [] then 0 else f(s[0]) + SumOf(s[1..], f)
  }

  lemma {:induction false} SumAppend<T>(s: seq<T>, t: seq<T>, f: T -> int)
    ensures SumOf(s + t, f) == SumOf(s, f) + SumOf(t, f)
  {
    if s == [] {
      assert s + t == t;
    } else {
      assert (s + t)[1..] == s[1..] + t;
      SumAppend(s[1..], t, f);
    }
  }

  lemma SumSplit<T>(s: seq<T>, i: nat, f: T -> int)
    requires i < |s|
    ensures SumOf(s, f) == SumOf(s[..i], f) + f(s[i]) + SumOf(s[i + 1..], f)
  {
    assert s == s[..i] + s[i..];
    SumAppend(s[..i], s[i..], f);
    assert s[i..][1..] == s[i + 1..];
  }

  lemma SumUpdate<T>(s: seq<T>, i: nat, x: T, f: T -> int)
    requires i < |s|
    ensures SumOf(s[i := x], f) == SumOf(s, f) - f(s[i]) + f(x)
  {
    SumSplit(s, i, f);
    SumSplit(s[i := x], i, f);
    assert s[i := x][..i] == s[..i] && s[i := x][i + 1..] == s[i + 1..];
  }

  lemma SumRemove<T>(s: seq<T>, i: nat, f: T -> int)
    requires i < |s|
    ensures SumOf(s[..i] + s[i + 1..], f) == SumOf(s, f) - f(s[i])
  {
    SumSplit(s, i, f);
    SumAppend(s[..i], s[i + 1..], f);
  }

  lemma SumPush<T>(s: seq<T>, x: T, f: T -> int)
    ensures SumOf(s + [x], f) == SumOf(s, f) + f(x)
  {
    SumAppend(s, [x], f);
    assert [x][1..] == [];
  }

  lemma {:induction false} SumBound<T>(s: seq<T>, f: T -> int, bound: int)
    requires forall x :: x in s ==> 0 <= f(x) <= bound
    ensures 0 <= SumOf(s, f) <= |s| * bound
  {
    if s != [] {
      assert s[0] in s;
      SumBound(s[1..], f, bound);
      assert |s| * bound == bound + |s[1..]| * bound;
    }
  }

  lemma {:induction false} SumZero<T>(s: seq<T>, f: T -> int)
    requires forall x :: x in s ==> f(x) == 0
    ensures SumOf(s, f) == 0
  {
    if s != [] {
      assert s[0] in s;
      SumZero(s[1..], f);
    }
  }

  lemma {:induction false} SumEqual<T>(s: seq<T>, f: T -> int, g: T -> int)
    requires forall x :: x in s ==> f(x) == g(x)
    ensures SumOf(s, f) == SumOf(s, g)
  {
    if s != [] {
      assert s[0] in s;
      SumEqual(s[1..], f, g);
    }
  }

  lemma DropMultiset<T>(s: seq<T>, i: nat)
    requires i < |s|
    ensures multiset(s[..i] + s[i + 1..]) == multiset(s) - multiset{s[i]}
  {
    assert s == s[..i] + ([s[i]] + s[i + 1..]);
  }

  lemma FindInMultiset<T>(x: T, s: seq<T>) returns (i: nat)
    requires x in multiset(s)
    ensures i < |s| && s[i] == x
  {
    i :| 0 <= i < |s| && s[i] == x;
  }

  /** A sum does not depend on the order of its terms. */
  lemma {:induction false} SumPermutation<T>(s: seq<T>, t: seq<T>, f: T -> int)
    requires multiset(s) == multiset(t)
    ensures SumOf(s, f) == SumOf(t, f)
  {
    if s == [] {
      assert |t| == |multiset(t)| == 0;
    } else {
      assert s[0] in multiset(s);
      var i := FindInMultiset(s[0], t);
      var rest := t[..i] + t[i + 1..];
      assert multiset(s[1..]) == multiset(rest) by {
        assert s[..0] + s[0 + 1..] == s[1..];
        DropMultiset(s, 0);
        DropMultiset(t, i);
      }
      SumPermutation(s[1..], rest, f);
      SumRemove(t, i, f);
    }
  }
}
