/** Lists without repetition. */
module Sequences {

  ghost predicate Distinct<T(!new)>(s: seq<T>) {
    forall i, j :: 0 <= i < j < |s| ==> s[i] != s[j]
  }

  lemma NotYet<T(!new)>(s: seq<T>, i: nat)
    requires Distinct(s) && i < |s|
    ensures s[i] in s && s[i] !in s[..i]
  {
  }

  ghost function Elements<T(!new)>(s: seq<T>): (r: set<T>)
    ensures forall e :: e in r <==> e in s
  {
    if s == [] then {} else {s[0]} + Elements(s[1..])
  }

  lemma {:induction false} DistinctCount<T(!new)>(s: seq<T>)
    requires Distinct(s)
    ensures |Elements(s)| == |s|
  {
    if s != [] {
      DistinctCount(s[1..]);
      assert s[0] !in s[1..];
    }
  }

  lemma SameSize<T(!new)>(a: seq<T>, b: seq<T>)
    requires Distinct(a) && Distinct(b) && forall e :: e in a <==> e in b
    ensures |a| == |b|
  {
    DistinctCount(a);
    DistinctCount(b);
    assert Elements(a) == Elements(b);
  }

  lemma InsertMultiset<T>(s: seq<T>, p: nat, x: T)
    requires p <= |s|
    ensures multiset(s[..p] + [x] + s[p..]) == multiset(s) + multiset{x}
  {
    assert s == s[..p] + s[p..];
  }

  method Pick<T>(s: set<T>) returns (x: T)
    requires s != {}
    ensures x in s
  {
    x :| x in s;
  }

  predicate Ascending(s: seq<int>) {
    forall i, j :: 0 <= i < j < |s| ==> s[i] < s[j]
  }

  /** Python's `sorted` on a set of integers. */
  method SortedSet(keys: set<int>) returns (sorted: seq<int>)
    ensures Ascending(sorted) && forall l :: l in keys <==> l in sorted
  {
    sorted := [];
    var left := keys;
    while left != {}
      invariant left <= keys && Ascending(sorted)
      invariant forall l :: l in keys <==> l in left || l in sorted
      invariant forall i, l :: 0 <= i < |sorted| && l in left ==> sorted[i] < l
      decreases |left|
    {
      var l := Pick(left);
      var others := left - {l};
      while others != {}
        invariant others <= left && l in left && l !in others
        invariant forall k :: k in left ==> k in others || l <= k
        decreases |others|
      {
        var k := Pick(others);
        others := others - {k};
        if k < l { l := k; }
      }
      sorted := sorted + [l];
      left := left - {l};
    }
  }
}
