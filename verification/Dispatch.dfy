/**
 Routed-expert dispatch (src/vllm_exl3/exl3.py): top-k routes are mapped, sorted, counted, cut into segments and
 accumulated.  One output column is modelled, since columns never mix, and the accumulation is over the integers.
 `Expert` gives what an expert adds for an activation row before the route weight is applied.
 */
module Dispatch {
  import opened Options
  import opened Sums

  type Row = seq<int>
  type Expert = (nat, Row) -> int

  /** One (token, k) pair after mapping; `expert` is `n` when the route is not local. */
  datatype Route = Route(token: nat, expert: nat, weight: int)

  /******* Routing *******/

  /** `map_topk_to_local` for one id. */
  function LocalId(id: int, n: nat, emap: Option<seq<int>>): (e: nat)
    ensures e <= n
  {
    match emap
    case None => if id < 0 || id >= n then n else id
    case Some(m) =>
      if id < 0 || id >= |m| then n
      else if m[id] < 0 || m[id] >= n then n
      else m[id]
  }

  /** The routes of token `t`. */
  function RowRoutes(t: nat, ids: seq<int>, ws: seq<int>, n: nat, emap: Option<seq<int>>): (r: seq<Route>)
    requires |ids| == |ws|
    ensures |r| == |ids|
    ensures forall k :: 0 <= k < |ids| ==> r[k] == Route(t, LocalId(ids[k], n, emap), ws[k])
  {
    if ids == [] then [] else [Route(t, LocalId(ids[0], n, emap), ws[0])] + RowRoutes(t, ids[1..], ws[1..], n, emap)
  }

  predicate SameShape(ids: seq<seq<int>>, ws: seq<seq<int>>) {
    |ids| == |ws| && forall t :: 0 <= t < |ids| ==> |ids[t]| == |ws[t]|
  }

  /** All routes, token by token; the first row belongs to token `base`. */
  function Flat(base: nat, ids: seq<seq<int>>, ws: seq<seq<int>>, n: nat, emap: Option<seq<int>>): seq<Route>
    requires SameShape(ids, ws)
    decreases |ids|
  {
    if ids == [] then [] else RowRoutes(base, ids[0], ws[0], n, emap) + Flat(base + 1, ids[1..], ws[1..], n, emap)
  }

  /******* What the result should be *******/

  /** A route's share of its token's output, when its expert is local and `keep` wants it. */
  function Share(x: Row, f: Expert, n: nat, keep: nat -> bool): Route -> int {
    (r: Route) => if r.expert < n && keep(r.expert) then r.weight * f(r.expert, x) else 0
  }

  function All(): nat -> bool { (e: nat) => true }

  /** The plain weighted sum of the routes of each token. */
  function Weighted(x: seq<Row>, ids: seq<seq<int>>, ws: seq<seq<int>>, n: nat, emap: Option<seq<int>>, f: Expert,
                    keep: nat -> bool): (out: seq<int>)
    requires SameShape(ids, ws) && |x| == |ids|
    ensures |out| == |x|
    ensures forall t :: 0 <= t < |x| ==> out[t] == SumOf(RowRoutes(t, ids[t], ws[t], n, emap), Share(x[t], f, n, keep))
  {
    seq(|x|, t requires 0 <= t < |x| => SumOf(RowRoutes(t, ids[t], ws[t], n, emap), Share(x[t], f, n, keep)))
  }

  function Reference(x: seq<Row>, ids: seq<seq<int>>, ws: seq<seq<int>>, n: nat, emap: Option<seq<int>>,
                     f: Expert): seq<int>
    requires SameShape(ids, ws) && |x| == |ids|
  {
    Weighted(x, ids, ws, n, emap, f, All())
  }

  /******* Segmented accumulation *******/

  /** What a launch receives per sorted row: no expert id, only where to add and with what weight. */
  datatype Cell = Cell(token: nat, weight: int)

  function Cells(rs: seq<Route>): (cs: seq<Cell>)
    ensures |cs| == |rs| && forall i :: 0 <= i < |rs| ==> cs[i] == Cell(rs[i].token, rs[i].weight)
  {
    seq(|rs|, i requires 0 <= i < |rs| => Cell(rs[i].token, rs[i].weight))
  }

  /** `out.index_add_` of one expert's rows. */
  function AddCells(out: seq<int>, cs: seq<Cell>, x: seq<Row>, f: Expert, e: nat): (r: seq<int>)
    requires |x| == |out| && forall i :: 0 <= i < |cs| ==> cs[i].token < |out|
    ensures |r| == |out|
    decreases |cs|
  {
    if cs == [] then out
    else AddCells(out[cs[0].token := out[cs[0].token] + cs[0].weight * f(e, x[cs[0].token])], cs[1..], x, f, e)
  }

  function CountOf(rs: seq<Route>, e: nat): nat {
    if rs == [] then 0 else (if rs[0].expert == e then 1 else 0) + CountOf(rs[1..], e)
  }

  /** `scatter_add_` of ones over the `n + 1` bins. */
  function Counts(rs: seq<Route>, n: nat): (cs: seq<nat>)
    ensures |cs| == n + 1 && forall e :: 0 <= e <= n ==> cs[e] == CountOf(rs, e)
  {
    seq(n + 1, e requires 0 <= e <= n => CountOf(rs, e))
  }

  function WalkTotal(counts: seq<nat>, walk: seq<nat>): nat
    requires forall p :: 0 <= p < |walk| ==> walk[p] < |counts|
  {
    if walk == [] then 0 else counts[walk[0]] + WalkTotal(counts, walk[1..])
  }

  /**
   The walk of a launch over the experts: a running offset, advanced by every expert's count, delimits the rows of
   each; `take[e]` says whether this launch runs expert slot `e`, and `ptr[e]` is the expert whose weights it holds.
   */
  function Segments(x: seq<Row>, f: Expert, ptr: seq<nat>, counts: seq<nat>, take: seq<bool>, walk: seq<nat>,
                    cells: seq<Cell>, out: seq<int>): (r: seq<int>)
    requires |x| == |out| && forall i :: 0 <= i < |cells| ==> cells[i].token < |out|
    requires forall p :: 0 <= p < |walk| ==> walk[p] < |counts| && walk[p] < |ptr| && walk[p] < |take|
    requires WalkTotal(counts, walk) <= |cells|
    ensures |r| == |out|
    decreases |walk|
  {
    if walk == [] then out
    else
      var e := walk[0];
      var c := counts[e];
      Segments(x, f, ptr, counts, take, walk[1..], cells[c..],
               if take[e] then AddCells(out, cells[..c], x, f, ptr[e]) else out)
  }

  /** Experts a launch owns: inside its expert range, with at least one row and no more than the scratch holds. */
  function Band(counts: seq<nat>, n: nat, lo: nat, hi: nat, rows: nat): (take: seq<bool>)
    requires |counts| == n + 1
    ensures |take| == n && forall e :: 0 <= e < n ==> take[e] == (lo <= e < hi && 1 <= counts[e] <= rows)
  {
    seq(n, e requires 0 <= e < n => lo <= e < hi && 1 <= counts[e] <= rows)
  }

  function Iota(n: nat): (s: seq<nat>)
    ensures |s| == n && forall i :: 0 <= i < n ==> s[i] == i
  {
    seq(n, i requires 0 <= i < n => i)
  }

  /******* Sorting *******/

  ghost predicate Permutes(order: seq<nat>, n: nat) {
    |order| == n && multiset(order) == multiset(Iota(n)) && forall i :: 0 <= i < |order| ==> order[i] < n
  }

  ghost predicate InOrder(order: seq<nat>, keys: seq<int>)
    requires forall i :: 0 <= i < |order| ==> order[i] < |keys|
  {
    forall i, j :: 0 <= i < j < |order| ==> keys[order[i]] <= keys[order[j]]
  }

  /** What `argsort` promises, stable or not: a permutation of the positions that sorts the keys. */
  ghost predicate Sorts(order: seq<nat>, keys: seq<int>) {
    Permutes(order, |keys|) && InOrder(order, keys)
  }

  function Gather<T>(s: seq<T>, order: seq<nat>): (r: seq<T>)
    requires forall i :: 0 <= i < |order| ==> order[i] < |s|
    ensures |r| == |order| && forall i :: 0 <= i < |order| ==> r[i] == s[order[i]]
  {
    seq(|order|, i requires 0 <= i < |order| => s[order[i]])
  }

  lemma {:induction false} GatherMultiset<T>(s: seq<T>, a: seq<nat>, b: seq<nat>)
    requires multiset(a) == multiset(b)
    requires forall i :: 0 <= i < |a| ==> a[i] < |s|
    requires forall i :: 0 <= i < |b| ==> b[i] < |s|
    ensures multiset(Gather(s, a)) == multiset(Gather(s, b))
    decreases |a|
  {
    if a == [] {
      assert |b| == |multiset(b)| == 0;
    } else {
      var i := FindInMultiset(a[0], b);
      var rest := b[..i] + b[i + 1..];
      assert forall k :: 0 <= k < |rest| ==> rest[k] == if k < i then b[k] else b[k + 1];
      DropFirst(a, b, i);
      GatherMultiset(s, a[1..], rest);
      GatherDrop(s, a, 0);
      GatherDrop(s, b, i);
      assert a[..0] + a[1..] == a[1..];
    }
  }

  lemma DropFirst(a: seq<nat>, b: seq<nat>, i: nat)
    requires multiset(a) == multiset(b) && a != [] && i < |b| && b[i] == a[0]
    ensures multiset(a[1..]) == multiset(b[..i] + b[i + 1..])
  {
    assert a == [a[0]] + a[1..];
    DropMultiset(b, i);
  }

  lemma GatherDrop<T>(s: seq<T>, b: seq<nat>, i: nat)
    requires i < |b| && forall k :: 0 <= k < |b| ==> b[k] < |s|
    ensures multiset(Gather(s, b)) == multiset(Gather(s, b[..i] + b[i + 1..])) + multiset{s[b[i]]}
  {
    var gb := Gather(s, b);
    assert Gather(s, b[..i] + b[i + 1..]) == gb[..i] + gb[i + 1..];
    DropMultiset(gb, i);
  }

  lemma SortedIsPermutation<T>(s: seq<T>, order: seq<nat>, keys: seq<int>)
    requires Sorts(order, keys) && |keys| == |s|
    ensures multiset(Gather(s, order)) == multiset(s)
  {
    GatherMultiset(s, order, Iota(|s|));
    assert Gather(s, Iota(|s|)) == s;
  }

  /** Equal keys keep their original order. */
  ghost predicate Stable(order: seq<nat>, keys: seq<int>)
    requires forall i :: 0 <= i < |order| ==> order[i] < |keys|
  {
    forall i, j :: 0 <= i < j < |order| && keys[order[i]] == keys[order[j]] ==> order[i] < order[j]
  }

  ghost predicate Slot(order: seq<nat>, keys: seq<int>, n: nat, p: nat) {
    && n < |keys| && p <= |order| && (forall i :: 0 <= i < |order| ==> order[i] < n)
    && InOrder(order, keys) && Stable(order, keys)
    && (p > 0 ==> keys[order[p - 1]] <= keys[n]) && forall i :: p <= i < |order| ==> keys[order[i]] > keys[n]
  }

  function Inserted(order: seq<nat>, n: nat, p: nat): (next: seq<nat>)
    requires p <= |order|
    ensures |next| == |order| + 1
    ensures forall i :: 0 <= i < |next| ==> next[i] == if i < p then order[i] else if i == p then n else order[i - 1]
  {
    order[..p] + [n] + order[p..]
  }

  method StableArgSort(keys: seq<int>) returns (order: seq<nat>)
    ensures Sorts(order, keys) && Stable(order, keys)
  {
    hide InOrder, Stable, Iota;
    order := [];
    NoOrder(keys);
    for n := 0 to |keys|
      invariant Permutes(order, n) && InOrder(order, keys) && Stable(order, keys)
    {
      var p := n;
      while p > 0 && keys[order[p - 1]] > keys[n]
        invariant 0 <= p <= n
        invariant forall i :: p <= i < n ==> keys[order[i]] > keys[n]
      {
        p := p - 1;
      }
      InsertPermutes(order, n, p);
      InsertInOrder(order, keys, n, p);
      InsertStable(order, keys, n, p);
      order := Inserted(order, n, p);
    }
  }

  /** `argsort` without `stable=True`: callers rely on nothing but `Sorts`. */
  method ArgSort(keys: seq<int>) returns (order: seq<nat>)
    ensures Sorts(order, keys)
  {
    order := StableArgSort(keys);
  }

  lemma NoOrder(keys: seq<int>)
    ensures Permutes([], 0) && InOrder([], keys) && Stable([], keys)
  {
    assert Iota(0) == [];
  }

  lemma InsertPermutes(order: seq<nat>, n: nat, p: nat)
    requires Permutes(order, n) && p <= n
    ensures Permutes(Inserted(order, n, p), n + 1)
  {
    assert Iota(n + 1) == Iota(n) + [n];
    assert order == order[..p] + order[p..];
    assert multiset(Inserted(order, n, p)) == multiset(order) + multiset{n};
  }

  lemma InsertInOrder(order: seq<nat>, keys: seq<int>, n: nat, p: nat)
    requires Slot(order, keys, n, p)
    ensures InOrder(Inserted(order, n, p), keys)
  {
    assert forall i :: 0 <= i < p ==> keys[order[i]] <= keys[order[p - 1]];
  }

  lemma InsertStable(order: seq<nat>, keys: seq<int>, n: nat, p: nat)
    requires Slot(order, keys, n, p)
    ensures Stable(Inserted(order, n, p), keys)
  {
  }

  /******* The segment theorem *******/

  /** `walk` lists experts `0..n` once each in increasing key order, and the sentinel key is the greatest. */
  ghost predicate WalkOk(walk: seq<nat>, n: nat, key: nat -> int) {
    && |walk| == n
    && (forall p :: 0 <= p < n ==> walk[p] < n && key(walk[p]) < key(n))
    && (forall p, q :: 0 <= p < q < n ==> key(walk[p]) < key(walk[q]))
    && forall e :: 0 <= e < n ==> e in walk
  }

  ghost predicate SortedByKey(rs: seq<Route>, key: nat -> int) {
    forall i, j :: 0 <= i < j < |rs| ==> key(rs[i].expert) <= key(rs[j].expert)
  }

  /** In sorted rows without smaller keys, the rows of the smallest come first. */
  lemma {:induction false} FirstRun(rs: seq<Route>, key: nat -> int, e: nat)
    requires SortedByKey(rs, key)
    requires forall i :: 0 <= i < |rs| ==> rs[i].expert == e || key(rs[i].expert) > key(e)
    ensures CountOf(rs, e) <= |rs|
    ensures forall i :: 0 <= i < |rs| ==> (rs[i].expert == e <==> i < CountOf(rs, e))
  {
    if rs != [] {
      FirstRun(rs[1..], key, e);
      if rs[0].expert != e {
        assert forall i :: 0 < i < |rs| ==> rs[i] == rs[1..][i - 1] && key(rs[0].expert) <= key(rs[i].expert);
        NoneOf(rs[1..], e);
      }
    }
  }

  lemma {:induction false} NoneOf(rs: seq<Route>, e: nat)
    requires forall i :: 0 <= i < |rs| ==> rs[i].expert != e
    ensures CountOf(rs, e) == 0
  {
    if rs != [] { NoneOf(rs[1..], e); }
  }

  lemma {:induction false} CountAppend(a: seq<Route>, b: seq<Route>, e: nat)
    ensures CountOf(a + b, e) == CountOf(a, e) + CountOf(b, e)
  {
    if a == [] {
      assert a + b == b;
    } else {
      assert (a + b)[1..] == a[1..] + b;
      CountAppend(a[1..], b, e);
    }
  }

  /** The value a sorted row adds to token `t`. */
  function Term(x: seq<Row>, f: Expert, ptr: seq<nat>, take: seq<bool>, t: nat): Route -> int {
    (r: Route) => if r.token == t && t < |x| && r.expert < |take| && r.expert < |ptr| && take[r.expert]
      then r.weight * f(ptr[r.expert], x[t]) else 0
  }

  lemma {:induction false} AddCellsSum(out: seq<int>, rs: seq<Route>, x: seq<Row>, f: Expert, ptr: seq<nat>,
                                       take: seq<bool>, e: nat, t: nat)
    requires |x| == |out| && t < |out| && (forall i :: 0 <= i < |rs| ==> rs[i].token < |out| && rs[i].expert == e)
    requires e < |ptr| && e < |take| && take[e]
    ensures AddCells(out, Cells(rs), x, f, ptr[e])[t] == out[t] + SumOf(rs, Term(x, f, ptr, take, t))
    decreases |rs|
  {
    if rs != [] {
      var cs := Cells(rs);
      var o := cs[0].token;
      assert cs[1..] == Cells(rs[1..]);
      AddCellsSum(out[o := out[o] + cs[0].weight * f(ptr[e], x[o])], rs[1..], x, f, ptr, take, e, t);
    }
  }

  lemma SkippedSum(rs: seq<Route>, x: seq<Row>, f: Expert, ptr: seq<nat>, take: seq<bool>, e: nat, t: nat)
    requires forall i :: 0 <= i < |rs| ==> rs[i].expert == e
    requires e >= |take| || !take[e]
    ensures SumOf(rs, Term(x, f, ptr, take, t)) == 0
  {
    SumZero(rs, Term(x, f, ptr, take, t));
  }

  /** What the rest of a walk still has to deal with. */
  ghost predicate Remaining(rs: seq<Route>, counts: seq<nat>, walk: seq<nat>, n: nat, key: nat -> int) {
    && SortedByKey(rs, key) && |counts| == n + 1
    && (forall i :: 0 <= i < |rs| ==> rs[i].expert == n || rs[i].expert in walk)
    && (forall p :: 0 <= p < |walk| ==> walk[p] < n && counts[walk[p]] == CountOf(rs, walk[p]) && key(walk[p]) < key(n))
    && (forall p, q :: 0 <= p < q < |walk| ==> key(walk[p]) < key(walk[q]))
  }

  lemma RemainingStep(rs: seq<Route>, counts: seq<nat>, walk: seq<nat>, n: nat, key: nat -> int)
    requires Remaining(rs, counts, walk, n, key) && walk != []
    ensures var c := counts[walk[0]];
            && c <= |rs| && (forall i :: 0 <= i < c ==> rs[i].expert == walk[0])
            && Remaining(rs[c..], counts, walk[1..], n, key)
  {
    var e := walk[0];
    var c := counts[e];
    forall i | 0 <= i < |rs| ensures rs[i].expert == e || key(rs[i].expert) > key(e) {
      if rs[i].expert != n && rs[i].expert != e {
        var p :| 0 <= p < |walk| && walk[p] == rs[i].expert;
      }
    }
    FirstRun(rs, key, e);
    assert rs == rs[..c] + rs[c..];
    forall i | 0 <= i < |rs[c..]| ensures rs[c..][i].expert == n || rs[c..][i].expert in walk[1..] {
      assert rs[c..][i] == rs[c + i] && rs[c + i].expert != e;
    }
    forall p | 0 <= p < |walk[1..]| ensures counts[walk[1..][p]] == CountOf(rs[c..], walk[1..][p]) {
      var q := walk[p + 1];
      assert key(walk[0]) < key(walk[p + 1]);
      CountAppend(rs[..c], rs[c..], q);
      NoneOf(rs[..c], q);
    }
  }

  lemma {:induction false} WalkFits(rs: seq<Route>, counts: seq<nat>, walk: seq<nat>, n: nat, key: nat -> int)
    requires Remaining(rs, counts, walk, n, key)
    ensures WalkTotal(counts, walk) <= |rs|
    decreases |walk|
  {
    if walk != [] {
      RemainingStep(rs, counts, walk, n, key);
      WalkFits(rs[counts[walk[0]]..], counts, walk[1..], n, key);
    }
  }

  /** Every sorted row of a taken expert is added exactly once to its own token; sentinels and others never. */
  lemma {:induction false} SegmentsSum(x: seq<Row>, f: Expert, ptr: seq<nat>, counts: seq<nat>, take: seq<bool>,
                                       walk: seq<nat>, rs: seq<Route>, out: seq<int>, n: nat, key: nat -> int, t: nat)
    requires Remaining(rs, counts, walk, n, key) && |x| == |out| && |take| == n <= |ptr| && t < |out|
    requires forall i :: 0 <= i < |rs| ==> rs[i].token < |out|
    ensures WalkTotal(counts, walk) <= |rs|
    ensures Segments(x, f, ptr, counts, take, walk, Cells(rs), out)[t] == out[t] + SumOf(rs, Term(x, f, ptr, take, t))
    decreases |walk|
  {
    hide Remaining, Term, Cells, AddCells;
    InWalk(rs, counts, walk, n, key);
    WalkFits(rs, counts, walk, n, key);
    if walk == [] {
      NothingLeft(rs, counts, n, key);
      SkippedSum(rs, x, f, ptr, take, n, t);
    } else {
      var e := walk[0];
      var c := counts[e];
      RemainingStep(rs, counts, walk, n, key);
      var out' := if take[e] then AddCells(out, Cells(rs[..c]), x, f, ptr[e]) else out;
      assert Cells(rs)[c..] == Cells(rs[c..]) && Cells(rs)[..c] == Cells(rs[..c]);
      SegmentsSum(x, f, ptr, counts, take, walk[1..], rs[c..], out', n, key, t);
      if take[e] {
        AddCellsSum(out, rs[..c], x, f, ptr, take, e, t);
      } else {
        SkippedSum(rs[..c], x, f, ptr, take, e, t);
      }
      assert rs == rs[..c] + rs[c..];
      SumAppend(rs[..c], rs[c..], Term(x, f, ptr, take, t));
    }
  }

  lemma InWalk(rs: seq<Route>, counts: seq<nat>, walk: seq<nat>, n: nat, key: nat -> int)
    requires Remaining(rs, counts, walk, n, key)
    ensures |counts| == n + 1 && forall p :: 0 <= p < |walk| ==> walk[p] < n
  {
  }

  lemma NothingLeft(rs: seq<Route>, counts: seq<nat>, n: nat, key: nat -> int)
    requires Remaining(rs, counts, [], n, key)
    ensures forall i :: 0 <= i < |rs| ==> rs[i].expert == n
  {
  }

  /******* A launch over unsorted routes *******/

  function KeysOf(rs: seq<Route>, key: nat -> int): (ks: seq<int>)
    ensures |ks| == |rs| && forall i :: 0 <= i < |rs| ==> ks[i] == key(rs[i].expert)
  {
    seq(|rs|, i requires 0 <= i < |rs| => key(rs[i].expert))
  }

  ghost predicate RoutesOk(rs: seq<Route>, n: nat, tokens: nat) {
    forall i :: 0 <= i < |rs| ==> rs[i].expert <= n && rs[i].token < tokens
  }

  lemma {:induction false} CountPermutation(a: seq<Route>, b: seq<Route>, e: nat)
    requires multiset(a) == multiset(b)
    ensures CountOf(a, e) == CountOf(b, e)
  {
    CountIsSum(a, e);
    CountIsSum(b, e);
    SumPermutation(a, b, Is(e));
  }

  function Is(e: nat): Route -> int { (r: Route) => if r.expert == e then 1 else 0 }

  lemma {:induction false} CountIsSum(rs: seq<Route>, e: nat)
    ensures CountOf(rs, e) == SumOf(rs, Is(e))
  {
    if rs != [] { CountIsSum(rs[1..], e); }
  }

  lemma LaunchIsReady(rs: seq<Route>, n: nat, key: nat -> int, walk: seq<nat>, order: seq<nat>, tokens: nat)
    requires RoutesOk(rs, n, tokens) && WalkOk(walk, n, key) && Sorts(order, KeysOf(rs, key))
    ensures var sorted := Gather(rs, order);
            && multiset(sorted) == multiset(rs) && Remaining(sorted, Counts(rs, n), walk, n, key)
            && RoutesOk(sorted, n, tokens)
  {
    var sorted := Gather(rs, order);
    SortedIsPermutation(rs, order, KeysOf(rs, key));
    forall p | 0 <= p < |walk| ensures Counts(rs, n)[walk[p]] == CountOf(sorted, walk[p]) {
      CountPermutation(rs, sorted, walk[p]);
    }
  }

  /** One launch: sort, count, walk.  It adds every taken route of every token exactly once. */
  lemma LaunchSum(x: seq<Row>, f: Expert, ptr: seq<nat>, take: seq<bool>, walk: seq<nat>, rs: seq<Route>, out: seq<int>,
                  n: nat, key: nat -> int, order: seq<nat>, t: nat)
    requires RoutesOk(rs, n, |out|) && WalkOk(walk, n, key) && Sorts(order, KeysOf(rs, key))
    requires |x| == |out| && |take| == n <= |ptr| && t < |out|
    ensures WalkTotal(Counts(rs, n), walk) <= |rs|
    ensures Segments(x, f, ptr, Counts(rs, n), take, walk, Cells(Gather(rs, order)), out)[t]
            == out[t] + SumOf(rs, Term(x, f, ptr, take, t))
  {
    LaunchIsReady(rs, n, key, walk, order, |out|);
    SegmentsSum(x, f, ptr, Counts(rs, n), take, walk, Gather(rs, order), out, n, key, t);
    SumPermutation(Gather(rs, order), rs, Term(x, f, ptr, take, t));
  }

  /******* Routes of one token inside the flat list *******/

  lemma {:induction false} FlatSum(base: nat, ids: seq<seq<int>>, ws: seq<seq<int>>, n: nat, emap: Option<seq<int>>,
                                   t: nat, g: Route -> int)
    requires SameShape(ids, ws) && base <= t
    requires forall r: Route :: r.token != t ==> g(r) == 0
    ensures SumOf(Flat(base, ids, ws, n, emap), g)
            == if t - base < |ids| then SumOf(RowRoutes(t, ids[t - base], ws[t - base], n, emap), g) else 0
    decreases |ids|
  {
    if ids != [] {
      SumAppend(RowRoutes(base, ids[0], ws[0], n, emap), Flat(base + 1, ids[1..], ws[1..], n, emap), g);
      if base == t {
        EarlierSum(base + 1, ids[1..], ws[1..], n, emap, t, g);
      } else {
        SumZero(RowRoutes(base, ids[0], ws[0], n, emap), g);
        FlatSum(base + 1, ids[1..], ws[1..], n, emap, t, g);
      }
    }
  }

  lemma EarlierSum(base: nat, ids: seq<seq<int>>, ws: seq<seq<int>>, n: nat, emap: Option<seq<int>>, t: nat,
                   g: Route -> int)
    requires SameShape(ids, ws) && t < base
    requires forall r: Route :: r.token != t ==> g(r) == 0
    ensures SumOf(Flat(base, ids, ws, n, emap), g) == 0
  {
    FlatTokens(base, ids, ws, n, emap);
    SumZero(Flat(base, ids, ws, n, emap), g);
  }

  lemma {:induction false} FlatTokens(base: nat, ids: seq<seq<int>>, ws: seq<seq<int>>, n: nat, emap: Option<seq<int>>)
    requires SameShape(ids, ws)
    ensures forall r :: r in Flat(base, ids, ws, n, emap) ==> base <= r.token < base + |ids| && r.expert <= n
    decreases |ids|
  {
    if ids != [] { FlatTokens(base + 1, ids[1..], ws[1..], n, emap); }
  }

  lemma FlatOk(ids: seq<seq<int>>, ws: seq<seq<int>>, n: nat, emap: Option<seq<int>>)
    requires SameShape(ids, ws)
    ensures RoutesOk(Flat(0, ids, ws, n, emap), n, |ids|)
  {
    FlatTokens(0, ids, ws, n, emap);
    var rs := Flat(0, ids, ws, n, emap);
    assert forall i :: 0 <= i < |rs| ==> rs[i] in rs;
  }
}
