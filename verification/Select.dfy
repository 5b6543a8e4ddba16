/** Budgeted round-robin selection (tools/minimax_provisional_alias.py, `select_provisional`). */
module Select {
  import opened Sequences
  import opened Sums

  datatype Cand = Cand(layer: int, eid: int, bytes: nat)

  /** `rest` and `taken` are keyed by layer; `taken` keeps the order of picking. */
  datatype State = State(rest: map<int, seq<Cand>>, taken: map<int, seq<Cand>>, used: nat, exhausted: set<int>)

  predicate Before(a: Cand, b: Cand) {
    a.bytes < b.bytes || (a.bytes == b.bytes && a.eid <= b.eid)
  }

  predicate Sorted(s: seq<Cand>) {
    forall i, j :: 0 <= i < j < |s| ==> Before(s[i], s[j])
  }

  /** The candidates of one layer, in table order. */
  function OfLayer(table: seq<Cand>, layer: int): (s: seq<Cand>)
    ensures forall c :: c in s <==> c in table && c.layer == layer
  {
    if table == [] then []
    else
      var last := table[|table| - 1];
      var init := OfLayer(table[..|table| - 1], layer);
      assert forall c :: c in table <==> c in table[..|table| - 1] || c == last;
      if last.layer == layer then init + [last] else init
  }

  /** Candidates that the budget left still admits. */
  function Fitting(s: seq<Cand>, used: nat, budget: int): (r: seq<Cand>)
    ensures |r| <= |s| && forall c :: c in r ==> c in s && used + c.bytes <= budget
    ensures s != [] && used + s[0].bytes > budget ==> |r| < |s|
  {
    if s == [] then []
    else (if used + s[0].bytes <= budget then [s[0]] else []) + Fitting(s[1..], used, budget)
  }

  /******* The rounds *******/

  predicate Covers(s: State, layers: seq<int>) {
    forall i :: 0 <= i < |layers| ==> layers[i] in s.rest && layers[i] in s.taken
  }

  /** One visit: take the first candidate if it fits, else drop what does not fit; a layer left empty is exhausted. */
  function Visit(s: State, layer: int, budget: int): State
    requires layer in s.rest && layer in s.taken
  {
    if layer in s.exhausted then s
    else if s.rest[layer] == [] then s.(exhausted := s.exhausted + {layer})
    else
      var c := s.rest[layer][0];
      if s.used + c.bytes > budget then
        var left := Fitting(s.rest[layer], s.used, budget);
        s.(rest := s.rest[layer := left], exhausted := if left == [] then s.exhausted + {layer} else s.exhausted)
      else
        s.(rest := s.rest[layer := s.rest[layer][1..]], taken := s.taken[layer := s.taken[layer] + [c]],
           used := s.used + c.bytes)
  }

  function Round(s: State, layers: seq<int>, budget: int): (r: State)
    requires Covers(s, layers)
    ensures r.rest.Keys == s.rest.Keys && r.taken.Keys == s.taken.Keys
    decreases |layers|
  {
    if layers == [] then s
    else
      assert layers[0] in s.rest && layers[0] in s.taken;
      var t := Visit(s, layers[0], budget);
      assert forall i :: 0 <= i < |layers[1..]| ==> layers[1..][i] == layers[i + 1];
      Round(t, layers[1..], budget)
  }

  /** Candidates left plus layers not yet exhausted. */
  function Measure(s: State, layers: seq<int>): nat
    requires Covers(s, layers)
  {
    if layers == [] then 0
    else
      assert layers[0] in s.rest;
      assert forall i :: 0 <= i < |layers[1..]| ==> layers[1..][i] == layers[i + 1];
      |s.rest[layers[0]]| + (if layers[0] in s.exhausted then 0 else 1) + Measure(s, layers[1..])
  }

  predicate Finished(s: State, layers: seq<int>) {
    forall i :: 0 <= i < |layers| ==> layers[i] in s.exhausted
  }

  lemma {:induction false} MeasureFrame(s: State, t: State, layers: seq<int>)
    requires Covers(s, layers) && Covers(t, layers)
    requires forall i :: 0 <= i < |layers| ==>
               s.rest[layers[i]] == t.rest[layers[i]] && (layers[i] in s.exhausted <==> layers[i] in t.exhausted)
    ensures Measure(s, layers) == Measure(t, layers)
  {
    if layers != [] {
      assert forall i :: 0 <= i < |layers[1..]| ==> layers[1..][i] == layers[i + 1];
      MeasureFrame(s, t, layers[1..]);
    }
  }

  /** A round visits every layer once, and every visit to a layer that is not exhausted makes progress. */
  lemma {:induction false} RoundProgress(s: State, layers: seq<int>, budget: int)
    requires Covers(s, layers) && Ascending(layers)
    ensures var t := Round(s, layers, budget);
            && Covers(t, layers) && Measure(t, layers) <= Measure(s, layers)
            && (!Finished(s, layers) ==> Measure(t, layers) < Measure(s, layers))
            && (forall l :: l in s.rest && l !in layers ==>
                t.rest[l] == s.rest[l] && (l in t.exhausted <==> l in s.exhausted))
    decreases |layers|
  {
    if layers != [] {
      var l, tail := layers[0], layers[1..];
      assert forall i :: 0 <= i < |tail| ==> tail[i] == layers[i + 1];
      assert l in s.rest && l in s.taken;
      var t := Visit(s, l, budget);
      MeasureFrame(s, t, tail);
      RoundProgress(t, tail, budget);
      assert l !in tail;
      assert !Finished(s, layers) && l in s.exhausted ==> !Finished(t, tail);
    }
  }

  function Run(s: State, layers: seq<int>, budget: int): State
    requires Covers(s, layers) && Ascending(layers)
    decreases Measure(s, layers)
  {
    RoundProgress(s, layers, budget);
    if Finished(s, layers) then s else Run(Round(s, layers, budget), layers, budget)
  }

  function Start(lists: map<int, seq<Cand>>): State {
    State(lists, map l | l in lists :: [], 0, {})
  }

  /******* What is selected *******/

  function Weight(): Cand -> int { (c: Cand) => c.bytes }

  function TakenBytes(s: State, layers: seq<int>): int
    requires Covers(s, layers)
  {
    if layers == [] then 0
    else
      assert layers[0] in s.taken;
      assert forall i :: 0 <= i < |layers[1..]| ==> layers[1..][i] == layers[i + 1];
      SumOf(s.taken[layers[0]], Weight()) + TakenBytes(s, layers[1..])
  }

  /** What holds of one layer with sorted candidates `list`. */
  ghost predicate LayerOk(s: State, layer: int, list: seq<Cand>, budget: int) {
    && layer in s.rest && layer in s.taken && Sorted(list)
    && |s.taken[layer]| <= |list| && s.taken[layer] == list[..|s.taken[layer]|]
    && (layer !in s.exhausted ==> s.rest[layer] == list[|s.taken[layer]|..])
    && (layer in s.exhausted && |s.taken[layer]| < |list| ==> s.used + list[|s.taken[layer]|].bytes > budget)
  }

  ghost predicate RunOk(s: State, lists: map<int, seq<Cand>>, budget: int) {
    && s.rest.Keys == lists.Keys && s.taken.Keys == lists.Keys
    && (forall l :: l in lists ==> LayerOk(s, l, lists[l], budget))
    && (s.used == 0 || s.used <= budget)
  }

  lemma {:induction false} NothingFits(s: seq<Cand>, used: nat, budget: int)
    requires forall c :: c in s ==> used + c.bytes > budget
    ensures Fitting(s, used, budget) == []
  {
    if s != [] {
      assert s[0] in s;
      NothingFits(s[1..], used, budget);
    }
  }

  /** When the smallest does not fit, nothing does. */
  lemma SmallestDecides(s: seq<Cand>, used: nat, budget: int)
    requires Sorted(s) && s != [] && used + s[0].bytes > budget
    ensures Fitting(s, used, budget) == []
  {
    forall c | c in s ensures used + c.bytes > budget {
      var i :| 0 <= i < |s| && s[i] == c;
      assert i == 0 || Before(s[0], s[i]);
    }
    NothingFits(s, used, budget);
  }

  lemma VisitKeeps(s: State, layer: int, lists: map<int, seq<Cand>>, budget: int)
    requires RunOk(s, lists, budget) && layer in lists
    ensures RunOk(Visit(s, layer, budget), lists, budget) && Visit(s, layer, budget).used >= s.used
    ensures layer in s.exhausted ==> Visit(s, layer, budget) == s
    ensures layer !in s.exhausted ==>
              var t := Visit(s, layer, budget);
              || (t.exhausted == s.exhausted + {layer} && t.taken == s.taken && t.used == s.used)
              || (t.exhausted == s.exhausted && |t.taken[layer]| == |s.taken[layer]| + 1)
    ensures forall l :: l in lists && l != layer ==> Visit(s, layer, budget).taken[l] == s.taken[l]
  {
    var t := Visit(s, layer, budget);
    assert LayerOk(s, layer, lists[layer], budget);
    VisitKeepsLayer(s, layer, lists[layer], budget);
    forall l | l in lists && l != layer ensures LayerOk(t, l, lists[l], budget) {
      assert LayerOk(s, l, lists[l], budget);
    }
  }

  lemma VisitKeepsLayer(s: State, layer: int, list: seq<Cand>, budget: int)
    requires LayerOk(s, layer, list, budget)
    ensures LayerOk(Visit(s, layer, budget), layer, list, budget)
    ensures layer !in s.exhausted && s.rest[layer] != [] && s.used + s.rest[layer][0].bytes > budget ==>
              Fitting(s.rest[layer], s.used, budget) == []
  {
    if layer !in s.exhausted && s.rest[layer] != [] {
      var n := |s.taken[layer]|;
      assert s.rest[layer][0] == list[n];
      if s.used + list[n].bytes > budget {
        SmallestDecides(s.rest[layer], s.used, budget);
      } else {
        assert list[..n + 1] == list[..n] + [list[n]];
      }
    }
  }

  lemma {:induction false} RoundKeeps(s: State, layers: seq<int>, lists: map<int, seq<Cand>>, budget: int)
    requires RunOk(s, lists, budget) && Covers(s, layers) && (forall i :: 0 <= i < |layers| ==> layers[i] in lists)
             && Ascending(layers)
    ensures var t := Round(s, layers, budget);
            && RunOk(t, lists, budget) && s.exhausted <= t.exhausted
            && (forall l :: l in lists && l !in layers ==>
                t.taken[l] == s.taken[l] && (l in t.exhausted <==> l in s.exhausted))
            && (forall l :: l in lists && l in layers ==>
                  |t.taken[l]| == |s.taken[l]| + if l in t.exhausted then 0 else 1)
    decreases |layers|
  {
    if layers != [] {
      var l, tail := layers[0], layers[1..];
      assert forall i :: 0 <= i < |tail| ==> tail[i] == layers[i + 1];
      VisitKeeps(s, l, lists, budget);
      RoundKeeps(Visit(s, l, budget), tail, lists, budget);
      assert l !in tail;
      assert forall k :: k in layers <==> k == l || k in tail;
    }
  }

  ghost predicate Lists(lists: map<int, seq<Cand>>, layers: seq<int>) {
    && Ascending(layers) && (forall l :: l in lists <==> l in layers)
    && forall l :: l in lists ==> Sorted(lists[l])
  }

  lemma StartOk(lists: map<int, seq<Cand>>, layers: seq<int>, budget: int)
    requires Lists(lists, layers)
    ensures RunOk(Start(lists), lists, budget) && Covers(Start(lists), layers)
  {
    forall i | 0 <= i < |layers| ensures layers[i] in lists { assert layers[i] in layers; }
  }

  lemma CoversAll(s: State, lists: map<int, seq<Cand>>, layers: seq<int>, budget: int)
    requires RunOk(s, lists, budget) && Lists(lists, layers)
    ensures Covers(s, layers) && forall i :: 0 <= i < |layers| ==> layers[i] in lists
  {
    forall i | 0 <= i < |layers| ensures layers[i] in lists { assert layers[i] in layers; }
  }

  lemma {:induction false} RunKeeps(s: State, layers: seq<int>, lists: map<int, seq<Cand>>, budget: int)
    requires RunOk(s, lists, budget) && Lists(lists, layers) && Covers(s, layers)
    ensures RunOk(Run(s, layers, budget), lists, budget) && Finished(Run(s, layers, budget), layers)
    decreases Measure(s, layers)
  {
    hide RunOk;
    RoundProgress(s, layers, budget);
    if !Finished(s, layers) {
      CoversAll(s, lists, layers, budget);
      RoundKeeps(s, layers, lists, budget);
      RunKeeps(Round(s, layers, budget), layers, lists, budget);
    }
  }

  /******* Fairness *******/

  /** The state after `n` full rounds. */
  function Rounds(s: State, layers: seq<int>, budget: int, n: nat): (r: State)
    requires Covers(s, layers)
    ensures r.rest.Keys == s.rest.Keys && r.taken.Keys == s.taken.Keys
  {
    if n == 0 then s else Round(Rounds(s, layers, budget, n - 1), layers, budget)
  }

  /** After every round, layers that are not exhausted have been picked from equally often: once per round. */
  lemma {:induction false} RoundsAreFair(lists: map<int, seq<Cand>>, layers: seq<int>, budget: int, n: nat)
    requires Lists(lists, layers) && Covers(Start(lists), layers)
    ensures var s := Rounds(Start(lists), layers, budget, n);
            && RunOk(s, lists, budget)
            && forall l :: l in lists ==> |s.taken[l]| <= n && (l !in s.exhausted ==> |s.taken[l]| == n)
  {
    StartOk(lists, layers, budget);
    if n > 0 {
      RoundsAreFair(lists, layers, budget, n - 1);
      var s := Rounds(Start(lists), layers, budget, n - 1);
      CoversAll(s, lists, layers, budget);
      RoundKeeps(s, layers, lists, budget);
    }
  }

  /**
   Within a round too: after `n` rounds and the visits of the first `i` layers, each layer that is not exhausted has
   been picked from once per round, counting this one only if it was visited; so no two of them differ by more than one.
   */
  lemma FairWithinARound(lists: map<int, seq<Cand>>, layers: seq<int>, budget: int, n: nat, i: nat)
    requires Lists(lists, layers) && Covers(Start(lists), layers) && i <= |layers|
    ensures Covers(Rounds(Start(lists), layers, budget, n), layers[..i])
    ensures var s := Round(Rounds(Start(lists), layers, budget, n), layers[..i], budget);
            && RunOk(s, lists, budget)
            && (forall l :: l in lists && l !in s.exhausted ==> |s.taken[l]| == n + if l in layers[..i] then 1 else 0)
            && (forall l, m :: l in lists && m in lists && m !in s.exhausted ==> |s.taken[l]| <= |s.taken[m]| + 1)
  {
    hide Rounds, Round, LayerOk;
    RoundsAreFair(lists, layers, budget, n);
    var before := Rounds(Start(lists), layers, budget, n);
    CoversAll(before, lists, layers, budget);
    RoundKeeps(before, layers[..i], lists, budget);
  }

  /** The run is some number of rounds. */
  lemma {:induction false} RunIsRounds(s: State, layers: seq<int>, budget: int) returns (n: nat)
    requires Covers(s, layers) && Ascending(layers)
    ensures Run(s, layers, budget) == Rounds(s, layers, budget, n)
    decreases Measure(s, layers)
  {
    hide Round, Measure, Covers;
    n := 0;
    if !Finished(s, layers) {
      RoundProgress(s, layers, budget);
      var m := RunIsRounds(Round(s, layers, budget), layers, budget);
      RoundsShift(s, layers, budget, m);
      n := m + 1;
    }
  }

  lemma {:induction false} RoundsShift(s: State, layers: seq<int>, budget: int, n: nat)
    requires Covers(s, layers)
    ensures Rounds(Round(s, layers, budget), layers, budget, n) == Rounds(s, layers, budget, n + 1)
  {
    hide Round;
    if n > 0 { RoundsShift(s, layers, budget, n - 1); }
  }

  /******* The outcome *******/

  /**
   Every layer's selection is a prefix of its order by size, and the budget left admits nothing that was not selected;
   `used` is what was selected, and exceeds the budget only if the budget is negative and nothing was.
   */
  lemma SelectionIsMaximal(lists: map<int, seq<Cand>>, layers: seq<int>, budget: int)
    requires Lists(lists, layers) && Covers(Start(lists), layers)
    ensures var s := Run(Start(lists), layers, budget);
            && s.taken.Keys == lists.Keys
            && (s.used <= budget || (budget < 0 && s.used == 0))
            && forall l :: l in lists ==>
                 && s.taken[l] <= lists[l]
                 && forall i :: |s.taken[l]| <= i < |lists[l]| ==> s.used + lists[l][i].bytes > budget
  {
    StartOk(lists, layers, budget);
    RunKeeps(Start(lists), layers, lists, budget);
    var s := Run(Start(lists), layers, budget);
    forall l | l in lists
      ensures s.taken[l] <= lists[l] && forall i :: |s.taken[l]| <= i < |lists[l]| ==>
                s.used + lists[l][i].bytes > budget
    {
      assert LayerOk(s, l, lists[l], budget);
      assert l in layers;
      var n := |s.taken[l]|;
      assert forall i :: n < i < |lists[l]| ==> Before(lists[l][n], lists[l][i]);
    }
  }

  lemma {:induction false} TakenFrame(s: State, t: State, layers: seq<int>)
    requires Covers(s, layers) && Covers(t, layers) && forall i :: 0 <= i < |layers| ==>
               s.taken[layers[i]] == t.taken[layers[i]]
    ensures TakenBytes(s, layers) == TakenBytes(t, layers)
  {
    if layers != [] {
      assert forall i :: 0 <= i < |layers[1..]| ==> layers[1..][i] == layers[i + 1];
      TakenFrame(s, t, layers[1..]);
    }
  }

  /** A visit accounts for what it takes. */
  lemma {:induction false} VisitAccounts(s: State, layer: int, layers: seq<int>, budget: int)
    requires Covers(s, layers) && layer in s.rest && layer in s.taken && Ascending(layers)
    ensures var t := Visit(s, layer, budget);
            && Covers(t, layers)
            && TakenBytes(t, layers) == TakenBytes(s, layers) + if layer in layers then t.used - s.used else 0
  {
    var t := Visit(s, layer, budget);
    if layers != [] {
      var tail := layers[1..];
      assert forall i :: 0 <= i < |tail| ==> tail[i] == layers[i + 1];
      if layers[0] == layer {
        assert layer !in tail;
        TakenFrame(s, t, tail);
        if t.taken != s.taken { SumPush(s.taken[layer], s.rest[layer][0], Weight()); }
      } else {
        VisitAccounts(s, layer, tail, budget);
        assert layer in layers <==> layer in tail;
      }
    }
  }

  lemma {:induction false} RoundAccounts(s: State, todo: seq<int>, layers: seq<int>, budget: int)
    requires Covers(s, layers) && Covers(s, todo) && Ascending(layers) && forall i :: 0 <= i < |todo| ==>
               todo[i] in layers
    ensures var t := Round(s, todo, budget);
            Covers(t, layers) && TakenBytes(t, layers) - t.used == TakenBytes(s, layers) - s.used
    decreases |todo|
  {
    if todo != [] {
      assert forall i :: 0 <= i < |todo[1..]| ==> todo[1..][i] == todo[i + 1];
      assert todo[0] in s.rest && todo[0] in layers;
      VisitAccounts(s, todo[0], layers, budget);
      RoundAccounts(Visit(s, todo[0], budget), todo[1..], layers, budget);
    }
  }

  /** `used_bytes` is the size of what was selected. */
  lemma {:induction false} RunAccounts(s: State, layers: seq<int>, budget: int)
    requires Covers(s, layers) && Ascending(layers)
    ensures var t := Run(s, layers, budget);
            Covers(t, layers) && TakenBytes(t, layers) - t.used == TakenBytes(s, layers) - s.used
    decreases Measure(s, layers)
  {
    if !Finished(s, layers) {
      RoundProgress(s, layers, budget);
      RoundAccounts(s, layers, layers, budget);
      RunAccounts(Round(s, layers, budget), layers, budget);
    }
  }

  lemma {:induction false} NothingTaken(lists: map<int, seq<Cand>>, layers: seq<int>)
    requires Covers(Start(lists), layers)
    ensures TakenBytes(Start(lists), layers) == 0
  {
    if layers != [] {
      assert forall i :: 0 <= i < |layers[1..]| ==> layers[1..][i] == layers[i + 1];
      NothingTaken(lists, layers[1..]);
    }
  }

  lemma UsedIsWhatWasTaken(lists: map<int, seq<Cand>>, layers: seq<int>, budget: int)
    requires Covers(Start(lists), layers) && Ascending(layers)
    ensures var s := Run(Start(lists), layers, budget);
            Covers(s, layers) && s.used == TakenBytes(s, layers)
  {
    NothingTaken(lists, layers);
    RunAccounts(Start(lists), layers, budget);
  }

  /******* The program *******/

  /** `list.sort(key=...)` by (bytes, eid). */
  method SortLayer(s: seq<Cand>) returns (r: seq<Cand>)
    ensures Sorted(r) && multiset(r) == multiset(s)
  {
    r := [];
    for n := 0 to |s|
      invariant Sorted(r) && multiset(r) == multiset(s[..n])
    {
      var p := |r|;
      while p > 0 && !Before(r[p - 1], s[n])
        invariant 0 <= p <= |r|
        invariant forall i :: p <= i < |r| ==> Before(s[n], r[i])
      {
        p := p - 1;
      }
      InsertCand(r, s[n], p);
      InsertMultiset(r, p, s[n]);
      assert s[..n + 1] == s[..n] + [s[n]];
      r := r[..p] + [s[n]] + r[p..];
    }
    assert s[..|s|] == s;
  }

  lemma InsertCand(r: seq<Cand>, c: Cand, p: nat)
    requires Sorted(r) && p <= |r| && (p > 0 ==> Before(r[p - 1], c)) && forall i :: p <= i < |r| ==> Before(c, r[i])
    ensures Sorted(r[..p] + [c] + r[p..])
  {
    var t := r[..p] + [c] + r[p..];
    assert forall i :: 0 <= i < |t| ==> t[i] == if i < p then r[i] else if i == p then c else r[i - 1];
    forall i | 0 <= i < p ensures Before(r[i], c) {
      assert i == p - 1 || Before(r[i], r[p - 1]);
    }
  }

  ghost predicate SortedInts(s: seq<int>) {
    forall i, j :: 0 <= i < j < |s| ==> s[i] <= s[j]
  }

  method SortInts(s: seq<int>) returns (r: seq<int>)
    ensures SortedInts(r) && multiset(r) == multiset(s)
  {
    r := [];
    for n := 0 to |s|
      invariant SortedInts(r) && multiset(r) == multiset(s[..n])
    {
      var p := |r|;
      while p > 0 && r[p - 1] > s[n]
        invariant 0 <= p <= |r|
        invariant forall i :: p <= i < |r| ==> s[n] < r[i]
      {
        p := p - 1;
      }
      InsertInt(r, s[n], p);
      InsertMultiset(r, p, s[n]);
      assert s[..n + 1] == s[..n] + [s[n]];
      r := r[..p] + [s[n]] + r[p..];
    }
    assert s[..|s|] == s;
  }

  lemma InsertInt(r: seq<int>, x: int, p: nat)
    requires SortedInts(r) && p <= |r| && (p > 0 ==> r[p - 1] <= x) && forall i :: p <= i < |r| ==> x < r[i]
    ensures SortedInts(r[..p] + [x] + r[p..])
  {
    var t := r[..p] + [x] + r[p..];
    assert forall i :: 0 <= i < |t| ==> t[i] == if i < p then r[i] else if i == p then x else r[i - 1];
    assert forall i :: 0 <= i < p ==> r[i] <= r[p - 1];
  }

  ghost predicate Occurs(table: seq<Cand>, layer: int) {
    exists i :: 0 <= i < |table| && table[i].layer == layer
  }

  ghost predicate Grouped(lists: map<int, seq<Cand>>, table: seq<Cand>) {
    (forall l :: l in lists <==> Occurs(table, l)) && forall l :: l in lists ==> lists[l] == OfLayer(table, l)
  }

  lemma GroupStep(lists: map<int, seq<Cand>>, table: seq<Cand>, n: nat)
    requires n < |table| && Grouped(lists, table[..n])
    ensures Grouped(lists[table[n].layer := (if table[n].layer in lists then lists[table[n].layer] else [])
            + [table[n]]], table[..n + 1])
  {
    var c, next := table[n], table[..n + 1];
    assert next == table[..n] + [c] && next[..n] == table[..n];
    forall l ensures Occurs(next, l) <==> Occurs(table[..n], l) || l == c.layer {
      if Occurs(table[..n], l) {
        var i :| 0 <= i < n && table[..n][i].layer == l;
        assert next[i].layer == l;
      } else if l == c.layer {
        assert next[n].layer == l;
      } else {
        assert forall i :: 0 <= i < n ==> next[i] == table[..n][i];
      }
    }
    if c.layer !in lists { NoneOfLayer(table[..n], c.layer); }
  }

  method Group(table: seq<Cand>) returns (lists: map<int, seq<Cand>>)
    ensures Grouped(lists, table)
  {
    lists := map[];
    for n := 0 to |table|
      invariant Grouped(lists, table[..n])
    {
      var c := table[n];
      GroupStep(lists, table, n);
      lists := lists[c.layer := (if c.layer in lists then lists[c.layer] else []) + [c]];
    }
    assert table[..|table|] == table;
  }

  /** Candidates by layer, each layer smallest first. */
  method ByLayer(table: seq<Cand>) returns (lists: map<int, seq<Cand>>)
    ensures forall l :: l in lists <==> Occurs(table, l)
    ensures forall l :: l in lists ==> Sorted(lists[l]) && multiset(lists[l]) == multiset(OfLayer(table, l))
  {
    var unsorted := Group(table);
    lists := unsorted;
    var left := lists.Keys;
    while left != {}
      invariant left <= lists.Keys == unsorted.Keys
      invariant forall l :: l in lists ==>
                  multiset(lists[l]) == multiset(unsorted[l]) && (l !in left ==> Sorted(lists[l]))
      decreases |left|
    {
      var l := Pick(left);
      left := left - {l};
      var sorted := SortLayer(lists[l]);
      lists := lists[l := sorted];
    }
  }

  lemma NoneOfLayer(table: seq<Cand>, layer: int)
    requires !Occurs(table, layer)
    ensures OfLayer(table, layer) == []
  {
    var s := OfLayer(table, layer);
    assert forall i :: 0 <= i < |s| ==> s[i] in s;
  }

  lemma RoundPeels(s: State, layers: seq<int>, i: nat, budget: int)
    requires i < |layers| && Covers(s, layers) && Covers(s, layers[i..])
    ensures layers[i] in s.rest && layers[i] in s.taken
    ensures var t := Visit(s, layers[i], budget);
            && Covers(t, layers) && Covers(t, layers[i + 1..])
            && Round(s, layers[i..], budget) == Round(t, layers[i + 1..], budget)
  {
    hide Visit;
    assert layers[i..][0] == layers[i] && layers[i..][1..] == layers[i + 1..];
    VisitCovers(s, layers, layers[i], budget);
    VisitCovers(s, layers[i + 1..], layers[i], budget);
  }

  lemma VisitCovers(s: State, layers: seq<int>, layer: int, budget: int)
    requires Covers(s, layers) && layer in s.rest && layer in s.taken
    ensures Covers(Visit(s, layer, budget), layers)
  {
  }

  /** What the program's variables say of the state. */
  ghost predicate Shows(s: State, rest: map<int, seq<Cand>>, sel: map<int, seq<Cand>>, used: nat, exhausted: set<int>) {
    s.rest == rest && s.used == used && s.exhausted == exhausted && Same(sel, s.taken)
  }

  /** `for layer in sorted(by_layer)` */
  method OneRound(ghost s: State, layers: seq<int>, budget: int, rest0: map<int, seq<Cand>>, sel0: map<int, seq<Cand>>,
                  used0: nat, exhausted0: set<int>)
    returns (rest: map<int, seq<Cand>>, sel: map<int, seq<Cand>>, used: nat, exhausted: set<int>)
    requires Covers(s, layers) && Shows(s, rest0, sel0, used0, exhausted0)
    ensures Shows(Round(s, layers, budget), rest, sel, used, exhausted)
  {
    hide Visit, Shows, Round;
    rest, sel, used, exhausted := rest0, sel0, used0, exhausted0;
    ghost var t := s;
    assert layers[0..] == layers;
    for i := 0 to |layers|
      invariant Covers(t, layers) && Covers(t, layers[i..]) && Round(t, layers[i..], budget) == Round(s, layers, budget)
      invariant Shows(t, rest, sel, used, exhausted)
    {
      RoundPeels(t, layers, i, budget);
      rest, sel, used, exhausted := VisitLayer(t, layers[i], budget, rest, sel, used, exhausted);
      t := Visit(t, layers[i], budget);
    }
    NoMoreLayers(t, layers[|layers|..], budget);
  }

  lemma NoMoreLayers(s: State, layers: seq<int>, budget: int)
    requires layers == [] && Covers(s, layers)
    ensures Round(s, layers, budget) == s
  {
  }

  /** The nested loops; `sel` has an entry only for layers that were picked from. */
  method Rounded(lists: map<int, seq<Cand>>, layers: seq<int>, budget: int)
    returns (sel: map<int, seq<Cand>>, used: nat)
    requires Lists(lists, layers) && Covers(Start(lists), layers)
    ensures used == Run(Start(lists), layers, budget).used
    ensures Same(sel, Run(Start(lists), layers, budget).taken)
  {
    hide Round, Measure, Covers, Same, Lists;
    LayersAscend(lists, layers);
    var rest, exhausted: set<int> := lists, {};
    sel, used := map[], 0;
    ghost var s := Start(lists);
    NothingSelected(lists);
    while exists i :: 0 <= i < |layers| && layers[i] !in exhausted
      invariant Covers(s, layers) && Run(s, layers, budget) == Run(Start(lists), layers, budget)
      invariant Shows(s, rest, sel, used, exhausted)
      decreases Measure(s, layers)
    {
      RoundProgress(s, layers, budget);
      rest, sel, used, exhausted := OneRound(s, layers, budget, rest, sel, used, exhausted);
      s := Round(s, layers, budget);
    }
  }

  lemma LayersAscend(lists: map<int, seq<Cand>>, layers: seq<int>)
    requires Lists(lists, layers)
    ensures Ascending(layers)
  {
  }

  lemma NothingSelected(lists: map<int, seq<Cand>>)
    ensures Same(map[], Start(lists).taken)
  {
  }

  /** One turn of the inner loop, on the program's own variables. */
  method VisitLayer(ghost s: State, l: int, budget: int, rest0: map<int, seq<Cand>>, sel0: map<int, seq<Cand>>,
                    used0: nat, exhausted0: set<int>)
    returns (rest: map<int, seq<Cand>>, sel: map<int, seq<Cand>>, used: nat, exhausted: set<int>)
    requires l in s.rest && l in s.taken
    requires Shows(s, rest0, sel0, used0, exhausted0)
    ensures Shows(Visit(s, l, budget), rest, sel, used, exhausted)
  {
    rest, sel, used, exhausted := rest0, sel0, used0, exhausted0;
    if l in exhausted { return; }
    if rest[l] == [] {
      exhausted := exhausted + {l};
      return;
    }
    var c := rest[l][0];
    if used + c.bytes > budget {
      rest := rest[l := Fitting(rest[l], used, budget)];
      if rest[l] == [] { exhausted := exhausted + {l}; }
    } else {
      used := used + c.bytes;
      sel := sel[l := (if l in sel then sel[l] else []) + [c]];
      rest := rest[l := rest[l][1..]];
    }
  }

  /** `sel` is `taken` without its empty lists. */
  ghost predicate Same(sel: map<int, seq<Cand>>, taken: map<int, seq<Cand>>) {
    && (forall l :: l in sel ==> l in taken && sel[l] == taken[l] && sel[l] != [])
    && forall l :: l in taken && taken[l] != [] ==> l in sel
  }

  function Ids(s: seq<Cand>): (r: seq<int>)
    ensures |r| == |s| && forall i :: 0 <= i < |s| ==> r[i] == s[i].eid
  {
    seq(|s|, i requires 0 <= i < |s| => s[i].eid)
  }

  /** What one layer contributes: the ids, ascending, of the `n` smallest of its candidates. */
  ghost predicate Contributes(ids: seq<int>, list: seq<Cand>, n: nat) {
    && n <= |list| && SortedInts(ids)
    && multiset(ids) == multiset(Ids(list[..n]))
  }

  ghost predicate Counts(lists: map<int, seq<Cand>>, taken: map<int, nat>, layers: seq<int>) {
    forall i :: 0 <= i < |layers| ==>
      layers[i] in lists && layers[i] in taken && taken[layers[i]] <= |lists[layers[i]]|
  }

  /** The total size of the `taken[l]` smallest candidates of every layer `l`. */
  ghost function SelectedBytes(lists: map<int, seq<Cand>>, taken: map<int, nat>, layers: seq<int>): int
    requires Counts(lists, taken, layers)
  {
    if layers == [] then 0
    else
      assert layers[0] in lists && layers[0] in taken && taken[layers[0]] <= |lists[layers[0]]|;
      assert forall i :: 0 <= i < |layers[1..]| ==> layers[1..][i] == layers[i + 1];
      SumOf(lists[layers[0]][..taken[layers[0]]], Weight()) + SelectedBytes(lists, taken, layers[1..])
  }

  lemma {:induction false} TakenIsSelected(s: State, lists: map<int, seq<Cand>>, taken: map<int, nat>, layers: seq<int>)
    requires Covers(s, layers) && Counts(lists, taken, layers)
    requires forall l :: l in layers ==> s.taken[l] == lists[l][..taken[l]]
    ensures TakenBytes(s, layers) == SelectedBytes(lists, taken, layers)
  {
    if layers != [] {
      assert forall i :: 0 <= i < |layers[1..]| ==> layers[1..][i] == layers[i + 1];
      var l := layers[0];
      assert l in layers && s.taken[l] == lists[l][..taken[l]];
      TakenIsSelected(s, lists, taken, layers[1..]);
      assert TakenBytes(s, layers) == SumOf(s.taken[l], Weight()) + TakenBytes(s, layers[1..]);
      assert SelectedBytes(lists, taken, layers)
        == SumOf(lists[l][..taken[l]], Weight()) + SelectedBytes(lists, taken, layers[1..]);
    }
  }

  /** `select_provisional`; `lists` are its per-layer orders and `taken` how many of each it picked. */
  method SelectProvisional(table: seq<Cand>, budget: int)
    returns (experts: map<int, seq<int>>, used: nat,
             ghost lists: map<int, seq<Cand>>, ghost taken: map<int, nat>, ghost layers: seq<int>)
    ensures forall l :: l in lists <==> Occurs(table, l)
    ensures forall l :: l in lists ==> Sorted(lists[l]) && multiset(lists[l]) == multiset(OfLayer(table, l))
    ensures taken.Keys == lists.Keys && forall l :: l in experts <==> l in taken && taken[l] > 0
    ensures forall l :: l in experts ==> Contributes(experts[l], lists[l], taken[l])
    ensures Ascending(layers) && (forall l :: l in layers <==> l in lists) && Counts(lists, taken, layers)
    ensures used == SelectedBytes(lists, taken, layers)
    ensures used <= budget || (budget < 0 && used == 0)
    ensures forall l, i :: l in lists && taken[l] <= i < |lists[l]| ==> used + lists[l][i].bytes > budget
  {
    hide Run, OfLayer, Occurs;
    var byLayer := ByLayer(table);
    lists := byLayer;
    var order := SortedSet(byLayer.Keys);
    layers := order;
    forall i | 0 <= i < |layers| ensures layers[i] in lists { assert layers[i] in layers; }
    var sel;
    sel, used := Rounded(byLayer, order, budget);
    ghost var end := Run(Start(lists), layers, budget);
    SelectionIsMaximal(lists, layers, budget);
    taken := map l | l in end.taken :: |end.taken[l]|;
    UsedIsWhatWasTaken(lists, layers, budget);
    TakenIsSelected(end, lists, taken, layers);
    experts := ChosenIds(sel);
    forall l | l in experts ensures Contributes(experts[l], lists[l], taken[l]) {
      assert sel[l] == lists[l][..taken[l]];
    }
  }

  /** `{layer: sorted(eids)}` */
  method ChosenIds(sel: map<int, seq<Cand>>) returns (experts: map<int, seq<int>>)
    ensures experts.Keys == sel.Keys
    ensures forall l :: l in sel ==> SortedInts(experts[l]) && multiset(experts[l]) == multiset(Ids(sel[l]))
  {
    experts := map[];
    var left := sel.Keys;
    while left != {}
      invariant left <= sel.Keys && experts.Keys == sel.Keys - left
      invariant forall l :: l in experts ==> SortedInts(experts[l]) && multiset(experts[l]) == multiset(Ids(sel[l]))
      decreases |left|
    {
      var l := Pick(left);
      left := left - {l};
      var ids := SortInts(Ids(sel[l]));
      experts := experts[l := ids];
    }
  }
}
