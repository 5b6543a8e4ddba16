/** The routed expert's arithmetic, and exactly when its shards add up to the whole. */
module TpSum {
  import opened Options
  import opened Arithmetic
  import opened TpSplit

  /**
   `h` is the Hadamard block and `had` its entries, `act` the gated activation, and `col`/`row` decode one entry of a
   band: position within the band, then index along the unsplit dimension.
   */
  datatype Codec<!T> = Codec(
    h: nat, had: (nat, nat) -> int, act: (int, int) -> int, col: (T, nat, nat) -> int, row: (T, nat, nat) -> int)

  /**
   Activations entering gate and up (each after its own input scaling and rotation), and the output scales of down.
   */
  datatype Input = Input(gate: seq<int>, up: seq<int>, outScale: seq<int>)

  function Item(s: seq<int>, i: nat): int { if i < |s| then s[i] else 0 }

  function Column<T>(c: Codec<T>, p: Projection<T>, k: nat, i: nat): int {
    if k / 16 < |p.trellis| then c.col(p.trellis[k / 16], k % 16, i) else 0
  }

  function Row<T>(c: Codec<T>, p: Projection<T>, k: nat, i: nat): int {
    if k / 16 < |p.trellis| then c.row(p.trellis[k / 16], k % 16, i) else 0
  }

  /** First index of the Hadamard block of `j`. */
  function Block(h: nat, j: nat): (b: nat)
    requires h > 0
    ensures b <= j
  {
    assert j / h * h <= j;
    j / h * h
  }

  /** A column-parallel projection: inner products, block rotation, output scale. */
  function InnerTerm<T>(c: Codec<T>, p: Projection<T>, x: seq<int>, k: nat): nat -> int {
    (i: nat) => Item(x, i) * Column(c, p, k, i)
  }

  function MixTerm<T>(c: Codec<T>, p: Projection<T>, x: seq<int>, j: nat): nat -> int
    requires c.h > 0
  {
    (m: nat) => c.had(j % c.h, m) * SumN(|x|, InnerTerm(c, p, x, Block(c.h, j) + m))
  }

  function ColumnOut<T>(c: Codec<T>, p: Projection<T>, x: seq<int>, j: nat): int
    requires c.h > 0
  {
    Item(p.scale, j) * SumN(c.h, MixTerm(c, p, x, j))
  }

  function Activation<T>(c: Codec<T>, m: Mlp<T>, x: Input, j: nat): int
    requires c.h > 0
  {
    c.act(ColumnOut(c, m.gate, x.gate, j), ColumnOut(c, m.up, x.up, j))
  }

  /** Down's input scale and block rotation. */
  function RotateTerm<T>(c: Codec<T>, m: Mlp<T>, x: Input, k: nat): nat -> int
    requires c.h > 0
  {
    (i: nat) => c.had(k % c.h, i) * (Item(m.down.scale, Block(c.h, k) + i) * Activation(c, m, x, Block(c.h, k) + i))
  }

  function DownTerm<T>(c: Codec<T>, m: Mlp<T>, x: Input, i: nat): nat -> int
    requires c.h > 0
  {
    (k: nat) => SumN(c.h, RotateTerm(c, m, x, k)) * Row(c, m.down, k, i)
  }

  /** Accumulator `i` of down, before its output rotation. */
  function Accumulated<T>(c: Codec<T>, m: Mlp<T>, x: Input): nat -> int
    requires c.h > 0
  {
    (i: nat) => SumN(m.width, DownTerm(c, m, x, i))
  }

  function OutTerm(h: nat, had: (nat, nat) -> int, acc: nat -> int, o: nat): nat -> int
    requires h > 0
  {
    (i: nat) => had(o % h, i) * acc(Block(h, o) + i)
  }

  /** Output `o` of the expert held in `m`. */
  function Output<T>(c: Codec<T>, m: Mlp<T>, x: Input, o: nat): int
    requires c.h > 0
  {
    Item(x.outScale, o) * SumN(c.h, OutTerm(c.h, c.had, Accumulated(c, m, x), o))
  }

  /******* A shard computes its own columns *******/

  predicate Cuttable<T>(p: Projection<T>, offset: nat, length: nat) {
    offset % 16 == 0 && length % 16 == 0 && offset + length <= |p.scale| && |p.scale| == |p.trellis| * 16
  }

  function CutProjection<T>(p: Projection<T>, offset: nat, length: nat): Projection<T>
    requires Cuttable(p, offset, length)
  {
    Projection(p.trellis[offset / 16..(offset + length) / 16], p.scale[offset..offset + length])
  }

  function Cut<T>(m: Mlp<T>, offset: nat, length: nat): (s: Mlp<T>)
    requires WellShaped(m) && offset % 16 == 0 && length % 16 == 0 && offset + length <= m.width
    ensures WellShaped(s) && s.width == length
  {
    var gate, up := CutProjection(m.gate, offset, length), CutProjection(m.up, offset, length);
    Mlp(length, gate, up, CutProjection(m.down, offset, length))
  }

  /** The cut begins at a block and ends at one, or at the end of the whole; or it is empty. */
  predicate CutOk(h: nat, width: nat, offset: nat, length: nat) {
    && h > 0 && offset % 16 == 0 && length % 16 == 0 && offset + length <= width
    && (length > 0 ==> offset % h == 0 && (length % h == 0 || offset + length == width))
  }

  lemma ShiftedIndex(offset: nat, k: nat, b: nat)
    requires b > 0 && offset % b == 0
    ensures (offset + k) / b == offset / b + k / b && (offset + k) % b == k % b
  {
    var q, d := offset / b, k / b;
    assert (q + d) * b == q * b + d * b;
    Quotient(offset + k, q + d, k % b, b);
  }

  lemma ShiftedBlock(offset: nat, k: nat, h: nat)
    requires h > 0 && offset % h == 0
    ensures Block(h, offset + k) == offset + Block(h, k) && (offset + k) % h == k % h
  {
    ShiftedIndex(offset, k, h);
    assert (offset / h + k / h) * h == offset / h * h + k / h * h;
  }

  /** The block of an index of a shard of whole blocks lies inside the shard. */
  lemma BlockInside(k: nat, length: nat, h: nat)
    requires h > 0 && length % h == 0 && k < length
    ensures Block(h, k) + h <= length
  {
    var n, d := length / h, k / h;
    if d >= n { MulMono(n, d, h); }
    MulMono(d + 1, n, h);
    assert (d + 1) * h == d * h + h;
  }

  /** A cut holds its own columns; where it ends with the whole, both are zero beyond. */
  lemma CutColumn<T>(c: Codec<T>, p: Projection<T>, offset: nat, length: nat, k: nat, i: nat)
    requires Cuttable(p, offset, length) && (k < length || offset + length == |p.scale|)
    ensures Column(c, CutProjection(p, offset, length), k, i) == Column(c, p, offset + k, i)
    ensures Row(c, CutProjection(p, offset, length), k, i) == Row(c, p, offset + k, i)
    ensures Item(CutProjection(p, offset, length).scale, k) == Item(p.scale, offset + k)
  {
    ShiftedIndex(offset, k, 16);
    ShiftedIndex(offset, length, 16);
  }

  lemma CutColumnOut<T>(c: Codec<T>, p: Projection<T>, x: seq<int>, offset: nat, length: nat, j: nat)
    requires Cuttable(p, offset, length) && CutOk(c.h, |p.scale|, offset, length) && j < length
    ensures ColumnOut(c, CutProjection(p, offset, length), x, j) == ColumnOut(c, p, x, offset + j)
  {
    hide Column, Item, Cuttable, CutProjection;
    var own := CutProjection(p, offset, length);
    ShiftedBlock(offset, j, c.h);
    if length % c.h == 0 { BlockInside(j, length, c.h); }
    forall m: nat | m < c.h ensures MixTerm(c, own, x, j)(m) == MixTerm(c, p, x, offset + j)(m) {
      var k := Block(c.h, j) + m;
      forall i: nat | i < |x| ensures InnerTerm(c, own, x, k)(i) == InnerTerm(c, p, x, offset + k)(i) {
        CutColumn(c, p, offset, length, k, i);
      }
      SumNEqual(|x|, InnerTerm(c, own, x, k), InnerTerm(c, p, x, offset + k));
      assert offset + k == Block(c.h, offset + j) + m;
    }
    SumNEqual(c.h, MixTerm(c, own, x, j), MixTerm(c, p, x, offset + j));
    CutColumn(c, p, offset, length, j, 0);
  }

  lemma CutActivation<T>(c: Codec<T>, m: Mlp<T>, x: Input, offset: nat, length: nat, j: nat)
    requires WellShaped(m) && CutOk(c.h, m.width, offset, length) && j < length
    ensures Activation(c, Cut(m, offset, length), x, j) == Activation(c, m, x, offset + j)
    ensures Item(Cut(m, offset, length).down.scale, j) == Item(m.down.scale, offset + j)
  {
    hide ColumnOut, CutProjection;
    CutColumnOut(c, m.gate, x.gate, offset, length, j);
    CutColumnOut(c, m.up, x.up, offset, length, j);
    CutColumn(c, m.down, offset, length, j, 0);
  }

  /** What down rotates at a column of the cut; beyond a cut that ends with the whole there is nothing to rotate. */
  lemma CutRotateTerm<T>(c: Codec<T>, m: Mlp<T>, x: Input, offset: nat, length: nat, k: nat, a: nat)
    requires WellShaped(m) && CutOk(c.h, m.width, offset, length) && k < length && a < c.h
    ensures RotateTerm(c, Cut(m, offset, length), x, k)(a) == RotateTerm(c, m, x, offset + k)(a)
  {
    hide Activation, Block;
    ShiftedBlock(offset, k, c.h);
    var j := Block(c.h, k) + a;
    assert offset + j == Block(c.h, offset + k) + a;
    if length % c.h == 0 { BlockInside(k, length, c.h); }
    if j < length {
      CutActivation(c, m, x, offset, length, j);
    } else {
      assert Item(Cut(m, offset, length).down.scale, j) == 0 && Item(m.down.scale, offset + j) == 0;
    }
  }

  lemma CutDownTerm<T>(c: Codec<T>, m: Mlp<T>, x: Input, offset: nat, length: nat, k: nat, i: nat)
    requires WellShaped(m) && CutOk(c.h, m.width, offset, length) && k < length
    ensures DownTerm(c, Cut(m, offset, length), x, i)(k) == DownTerm(c, m, x, i)(offset + k)
  {
    hide RotateTerm, Row, CutProjection;
    var own := Cut(m, offset, length);
    forall a: nat | a < c.h ensures RotateTerm(c, own, x, k)(a) == RotateTerm(c, m, x, offset + k)(a) {
      CutRotateTerm(c, m, x, offset, length, k, a);
    }
    SumNEqual(c.h, RotateTerm(c, own, x, k), RotateTerm(c, m, x, offset + k));
    CutColumn(c, m.down, offset, length, k, i);
  }

  /** A shard accumulates exactly its own share of every accumulator. */
  lemma CutAccumulates<T>(c: Codec<T>, m: Mlp<T>, x: Input, offset: nat, length: nat, i: nat)
    requires WellShaped(m) && CutOk(c.h, m.width, offset, length)
    ensures Accumulated(c, Cut(m, offset, length), x)(i)
            == SumN(offset + length, DownTerm(c, m, x, i)) - SumN(offset, DownTerm(c, m, x, i))
  {
    var own := Cut(m, offset, length);
    forall k: nat | k < length ensures DownTerm(c, own, x, i)(k) == From(offset, DownTerm(c, m, x, i))(k) {
      CutDownTerm(c, m, x, offset, length, k, i);
    }
    SumNEqual(length, DownTerm(c, own, x, i), From(offset, DownTerm(c, m, x, i)));
    SumNSplit(offset, length, DownTerm(c, m, x, i));
  }

  /******* The all-reduce *******/

  /** The chunk that the loader cuts for one rank. */
  function ShardOf<T>(m: Mlp<T>, chunk: nat, tp: nat, align: nat): (s: Result<Mlp<T>>)
    requires chunk < tp
  {
    var gate, up := ShardProjection(m.gate, chunk, tp, align), ShardProjection(m.up, chunk, tp, align);
    var down := ShardProjection(m.down, chunk, tp, align);
    if gate.Error? then Error(gate.fault)
    else if up.Error? then Error(up.fault)
    else if down.Error? then Error(down.fault)
    else Ok(Mlp(|gate.value.scale|, gate.value, up.value, down.value))
  }

  lemma SliceIsCut<T>(p: Projection<T>, width: nat, chunk: nat, tp: nat, align: nat)
    requires Shaped(p, width) && chunk < tp && tp > 1 && Accepted(width, tp, align)
    ensures var a, b := Boundary(width, chunk, tp, align), Boundary(width, chunk + 1, tp, align);
            && a <= b <= width && a % 16 == 0 && (b - a) % 16 == 0 && Cuttable(p, a, b - a)
            && ShardProjection(p, chunk, tp, align) == Ok(CutProjection(p, a, b - a))
  {
    hide Accepted, Boundary, ShardProjection;
    var part := PartOf(width, tp, align);
    SliceIsBetweenBoundaries(p, part, chunk, tp, align);
  }

  /** What the loader cuts for a chunk is the columns between its boundaries, in all three projections. */
  lemma ShardIsCut<T>(m: Mlp<T>, chunk: nat, tp: nat, align: nat)
    requires WellShaped(m) && chunk < tp && tp > 1 && Accepted(m.width, tp, align)
    ensures var a, b := Boundary(m.width, chunk, tp, align), Boundary(m.width, chunk + 1, tp, align);
            && a <= b <= m.width && a % 16 == 0 && (b - a) % 16 == 0
            && ShardOf(m, chunk, tp, align) == Ok(Cut(m, a, b - a))
  {
    SliceIsCut(m.gate, m.width, chunk, tp, align);
    SliceIsCut(m.up, m.width, chunk, tp, align);
    SliceIsCut(m.down, m.width, chunk, tp, align);
    hide Accepted, Boundary, ShardProjection;
  }

  lemma PartOf(width: nat, tp: nat, align: nat) returns (part: nat)
    requires tp > 0 && Accepted(width, tp, align)
    ensures part * tp == width
  {
    part := width / tp;
  }

  /** Output `o` of the shard that holds chunk `q`. */
  function ShardOutput<T>(c: Codec<T>, m: Mlp<T>, x: Input, tp: nat, align: nat, o: nat): nat -> int
    requires c.h > 0
  {
    (q: nat) => if q < tp && ShardOf(m, q, tp, align).Ok? then Output(c, ShardOf(m, q, tp, align).value, x, o) else 0
  }

  function Prefix<T>(c: Codec<T>, m: Mlp<T>, x: Input, n: nat): nat -> int
    requires c.h > 0
  {
    (i: nat) => SumN(n, DownTerm(c, m, x, i))
  }

  /** Output `o` of the columns before `n`. */
  function Before<T>(c: Codec<T>, m: Mlp<T>, x: Input, n: nat, o: nat): int
    requires c.h > 0
  {
    Item(x.outScale, o) * SumN(c.h, OutTerm(c.h, c.had, Prefix(c, m, x, n), o))
  }

  lemma {:induction false} OutIsAdditive(n: nat, h: nat, had: (nat, nat) -> int, a: nat -> int, b: nat -> int,
                                         both: nat -> int, o: nat)
    requires h > 0 && forall i: nat :: both(i) == a(i) + b(i)
    ensures SumN(n, OutTerm(h, had, both, o)) == SumN(n, OutTerm(h, had, a, o)) + SumN(n, OutTerm(h, had, b, o))
  {
    if n > 0 {
      OutIsAdditive(n - 1, h, had, a, b, both, o);
      var i := Block(h, o) + (n - 1);
      Distribute(had(o % h, n - 1), a(i), b(i));
    }
  }

  lemma Distribute(k: int, a: int, b: int)
    ensures k * (a + b) == k * a + k * b
  {
  }

  /** The first `q` shards together are the expert restricted to the columns before shard `q`. */
  lemma {:induction false} ShardsAddUp<T>(c: Codec<T>, m: Mlp<T>, x: Input, tp: nat, align: nat, o: nat, q: nat)
    requires WellShaped(m) && tp > 1 && q <= tp && c.h > 0
    requires Accepted(m.width, tp, align) && CutsAtBlocks(m.width, tp, align, c.h)
    ensures SumN(q, ShardOutput(c, m, x, tp, align, o)) == Before(c, m, x, Boundary(m.width, q, tp, align), o)
  {
    hide ShardOutput, Before, Boundary, CutsAtBlocks, WellShaped;
    if q == 0 {
      BoundariesAscend(m.width, 0, 0, tp, align);
      NothingYet(c, m, x, o);
    } else {
      ShardsAddUp(c, m, x, tp, align, o, q - 1);
      OneMoreShard(c, m, x, tp, align, o, q - 1);
    }
  }

  lemma NothingYet<T>(c: Codec<T>, m: Mlp<T>, x: Input, o: nat)
    requires c.h > 0
    ensures Before(c, m, x, 0, o) == 0
  {
    OutOfNothing(c.h, c.h, c.had, Prefix(c, m, x, 0), o);
  }

  lemma {:induction false} OutOfNothing(n: nat, h: nat, had: (nat, nat) -> int, zero: nat -> int, o: nat)
    requires h > 0 && forall i: nat :: zero(i) == 0
    ensures SumN(n, OutTerm(h, had, zero, o)) == 0
  {
    if n > 0 {
      OutOfNothing(n - 1, h, had, zero, o);
      assert zero(Block(h, o) + (n - 1)) == 0;
    }
  }

  lemma OneMoreShard<T>(c: Codec<T>, m: Mlp<T>, x: Input, tp: nat, align: nat, o: nat, q: nat)
    requires WellShaped(m) && tp > 1 && q < tp && c.h > 0
    requires Accepted(m.width, tp, align) && CutsAtBlocks(m.width, tp, align, c.h)
    ensures var a, b := Boundary(m.width, q, tp, align), Boundary(m.width, q + 1, tp, align);
            Before(c, m, x, b, o) == Before(c, m, x, a, o) + ShardOutput(c, m, x, tp, align, o)(q)
  {
    hide Cut, ShardOf, WellShaped, DownTerm, Accepted, Boundary;
    ShardIsCut(m, q, tp, align);
    var a, b := Boundary(m.width, q, tp, align), Boundary(m.width, q + 1, tp, align);
    BetweenBlocks(m.width, q, tp, align, c.h);
    var own := Accumulated(c, ShardOf(m, q, tp, align).value, x);
    var before, after := Prefix(c, m, x, a), Prefix(c, m, x, b);
    forall i: nat ensures after(i) == before(i) + own(i) { CutAccumulates(c, m, x, a, b - a, i); }
    OutIsAdditive(c.h, c.h, c.had, before, own, after, o);
    Distribute(Item(x.outScale, o), SumN(c.h, OutTerm(c.h, c.had, before, o)), SumN(c.h, OutTerm(c.h, c.had, own, o)));
  }

  lemma BetweenBlocks(width: nat, q: nat, tp: nat, align: nat, h: nat)
    requires tp > 1 && q < tp && h > 0 && Accepted(width, tp, align) && CutsAtBlocks(width, tp, align, h)
    ensures var a, b := Boundary(width, q, tp, align), Boundary(width, q + 1, tp, align);
            a <= b <= width && CutOk(h, width, a, b - a)
  {
    hide Boundary;
    BoundariesAscend(width, q, q + 1, tp, align);
    var a, b := Boundary(width, q, tp, align), Boundary(width, q + 1, tp, align);
    hide CutsAtBlocks, Accepted;
    if a % h == 0 && b % h == 0 {
      assert (b / h - a / h) * h == b - a;
      Quotient(b - a, b / h - a / h, 0, h);
    }
  }

  /**
   Where no boundary cuts a Hadamard block, the all-reduce of the ranks' partial outputs is the unsharded expert, under
   every rotation: no rank refuses its chunk and every chunk is held once.
   */
  lemma ShardedSumIsTheWhole<T>(c: Codec<T>, m: Mlp<T>, x: Input, tp: nat, align: nat, rot: nat, o: nat)
    requires WellShaped(m) && tp > 1 && rot < tp && c.h > 0
    requires Accepted(m.width, tp, align) && CutsAtBlocks(m.width, tp, align, c.h)
    ensures forall r: nat :: r < tp ==> ShardOf(m, Chunk(r, rot, tp), tp, align).Ok?
    ensures SumN(tp, Rotated(rot, tp, ShardOutput(c, m, x, tp, align, o))) == Output(c, m, x, o)
  {
    hide ShardOf, Boundary, CutsAtBlocks;
    forall r: nat | r < tp ensures ShardOf(m, Chunk(r, rot, tp), tp, align).Ok? {
      ShardIsCut(m, Chunk(r, rot, tp), tp, align);
    }
    RotationKeepsSums(rot, tp, ShardOutput(c, m, x, tp, align, o));
    ShardsAddUp(c, m, x, tp, align, o, tp);
    BoundariesAscend(m.width, 0, tp, tp, align);
    var whole, prefix := Accumulated(c, m, x), Prefix(c, m, x, m.width);
    forall i: nat | i < c.h ensures OutTerm(c.h, c.had, whole, o)(i) == OutTerm(c.h, c.had, prefix, o)(i) {}
    SumNEqual(c.h, OutTerm(c.h, c.had, whole, o), OutTerm(c.h, c.had, prefix, o));
  }

  /** The equal split is exact when every rank's part is whole Hadamard blocks. */
  lemma EqualSplitOfWholeBlocks<T>(c: Codec<T>, m: Mlp<T>, x: Input, part: nat, tp: nat, rot: nat, o: nat)
    requires WellShaped(m) && m.width == part * tp && tp > 1 && rot < tp && c.h > 0 && part % 16 == 0 && part % c.h == 0
    ensures SumN(tp, Rotated(rot, tp, ShardOutput(c, m, x, tp, 0, o))) == Output(c, m, x, o)
  {
    hide SumN, Output;
    EqualCutsAtBlocks(part, tp, c.h);
    EqualCutsAtBlocks(part, tp, 16);
    Multiple(part, tp);
    Multiple(part / 16 * tp, 16);
    assert part / 16 * tp * 16 == part * tp;
    ShardedSumIsTheWhole(c, m, x, tp, 0, rot, o);
  }

  /******* A boundary inside a Hadamard block *******/

  lemma {:induction false} SumOfZeros(n: nat, f: nat -> int)
    requires forall i: nat :: i < n ==> f(i) == 0
    ensures SumN(n, f) == 0
  {
    if n > 0 { SumOfZeros(n - 1, f); }
  }

  lemma {:induction false} OnlyOne(n: nat, f: nat -> int, k: nat)
    requires k < n && forall i: nat :: i < n && i != k ==> f(i) == 0
    ensures SumN(n, f) == f(k)
  {
    if n - 1 == k { SumOfZeros(k, f); } else { OnlyOne(n - 1, f, k); }
  }

  lemma {:induction false} SumNScale(n: nat, f: nat -> int, g: nat -> int, a: int)
    requires forall i: nat :: i < n ==> g(i) == a * f(i)
    ensures SumN(n, g) == a * SumN(n, f)
  {
    if n > 0 {
      SumNScale(n - 1, f, g, a);
      Distribute(a, SumN(n - 1, f), f(n - 1));
    }
  }

  /** Sums that agree outside a window differ by what they differ in it. */
  lemma SumNWindow(n: nat, f: nat -> int, g: nat -> int, b: nat, w: nat)
    requires b + w <= n && forall k: nat :: k < n && !(b <= k < b + w) ==> f(k) == g(k)
    ensures SumN(n, f) - SumN(n, g) == SumN(w, From(b, f)) - SumN(w, From(b, g))
  {
    hide SumN, From;
    SumNSplit(b + w, n - b - w, f);
    SumNSplit(b + w, n - b - w, g);
    SumNSplit(b, w, f);
    SumNSplit(b, w, g);
    SumNEqual(b, f, g);
    var p, q := From(b + w, f), From(b + w, g);
    forall i: nat | i < n - b - w ensures p(i) == q(i) {
      FromAt(b + w, f, i);
      FromAt(b + w, g, i);
    }
    SumNEqual(n - b - w, p, q);
  }

  /** What accumulator `i` receives of column `r - 1` of a block through a tile of the rows that follow it. */
  function TileTerm<T>(c: Codec<T>, r: nat, t: T, i: nat): nat -> int
    requires r > 0
  {
    (p: nat) => (if r + p < c.h then c.had(r + p, r - 1) else 0) * c.row(t, p, i)
  }

  function Through<T>(c: Codec<T>, r: nat, t: T): nat -> int
    requires r > 0
  {
    (i: nat) => SumN(16, TileTerm(c, r, t, i))
  }

  /** What output `o` receives of it. */
  function Heard<T>(c: Codec<T>, r: nat, t: T, o: nat): int
    requires c.h > 0 && r > 0
  {
    SumN(c.h, OutTerm(c.h, c.had, Through(c, r, t), o))
  }

  ghost predicate Activated<T>(c: Codec<T>, width: nat, j: nat, gate: Projection<T>, up: Projection<T>, x: Input)
    requires c.h > 0
  {
    && Shaped(gate, width) && Shaped(up, width)
    && c.act(ColumnOut(c, gate, x.gate, j), ColumnOut(c, up, x.up, j)) != 0
  }

  ghost predicate CanActivate<T(!new)>(c: Codec<T>, width: nat, j: nat)
    requires c.h > 0
  {
    exists gate: Projection<T>, up: Projection<T>, x: Input :: Activated(c, width, j, gate, up, x)
  }

  ghost predicate TellsApart<T(!new)>(c: Codec<T>, r: nat)
    requires c.h > 0 && r > 0
  {
    exists t: T, u: T, o: nat :: Heard(c, r, t, o) != Heard(c, r, u, o)
  }

  /**
   The codec loses nothing by itself: every column is activated by some weights and inputs, and behind every column of
   a block some output tells two tiles of down apart.
   */
  ghost predicate Discerning<T(!new)>(c: Codec<T>, width: nat)
    requires c.h > 0
  {
    (forall j: nat :: j < width ==> CanActivate(c, width, j)) && forall r: nat :: 0 < r < c.h ==> TellsApart(c, r)
  }

  function Marked(width: nat, at: nat, scale: int): seq<int> {
    seq(width, k => if k == at then scale else 0)
  }

  /** An expert whose down takes in only column `b - 1`, with `t` as its tile of rows from `b` on. */
  function Probe<T>(width: nat, b: nat, gate: Projection<T>, up: Projection<T>, rest: T, t: T): (m: Mlp<T>)
    requires width % 16 == 0 && 0 < b && Shaped(gate, width) && Shaped(up, width)
    ensures WellShaped(m) && m.width == width
  {
    Mlp(width, gate, up, Projection(seq(width / 16, n => if n == b / 16 then t else rest), Marked(width, b - 1, 1)))
  }

  /** A column is rotated by its scale: not at all without one. */
  lemma RotateTermIs<T>(c: Codec<T>, m: Mlp<T>, x: Input, k: nat, a: nat)
    requires c.h > 0
    ensures var j := Block(c.h, k) + a;
            && (Item(m.down.scale, j) == 0 ==> RotateTerm(c, m, x, k)(a) == 0)
            && (Item(m.down.scale, j) == 1 ==> RotateTerm(c, m, x, k)(a) == c.had(k % c.h, a) * Activation(c, m, x, j))
  {
  }

  /** A shard whose down takes in nothing gives nothing. */
  lemma Silent<T>(c: Codec<T>, m: Mlp<T>, x: Input, o: nat)
    requires c.h > 0 && forall k :: 0 <= k < |m.down.scale| ==> m.down.scale[k] == 0
    ensures Output(c, m, x, o) == 0
  {
    hide Activation;
    var acc := Accumulated(c, m, x);
    forall i: nat ensures acc(i) == 0 {
      var f := DownTerm(c, m, x, i);
      forall k: nat | k < m.width ensures f(k) == 0 {
        var g := RotateTerm(c, m, x, k);
        forall a: nat | a < c.h ensures g(a) == 0 { RotateTermIs(c, m, x, k, a); }
        SumOfZeros(c.h, g);
      }
      SumOfZeros(m.width, f);
    }
    OutOfNothing(c.h, c.h, c.had, acc, o);
  }

  /** No shard that begins or ends at `b` notices the tile behind it. */
  lemma CutIsDeaf<T>(c: Codec<T>, width: nat, b: nat, gate: Projection<T>, up: Projection<T>, rest: T, t: T, x: Input,
                     o: nat, s: nat, e: nat)
    requires c.h > 0 && width % 16 == 0 && 0 < b && b % 16 == 0 && Shaped(gate, width) && Shaped(up, width)
    requires s % 16 == 0 && (e - s) % 16 == 0 && s <= e <= width && (e <= b || b <= s)
    ensures Output(c, Cut(Probe(width, b, gate, up, rest, t), s, e - s), x, o)
            == Output(c, Cut(Probe(width, b, gate, up, rest, rest), s, e - s), x, o)
  {
    hide Output;
    var m, n := Probe(width, b, gate, up, rest, t), Probe(width, b, gate, up, rest, rest);
    if e <= b {
      assert m.down.trellis[s / 16..(s + (e - s)) / 16] == n.down.trellis[s / 16..(s + (e - s)) / 16];
    } else {
      Silent(c, Cut(m, s, e - s), x, o);
      Silent(c, Cut(n, s, e - s), x, o);
    }
  }

  lemma ShardIsDeaf<T>(c: Codec<T>, width: nat, tp: nat, align: nat, q: nat, r: nat, gate: Projection<T>,
                       up: Projection<T>, rest: T, t: T, x: Input, o: nat)
    requires tp > 1 && c.h > 0 && Accepted(width, tp, align) && q <= tp && r < tp
    requires Shaped(gate, width) && Shaped(up, width) && Boundary(width, q, tp, align) > 0
    ensures var b := Boundary(width, q, tp, align);
            var m, n := Probe(width, b, gate, up, rest, t), Probe(width, b, gate, up, rest, rest);
            && ShardOf(m, r, tp, align).Ok?
            && ShardOutput(c, m, x, tp, align, o)(r) == ShardOutput(c, n, x, tp, align, o)(r)
  {
    ShapeOf(width, tp, align);
    TileBoundary(width, q, tp, align);
    hide *;
    var b := Boundary(width, q, tp, align);
    var m, n := Probe(width, b, gate, up, rest, t), Probe(width, b, gate, up, rest, rest);
    ShardGives(c, m, x, tp, align, r, o);
    ShardGives(c, n, x, tp, align, r, o);
    if r < q { BoundariesAscend(width, r + 1, q, tp, align); } else { BoundariesAscend(width, q, r, tp, align); }
    CutIsDeaf(c, width, b, gate, up, rest, t, x, o, Boundary(width, r, tp, align), Boundary(width, r + 1, tp, align));
  }

  lemma ShardGives<T>(c: Codec<T>, m: Mlp<T>, x: Input, tp: nat, align: nat, r: nat, o: nat)
    requires tp > 1 && c.h > 0 && WellShaped(m) && Accepted(m.width, tp, align) && r < tp
    ensures var s, e := Boundary(m.width, r, tp, align), Boundary(m.width, r + 1, tp, align);
            && s <= e <= m.width && s % 16 == 0 && (e - s) % 16 == 0
            && ShardOf(m, r, tp, align).Ok?
            && ShardOutput(c, m, x, tp, align, o)(r) == Output(c, Cut(m, s, e - s), x, o)
  {
    hide Boundary, Accepted, ShardOf, Output, Cut, WellShaped;
    ShardIsCut(m, r, tp, align);
  }

  /** The transform spreads column `b - 1` over the rest of its block. */
  lemma ProbeRotates<T>(c: Codec<T>, m: Mlp<T>, x: Input, b: nat, p: nat)
    requires c.h > 0 && 0 < b < m.width && b % c.h != 0 && m.down.scale == Marked(m.width, b - 1, 1)
    ensures var r := b % c.h;
            SumN(c.h, RotateTerm(c, m, x, b + p))
            == Activation(c, m, x, b - 1) * if r + p < c.h then c.had(r + p, r - 1) else 0
  {
    hide Activation, RotateTerm, Block;
    var h, r, k := c.h, b % c.h, b + p;
    var f := RotateTerm(c, m, x, k);
    BlockPast(h, b, p);
    forall a: nat | a < h && Block(h, k) + a != b - 1 ensures f(a) == 0 { RotateTermIs(c, m, x, k, a); }
    if r + p < h {
      RotateTermIs(c, m, x, k, r - 1);
      OnlyOne(h, f, r - 1);
    } else {
      SumOfZeros(h, f);
    }
  }

  /** `p` places on, `b` is in the same block or in a later one. */
  lemma BlockPast(h: nat, b: nat, p: nat)
    requires h > 0
    ensures b % h + p < h ==> Block(h, b + p) == b - b % h && (b + p) % h == b % h + p
    ensures b % h + p >= h ==> Block(h, b + p) >= b - b % h + h
  {
    assert b == b / h * h + b % h;
    assert (b / h + 1) * h == b / h * h + h;
    if b % h + p < h { Quotient(b + p, b / h, b % h + p, h); } else { BlockAfter(h, b + p, b / h + 1); }
  }

  lemma BlockAfter(h: nat, k: nat, q: nat)
    requires h > 0 && k >= q * h
    ensures Block(h, k) >= q * h
  {
    var d := k / h;
    assert (d + 1) * h == d * h + h;
    if d < q { MulMono(d + 1, q, h); }
    MulMono(q, d, h);
  }

  /** The tile behind the column is heard in every accumulator. */
  lemma ProbeAccumulates<T>(c: Codec<T>, width: nat, b: nat, gate: Projection<T>, up: Projection<T>, rest: T, t: T,
                            x: Input, i: nat)
    requires c.h > 0 && width % 16 == 0 && 0 < b < width && b % 16 == 0 && b % c.h != 0
    requires Shaped(gate, width) && Shaped(up, width)
    ensures var m, n := Probe(width, b, gate, up, rest, t), Probe(width, b, gate, up, rest, rest);
            var a := Activation(c, n, x, b - 1);
            Accumulated(c, m, x)(i) - Accumulated(c, n, x)(i)
            == a * Through(c, b % c.h, t)(i) - a * Through(c, b % c.h, rest)(i)
  {
    var m, n := Probe(width, b, gate, up, rest, t), Probe(width, b, gate, up, rest, rest);
    ProbeShape(width, b, gate, up, rest, t);
    ProbeShape(width, b, gate, up, rest, rest);
    var f, g := DownTerm(c, m, x, i), DownTerm(c, n, x, i);
    var a := Activation(c, n, x, b - 1);
    SameActivation(c, m, n, x, b - 1);
    hide Probe, Activation, Through, From;
    forall k: nat | k < width && !(b <= k < b + 16) ensures f(k) == g(k) {
      hide RotateTerm;
      SameRotation(c, m, n, x, k);
      assert k / 16 != b / 16 && m.down.trellis[k / 16] == n.down.trellis[k / 16];
    }
    SumNWindow(width, f, g, b, 16);
    WindowIsTile(c, m, x, b, t, i, a);
    WindowIsTile(c, n, x, b, rest, i, a);
  }

  lemma ProbeShape<T>(width: nat, b: nat, gate: Projection<T>, up: Projection<T>, rest: T, t: T)
    requires width % 16 == 0 && 0 < b < width && b % 16 == 0 && Shaped(gate, width) && Shaped(up, width)
    ensures var m := Probe(width, b, gate, up, rest, t);
            && m.gate == gate && m.up == up && m.down.scale == Marked(width, b - 1, 1)
            && b + 16 <= width && b / 16 < |m.down.trellis| == width / 16 && m.down.trellis[b / 16] == t
            && forall n :: 0 <= n < width / 16 && n != b / 16 ==> m.down.trellis[n] == rest
  {
  }

  lemma SameActivation<T>(c: Codec<T>, m: Mlp<T>, n: Mlp<T>, x: Input, j: nat)
    requires c.h > 0 && m.gate == n.gate && m.up == n.up
    ensures Activation(c, m, x, j) == Activation(c, n, x, j)
  {
  }

  /** Down's rotation does not look at its trellis. */
  lemma SameRotation<T>(c: Codec<T>, m: Mlp<T>, n: Mlp<T>, x: Input, k: nat)
    requires c.h > 0 && m.gate == n.gate && m.up == n.up && m.down.scale == n.down.scale
    ensures SumN(c.h, RotateTerm(c, m, x, k)) == SumN(c.h, RotateTerm(c, n, x, k))
  {
    hide Activation;
    var f, g := RotateTerm(c, m, x, k), RotateTerm(c, n, x, k);
    forall a: nat | a < c.h ensures f(a) == g(a) { SameActivation(c, m, n, x, Block(c.h, k) + a); }
    SumNEqual(c.h, f, g);
  }

  lemma WindowIsTile<T>(c: Codec<T>, m: Mlp<T>, x: Input, b: nat, t: T, i: nat, a: int)
    requires c.h > 0 && 0 < b < m.width && b % c.h != 0 && b % 16 == 0 && m.down.scale == Marked(m.width, b - 1, 1)
    requires b / 16 < |m.down.trellis| && m.down.trellis[b / 16] == t && a == Activation(c, m, x, b - 1)
    ensures SumN(16, From(b, DownTerm(c, m, x, i))) == a * Through(c, b % c.h, t)(i)
  {
    var f, g := TileTerm(c, b % c.h, t, i), From(b, DownTerm(c, m, x, i));
    hide TileTerm, From, DownTerm, SumN, Marked;
    forall p: nat | p < 16 ensures g(p) == a * f(p) {
      FromAt(b, DownTerm(c, m, x, i), p);
      WindowTerm(c, m, x, b, t, i, a, p);
    }
    SumNScale(16, f, g, a);
  }

  lemma WindowTerm<T>(c: Codec<T>, m: Mlp<T>, x: Input, b: nat, t: T, i: nat, a: int, p: nat)
    requires c.h > 0 && 0 < b < m.width && b % c.h != 0 && b % 16 == 0 && m.down.scale == Marked(m.width, b - 1, 1)
    requires b / 16 < |m.down.trellis| && m.down.trellis[b / 16] == t && a == Activation(c, m, x, b - 1) && p < 16
    ensures DownTerm(c, m, x, i)(b + p) == a * TileTerm(c, b % c.h, t, i)(p)
  {
    hide RotateTerm, Activation, SumN, Marked;
    ProbeRotates(c, m, x, b, p);
    var r := b % c.h;
    assert (b + p) / 16 == b / 16 && (b + p) % 16 == p;
    Associate(a, if r + p < c.h then c.had(r + p, r - 1) else 0, c.row(t, p, i));
  }

  lemma Associate(a: int, b: int, d: int)
    ensures a * b * d == a * (b * d)
  {
  }

  function Scaled(a: int, f: nat -> int): nat -> int { (i: nat) => a * f(i) }

  function Plus(f: nat -> int, g: nat -> int): nat -> int { (i: nat) => f(i) + g(i) }

  lemma OutScales(h: nat, had: (nat, nat) -> int, a: int, f: nat -> int, o: nat)
    requires h > 0
    ensures SumN(h, OutTerm(h, had, Scaled(a, f), o)) == a * SumN(h, OutTerm(h, had, f, o))
  {
    var g, k := OutTerm(h, had, Scaled(a, f), o), OutTerm(h, had, f, o);
    forall i: nat | i < h ensures g(i) == a * k(i) { Commute(had(o % h, i), a, f(Block(h, o) + i)); }
    SumNScale(h, k, g, a);
  }

  lemma Commute(k: int, a: int, b: int)
    ensures k * (a * b) == a * (k * b)
  {
  }

  /** The unsharded expert hears the tile, in proportion to the activation of the column before it. */
  lemma ProbeIsHeard<T>(c: Codec<T>, width: nat, b: nat, gate: Projection<T>, up: Projection<T>, rest: T, t: T,
                        x: Input, o: nat)
    requires c.h > 0 && width % 16 == 0 && 0 < b < width && b % 16 == 0 && b % c.h != 0
    requires Shaped(gate, width) && Shaped(up, width) && Item(x.outScale, o) == 1
    ensures var m, n := Probe(width, b, gate, up, rest, t), Probe(width, b, gate, up, rest, rest);
            Output(c, m, x, o) - Output(c, n, x, o)
            == Activation(c, n, x, b - 1) * (Heard(c, b % c.h, t, o) - Heard(c, b % c.h, rest, o))
  {
    hide SumN, OutTerm, Accumulated, Activation, Through, Probe;
    var m, n := Probe(width, b, gate, up, rest, t), Probe(width, b, gate, up, rest, rest);
    var a, r := Activation(c, n, x, b - 1), b % c.h;
    var f, g := Accumulated(c, m, x), Accumulated(c, n, x);
    var mine, other := Scaled(a, Through(c, r, t)), Scaled(a, Through(c, r, rest));
    var both := Plus(f, other);
    forall i: nat ensures both(i) == f(i) + other(i) && both(i) == g(i) + mine(i) {
      ProbeAccumulates(c, width, b, gate, up, rest, t, x, i);
    }
    OutIsAdditive(c.h, c.h, c.had, f, other, both, o);
    OutIsAdditive(c.h, c.h, c.had, g, mine, both, o);
    OutScales(c.h, c.had, a, Through(c, r, t), o);
    OutScales(c.h, c.had, a, Through(c, r, rest), o);
    Distribute(a, Heard(c, r, t, o), -Heard(c, r, rest, o));
  }

  /** The expert `m` is split without a refusal, and under no rotation do its shards give its output. */
  ghost predicate Lost<T>(c: Codec<T>, m: Mlp<T>, x: Input, tp: nat, align: nat, o: nat)
    requires c.h > 0
  {
    && WellShaped(m) && (forall r: nat :: r < tp ==> ShardOf(m, r, tp, align).Ok?)
    && forall rot: nat :: rot < tp ==>
         SumN(tp, Rotated(rot, tp, ShardOutput(c, m, x, tp, align, o))) != Output(c, m, x, o)
  }

  lemma LostIf<T>(c: Codec<T>, m: Mlp<T>, x: Input, tp: nat, align: nat, o: nat)
    requires c.h > 0 && WellShaped(m) && forall r: nat :: r < tp ==> ShardOf(m, r, tp, align).Ok?
    requires SumN(tp, ShardOutput(c, m, x, tp, align, o)) != Output(c, m, x, o)
    ensures Lost(c, m, x, tp, align, o)
  {
    hide SumN, Rotated, ShardOf, ShardOutput, Output, WellShaped;
    forall rot: nat | rot < tp
      ensures SumN(tp, Rotated(rot, tp, ShardOutput(c, m, x, tp, align, o))) != Output(c, m, x, o)
    {
      RotationKeepsSums(rot, tp, ShardOutput(c, m, x, tp, align, o));
    }
  }

  /** Two experts that differ in the tile behind a boundary have the same shards, but not the same output. */
  lemma DeafShards<T>(c: Codec<T>, width: nat, tp: nat, align: nat, q: nat, gate: Projection<T>, up: Projection<T>,
                      rest: T, t: T, x: Input, o: nat)
    requires tp > 1 && c.h > 0 && Accepted(width, tp, align) && q <= tp
    requires Shaped(gate, width) && Shaped(up, width) && Boundary(width, q, tp, align) > 0
    ensures var b := Boundary(width, q, tp, align);
            var m, n := Probe(width, b, gate, up, rest, t), Probe(width, b, gate, up, rest, rest);
            && (forall r: nat :: r < tp ==> ShardOf(m, r, tp, align).Ok? && ShardOf(n, r, tp, align).Ok?)
            && SumN(tp, ShardOutput(c, m, x, tp, align, o)) == SumN(tp, ShardOutput(c, n, x, tp, align, o))
  {
    hide Boundary, Accepted, ShardOf, ShardOutput, Probe, Shaped;
    ShapeOf(width, tp, align);
    var b := Boundary(width, q, tp, align);
    var m, n := Probe(width, b, gate, up, rest, t), Probe(width, b, gate, up, rest, rest);
    var f, g := ShardOutput(c, m, x, tp, align, o), ShardOutput(c, n, x, tp, align, o);
    forall r: nat | r < tp ensures ShardOf(m, r, tp, align).Ok? && ShardOf(n, r, tp, align).Ok? && f(r) == g(r) {
      ShardIsDeaf(c, width, tp, align, q, r, gate, up, rest, t, x, o);
      ShardIsDeaf(c, width, tp, align, q, r, gate, up, rest, rest, x, o);
    }
    SumNEqual(tp, f, g);
  }

  /** So the shards of one of the two do not give its output. */
  lemma OneIsLost<T>(c: Codec<T>, width: nat, tp: nat, align: nat, q: nat, gate: Projection<T>, up: Projection<T>,
                     rest: T, t: T, x: Input, o: nat)
    requires tp > 1 && c.h > 0 && Accepted(width, tp, align) && q <= tp
    requires var b := Boundary(width, q, tp, align);
             && 0 < b < width && b % c.h != 0 && Activated(c, width, b - 1, gate, up, x)
             && Heard(c, b % c.h, t, o) != Heard(c, b % c.h, rest, o)
    requires Item(x.outScale, o) == 1
    ensures var b := Boundary(width, q, tp, align);
            || Lost(c, Probe(width, b, gate, up, rest, t), x, tp, align, o)
            || Lost(c, Probe(width, b, gate, up, rest, rest), x, tp, align, o)
  {
    ShapeOf(width, tp, align);
    TileBoundary(width, q, tp, align);
    hide Boundary, Accepted, ShardOf, Output, ShardOutput, SumN, Shaped, Heard, ColumnOut, Lost;
    var b := Boundary(width, q, tp, align);
    var m, n := Probe(width, b, gate, up, rest, t), Probe(width, b, gate, up, rest, rest);
    DeafShards(c, width, tp, align, q, gate, up, rest, t, x, o);
    ProbeIsHeard(c, width, b, gate, up, rest, t, x, o);
    NoZeroProduct(Activation(c, n, x, b - 1), Heard(c, b % c.h, t, o) - Heard(c, b % c.h, rest, o));
    if SumN(tp, ShardOutput(c, m, x, tp, align, o)) == Output(c, m, x, o) {
      LostIf(c, n, x, tp, align, o);
    } else {
      LostIf(c, m, x, tp, align, o);
    }
  }

  /**
   Where a boundary cuts a Hadamard block, no rank refuses its chunk, and yet a discerning codec has weights whose
   shards do not add up to the expert under any rotation.
   */
  lemma StraddlingShardsLose<T(!new)>(c: Codec<T>, width: nat, tp: nat, align: nat, q: nat)
    returns (m: Mlp<T>, x: Input, o: nat)
    requires tp > 1 && c.h > 0 && Accepted(width, tp, align) && q <= tp && Discerning(c, width)
    requires var b := Boundary(width, q, tp, align); b % c.h != 0 && b != width
    ensures m.width == width && Lost(c, m, x, tp, align, o)
  {
    ShapeOf(width, tp, align);
    BoundariesAscend(width, q, q, tp, align);
    hide Boundary, Accepted, Shaped, Heard, ColumnOut, Lost, Probe;
    var b := Boundary(width, q, tp, align);
    assert CanActivate(c, width, b - 1) && TellsApart(c, b % c.h);
    var gate: Projection<T>, up: Projection<T>, y: Input :| Activated(c, width, b - 1, gate, up, y);
    var rest: T, t: T, to: nat :| Heard(c, b % c.h, t, to) != Heard(c, b % c.h, rest, to);
    o, x := to, y.(outScale := seq(to + 1, _ => 1));
    OneIsLost(c, width, tp, align, q, gate, up, rest, t, x, o);
    m := Probe(width, b, gate, up, rest, t);
    if !Lost(c, m, x, tp, align, o) { m := Probe(width, b, gate, up, rest, rest); }
  }

  lemma NoZeroProduct(a: int, b: int)
    requires a != 0 && b != 0
    ensures a * b != 0
  {
  }

  lemma ShapeOf(width: nat, tp: nat, align: nat)
    requires tp > 0 && Accepted(width, tp, align)
    ensures width % 16 == 0 && width % tp == 0 && (align > 0 ==> width % align == 0)
  {
  }

  /**
   For a geometry that the loader takes and one fixed discerning codec, the sum over the ranks is the unsharded expert,
   for all weights, inputs and rotations, if and only if no boundary between chunks cuts a block.
   */
  lemma ExactIffCutsAtBlocks<T(!new)>(c: Codec<T>, width: nat, tp: nat, align: nat)
    requires tp > 1 && c.h > 0 && Accepted(width, tp, align) && Discerning(c, width)
    ensures CutsAtBlocks(width, tp, align, c.h)
            <==> forall m: Mlp<T>, x: Input, rot: nat, o: nat | WellShaped(m) && m.width == width && rot < tp
                   :: SumN(tp, Rotated(rot, tp, ShardOutput(c, m, x, tp, align, o))) == Output(c, m, x, o)
  {
    hide Accepted, Boundary, SumN, Rotated, ShardOutput, Output, Discerning;
    if CutsAtBlocks(width, tp, align, c.h) {
      forall m: Mlp<T>, x: Input, rot: nat, o: nat | WellShaped(m) && m.width == width && rot < tp
        ensures SumN(tp, Rotated(rot, tp, ShardOutput(c, m, x, tp, align, o))) == Output(c, m, x, o)
      {
        ShardedSumIsTheWhole(c, m, x, tp, align, rot, o);
      }
    } else {
      var q: nat :| q <= tp && Boundary(width, q, tp, align) % c.h != 0 && Boundary(width, q, tp, align) != width;
      var m, x, o := StraddlingShardsLose(c, width, tp, align, q);
      assert SumN(tp, Rotated(0, tp, ShardOutput(c, m, x, tp, align, o))) != Output(c, m, x, o);
    }
  }

  /******* Any transform of signs, any activation *******/

  /** The entries of a Hadamard block, up to the scale that makes it orthonormal. */
  ghost predicate Signs(h: nat, had: (nat, nat) -> int) {
    forall r: nat, i: nat :: r < h && i < h ==> had(r, i) == 1 || had(r, i) == -1
  }

  /** Tile `t` holds a one in column (or row) `t` of its band, at index 0, and none for `t == 16`. */
  function UnitTiles(h: nat, had: (nat, nat) -> int, act: (int, int) -> int): Codec<nat> {
    var unit := (t: nat, k: nat, i: nat) => if t == k && i == 0 then 1 else 0;
    Codec(h, had, act, unit, unit)
  }

  /** The tile with a one in row 0 is heard. */
  lemma UnitsTellApart(h: nat, had: (nat, nat) -> int, act: (int, int) -> int, r: nat)
    requires 0 < r < h && Signs(h, had)
    ensures TellsApart(UnitTiles(h, had, act), r)
  {
    var c := UnitTiles(h, had, act);
    assert Heard(c, r, 0, 0) == had(0, 0) * had(r, r - 1) by { UnitIsHeard(h, had, act, r, 0); }
    assert Heard(c, r, 16, 0) == 0 by { UnitIsHeard(h, had, act, r, 16); }
  }

  lemma UnitIsHeard(h: nat, had: (nat, nat) -> int, act: (int, int) -> int, r: nat, t: nat)
    requires 0 < r < h && t in {0, 16}
    ensures Heard(UnitTiles(h, had, act), r, t, 0) == if t == 0 then had(0, 0) * had(r, r - 1) else 0
  {
    var c := UnitTiles(h, had, act);
    forall i: nat ensures Through(c, r, t)(i) == if t == 0 && i == 0 then had(r, r - 1) else 0 {
      var f := TileTerm(c, r, t, i);
      forall p: nat | p < 16 ensures f(p) == if t == 0 && p == 0 && i == 0 then had(r, r - 1) else 0 {}
      if t == 0 && i == 0 { OnlyOne(16, f, 0); } else { SumOfZeros(16, f); }
    }
    assert Block(h, 0) == 0;
    var g := OutTerm(h, had, Through(c, r, t), 0);
    hide Through;
    if t == 0 { OnlyOne(h, g, 0); } else { SumOfZeros(h, g); }
  }

  function UnitProjection(h: nat, width: nat, j: nat, scale: int): (p: Projection<nat>)
    requires h > 0 && width % 16 == 0
    ensures Shaped(p, width)
  {
    var first := Block(h, j);
    Projection(seq(width / 16, n => if n == first / 16 then first % 16 else 16), Marked(width, j, scale))
  }

  /** Of the columns of its block only the first has a weight, so column `j` gets that entry of the transform. */
  lemma UnitColumn(h: nat, had: (nat, nat) -> int, act: (int, int) -> int, width: nat, j: nat, scale: int)
    requires h > 0 && width % 16 == 0 && j < width
    ensures ColumnOut(UnitTiles(h, had, act), UnitProjection(h, width, j, scale), [1], j) == scale * had(j % h, 0)
  {
    var c, p, first := UnitTiles(h, had, act), UnitProjection(h, width, j, scale), Block(h, j);
    var f := MixTerm(c, p, [1], j);
    forall m: nat | m < h ensures f(m) == if m == 0 then had(j % h, 0) else 0 {
      var inner := InnerTerm(c, p, [1], first + m);
      OnlyOne(1, inner, 0);
      UnitColumnAt(h, had, act, width, j, scale, first + m);
    }
    OnlyOne(h, f, 0);
  }

  lemma UnitColumnAt(h: nat, had: (nat, nat) -> int, act: (int, int) -> int, width: nat, j: nat, scale: int, k: nat)
    requires h > 0 && width % 16 == 0 && j < width
    ensures Column(UnitTiles(h, had, act), UnitProjection(h, width, j, scale), k, 0)
            == if k == Block(h, j) then 1 else 0
  {
    var first := Block(h, j);
    if k / 16 == first / 16 && k % 16 == first % 16 { assert k == first; }
  }

  /** With a transform of signs, scales can bring any two values into the activation of any column. */
  lemma UnitsAreDiscerning(h: nat, had: (nat, nat) -> int, act: (int, int) -> int, width: nat, g: int, u: int)
    requires h > 0 && Signs(h, had) && act(g, u) != 0 && width % 16 == 0
    ensures Discerning(UnitTiles(h, had, act), width)
  {
    var c := UnitTiles(h, had, act);
    forall r: nat | 0 < r < h ensures TellsApart(c, r) { UnitsTellApart(h, had, act, r); }
    hide TellsApart, UnitProjection, UnitTiles, ColumnOut;
    forall j: nat | j < width ensures CanActivate(c, width, j) {
      var s := had(j % h, 0);
      var gate, up := UnitProjection(h, width, j, g * s), UnitProjection(h, width, j, u * s);
      UnitColumn(h, had, act, width, j, g * s);
      UnitColumn(h, had, act, width, j, u * s);
      assert s == 1 || s == -1;
      assert g * s * s == g && u * s * s == u;
      assert Activated(c, width, j, gate, up, Input([1], [1], []));
    }
  }

  /**
   For any fixed transform of signs and any fixed activation that is not always zero: the sum over the ranks is the
   unsharded expert for all ways to decode tiles, and all weights, inputs and rotations, if and only if no boundary cuts
   a block.
   */
  lemma ExactIffForTransform(width: nat, tp: nat, align: nat, h: nat, had: (nat, nat) -> int, act: (int, int) -> int,
                             g: int, u: int)
    requires tp > 1 && h > 0 && Accepted(width, tp, align) && Signs(h, had) && act(g, u) != 0
    ensures CutsAtBlocks(width, tp, align, h)
            <==> forall c: Codec<nat>, m: Mlp<nat>, x: Input, rot: nat, o: nat
                   | c.h == h && c.had == had && c.act == act && WellShaped(m) && m.width == width && rot < tp
                   :: SumN(tp, Rotated(rot, tp, ShardOutput(c, m, x, tp, align, o))) == Output(c, m, x, o)
  {
    ShapeOf(width, tp, align);
    UnitsAreDiscerning(h, had, act, width, g, u);
    hide Accepted, CutsAtBlocks, SumN, Rotated, ShardOutput, Output, Discerning;
    ExactIffCutsAtBlocks(UnitTiles(h, had, act), width, tp, align);
    if CutsAtBlocks(width, tp, align, h) {
      forall c: Codec<nat>, m: Mlp<nat>, x: Input, rot: nat, o: nat
        | c.h == h && WellShaped(m) && m.width == width && rot < tp
        ensures SumN(tp, Rotated(rot, tp, ShardOutput(c, m, x, tp, align, o))) == Output(c, m, x, o)
      {
        ShardedSumIsTheWhole(c, m, x, tp, align, rot, o);
      }
    }
  }

  /** Width 2304 over four ranks again: the default setting and alignment 16 lose weights under every such transform. */
  lemma DefaultSplitLoses(align: nat, had: (nat, nat) -> int, act: (int, int) -> int, g: int, u: int)
    returns (c: Codec<nat>, m: Mlp<nat>, x: Input, o: nat)
    requires align in {0, 16} && Signs(128, had) && act(g, u) != 0
    ensures Accepted(2304, 4, align) && c.h == 128 && c.had == had && c.act == act
    ensures m.width == 2304 && Lost(c, m, x, 4, align, o)
  {
    DefaultSplitStraddles();
    EqualBoundaries(1);
    TileBoundaries(1);
    UnitsAreDiscerning(128, had, act, 2304, g, u);
    hide Boundary, CutsAtBlocks, Accepted, Lost, Discerning;
    c := UnitTiles(128, had, act);
    assert Boundary(2304, 1, 4, align) == 576;
    m, x, o := StraddlingShardsLose(c, 2304, 4, align, 1);
  }
}
