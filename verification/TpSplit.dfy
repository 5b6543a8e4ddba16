/**
 Tensor-parallel splitting of a routed expert (src/vllm_exl3/exl3.py): block-aligned uneven shards, the per-layer
 rotation of chunks over ranks, and the slices that the loader takes from each packed tensor.
 */
module TpSplit {
  import opened Options
  import opened Arithmetic

  function SumN(n: nat, f: nat -> int): int {
    if n == 0 then 0 else SumN(n - 1, f) + f(n - 1)
  }

  lemma {:induction false} SumNEqual(n: nat, f: nat -> int, g: nat -> int)
    requires forall i: nat :: i < n ==> f(i) == g(i)
    ensures SumN(n, f) == SumN(n, g)
  {
    if n > 0 { SumNEqual(n - 1, f, g); }
  }

  function From(start: nat, f: nat -> int): nat -> int {
    (i: nat) => f(start + i)
  }

  lemma FromAt(start: nat, f: nat -> int, i: nat)
    ensures From(start, f)(i) == f(start + i)
  {
  }

  lemma {:induction false} SumNSplit(a: nat, b: nat, f: nat -> int)
    ensures SumN(a + b, f) == SumN(a, f) + SumN(b, From(a, f))
  {
    if b > 0 {
      SumNSplit(a, b - 1, f);
      assert a + b - 1 == a + (b - 1);
    }
  }

  /******* Block-aligned shards *******/

  datatype Shard = Shard(offset: nat, length: nat)

  /** Blocks of rank `r`: the first `rem` ranks take one more. */
  function RankBlocks(base: nat, rem: nat): nat -> int {
    (r: nat) => base + (if r < rem then 1 else 0)
  }

  lemma {:induction false} RankBlocksBefore(r: nat, base: nat, rem: nat)
    ensures SumN(r, RankBlocks(base, rem)) == r * base + (if r < rem then r else rem)
  {
    if r > 0 { RankBlocksBefore(r - 1, base, rem); }
  }

  /** `aligned_tp_split` */
  function AlignedSplit(size: nat, rank: nat, tp: nat, align: nat): (s: Result<Shard>)
    requires align > 0 && rank < tp
  {
    if size % align != 0 then Error(ValueError)
    else
      var base, rem := size / align / tp, size / align % tp;
      RankBlocksBefore(rank, base, rem);
      Ok(Shard(SumN(rank, RankBlocks(base, rem)) * align, (base + (if rank < rem then 1 else 0)) * align))
  }

  function BeginAt(base: nat, rem: nat, align: nat, r: nat): (b: nat) {
    (r * base + (if r < rem then r else rem)) * align
  }

  /** Where rank `r`'s shard begins; the end of the last one for `r == tp`. */
  function Begin(size: nat, r: nat, tp: nat, align: nat): (b: nat)
    requires align > 0 && r <= tp && tp > 0
  {
    BeginAt(size / align / tp, size / align % tp, align, r)
  }

  lemma BeginStep(base: nat, rem: nat, align: nat, r: nat)
    ensures BeginAt(base, rem, align, r + 1)
            == BeginAt(base, rem, align, r) + (base + (if r < rem then 1 else 0)) * align
  {
    var here, more := r * base + (if r < rem then r else rem), base + (if r < rem then 1 else 0);
    assert (r + 1) * base == r * base + base;
    assert (here + more) * align == here * align + more * align;
  }

  lemma SplitIs(size: nat, rank: nat, tp: nat, align: nat)
    requires align > 0 && rank < tp && size % align == 0
    ensures var s := AlignedSplit(size, rank, tp, align);
            s.Ok? && s.value.offset == Begin(size, rank, tp, align)
              && s.value.offset + s.value.length == Begin(size, rank + 1, tp, align)
  {
    var base, rem := size / align / tp, size / align % tp;
    RankBlocksBefore(rank, base, rem);
    BeginStep(base, rem, align, rank);
  }

  lemma {:induction false} BeginsAscend(size: nat, r: nat, s: nat, tp: nat, align: nat)
    requires align > 0 && r <= s <= tp && tp > 0 && size % align == 0
    ensures Begin(size, r, tp, align) <= Begin(size, s, tp, align)
  {
    hide Begin;
    if r < s {
      BeginsAscend(size, r, s - 1, tp, align);
      SplitIs(size, s - 1, tp, align);
    }
  }

  lemma BeginEnds(size: nat, tp: nat, align: nat)
    requires align > 0 && tp > 0 && size % align == 0
    ensures Begin(size, 0, tp, align) == 0 && Begin(size, tp, tp, align) == size
  {
    var blocks := size / align;
    assert tp * (blocks / tp) + blocks % tp == blocks;
    assert blocks * align == size;
  }

  /** A shard is a whole number of blocks: the common share, or one more for the first ranks. */
  lemma ShardIsBlocks(size: nat, r: nat, tp: nat, align: nat)
    requires align > 0 && r < tp && size % align == 0
    ensures var a := AlignedSplit(size, r, tp, align);
            && a.Ok? && a.value.offset % align == 0 && a.value.length % align == 0
            && a.value.length == (size / align / tp) * align + if r < size / align % tp then align else 0
  {
    var base, rem := size / align / tp, size / align % tp;
    var n, m: nat := r * base + (if r < rem then r else rem), base + if r < rem then 1 else 0;
    SplitIsBlocks(size, r, tp, align, base, rem, n, m);
    hide AlignedSplit;
    Multiple(n, align);
    Multiple(m, align);
    assert (base + 1) * align == base * align + align;
  }

  lemma SplitIsBlocks(size: nat, r: nat, tp: nat, align: nat, base: nat, rem: nat, n: nat, m: nat)
    requires align > 0 && r < tp && size % align == 0 && base == size / align / tp && rem == size / align % tp
    requires n == r * base + (if r < rem then r else rem) && m == base + if r < rem then 1 else 0
    ensures AlignedSplit(size, r, tp, align) == Ok(Shard(n * align, m * align))
  {
    RankBlocksBefore(r, base, rem);
  }

  /**
   The shards of an aligned size follow each other without gap or overlap from zero to the size, in whole blocks, and
   no two differ by more than one block.
   */
  lemma ShardsTile(size: nat, tp: nat, align: nat, r: nat, s: nat)
    requires align > 0 && r < tp && s < tp && size % align == 0
    ensures AlignedSplit(size, r, tp, align).Ok? && AlignedSplit(size, s, tp, align).Ok?
    ensures var a, b := AlignedSplit(size, r, tp, align).value, AlignedSplit(size, s, tp, align).value;
            && a.offset % align == 0 && a.length % align == 0
            && (r == 0 ==> a.offset == 0) && (s == r + 1 ==> b.offset == a.offset + a.length)
            && (r == tp - 1 ==> a.offset + a.length == size)
            && (r < s ==> a.offset + a.length <= b.offset && b.length <= a.length <= b.length + align)
  {
    hide Begin, AlignedSplit;
    SplitIs(size, r, tp, align);
    SplitIs(size, s, tp, align);
    ShardIsBlocks(size, r, tp, align);
    ShardIsBlocks(size, s, tp, align);
    BeginEnds(size, tp, align);
    if r < s { BeginsAscend(size, r + 1, s, tp, align); }
  }

  /******* Rotation *******/

  /** `moe_tp_rotation`: `layer` is the index parsed from the layer name, if any. */
  function Rotation(enabled: bool, layer: Option<nat>, tp: nat): (rot: nat)
    ensures tp > 0 ==> rot < tp
  {
    if !enabled || tp <= 1 then 0 else match layer case Some(l) => l % tp case None => 0
  }

  function Chunk(rank: nat, rot: nat, tp: nat): (c: nat)
    requires tp > 0
    ensures c < tp
  {
    (rank + rot) % tp
  }

  function Rotated(rot: nat, tp: nat, f: nat -> int): nat -> int {
    (r: nat) => if tp == 0 then 0 else f((r + rot) % tp)
  }

  /** Every chunk goes to exactly one rank, whatever the rotation. */
  lemma RotationIsPermutation(rot: nat, tp: nat, chunk: nat)
    requires chunk < tp && rot < tp
    ensures exists r ::
              && 0 <= r < tp && Chunk(r, rot, tp) == chunk
              && forall q :: 0 <= q < tp && Chunk(q, rot, tp) == chunk ==> q == r
  {
    var r := if chunk >= rot then chunk - rot else chunk + tp - rot;
    forall q | 0 <= q < tp ensures Chunk(q, rot, tp) == if q + rot < tp then q + rot else q + rot - tp {
      Wrap(q + rot, tp);
    }
    assert Chunk(r, rot, tp) == chunk;
  }

  lemma Wrap(a: nat, m: nat)
    requires 0 < m && a < 2 * m
    ensures a % m == if a < m then a else a - m
  {
  }

  lemma RotatedAt(rot: nat, tp: nat, f: nat -> int, i: nat)
    requires rot < tp && i < tp
    ensures Rotated(rot, tp, f)(i) == f(if i + rot < tp then i + rot else i + rot - tp)
  {
    Wrap(i + rot, tp);
  }

  /** Summing over ranks does not depend on the rotation. */
  lemma RotationKeepsSums(rot: nat, tp: nat, f: nat -> int)
    requires rot < tp
    ensures SumN(tp, Rotated(rot, tp, f)) == SumN(tp, f)
  {
    hide SumN, Rotated, From;
    var g := Rotated(rot, tp, f);
    SumNSplit(tp - rot, rot, g);
    SumNSplit(rot, tp - rot, f);
    forall i: nat | i < tp - rot ensures g(i) == From(rot, f)(i) {
      RotatedAt(rot, tp, f, i);
      FromAt(rot, f, i);
    }
    forall i: nat | i < rot ensures From(tp - rot, g)(i) == f(i) {
      RotatedAt(rot, tp, f, tp - rot + i);
      FromAt(tp - rot, g, i);
    }
    SumNEqual(tp - rot, g, From(rot, f));
    SumNEqual(rot, From(tp - rot, g), f);
  }

  /******* Slices of the packed tensors *******/

  /** `tensor.narrow`, which refuses a range outside the tensor. */
  function NarrowTo<T>(tensor: seq<T>, start: nat, length: nat): (r: Result<seq<T>>) {
    if start + length <= |tensor| then Ok(tensor[start..start + length]) else Error(RuntimeError)
  }

  /** `_narrow_tp` along the split dimension; `align == 0` is the equal split. */
  function Narrow<T>(tensor: seq<T>, rank: nat, tp: nat, unit: nat, align: nat): (r: Result<seq<T>>)
    requires rank < tp && unit > 0
  {
    if tp <= 1 then Ok(tensor)
    else if align > 0 then
      if |tensor| * unit % align != 0 then Error(RuntimeError)
      else
        match AlignedSplit(|tensor| * unit, rank, tp, align)
        case Error(e) => Error(e)
        case Ok(s) => NarrowTo(tensor, s.offset / unit, s.length / unit)
    else if |tensor| % tp != 0 then Error(ValueError)
    else NarrowTo(tensor, |tensor| / tp * rank, |tensor| / tp)
  }

  lemma SplitWithin(size: nat, rank: nat, tp: nat, align: nat)
    requires align > 0 && rank < tp && size % align == 0
    ensures var s := AlignedSplit(size, rank, tp, align);
            s.Ok? && s.value.offset + s.value.length <= size
  {
    SplitIs(size, rank, tp, align);
    BeginEnds(size, tp, align);
    BeginsAscend(size, rank + 1, tp, tp, align);
  }

  lemma Inside(offset: nat, length: nat, count: nat, unit: nat)
    requires unit > 0 && offset + length <= count * unit
    ensures offset / unit + length / unit <= count
  {
    var a, b := offset / unit, length / unit;
    assert (a + b) * unit == a * unit + b * unit;
    if a + b > count { MulMono(count + 1, a + b, unit); }
  }

  lemma EqualWithin(chunk: nat, rank: nat, tp: nat)
    requires rank < tp
    ensures chunk * rank + chunk <= chunk * tp
  {
    MulMono(rank + 1, tp, chunk);
  }

  /** One projection along its split dimension: bands of 16 columns (or rows) of the trellis, and one scale for each. */
  datatype Projection<T> = Projection(trellis: seq<T>, scale: seq<int>)
  datatype Mlp<T> = Mlp(width: nat, gate: Projection<T>, up: Projection<T>, down: Projection<T>)

  predicate Shaped<T>(p: Projection<T>, width: nat) {
    |p.trellis| * 16 == width && |p.scale| == width
  }

  predicate WellShaped<T>(m: Mlp<T>) {
    Shaped(m.gate, m.width) && Shaped(m.up, m.width) && Shaped(m.down, m.width)
  }

  /** `shard_exl3_col` for gate and up (`svh`), `shard_exl3_row` for down (`suh`). */
  function ShardProjection<T>(p: Projection<T>, rank: nat, tp: nat, align: nat): (r: Result<Projection<T>>)
    requires rank < tp
  {
    match Narrow(p.trellis, rank, tp, 16, align)
    case Error(e) => Error(e)
    case Ok(trellis) =>
      match Narrow(p.scale, rank, tp, 1, align)
      case Error(e) => Error(e)
      case Ok(scale) => Ok(Projection(trellis, scale))
  }

  /** The width `create_weights` allocates; vLLM hands it the equal share `part`. */
  function AllocatedWidth(part: nat, rank: nat, tp: nat, align: nat): nat
    requires rank < tp
  {
    if align > 0 && tp > 1 && part * tp % align == 0 then AlignedSplit(part * tp, rank, tp, align).value.length
      else part
  }

  /** The aligned slice is the shard in units of the tensor, refused exactly when the blocks do not divide the size. */
  lemma NarrowIs<T>(tensor: seq<T>, rank: nat, tp: nat, unit: nat, align: nat)
    requires rank < tp && tp > 1 && unit > 0 && align > 0
    ensures |tensor| * unit % align != 0 ==> Narrow(tensor, rank, tp, unit, align) == Error(RuntimeError)
    ensures |tensor| * unit % align == 0 ==>
              var a, b := Begin(|tensor| * unit, rank, tp, align), Begin(|tensor| * unit, rank + 1, tp, align);
              && a <= b <= |tensor| * unit && a / unit + (b - a) / unit <= |tensor|
              && Narrow(tensor, rank, tp, unit, align) == Ok(tensor[a / unit..a / unit + (b - a) / unit])
  {
    if |tensor| * unit % align == 0 {
      SplitIs(|tensor| * unit, rank, tp, align);
      SplitWithin(|tensor| * unit, rank, tp, align);
      var s := AlignedSplit(|tensor| * unit, rank, tp, align).value;
      Inside(s.offset, s.length, |tensor|, unit);
    }
  }

  /**
   Under any alignment a projection is sliced unless the blocks do not divide its width, and the scales then have the
   width that `create_weights` allocated.  The trellis has it too exactly when that width is whole tiles, which
   `create_weights` demands.
   */
  lemma SlicesMatchTheAllocation<T>(p: Projection<T>, part: nat, rank: nat, tp: nat, align: nat)
    requires rank < tp && tp > 1 && align > 0 && Shaped(p, part * tp)
    ensures ShardProjection(p, rank, tp, align) == Error(RuntimeError) <==> part * tp % align != 0
    ensures part * tp % align == 0 ==>
              var a, b := Begin(part * tp, rank, tp, align), Begin(part * tp, rank + 1, tp, align);
              && a <= b <= part * tp && b - a == AllocatedWidth(part, rank, tp, align)
              && a / 16 + (b - a) / 16 <= |p.trellis|
              && ShardProjection(p, rank, tp, align)
                == Ok(Projection(p.trellis[a / 16..a / 16 + (b - a) / 16], p.scale[a..b]))
              && (Shaped(ShardProjection(p, rank, tp, align).value, b - a) <==> (b - a) % 16 == 0)
  {
    hide Begin, Narrow, AlignedSplit;
    NarrowIs(p.trellis, rank, tp, 16, align);
    NarrowIs(p.scale, rank, tp, 1, align);
    if part * tp % align == 0 { SplitIs(part * tp, rank, tp, align); }
  }

  lemma EqualNarrow<T>(tensor: seq<T>, rank: nat, tp: nat, unit: nat)
    requires rank < tp && tp > 1 && unit > 0
    ensures |tensor| % tp != 0 ==> Narrow(tensor, rank, tp, unit, 0) == Error(ValueError)
    ensures |tensor| % tp == 0 ==>
              var chunk := |tensor| / tp;
              chunk * rank + chunk <= |tensor|
                && Narrow(tensor, rank, tp, unit, 0) == Ok(tensor[chunk * rank..chunk * rank + chunk])
  {
    EqualWithin(|tensor| / tp, rank, tp);
  }

  lemma EqualBands(bands: nat, part: nat, tp: nat)
    requires tp > 0 && bands * 16 == part * tp
    ensures bands % tp == 0 <==> part % 16 == 0
    ensures part % 16 == 0 ==> bands / tp * 16 == part
  {
    if part % 16 == 0 {
      var c := part / 16;
      assert (c * tp) * 16 == (c * 16) * tp;
      Multiple(c, tp);
    } else if bands % tp == 0 {
      var chunk := bands / tp;
      assert chunk * tp * 16 == (chunk * 16) * tp;
      Multiple(chunk * 16, tp);
      Multiple(part, tp);
    }
  }

  /** The equal split: refused exactly when it would cut a tile, and then the columns that vLLM announced. */
  lemma EqualSlicesMatchTheAllocation<T>(p: Projection<T>, part: nat, rank: nat, tp: nat)
    requires rank < tp && tp > 1 && Shaped(p, part * tp)
    ensures ShardProjection(p, rank, tp, 0) == Error(ValueError) <==> part % 16 != 0
    ensures part % 16 == 0 ==>
              var a, b := part * rank, part * (rank + 1);
              && a <= b <= part * tp && b - a == AllocatedWidth(part, rank, tp, 0) && a / 16 <= b / 16 <= |p.trellis|
              && ShardProjection(p, rank, tp, 0) == Ok(Projection(p.trellis[a / 16..b / 16], p.scale[a..b]))
              && Shaped(ShardProjection(p, rank, tp, 0).value, part)
  {
    hide Narrow;
    EqualNarrow(p.trellis, rank, tp, 16);
    EqualNarrow(p.scale, rank, tp, 1);
    Multiple(part, tp);
    EqualBands(|p.trellis|, part, tp);
    EqualWithin(part, rank, tp);
    assert part * (rank + 1) == part * rank + part;
    if part % 16 == 0 {
      var chunk := |p.trellis| / tp;
      assert chunk * 16 * rank == chunk * rank * 16;
      assert part * rank / 16 == chunk * rank;
      assert (chunk * rank + chunk) * 16 == part * (rank + 1);
    }
  }

  /******* Which geometries the loader takes, and where it cuts *******/

  /** Where chunk `q` begins: at a block of the alignment, or at an equal part; the width for `q == tp`. */
  function Boundary(width: nat, q: nat, tp: nat, align: nat): (b: nat)
    requires tp > 0 && q <= tp
  {
    if align > 0 then Begin(width, q, tp, align) else width / tp * q
  }

  /** Every chunk begins and ends at a whole number of tiles, and the blocks, if any, divide the width. */
  ghost predicate Accepted(width: nat, tp: nat, align: nat)
    requires tp > 0
  {
    && width % 16 == 0 && width % tp == 0 && (align > 0 ==> width % align == 0)
    && forall q: nat :: q <= tp ==> Boundary(width, q, tp, align) % 16 == 0
  }

  lemma BoundariesAscend(width: nat, q: nat, r: nat, tp: nat, align: nat)
    requires tp > 0 && q <= r <= tp && width % tp == 0 && (align > 0 ==> width % align == 0)
    ensures Boundary(width, q, tp, align) <= Boundary(width, r, tp, align) <= width
    ensures Boundary(width, 0, tp, align) == 0 && Boundary(width, tp, tp, align) == width
  {
    if align > 0 {
      hide Begin;
      BeginsAscend(width, q, r, tp, align);
      BeginsAscend(width, r, tp, tp, align);
      BeginEnds(width, tp, align);
    } else {
      MulMono(q, r, width / tp);
      MulMono(r, tp, width / tp);
    }
  }

  lemma BoundaryStep(part: nat, q: nat, tp: nat, align: nat)
    requires q < tp && tp > 1 && (align > 0 ==> part * tp % align == 0)
    ensures Boundary(part * tp, q + 1, tp, align)
            == Boundary(part * tp, q, tp, align) + AllocatedWidth(part, q, tp, align)
  {
    if align > 0 {
      SplitIs(part * tp, q, tp, align);
    } else {
      Multiple(part, tp);
      assert part * (q + 1) == part * q + part;
    }
  }

  lemma {:induction false} WholeWidthsBefore(part: nat, q: nat, tp: nat, align: nat, h: nat)
    requires q <= tp && tp > 1 && h > 0 && (align > 0 ==> part * tp % align == 0)
    requires forall r: nat :: r < tp ==> AllocatedWidth(part, r, tp, align) % h == 0
    ensures Boundary(part * tp, q, tp, align) % h == 0
  {
    hide Boundary, AllocatedWidth;
    if q == 0 {
      Multiple(part, tp);
      BoundariesAscend(part * tp, 0, 0, tp, align);
    } else {
      WholeWidthsBefore(part, q - 1, tp, align, h);
      BoundaryStep(part, q - 1, tp, align);
      var a, d := Boundary(part * tp, q - 1, tp, align), AllocatedWidth(part, q - 1, tp, align);
      Quotient(a + d, a / h + d / h, 0, h);
    }
  }

  lemma EqualBoundary(part: nat, q: nat, tp: nat)
    requires tp > 0 && q <= tp
    ensures Boundary(part * tp, q, tp, 0) == part * q
  {
    Multiple(part, tp);
  }

  lemma TileBoundary(width: nat, q: nat, tp: nat, align: nat)
    requires tp > 0 && q <= tp && Accepted(width, tp, align)
    ensures Boundary(width, q, tp, align) % 16 == 0 && (align > 0 ==> width % align == 0)
  {
  }

  /** What a rank cuts from a projection: the columns between its boundaries, when the loader takes the geometry. */
  lemma SliceIsBetweenBoundaries<T>(p: Projection<T>, part: nat, rank: nat, tp: nat, align: nat)
    requires rank < tp && tp > 1 && Shaped(p, part * tp) && Accepted(part * tp, tp, align)
    ensures var a, b := Boundary(part * tp, rank, tp, align), Boundary(part * tp, rank + 1, tp, align);
            && a <= b <= part * tp && a % 16 == 0 && b % 16 == 0 && AllocatedWidth(part, rank, tp, align) == b - a
            && ShardProjection(p, rank, tp, align) == Ok(Projection(p.trellis[a / 16..b / 16], p.scale[a..b]))
  {
    hide ShardProjection, Accepted, AllocatedWidth;
    TileBoundary(part * tp, rank, tp, align);
    TileBoundary(part * tp, rank + 1, tp, align);
    if align > 0 {
      SlicesMatchTheAllocation(p, part, rank, tp, align);
    } else {
      hide Boundary;
      TileBoundary(part * tp, 1, tp, align);
      EqualBoundary(part, 1, tp);
      EqualBoundary(part, rank, tp);
      EqualBoundary(part, rank + 1, tp);
      EqualSlicesMatchTheAllocation(p, part, rank, tp);
    }
  }

  /** Every rank gets its slices and a local width of whole tiles. */
  ghost predicate Loaded<T>(p: Projection<T>, part: nat, tp: nat, align: nat) {
    forall r: nat :: r < tp ==> ShardProjection(p, r, tp, align).Ok? && AllocatedWidth(part, r, tp, align) % 16 == 0
  }

  lemma LoadedIsAccepted<T>(p: Projection<T>, part: nat, tp: nat, align: nat)
    requires tp > 1 && Shaped(p, part * tp) && Loaded(p, part, tp, align)
    ensures Accepted(part * tp, tp, align)
  {
    hide ShardProjection, AllocatedWidth, Boundary;
    Multiple(part, tp);
    assert ShardProjection(p, 0, tp, align).Ok?;
    if align > 0 { SlicesMatchTheAllocation(p, part, 0, tp, align); }
    forall q: nat | q <= tp ensures Boundary(part * tp, q, tp, align) % 16 == 0 {
      WholeWidthsBefore(part, q, tp, align, 16);
    }
  }

  /** The loader takes a geometry exactly when no rank refuses its slices or its local width. */
  lemma AcceptedIsLoaded<T>(p: Projection<T>, part: nat, tp: nat, align: nat)
    requires tp > 1 && Shaped(p, part * tp)
    ensures Accepted(part * tp, tp, align) <==> Loaded(p, part, tp, align)
  {
    hide Shaped, Accepted, ShardProjection, AllocatedWidth, Boundary;
    if Loaded(p, part, tp, align) { LoadedIsAccepted(p, part, tp, align); }
    if Accepted(part * tp, tp, align) {
      forall r: nat | r < tp
        ensures ShardProjection(p, r, tp, align).Ok? && AllocatedWidth(part, r, tp, align) % 16 == 0
      {
        SliceIsBetweenBoundaries(p, part, r, tp, align);
      }
    }
  }

  /** No chunk ends inside a block of `h` columns, the last block of an uneven width included. */
  ghost predicate CutsAtBlocks(width: nat, tp: nat, align: nat, h: nat)
    requires tp > 0 && h > 0
  {
    forall q: nat :: q <= tp ==> var b := Boundary(width, q, tp, align); b % h == 0 || b == width
  }

  /** An alignment of whole Hadamard blocks never cuts one. */
  lemma AlignedCutsAtBlocks(width: nat, tp: nat, align: nat, h: nat)
    requires tp > 0 && h > 0 && align > 0 && align % h == 0 && width % align == 0
    ensures CutsAtBlocks(width, tp, align, h)
  {
    forall q: nat | q <= tp ensures Boundary(width, q, tp, align) % h == 0 {
      var base, rem := width / align / tp, width / align % tp;
      var n := q * base + if q < rem then q else rem;
      Multiple(n, align);
      Divides(n * align, align, h);
    }
  }

  /** The equal split cuts no Hadamard block exactly when each rank's part is whole blocks. */
  lemma EqualCutsAtBlocks(part: nat, tp: nat, h: nat)
    requires tp > 1 && h > 0
    ensures CutsAtBlocks(part * tp, tp, 0, h) <==> part % h == 0
  {
    Multiple(part, tp);
    if part % h == 0 {
      forall q: nat | q <= tp ensures Boundary(part * tp, q, tp, 0) % h == 0 {
        assert part * q == (part / h * q) * h;
        Multiple(part / h * q, h);
      }
    } else {
      assert Boundary(part * tp, 1, tp, 0) == part;
      MulMono(2, tp, part);
    }
  }

  /** The store for exact widths demands local widths of whole blocks, and then no block is cut. */
  lemma WholeWidthsCutAtBlocks(part: nat, tp: nat, align: nat, h: nat)
    requires tp > 1 && h > 0 && (align > 0 ==> part * tp % align == 0)
    requires forall r: nat :: r < tp ==> AllocatedWidth(part, r, tp, align) % h == 0
    ensures CutsAtBlocks(part * tp, tp, align, h)
  {
    forall q: nat | q <= tp ensures Boundary(part * tp, q, tp, align) % h == 0 {
      WholeWidthsBefore(part, q, tp, align, h);
    }
  }

  /** Width 2304 over four ranks: equal parts and tiles of 16 cut Hadamard blocks of 128, blocks of 128 do not. */
  lemma DefaultSplitStraddles()
    ensures Accepted(2304, 4, 0) && !CutsAtBlocks(2304, 4, 0, 128)
    ensures Accepted(2304, 4, 16) && !CutsAtBlocks(2304, 4, 16, 128)
    ensures Accepted(2304, 4, 128) && CutsAtBlocks(2304, 4, 128, 128)
  {
    hide CutsAtBlocks, Boundary;
    EqualCutsAtBlocks(576, 4, 128);
    AlignedCutsAtBlocks(2304, 4, 128, 128);
    forall q: nat | q <= 4 ensures Boundary(2304, q, 4, 0) == 576 * q { EqualBoundaries(q); }
    forall q: nat | q <= 4 ensures Boundary(2304, q, 4, 16) == 576 * q { TileBoundaries(q); }
    forall q: nat | q <= 4 ensures Boundary(2304, q, 4, 128) == 512 * q + 128 * (if q < 2 then q else 2) {
      BlockBoundaries(q);
    }
    TilesStraddle();
  }

  lemma TilesStraddle()
    ensures !CutsAtBlocks(2304, 4, 16, 128)
  {
    TileBoundaries(1);
  }

  lemma EqualBoundaries(q: nat)
    requires q <= 4
    ensures Boundary(2304, q, 4, 0) == 576 * q
  {
  }

  lemma TileBoundaries(q: nat)
    requires q <= 4
    ensures Boundary(2304, q, 4, 16) == 576 * q
  {
    assert 2304 / 16 / 4 == 36 && 2304 / 16 % 4 == 0;
  }

  /** The chunks of 640, 640, 512 and 512 columns. */
  lemma BlockBoundaries(q: nat)
    requires q <= 4
    ensures Boundary(2304, q, 4, 128) == 512 * q + 128 * (if q < 2 then q else 2)
  {
    assert 2304 / 128 / 4 == 4 && 2304 / 128 % 4 == 2;
  }
}
