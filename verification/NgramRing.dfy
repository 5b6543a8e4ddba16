/**
 The ring bitstream of packed n-gram rows (src/vllm_exl3/exl3.py, `_ngram_bit_tables` and `ngram_dequant_rows_torch`):
 a row is one scale word and then `dim` symbols of `k` bits each, in 16-bit words; the decoder's state for element `i`
 gathers 16 bits that run backwards around the ring.
 */
module NgramRing {
  import opened Arithmetic

  const NGRAM_ROW_DIM := 160

  type Word = w: int | 0 <= w < 65536

  /******* Bits and values *******/

  function Pow2(n: nat): (p: nat)
    ensures p >= 1
  {
    if n == 0 then 1 else 2 * Pow2(n - 1)
  }

  type Bit = b: int | 0 <= b < 2

  /** The number whose bit `m` is `f(m)`, for `m < n`. */
  function Value(f: nat -> Bit, n: nat): (v: nat)
    ensures v < Pow2(n)
  {
    if n == 0 then 0 else Value(f, n - 1) + f(n - 1) * Pow2(n - 1)
  }

  function Shifted(f: nat -> Bit, up: nat): nat -> Bit {
    (m: nat) => f(up + m)
  }

  lemma {:induction false} Pow2Adds(a: nat, b: nat)
    ensures Pow2(a + b) == Pow2(a) * Pow2(b)
  {
    if b > 0 {
      Pow2Adds(a, b - 1);
      assert a + b - 1 == a + (b - 1);
    }
  }

  lemma {:induction false} ValueEqual(f: nat -> Bit, g: nat -> Bit, n: nat)
    requires forall m: nat :: m < n ==> f(m) == g(m)
    ensures Value(f, n) == Value(g, n)
  {
    if n > 0 { ValueEqual(f, g, n - 1); }
  }

  lemma {:induction false} ValueSplits(f: nat -> Bit, a: nat, b: nat)
    ensures Value(f, a + b) == Value(f, a) + Value(Shifted(f, a), b) * Pow2(a)
  {
    hide Pow2;
    if b > 0 {
      ValueSplits(f, a, b - 1);
      Pow2Adds(a, b - 1);
      assert a + b - 1 == a + (b - 1);
      Regroup(Value(Shifted(f, a), b - 1), f(a + (b - 1)), Pow2(a), Pow2(b - 1));
    }
  }

  lemma Regroup(high: nat, bit: nat, a: nat, b: nat)
    ensures high * a + bit * (a * b) == (high + bit * b) * a
  {
    assert bit * (a * b) == (bit * b) * a;
  }

  lemma ValueOfOne(f: nat -> Bit)
    ensures Value(f, 1) == f(0)
  {
    assert Value(f, 1) == Value(f, 0) + f(0) * Pow2(0);
  }

  lemma Pow2Next(n: nat)
    ensures Pow2(n + 1) == 2 * Pow2(n) && Pow2(0) == 1 && Pow2(1) == 2
  {
    assert Pow2(1) == 2 * Pow2(0);
  }

  /** Reading a bit back out of the number. */
  lemma ValueBit(f: nat -> Bit, n: nat, m: nat)
    requires m < n
    ensures Value(f, n) / Pow2(m) % 2 == f(m)
  {
    hide Value, Pow2;
    var rest := n - m - 1;
    ValueSplits(f, m, rest + 1);
    ValueSplits(Shifted(f, m), 1, rest);
    ValueOfOne(Shifted(f, m));
    Pow2Next(0);
    var high := Value(Shifted(f, m), rest + 1);
    var higher := Value(Shifted(Shifted(f, m), 1), rest);
    assert 1 + rest == rest + 1 && m + (rest + 1) == n;
    Quotient(Value(f, n), high, Value(f, m), Pow2(m));
    Quotient(high, higher, f(m), 2);
  }

  /******* The gather tables *******/

  /** `_ngram_bit_tables`: the stream position of bit `m` of element `i`, then its word and its bit in the word. */
  function StreamPos(i: nat, m: nat, k: nat, dim: nat): (p: nat)
    requires k > 0 && dim > 0
    ensures p < dim * k
  {
    var pos := (i - m / k) % dim;
    InStream(pos, m % k, k, dim);
    pos * k + m % k
  }

  lemma InStream(pos: nat, b: nat, k: nat, dim: nat)
    requires pos < dim && b < k
    ensures pos * k + b < dim * k
  {
    MulMono(pos + 1, dim, k);
    assert (pos + 1) * k == pos * k + k;
  }

  function WordIndex(i: nat, m: nat, k: nat, dim: nat): nat
    requires k > 0 && dim > 0
  {
    1 + StreamPos(i, m, k, dim) / 16
  }

  function BitIndex(i: nat, m: nat, k: nat, dim: nat): nat
    requires k > 0 && dim > 0
  {
    StreamPos(i, m, k, dim) % 16
  }

  /** Words of a row: the scale, then enough for the stream. */
  function WordsPerRow(k: nat, dim: nat): nat { 1 + (dim * k + 15) / 16 }

  lemma NgramWordsPerRow(k: nat)
    ensures WordsPerRow(k, NGRAM_ROW_DIM) == 1 + NGRAM_ROW_DIM * k / 16
  {
    assert NGRAM_ROW_DIM * k == (10 * k) * 16;
  }

  /** Bit `p` of the stream behind the scale word. */
  function StreamBit(row: seq<Word>, p: nat): Bit {
    if 1 + p / 16 < |row| then row[1 + p / 16] / Pow2(p % 16) % 2 else 0
  }

  function StateBits(row: seq<Word>, i: nat, k: nat, dim: nat): nat -> Bit
    requires k > 0 && dim > 0
  {
    (m: nat) => StreamBit(row, StreamPos(i, m, k, dim))
  }

  /** The decoder's 16-bit state for element `i`. */
  function StateOf(row: seq<Word>, i: nat, k: nat, dim: nat): (s: nat)
    requires k > 0 && dim > 0
    ensures s < Pow2(16)
  {
    Value(StateBits(row, i, k, dim), 16)
  }

  function SymbolBits(row: seq<Word>, i: nat, k: nat): nat -> Bit {
    (b: nat) => StreamBit(row, i * k + b)
  }

  /** The `k`-bit symbol at ring position `i`. */
  function Symbol(row: seq<Word>, i: nat, k: nat): (s: nat)
    ensures s < Pow2(k)
  {
    Value(SymbolBits(row, i, k), k)
  }

  /** The element before `i` on the ring. */
  function Previous(i: nat, dim: nat): (j: nat)
    requires i < dim
    ensures j < dim
  {
    if i == 0 then dim - 1 else i - 1
  }

  /******* One step around the ring *******/

  lemma WrapsBack(i: nat, dim: nat, t: nat)
    requires i < dim
    ensures (i - (1 + t)) % dim == (Previous(i, dim) - t) % dim
  {
    if i == 0 { AddMultiple(0 - 1 - t, dim); }
  }

  lemma AddMultiple(a: int, b: nat)
    requires b > 0
    ensures (a + b) % b == a % b
  {
    var q, r := a / b, a % b;
    assert a + b == (q + 1) * b + r;
    Quotient(a + b, q + 1, r, b);
  }

  /** The low `k` bits of a state are its own symbol; every other bit is the previous state's, `k` places up. */
  lemma StateBitsShift(row: seq<Word>, i: nat, k: nat, dim: nat, m: nat)
    requires 0 < k && i < dim
    ensures m < k ==> StateBits(row, i, k, dim)(m) == SymbolBits(row, i, k)(m)
    ensures StateBits(row, i, k, dim)(k + m) == StateBits(row, Previous(i, dim), k, dim)(m)
  {
    hide StreamBit;
    OwnPosition(i, m, k, dim);
    PreviousPosition(i, m, k, dim);
  }

  lemma OwnPosition(i: nat, m: nat, k: nat, dim: nat)
    requires 0 < k && i < dim
    ensures m < k ==> StreamPos(i, m, k, dim) == i * k + m
  {
    if m < k {
      Quotient(m, 0, m, k);
      Quotient(i, 0, i, dim);
    }
  }

  lemma PreviousPosition(i: nat, m: nat, k: nat, dim: nat)
    requires 0 < k && i < dim
    ensures StreamPos(i, k + m, k, dim) == StreamPos(Previous(i, dim), m, k, dim)
  {
    OneRoundMore(m, k);
    WrapsBack(i, dim, m / k);
  }

  lemma OneRoundMore(m: nat, k: nat)
    requires 0 < k
    ensures (k + m) / k == 1 + m / k && (k + m) % k == m % k
  {
    Quotient(k + m, 1 + m / k, m % k, k);
  }

  /**
   For every ring length, every symbol width up to 16 and every stream, each state is the previous one shifted up by
   one symbol, with its own symbol below, cut to 16 bits; the ring closes on itself.
   */
  lemma StatesFollowTheRing(row: seq<Word>, i: nat, k: nat, dim: nat)
    requires 0 < k <= 16 && i < dim
    ensures StateOf(row, i, k, dim) == (StateOf(row, Previous(i, dim), k, dim) * Pow2(k) + Symbol(row, i, k)) % Pow2(16)
    ensures StateOf(row, i, k, dim) % Pow2(k) == Symbol(row, i, k)
  {
    hide Value, Pow2, StateBits, SymbolBits;
    var own, before, rest := StateBits(row, i, k, dim), StateBits(row, Previous(i, dim), k, dim), 16 - k;
    forall m: nat | m < k ensures own(m) == SymbolBits(row, i, k)(m) { StateBitsShift(row, i, k, dim, m); }
    forall m: nat | m < rest ensures Shifted(own, k)(m) == before(m) { StateBitsShift(row, i, k, dim, m); }
    ValueEqual(own, SymbolBits(row, i, k), k);
    ValueEqual(Shifted(own, k), before, rest);
    ValueSplits(own, k, rest);
    ValueSplits(before, rest, k);
    Pow2Adds(rest, k);
    assert k + rest == 16 && rest + k == 16;
    Cut(StateOf(row, i, k, dim), Value(before, rest), Value(Shifted(before, rest), k), Symbol(row, i, k), Pow2(k),
        Pow2(rest));
  }

  lemma Cut(state: nat, low: nat, high: nat, sym: nat, a: nat, b: nat)
    requires sym < a && low < b && state == sym + low * a && state < b * a
    ensures state == ((low + high * b) * a + sym) % (b * a)
    ensures state % a == sym
  {
    assert (high * b) * a == high * (b * a);
    assert (low + high * b) * a == low * a + (high * b) * a;
    Quotient((low + high * b) * a + sym, high, state, b * a);
    Quotient(state, low, sym, a);
  }

  /******* Packing *******/

  /** Bit `p` of the stream of the given symbols. */
  function PackedBit(symbols: seq<nat>, k: nat, p: nat): Bit
    requires k > 0
  {
    if p / k < |symbols| then symbols[p / k] / Pow2(p % k) % 2 else 0
  }

  function WordBits(symbols: seq<nat>, k: nat, j: nat): nat -> Bit
    requires k > 0
  {
    (b: nat) => PackedBit(symbols, k, 16 * j + b)
  }

  /** A row in this format: the scale word, then the symbols' bits in order, 16 to a word. */
  function PackRow(scale: Word, symbols: seq<nat>, k: nat): (row: seq<Word>)
    requires k > 0
    ensures |row| == WordsPerRow(k, |symbols|)
  {
    Pow2Of16();
    [scale] + seq((|symbols| * k + 15) / 16, j requires 0 <= j < (|symbols| * k + 15) / 16 =>
      Value(WordBits(symbols, k, j), 16))
  }

  lemma Pow2Of16()
    ensures Pow2(16) == 65536
  {
    assert Pow2(8) == 256;
    Pow2Adds(8, 8);
  }

  lemma PackedStream(scale: Word, symbols: seq<nat>, k: nat, p: nat)
    requires k > 0 && p < |symbols| * k
    ensures StreamBit(PackRow(scale, symbols, k), p) == PackedBit(symbols, k, p)
  {
    hide Value, Pow2, PackedBit;
    var row := PackRow(scale, symbols, k);
    ValueBit(WordBits(symbols, k, p / 16), 16, p % 16);
    assert row[1 + p / 16] == Value(WordBits(symbols, k, p / 16), 16);
    assert 16 * (p / 16) + p % 16 == p;
  }

  /** A number is the value of its own bits. */
  lemma {:induction false} ValueOfBits(v: nat, f: nat -> Bit, n: nat)
    requires v < Pow2(n) && forall m: nat :: m < n ==> f(m) == v / Pow2(m) % 2
    ensures Value(f, n) == v
  {
    if n > 0 {
      var half := Pow2(n - 1);
      var low, top := v % half, v / half;
      TopBit(v, half);
      forall m: nat | m < n - 1 ensures f(m) == low / Pow2(m) % 2 { LowBit(v, low, top, n - 1, m); }
      ValueOfBits(low, f, n - 1);
    }
  }

  lemma TopBit(v: nat, half: nat)
    requires v < 2 * half
    ensures v / half <= 1 && v / half % 2 == v / half && v == v / half * half + v % half
  {
    var top, low := v / half, v % half;
    assert v == top * half + low;
    if top >= 2 { MulMono(2, top, half); }
  }

  lemma LowBit(v: nat, low: nat, top: nat, n: nat, m: nat)
    requires m < n && v == top * Pow2(n) + low && low < Pow2(n)
    ensures v / Pow2(m) % 2 == low / Pow2(m) % 2
  {
    hide Pow2;
    Pow2Adds(m, n - m);
    Pow2Next(n - m - 1);
    var c := Pow2(n - m - 1);
    assert m + (n - m) == n;
    HigherBits(v, low, top, Pow2(m), c);
  }

  lemma HigherBits(v: nat, low: nat, top: nat, a: nat, c: nat)
    requires a > 0 && v == top * (a * (2 * c)) + low
    ensures v / a % 2 == low / a % 2
  {
    var q, r, high := low / a, low % a, (top * c) * 2;
    assert top * (a * (2 * c)) == high * a;
    assert (high + q) * a == high * a + q * a;
    Quotient(v, high + q, r, a);
    Quotient(high + q, top * c + q / 2, q % 2, 2);
  }

  /**
   Packing and decoding is the identity on symbols: the low `k` bits of every state are the symbol that was packed at
   its position.
   */
  lemma PackedSymbolsComeBack(scale: Word, symbols: seq<nat>, k: nat, i: nat)
    requires 0 < k <= 16 && i < |symbols| && forall j :: 0 <= j < |symbols| ==> symbols[j] < Pow2(k)
    ensures PackRow(scale, symbols, k)[0] == scale
    ensures StateOf(PackRow(scale, symbols, k), i, k, |symbols|) % Pow2(k) == symbols[i]
  {
    hide StateOf, Value, Pow2, StreamBit;
    var row := PackRow(scale, symbols, k);
    StatesFollowTheRing(row, i, k, |symbols|);
    forall b: nat | b < k ensures SymbolBits(row, i, k)(b) == symbols[i] / Pow2(b) % 2 {
      PackedSymbolBit(scale, symbols, k, i, b);
    }
    ValueOfBits(symbols[i], SymbolBits(row, i, k), k);
  }

  lemma PackedSymbolBit(scale: Word, symbols: seq<nat>, k: nat, i: nat, b: nat)
    requires b < k && i < |symbols|
    ensures SymbolBits(PackRow(scale, symbols, k), i, k)(b) == symbols[i] / Pow2(b) % 2
  {
    hide StreamBit, Pow2, PackRow;
    InStream(i, b, k, |symbols|);
    Quotient(i * k + b, i, b, k);
    PackedStream(scale, symbols, k, i * k + b);
  }

  /******* The decoder *******/

  /** Codebook, scale and bias are arithmetic the model leaves open. */
  type Finish = (nat, Word, nat, nat) -> int

  /** Element `i` of the decoded row. */
  function Decoded(row: seq<Word>, head: nat, k: nat, finish: Finish): (vals: seq<int>)
    requires k > 0 && row != []
    ensures |vals| == NGRAM_ROW_DIM
    ensures forall i :: 0 <= i < NGRAM_ROW_DIM ==> vals[i] == finish(StateOf(row, i, k, NGRAM_ROW_DIM), row[0], head, i)
  {
    seq(NGRAM_ROW_DIM, i requires 0 <= i < NGRAM_ROW_DIM => finish(StateOf(row, i, k, NGRAM_ROW_DIM), row[0], head, i))
  }

  /** `ngram_dequant_rows_torch`: chunks of rows, each decoded through the gather tables. */
  method DequantRows(packed: seq<seq<Word>>, k: nat, heads: seq<nat>, finish: Finish, chunk: nat)
    returns (out: seq<seq<int>>)
    requires 0 < k && 0 < chunk && |heads| == |packed|
    requires forall r :: 0 <= r < |packed| ==> |packed[r]| == WordsPerRow(k, NGRAM_ROW_DIM)
    ensures |out| == |packed| && forall r :: 0 <= r < |packed| ==>
              packed[r] != [] && out[r] == Decoded(packed[r], heads[r], k, finish)
  {
    out := [];
    var s := 0;
    while s < |packed|
      invariant 0 <= s && |out| == if s <= |packed| then s else |packed|
      invariant forall r :: 0 <= r < |out| ==> out[r] == Decoded(packed[r], heads[r], k, finish)
    {
      var e := if s + chunk < |packed| then s + chunk else |packed|;
      for r := s to e
        invariant |out| == r && forall q :: 0 <= q < r ==> out[q] == Decoded(packed[q], heads[q], k, finish)
      {
        var row := DequantRow(packed[r], k, heads[r], finish);
        out := out + [row];
      }
      s := s + chunk;
    }
  }

  method DequantRow(row: seq<Word>, k: nat, head: nat, finish: Finish) returns (vals: seq<int>)
    requires 0 < k && |row| == WordsPerRow(k, NGRAM_ROW_DIM)
    ensures vals == Decoded(row, head, k, finish)
  {
    hide StateOf;
    vals := [];
    for i := 0 to NGRAM_ROW_DIM
      invariant |vals| == i
      invariant forall j :: 0 <= j < i ==> vals[j] == finish(StateOf(row, j, k, NGRAM_ROW_DIM), row[0], head, j)
    {
      var state := GatherState(row, k, i);
      vals := vals + [finish(state, row[0], head, i)];
    }
  }

  /** `(((words >> bidx) & 1) << shifts).sum(-1)` */
  method GatherState(row: seq<Word>, k: nat, i: nat) returns (state: nat)
    requires 0 < k && |row| == WordsPerRow(k, NGRAM_ROW_DIM)
    ensures state == StateOf(row, i, k, NGRAM_ROW_DIM)
  {
    hide Pow2, StreamPos;
    var weight: nat := 1;
    state := 0;
    Pow2Next(0);
    for m := 0 to 16
      invariant weight == Pow2(m) && state == Value(StateBits(row, i, k, NGRAM_ROW_DIM), m)
    {
      Pow2Next(m);
      state := state + row[WordIndex(i, m, k, NGRAM_ROW_DIM)] / Pow2(BitIndex(i, m, k, NGRAM_ROW_DIM)) % 2 * weight;
      weight := weight * 2;
    }
  }
}
