/** Reading back what Close leaves in the file. */
module RoundTrip {
  import opened Bytes
  import opened ChunkIds
  import opened Ds64
  import opened RiffLayout
  import opened RiffReader

  // ---------------------------------------------------------------------------
  // A file as a run of chunks
  // ---------------------------------------------------------------------------

  /** A chunk on file, other than RIFF and WAVE: its identifier and its data. */
  datatype Item = Item(id: Word, data: seq<Byte>)

  function ItemBytes(it: Item): (bs: seq<Byte>)
    ensures |bs| == 8 + |it.data| + PadLength(|it.data|)
  {
    Header(it.id, |it.data|) + it.data + Pad(|it.data|)
  }

  function ItemsBytes(items: seq<Item>): seq<Byte> {
    if items == [] then [] else ItemBytes(items[0]) + ItemsBytes(items[1..])
  }

  lemma {:induction false} ItemsAppend(xs: seq<Item>, ys: seq<Item>)
    ensures ItemsBytes(xs + ys) == ItemsBytes(xs) + ItemsBytes(ys)
  {
    if xs == [] {
      assert xs + ys == ys;
    } else {
      assert (xs + ys)[1..] == xs[1..] + ys;
      ItemsAppend(xs[1..], ys);
    }
  }

  /** What reading an item at `pos` should give. */
  function Read(it: Item, pos: nat): Found {
    Found(it.id, |it.data|, pos, pos + 8, if Loads(it.id) then Some(it.data) else None)
  }

  function ReadAll(items: seq<Item>, pos: nat): seq<Found> {
    if items == [] then [] else [Read(items[0], pos)] + ReadAll(items[1..], pos + |ItemBytes(items[0])|)
  }

  /** The reader finds the true length of the item, and accepts its data. */
  predicate Readable(it: Item, ds64: Option<seq<Word>>) {
    && it.id != RIFF_ID && it.id != RF64_ID && it.id != WAVE_ID
    && Resolve(ds64, it.id, Min(|it.data|, MAX_SIZE)) == |it.data|
    && (it.id == FMT_ID ==> FormatKnown(it.data))
  }

  lemma SubSlice(bytes: seq<Byte>, pos: nat, all: seq<Byte>, a: nat, b: nat)
    requires pos + |all| <= |bytes| && bytes[pos..pos + |all|] == all && a <= b <= |all|
    ensures bytes[pos + a..pos + b] == all[a..b]
  {
    var part := bytes[pos + a..pos + b];
    forall i | 0 <= i < b - a
      ensures part[i] == all[a..b][i]
    {
      assert bytes[pos..pos + |all|][a + i] == all[a + i];
    }
  }

  /** One item is read back whole, where it stands. */
  lemma ItemRead(bytes: seq<Byte>, pos: nat, it: Item, ds64: Option<seq<Word>>)
    requires pos + |ItemBytes(it)| <= |bytes| < TWO_63 && bytes[pos..pos + |ItemBytes(it)|] == ItemBytes(it)
    requires Readable(it, ds64)
    ensures ChunkAt(bytes, pos, ds64) == Some(Read(it, pos))
    ensures Extent(Read(it, pos)) == |ItemBytes(it)|
    ensures bytes[pos + 8..pos + 8 + |it.data|] == it.data
  {
    hide FromBe32, FromLe32, Be32, Le32, GetSize, FormatKnown;
    var n := |it.data|;
    var all := ItemBytes(it);
    SubSlice(bytes, pos, all, 0, 4);
    SubSlice(bytes, pos, all, 4, 8);
    SubSlice(bytes, pos, all, 8, 8 + n);
    assert all[0..4] == Be32(it.id);
    assert all[4..8] == Le32(Min(n, MAX_SIZE));
    assert all[8..8 + n] == it.data;
    Be32RoundTrip(it.id);
    Le32RoundTrip(Min(n, MAX_SIZE));
  }

  /** A run of items that fills the file up to its limit is read back item by item. */
  lemma {:induction false} ChainReads(bytes: seq<Byte>, start: nat, pos: nat, items: seq<Item>, limit: nat, ds64: Option<seq<Word>>)
    requires start <= pos <= |bytes| < TWO_63 && start + limit == |bytes| && bytes[pos..] == ItemsBytes(items)
    requires forall i | 0 <= i < |items| :: Readable(items[i], ds64) && items[i].id != DS64_ID
    ensures Chain(bytes, start, pos, limit, ds64) == ReadAll(items, pos)
    decreases |items|
  {
    hide ChunkAt, ItemBytes, Readable;
    if items != [] {
      var it := items[0];
      var rest := ItemsBytes(items[1..]);
      assert bytes[pos..] == ItemBytes(it) + rest;
      assert bytes[pos..pos + |ItemBytes(it)|] == ItemBytes(it);
      assert Readable(it, ds64);
      ItemRead(bytes, pos, it, ds64);
      assert bytes[pos + |ItemBytes(it)|..] == rest;
      ChainReads(bytes, start, pos + |ItemBytes(it)|, items[1..], limit, ds64);
    }
  }

  // ---------------------------------------------------------------------------
  // The chunk list as a run of items, in file order
  // ---------------------------------------------------------------------------

  function ChunkItems(c: Chunk, w: seq<Word>): seq<Item> {
    if IsWritten(c, w) then [Item(WriteId(c), Payload(c, w))] else []
  }

  function EarlyOf(c: Chunk, w: seq<Word>): seq<Item> {
    if !c.kind.DataKind? && BeforeSamples(c) then ChunkItems(c, w) else []
  }

  function LateOf(c: Chunk, w: seq<Word>): seq<Item> {
    if !c.kind.DataKind? && !BeforeSamples(c) then ChunkItems(c, w) else []
  }

  /** The chunks from index 2 on that go ahead of the samples. */
  function EarlyItems(cs: seq<Chunk>, w: seq<Word>, n: nat): seq<Item>
    requires 2 <= n <= |cs|
  {
    if n == 2 then [] else EarlyItems(cs, w, n - 1) + EarlyOf(cs[n - 1], w)
  }

  function LateItems(cs: seq<Chunk>, w: seq<Word>, n: nat): seq<Item>
    requires 2 <= n <= |cs|
  {
    if n == 2 then [] else LateItems(cs, w, n - 1) + LateOf(cs[n - 1], w)
  }

  /** Every chunk of the file after RIFF and WAVE. */
  function FileItems(cs: seq<Chunk>, w: seq<Word>, samples: seq<Byte>): seq<Item>
    requires WellFormed(cs)
  {
    EarlyItems(cs, w, |cs|) + [Item(DATA_ID, samples)] + LateItems(cs, w, |cs|)
  }

  lemma OneItem(it: Item)
    ensures ItemsBytes([it]) == ItemBytes(it)
  {
    assert [it][1..] == [];
    assert ItemsBytes([it]) == ItemBytes(it) + [];
  }

  lemma ChunkIsItem(c: Chunk, w: seq<Word>)
    requires WellFormedChunk(c) && !c.kind.RiffKind? && !c.kind.WaveKind?
    ensures Early(c, w) == ItemsBytes(EarlyOf(c, w))
    ensures Late(c, w) == ItemsBytes(LateOf(c, w))
  {
    if IsWritten(c, w) {
      OneItem(Item(WriteId(c), Payload(c, w)));
    }
  }

  function Preamble(cs: seq<Chunk>): (bs: seq<Byte>)
    requires WellFormed(cs)
    ensures |bs| == 12
  {
    Header(cs[0].id, cs[0].length) + Be32(WAVE_ID)
  }

  lemma PreambleBytes(cs: seq<Chunk>, w: seq<Word>)
    requires WellFormed(cs) && cs[0].length % 2 == 0
    ensures PreBytes(cs, w, 2) == Preamble(cs)
    ensures PostBytes(cs, w, 2) == []
  {
    hide Header, Be32;
    assert PreBytes(cs, w, 0) == [];
    assert PreBytes(cs, w, 1) == Early(cs[0], w) == Header(cs[0].id, cs[0].length);
    assert PreBytes(cs, w, 2) == PreBytes(cs, w, 1) + Early(cs[1], w);
    assert WellFormedChunk(cs[1]);
    assert PostBytes(cs, w, 0) == [] && PostBytes(cs, w, 1) == [];
  }

  lemma {:induction false} PassItems(cs: seq<Chunk>, w: seq<Word>, n: nat)
    requires WellFormed(cs) && cs[0].length % 2 == 0 && 2 <= n <= |cs|
    ensures PreBytes(cs, w, n) == Preamble(cs) + ItemsBytes(EarlyItems(cs, w, n))
    ensures PostBytes(cs, w, n) == ItemsBytes(LateItems(cs, w, n))
  {
    hide Early, Late, EarlyOf, LateOf, Preamble, WellFormedChunk, ItemsBytes;
    if n == 2 {
      PreambleBytes(cs, w);
      NoItems();
    } else {
      PassItems(cs, w, n - 1);
      var c := cs[n - 1];
      assert WellFormedChunk(c) && !c.kind.RiffKind? && !c.kind.WaveKind?;
      ChunkIsItem(c, w);
      var early, late := EarlyItems(cs, w, n - 1), LateItems(cs, w, n - 1);
      ItemsAppend(early, EarlyOf(c, w));
      ItemsAppend(late, LateOf(c, w));
      var head, done, more := Preamble(cs), ItemsBytes(early), Early(c, w);
      assert head + done + more == head + (done + more);
    }
  }

  lemma NoItems()
    ensures ItemsBytes([]) == []
  {
  }

  /** The file is the preamble and its items. */
  lemma FileIsItems(cs: seq<Chunk>, w: seq<Word>, samples: seq<Byte>)
    requires WellFormed(cs) && cs[0].length % 2 == 0
    ensures FileBytes(cs, w, samples) == Preamble(cs) + ItemsBytes(FileItems(cs, w, samples))
  {
    hide Preamble, PreBytes, PostBytes, EarlyItems, LateItems, Header, Pad;
    PassItems(cs, w, |cs|);
    var data := Item(DATA_ID, samples);
    var early, late := EarlyItems(cs, w, |cs|), LateItems(cs, w, |cs|);
    ItemsAppend(early + [data], late);
    ItemsAppend(early, [data]);
    OneItem(data);
    assert FileBytes(cs, w, samples) == Preamble(cs) + ItemsBytes(early) + ItemBytes(data) + ItemsBytes(late);
  }

  // ---------------------------------------------------------------------------
  // What the reader finds for the chunks of a closed file
  // ---------------------------------------------------------------------------

  /** The true length of this chunk comes out, and its data is accepted. */
  predicate ChunkReadable(c: Chunk, ds64: Option<seq<Word>>) {
    && Resolve(ds64, c.id, Min(c.length, MAX_SIZE)) == c.length
    && (c.id == FMT_ID ==> FormatKnown(c.data))
  }

  predicate AllReadable(items: seq<Item>, ds64: Option<seq<Word>>) {
    forall i | 0 <= i < |items| :: Readable(items[i], ds64) && items[i].id != DS64_ID
  }

  lemma ItemReadable(c: Chunk, w: seq<Word>, ds64: Option<seq<Word>>)
    requires WellFormedChunk(c) && (c.kind.FmtKind? || c.kind.UserKind?)
    ensures AllReadable(EarlyOf(c, w) + LateOf(c, w), ds64) <==> ChunkReadable(c, ds64) || c.length == 0
    ensures EarlyOf(c, w) == [] || LateOf(c, w) == []
  {
    hide GetSize, FormatKnown;
    if c.length != 0 {
      var it := Item(c.id, c.data);
      assert EarlyOf(c, w) + LateOf(c, w) == [it];
      assert AllReadable([it], ds64) <==> Readable(it, ds64) && it.id != DS64_ID by {
        assert [it][0] == it;
      }
    }
  }

  /** Every item of the file is readable exactly when every chunk is. */
  lemma {:induction false} ItemsReadable(cs: seq<Chunk>, w: seq<Word>, ds64: Option<seq<Word>>, n: nat)
    requires WellFormed(cs) && 3 <= n <= |cs| && w != []
    ensures EarlyItems(cs, w, n) != [] && EarlyItems(cs, w, n)[0] == Item(WriteId(cs[2]), Emit(w))
    ensures AllReadable(EarlyItems(cs, w, n)[1..] + LateItems(cs, w, n), ds64)
            <==> forall k | 3 <= k < n && k != 4 :: ChunkReadable(cs[k], ds64) || cs[k].length == 0
  {
    hide ChunkReadable, Readable, Emit, EarlyOf, LateOf;
    if n == 3 {
      FirstItem(cs, w);
    } else {
      ItemsReadable(cs, w, ds64, n - 1);
      var c := cs[n - 1];
      assert WellFormedChunk(c);
      var early, late := EarlyItems(cs, w, n - 1), LateItems(cs, w, n - 1);
      assert (early + EarlyOf(c, w))[1..] == early[1..] + EarlyOf(c, w);
      if n - 1 == 4 {
        DataNoItem(c, w);
        assert early + [] == early && late + [] == late;
      } else {
        ItemReadable(c, w, ds64);
        ReadableParts(early[1..], EarlyOf(c, w), late, LateOf(c, w), ds64);
      }
    }
  }

  lemma DataNoItem(c: Chunk, w: seq<Word>)
    requires c.kind.DataKind?
    ensures EarlyOf(c, w) == [] && LateOf(c, w) == []
  {
  }

  lemma FirstItem(cs: seq<Chunk>, w: seq<Word>)
    requires WellFormed(cs) && w != []
    ensures EarlyItems(cs, w, 3) == [Item(WriteId(cs[2]), Emit(w))] && LateItems(cs, w, 3) == []
  {
    assert EarlyItems(cs, w, 2) == [] && LateItems(cs, w, 2) == [];
  }

  lemma ReadableParts(a: seq<Item>, b: seq<Item>, c: seq<Item>, d: seq<Item>, ds64: Option<seq<Word>>)
    requires b == [] || d == []
    ensures AllReadable(a + b + (c + d), ds64) <==> AllReadable(a + c, ds64) && AllReadable(b + d, ds64)
  {
    hide Readable;
    AllOfParts(a + b, c + d, ds64);
    AllOfParts(a, b, ds64);
    AllOfParts(c, d, ds64);
    AllOfParts(a, c, ds64);
    AllOfParts(b, d, ds64);
  }

  lemma AllOfParts(a: seq<Item>, b: seq<Item>, ds64: Option<seq<Word>>)
    ensures AllReadable(a + b, ds64) <==> AllReadable(a, ds64) && AllReadable(b, ds64)
  {
    hide Readable;
    if AllReadable(a + b, ds64) {
      forall i | 0 <= i < |a| ensures Readable(a[i], ds64) && a[i].id != DS64_ID {
        assert (a + b)[i] == a[i];
      }
      forall i | 0 <= i < |b| ensures Readable(b[i], ds64) && b[i].id != DS64_ID {
        assert (a + b)[|a| + i] == b[i];
      }
    }
  }

  /** The identifier is that of a chunk with a length and no special use. */
  predicate Named(it: Item) {
    it.id != RIFF_ID && it.id != RF64_ID && it.id != WAVE_ID && it.id != DS64_ID
  }

  predicate AllNamed(items: seq<Item>) {
    forall i | 0 <= i < |items| :: Named(items[i])
  }

  lemma {:induction false} ItemsNamed(cs: seq<Chunk>, w: seq<Word>, n: nat)
    requires WellFormed(cs) && 3 <= n <= |cs| && w != []
    ensures EarlyItems(cs, w, n) != [] && AllNamed(EarlyItems(cs, w, n)[1..]) && AllNamed(LateItems(cs, w, n))
  {
    hide Named, Emit, EarlyOf, LateOf, WellFormedChunk;
    if n == 3 {
      FirstItem(cs, w);
    } else {
      ItemsNamed(cs, w, n - 1);
      var c, early := cs[n - 1], EarlyItems(cs, w, n - 1);
      assert WellFormedChunk(c);
      ItemNamed(c, w);
      assert (early + EarlyOf(c, w))[1..] == early[1..] + EarlyOf(c, w);
    }
  }

  lemma ItemNamed(c: Chunk, w: seq<Word>)
    requires WellFormedChunk(c) && (c.kind.FmtKind? || c.kind.UserKind? || c.kind.DataKind?)
    ensures AllNamed(EarlyOf(c, w)) && AllNamed(LateOf(c, w))
  {
  }

  lemma ChainStep(bytes: seq<Byte>, start: nat, pos: nat, limit: nat, ds64: Option<seq<Word>>)
    requires start <= pos && pos - start < limit && ChunkAt(bytes, pos, ds64).Some?
    ensures var f := ChunkAt(bytes, pos, ds64).value;
            Chain(bytes, start, pos, limit, ds64)
            == [f] + Chain(bytes, start, pos + Extent(f), NextLimit(f, limit), NextDs64(f, ds64))
  {
    hide ChunkAt;
  }

  /** When the chain gives back every item, every item was readable. */
  lemma {:induction false} ChainReadsOnly(bytes: seq<Byte>, start: nat, pos: nat, items: seq<Item>, limit: nat, ds64: Option<seq<Word>>)
    requires start <= pos <= |bytes| < TWO_63 && start + limit == |bytes| && bytes[pos..] == ItemsBytes(items)
    requires AllNamed(items) && Chain(bytes, start, pos, limit, ds64) == ReadAll(items, pos)
    ensures AllReadable(items, ds64)
    decreases |items|
  {
    hide ChunkAt, ItemBytes, Readable, Extent;
    if items != [] {
      var it, rest := items[0], ItemsBytes(items[1..]);
      var f := Read(it, pos);
      assert bytes[pos..] == ItemBytes(it) + rest;
      assert bytes[pos..pos + |ItemBytes(it)|] == ItemBytes(it);
      assert Chain(bytes, start, pos, limit, ds64)[0] == f;
      assert Named(it);
      FoundReadable(bytes, pos, it, ds64);
      assert bytes[pos + |ItemBytes(it)|..] == rest;
      ChainStep(bytes, start, pos, limit, ds64);
      assert Chain(bytes, start, pos, limit, ds64)[1..] == ReadAll(items, pos)[1..];
      ChainReadsOnly(bytes, start, pos + |ItemBytes(it)|, items[1..], limit, ds64);
    }
  }

  lemma FoundReadable(bytes: seq<Byte>, pos: nat, it: Item, ds64: Option<seq<Word>>)
    requires pos + |ItemBytes(it)| <= |bytes| && bytes[pos..pos + |ItemBytes(it)|] == ItemBytes(it)
    requires Named(it) && ChunkAt(bytes, pos, ds64) == Some(Read(it, pos))
    ensures Readable(it, ds64) && Extent(Read(it, pos)) == |ItemBytes(it)|
  {
    hide FromBe32, FromLe32, Be32, Le32, GetSize, FormatKnown;
    var n, all := |it.data|, ItemBytes(it);
    SubSlice(bytes, pos, all, 0, 4);
    SubSlice(bytes, pos, all, 4, 8);
    SubSlice(bytes, pos, all, 8, 8 + n);
    assert all[0..4] == Be32(it.id);
    assert all[4..8] == Le32(Min(n, MAX_SIZE));
    assert all[8..8 + n] == it.data;
    Be32RoundTrip(it.id);
    Le32RoundTrip(Min(n, MAX_SIZE));
  }
}
