/** The first bytes of a closed file, field by field. */
module FileHead {
  import opened Bytes
  import opened ChunkIds
  import opened Ds64
  import opened RiffLayout
  import opened RoundTrip
  import opened Slots
  import opened ReadBack

  lemma LePair(a: seq<Byte>, b: seq<Byte>)
    requires |a| == 4
    ensures LeValue(a + b) == LeValue(a) + TWO_32 * LeValue(b)
  {
    hide FromLe32;
    LeStep(a, b);
    LeStep(a[1..], b);
    LeStep(a[2..], b);
    LeStep(a[3..], b);
    assert a[1..][1..] == a[2..] && a[2..][1..] == a[3..] && a[3..][1..] == [] && [] + b == b;
    assert LeValue(a[3..]) == a[3];
    assert LeValue(a[2..]) == a[2] + 0x100 * LeValue(a[3..]);
    assert LeValue(a[1..]) == a[1] + 0x100 * LeValue(a[2..]);
  }

  lemma LeStep(a: seq<Byte>, b: seq<Byte>)
    requires a != []
    ensures LeValue(a + b) == a[0] + 0x100 * LeValue(a[1..] + b)
  {
    assert (a + b)[1..] == a[1..] + b;
  }

  /** Entry `k` of the size table in a file: identifier and size. */
  predicate EntryOnFile(bytes: seq<Byte>, k: nat, id: Word, size: nat) {
    && 60 + 12 * k <= |bytes|
    && BeValue(bytes[48 + 12 * k..52 + 12 * k]) == id && LeValue(bytes[52 + 12 * k..60 + 12 * k]) == size
  }

  lemma WordOnFile(bytes: seq<Byte>, w: seq<Word>, k: nat)
    requires 20 + 4 * |w| <= |bytes| && bytes[20..20 + 4 * |w|] == Emit(w) && k < |w|
    ensures bytes[20 + 4 * k..24 + 4 * k] == WordBytes(k, w[k])
  {
    hide Emit, WordBytes;
    EmitSlice(w, k);
    SubSlice(bytes, 20, Emit(w), 4 * k, 4 * k + 4);
  }

  lemma PairOnFile(bytes: seq<Byte>, w: seq<Word>, k: nat)
    requires 20 + 4 * |w| <= |bytes| && bytes[20..20 + 4 * |w|] == Emit(w) && k + 1 < |w|
    requires !IsIdWord(k) && !IsIdWord(k + 1)
    ensures LeValue(bytes[20 + 4 * k..28 + 4 * k]) == Join(w[k], w[k + 1])
  {
    hide Emit, LeValue, Le32;
    WordOnFile(bytes, w, k);
    WordOnFile(bytes, w, k + 1);
    var a, b := bytes[20 + 4 * k..24 + 4 * k], bytes[24 + 4 * k..28 + 4 * k];
    assert bytes[20 + 4 * k..28 + 4 * k] == a + b;
    LePair(a, b);
    WordStored(w[k]);
    WordStored(w[k + 1]);
  }

  lemma SlotOnFile(bytes: seq<Byte>, w: seq<Word>, k: nat)
    requires Fits(w) && 20 + 4 * |w| <= |bytes| && bytes[20..20 + 4 * |w|] == Emit(w) && k < Count(w)
    ensures EntryOnFile(bytes, k, SlotId(w, k), SlotSize(w, k))
  {
    hide Emit, LeValue, BeValue, Be32;
    WordOnFile(bytes, w, 7 + 3 * k);
    WordStored(w[7 + 3 * k]);
    PairOnFile(bytes, w, 8 + 3 * k);
  }

  /** The table of a closed file holds this size under this identifier. */
  ghost predicate Listed(bytes: seq<Byte>, n: nat, id: Word, size: nat) {
    exists k: nat | k < n :: EntryOnFile(bytes, k, id, size)
  }

  /** How a closed file begins: RIFF or RF64 and the size of the rest, WAVE, and a chunk with the
      true sizes of the file and of the samples, the number of frames and the size table. It is
      the ds64 chunk of an RF64 file, and filler in a RIFF file. */
  predicate Head(bytes: seq<Byte>, n: nat, samples: int, frames: int) {
    && 48 + 12 * n <= |bytes|
    && var large := 0xffff_ffff <= |bytes| - 8;
       && Framed(bytes, 0, if large then RF64_ID else RIFF_ID, |bytes| - 8)
       && BeValue(bytes[8..12]) == WAVE_ID
       && Framed(bytes, 12, if large then DS64_ID else JUNK_ID, 28 + 12 * n)
       && (large ==> LeValue(bytes[20..28]) == |bytes| - 8)
       && LeValue(bytes[28..36]) == samples
       && LeValue(bytes[36..44]) == frames
       && LeValue(bytes[44..48]) == n
  }

  /** The ds64 words of a closed file, and where they are. */
  lemma Begins(cs: seq<Chunk>, n: Word, frameBytes: nat, samples: seq<Byte>)
    requires Closing(cs, n, samples) && 0 < frameBytes
    ensures var ds, w := FinalChunks(cs, Blank(n)), FinalWords(cs, Blank(n), frameBytes);
            var bytes := Written(cs, n, frameBytes, samples);
            && |bytes| == 8 + TotalBytes(cs, Blank(n), |cs|) && |w| == 7 + 3 * n && Count(w) == n
            && 20 + 4 * |w| <= |bytes| && bytes[20..20 + 4 * |w|] == Emit(w)
            && Framed(bytes, 0, ds[0].id, |bytes| - 8) && BeValue(bytes[8..12]) == WAVE_ID
            && Framed(bytes, 12, WriteId(ds[2]), 28 + 12 * n)
  {
    hide FinalWords, FinalChunks, TotalBytes, ItemsBytes, EarlyItems, LateItems, FileBytes, Emit, Framed, Readable, FileItems, Slotted, BeValue;
    var ds, w := FinalChunks(cs, Blank(n)), FinalWords(cs, Blank(n), frameBytes);
    var items, bytes := FileItems(ds, w, samples), Written(cs, n, frameBytes, samples);
    FinalLength(cs, n, frameBytes, samples);
    FileIsItems(ds, w, samples);
    RestReadable(cs, n, frameBytes, samples);
    PreambleOnFile(bytes, ds, ItemsBytes(items));
    FirstOnFile(bytes, items, WriteId(ds[2]), w);
  }

  /** Every closed file begins so. */
  lemma ClosedHead(cs: seq<Chunk>, n: Word, frameBytes: nat, samples: seq<Byte>)
    requires Closing(cs, n, samples) && 0 < frameBytes
    ensures Head(Written(cs, n, frameBytes, samples), n, |samples|, |samples| / frameBytes)
  {
    hide FinalWords, FinalChunks, TotalBytes, Written, Blank, Emit, Holds, Entries, Framed, LeValue, BeValue, NotedMap, WriteId;
    var ds, w := FinalChunks(cs, Blank(n)), FinalWords(cs, Blank(n), frameBytes);
    Begins(cs, n, frameBytes, samples);
    FinalLength(cs, n, frameBytes, samples);
    FinalTable(cs, n, frameBytes, samples);
    HeadFields(Written(cs, n, frameBytes, samples), w);
  }

  /** In list order, while there are entries, the chunks that are too long for their headers are in
      the table with their sizes. */
  lemma ClosedTable(cs: seq<Chunk>, n: Word, frameBytes: nat, samples: seq<Byte>, i: nat)
    requires Closing(cs, n, samples) && 0 < frameBytes
    requires 5 <= i < |cs| && MAX_SIZE <= cs[i].length && Oversized(cs, i + 1) <= n
    ensures Listed(Written(cs, n, frameBytes, samples), n, cs[i].id, cs[i].length)
  {
    hide FinalWords, FinalChunks, TotalBytes, Written, Blank, Emit, Holds, Entries, Framed, LeValue, BeValue, NotedMap, WriteId, EntryOnFile;
    var w, bytes := FinalWords(cs, Blank(n), frameBytes), Written(cs, n, frameBytes, samples);
    Begins(cs, n, frameBytes, samples);
    FinalTable(cs, n, frameBytes, samples);
    FirstComeFirstServed(cs, n, |cs|, i);
    var k := HeldAt(Entries(w), NotedMap(cs, n, |cs|), cs[i].id);
    EntryIs(w, k);
    SlotOnFile(bytes, w, k);
  }

  lemma PreambleOnFile(bytes: seq<Byte>, ds: seq<Chunk>, rest: seq<Byte>)
    requires WellFormed(ds) && bytes == Preamble(ds) + rest && |bytes| == 8 + ds[0].length
    ensures Framed(bytes, 0, ds[0].id, |bytes| - 8) && BeValue(bytes[8..12]) == WAVE_ID
  {
    hide Be32, Le32, LeValue, BeValue;
    assert bytes[0..4] == Be32(ds[0].id);
    assert bytes[4..8] == Le32(Min(ds[0].length, MAX_SIZE));
    assert bytes[8..12] == Be32(WAVE_ID);
    WordStored(ds[0].id);
    WordStored(Min(ds[0].length, MAX_SIZE));
    WordStored(WAVE_ID);
  }

  lemma FirstOnFile(bytes: seq<Byte>, items: seq<Item>, id: Word, w: seq<Word>)
    requires 12 <= |bytes| && bytes[12..] == ItemsBytes(items) && items != [] && items[0] == Item(id, Emit(w))
    ensures Framed(bytes, 12, id, 4 * |w|)
    ensures 20 + 4 * |w| <= |bytes| && bytes[20..20 + 4 * |w|] == Emit(w)
  {
    hide ItemBytes, Emit, Framed;
    var it, rest := items[0], ItemsBytes(items[1..]);
    assert bytes[12..] == ItemBytes(it) + rest;
    assert bytes[12..12 + |ItemBytes(it)|] == ItemBytes(it);
    ItemCarried(bytes, 12, it);
  }

  lemma HeadFields(bytes: seq<Byte>, w: seq<Word>)
    requires Fits(w) && 20 + 4 * |w| <= |bytes| && bytes[20..20 + 4 * |w|] == Emit(w)
    ensures LeValue(bytes[20..28]) == RiffSize(w) && LeValue(bytes[28..36]) == DataSize(w)
    ensures LeValue(bytes[36..44]) == SampleCount(w) && LeValue(bytes[44..48]) == Count(w)
  {
    hide LeValue, Emit, Le32;
    PairOnFile(bytes, w, 0);
    PairOnFile(bytes, w, 2);
    PairOnFile(bytes, w, 4);
    WordOnFile(bytes, w, 6);
    WordStored(w[6]);
  }

  lemma HeldAt(es: seq<Entry>, m: map<Word, nat>, id: Word) returns (k: nat)
    requires Holds(es, m) && id in m
    ensures k < |es| && es[k] == Entry(id, m[id])
  {
    assert Has(es[..|m|], id);
    k :| 0 <= k < |m| && es[..|m|][k].id == id;
  }

  lemma EntryIs(w: seq<Word>, k: nat)
    requires k < Count(w)
    ensures Entries(w)[k] == Entry(SlotId(w, k), SlotSize(w, k))
  {
  }
}
