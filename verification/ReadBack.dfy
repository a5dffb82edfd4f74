/** A closed file opens again with the chunks, sizes and data it was given. */
module ReadBack {
  import opened Bytes
  import opened ChunkIds
  import opened Ds64
  import opened RiffLayout
  import opened RiffReader
  import opened RoundTrip
  import opened Slots
  import O = ItemOrder

  /** What Close is given: the prepared list, `n` table entries that nothing has used yet, and
      sample bytes; the finished file stays within a file offset. */
  predicate Closing(cs: seq<Chunk>, n: Word, samples: seq<Byte>) {
    && Plain(cs, n) && FormatKnown(cs[3].data)
    && cs[0].length == 0 && cs[4].length == |samples| && !cs[2].riff64
    && 8 + TotalBytes(cs, Blank(n), |cs|) < TWO_63
  }

  /** The size table used by the reader: only an RF64 file has one. */
  function Table(cs: seq<Chunk>, n: Word, frameBytes: nat): Option<seq<Word>>
    requires 0 < frameBytes
  {
    if NeedsRf64(cs, Blank(n)) then Some(FinalWords(cs, Blank(n), frameBytes)) else None
  }

  /** The list of a file that reads back perfectly: RIFF and WAVE, then every written chunk in
      file order, with its full length and its data. */
  function Expected(cs: seq<Chunk>, n: Word, frameBytes: nat, samples: seq<Byte>): seq<Found>
    requires WellFormed(cs) && 0 < frameBytes
  {
    var ds, w := FinalChunks(cs, Blank(n)), FinalWords(cs, Blank(n), frameBytes);
    [Found(ds[0].id, Min(ds[0].length, MAX_SIZE), 0, 8, None), Found(WAVE_ID, 0, 8, 0, None)]
    + ReadAll(FileItems(ds, w, samples), 12)
  }

  function Written(cs: seq<Chunk>, n: Word, frameBytes: nat, samples: seq<Byte>): seq<Byte>
    requires WellFormed(cs) && 0 < frameBytes
  {
    FileBytes(FinalChunks(cs, Blank(n)), FinalWords(cs, Blank(n), frameBytes), samples)
  }

  // ---------------------------------------------------------------------------
  // Sizes
  // ---------------------------------------------------------------------------

  lemma FinalTable(cs: seq<Chunk>, n: Word, frameBytes: nat, samples: seq<Byte>)
    requires Closing(cs, n, samples) && 0 < frameBytes
    ensures var w := FinalWords(cs, Blank(n), frameBytes);
            && Holds(Entries(w), NotedMap(cs, n, |cs|))
            && DataSize(w) == |samples| && SampleCount(w) == |samples| / frameBytes
            && (NeedsRf64(cs, Blank(n)) ==> RiffSize(w) == TotalBytes(cs, Blank(n), |cs|))
  {
    hide Holds, Entries, AllNoted, TotalBytes;
    AllNotedHolds(cs, n, frameBytes, |cs|);
    var w1 := AllNoted(cs, Blank(n), frameBytes, |cs|);
    PairKeepsTable(w1, 0, TotalBytes(cs, Blank(n), |cs|));
    PairHolds(w1, 0, TotalBytes(cs, Blank(n), |cs|));
  }

  /** The length of an extra chunk comes out of an RF64 file exactly when it fits the header or
      its chunk was among the first `n` that needed an entry. */
  lemma LengthRecovered(cs: seq<Chunk>, n: Word, frameBytes: nat, samples: seq<Byte>, i: nat)
    requires Closing(cs, n, samples) && 0 < frameBytes && 5 <= i < |cs|
    ensures Resolve(Some(FinalWords(cs, Blank(n), frameBytes)), cs[i].id, Min(cs[i].length, MAX_SIZE)) == cs[i].length
            <==> cs[i].length <= MAX_SIZE || Oversized(cs, i + 1) <= n
  {
    hide Holds, Entries, FinalWords, GetSize, Blank, NotedMap, Oversized;
    FinalTable(cs, n, frameBytes, samples);
    assert WellFormedChunk(cs[i]);
    if Oversize(cs[i]) {
      FirstComeFirstServed(cs, n, |cs|, i);
    }
    GetSizeLooksUp(FinalWords(cs, Blank(n), frameBytes), NotedMap(cs, n, |cs|), cs[i].id, Min(cs[i].length, MAX_SIZE));
  }

  /** Every chunk is readable exactly when every chunk that is too long found an entry. */
  ghost predicate Slotted(cs: seq<Chunk>, n: Word) {
    forall i | 5 <= i < |cs| :: cs[i].length <= MAX_SIZE || Oversized(cs, i + 1) <= n
  }

  lemma SmallFile(cs: seq<Chunk>, n: Word, samples: seq<Byte>)
    requires Closing(cs, n, samples) && !NeedsRf64(cs, Blank(n))
    ensures forall i | 3 <= i < |cs| :: cs[i].length < MAX_SIZE
    ensures Slotted(cs, n)
  {
    hide TotalBytes, Oversized;
    FileLength(cs, Blank(n), samples);
    forall i | 3 <= i < |cs|
      ensures cs[i].length < MAX_SIZE
    {
      assert WellFormedChunk(cs[i]);
    }
  }

  // ---------------------------------------------------------------------------
  // Opening
  // ---------------------------------------------------------------------------

  lemma PreambleRead(bytes: seq<Byte>, ds: seq<Chunk>, rest: seq<Byte>)
    requires WellFormed(ds) && bytes == Preamble(ds) + rest
    ensures ChunkAt(bytes, 0, None) == Some(Found(ds[0].id, Min(ds[0].length, MAX_SIZE), 0, 8, None))
    ensures ChunkAt(bytes, 8, None) == Some(Found(WAVE_ID, 0, 8, 0, None))
    ensures bytes[12..] == rest
  {
    hide FromBe32, FromLe32, Be32, Le32;
    var size := Min(ds[0].length, MAX_SIZE);
    assert bytes[0..4] == Be32(ds[0].id);
    assert bytes[4..8] == Le32(size);
    assert bytes[8..12] == Be32(WAVE_ID);
    Be32RoundTrip(ds[0].id);
    Be32RoundTrip(WAVE_ID);
    Le32RoundTrip(size);
    assert WellFormedChunk(ds[0]);
  }

  /** The items after the ds64 chunk, and when they can be read. */
  lemma RestReadable(cs: seq<Chunk>, n: Word, frameBytes: nat, samples: seq<Byte>)
    requires Closing(cs, n, samples) && 0 < frameBytes
    ensures var ds, w := FinalChunks(cs, Blank(n)), FinalWords(cs, Blank(n), frameBytes);
            var items := FileItems(ds, w, samples);
            && items != [] && items[0] == Item(WriteId(ds[2]), Emit(w))
            && AllNamed(items[1..])
            && (AllReadable(items[1..], Table(cs, n, frameBytes)) <==> Slotted(cs, n))
  {
    hide Readable, ChunkReadable, EarlyItems, LateItems, FinalWords, FinalChunks, Emit, Resolve, Oversized, TotalBytes;
    var ds, w := FinalChunks(cs, Blank(n)), FinalWords(cs, Blank(n), frameBytes);
    var table := Table(cs, n, frameBytes);
    var early, late, data := EarlyItems(ds, w, |ds|), LateItems(ds, w, |ds|), Item(DATA_ID, samples);
    ItemsReadable(ds, w, table, |ds|);
    ItemsNamed(ds, w, |ds|);
    assert (early + [data] + late)[1..] == early[1..] + [data] + late;
    AllOfParts(early[1..] + [data], late, table);
    AllOfParts(early[1..], [data], table);
    AllOfParts(early[1..], late, table);
    DataReadable(cs, n, frameBytes, samples);
    assert AllReadable([data], table) by { assert [data][0] == data; }
    ChunksReadable(cs, n, frameBytes, samples);
  }

  lemma DataReadable(cs: seq<Chunk>, n: Word, frameBytes: nat, samples: seq<Byte>)
    requires Closing(cs, n, samples) && 0 < frameBytes
    ensures Readable(Item(DATA_ID, samples), Table(cs, n, frameBytes))
  {
    hide FinalWords, Holds, Entries, TotalBytes;
    FinalTable(cs, n, frameBytes, samples);
    if !NeedsRf64(cs, Blank(n)) {
      SmallFile(cs, n, samples);
    }
  }

  lemma SameChunk(cs: seq<Chunk>, n: Word, k: nat)
    requires WellFormed(cs) && 3 <= k < |cs|
    ensures var d := FinalChunks(cs, Blank(n))[k];
            d.id == cs[k].id && d.length == cs[k].length && d.data == cs[k].data && d.kind == cs[k].kind
  {
    hide TotalBytes;
  }

  lemma ChunksReadable(cs: seq<Chunk>, n: Word, frameBytes: nat, samples: seq<Byte>)
    requires Closing(cs, n, samples) && 0 < frameBytes
    ensures var ds := FinalChunks(cs, Blank(n));
            (forall k | 3 <= k < |ds| && k != 4 :: ChunkReadable(ds[k], Table(cs, n, frameBytes)) || ds[k].length == 0)
            <==> Slotted(cs, n)
  {
    hide FinalChunks, FinalWords, GetSize, Oversized, TotalBytes;
    var ds, table := FinalChunks(cs, Blank(n)), Table(cs, n, frameBytes);
    if !NeedsRf64(cs, Blank(n)) {
      SmallFile(cs, n, samples);
    }
    forall k | 3 <= k < |ds| && k != 4
      ensures ChunkReadable(ds[k], table) || ds[k].length == 0
              <==> k == 3 || cs[k].length <= MAX_SIZE || Oversized(cs, k + 1) <= n
    {
      SameChunk(cs, n, k);
      assert WellFormedChunk(cs[k]);
      if k == 3 {
        ShortField(FinalWords(cs, Blank(n), frameBytes), FMT_ID, 16);
      } else {
        LengthRecovered(cs, n, frameBytes, samples, k);
      }
    }
  }

  lemma ShortField(w: seq<Word>, id: Word, field: Word)
    requires field != MAX_SIZE
    ensures GetSize(w, id, field) == field
  {
  }

  /** Closing changes no length, except that RIFF gets the total. */
  lemma {:induction false} SameTotal(cs: seq<Chunk>, w: seq<Word>, ds: seq<Chunk>, v: seq<Word>, k: nat)
    requires k <= |cs| == |ds| && |w| == |v|
    requires forall i | 0 <= i < k :: cs[i].kind == ds[i].kind && (cs[i].kind.RiffKind? || cs[i].length == ds[i].length)
    ensures TotalBytes(cs, w, k) == TotalBytes(ds, v, k)
  {
    if k != 0 {
      SameTotal(cs, w, ds, v, k - 1);
    }
  }

  lemma FinalLength(cs: seq<Chunk>, n: Word, frameBytes: nat, samples: seq<Byte>)
    requires Closing(cs, n, samples) && 0 < frameBytes
    ensures var ds, total := FinalChunks(cs, Blank(n)), TotalBytes(cs, Blank(n), |cs|);
            && |Written(cs, n, frameBytes, samples)| == 8 + total
            && ds[0].length == total && total % 2 == 0
            && ds[0].id == (if NeedsRf64(cs, Blank(n)) then RF64_ID else RIFF_ID)
            && WriteId(ds[2]) == (if NeedsRf64(cs, Blank(n)) then DS64_ID else JUNK_ID)
  {
    hide AllNoted, TotalBytes, FileBytes, Blank;
    var ds, w := FinalChunks(cs, Blank(n)), FinalWords(cs, Blank(n), frameBytes);
    TotalEven(cs, Blank(n), |cs|);
    SameTotal(cs, Blank(n), ds, w, |cs|);
    assert WellFormedChunk(cs[2]);
    FileLength(ds, w, samples);
  }

  lemma ShortTable(id: Word, w: seq<Word>)
    requires (id == DS64_ID || id == JUNK_ID) && 4 * |w| < MAX_SIZE
    ensures Readable(Item(id, Emit(w)), None)
  {
    hide Emit;
  }

  /** In an RF64 file the ds64 chunk comes first, sets the limit, and resolves the sizes. */
  lemma Rf64Chain(bytes: seq<Byte>, items: seq<Item>, w: seq<Word>, total: nat)
    requires items != [] && items[0] == Item(DS64_ID, Emit(w)) && AllNamed(items[1..])
    requires 12 <= |bytes| == 8 + total < TWO_63 && bytes[12..] == ItemsBytes(items)
    requires MAX_SIZE <= total && RiffSize(w) == total && 4 * |w| < MAX_SIZE
    ensures Chain(bytes, 8, 12, MAX_SIZE, None) == ReadAll(items, 12) <==> AllReadable(items[1..], Some(w))
  {
    hide ChunkAt, Chain, ItemBytes, Readable, Emit, Absorb, Extent;
    var it, rest := items[0], ItemsBytes(items[1..]);
    var next := 12 + |ItemBytes(it)|;
    assert bytes[12..] == ItemBytes(it) + rest;
    assert bytes[12..next] == ItemBytes(it);
    assert bytes[next..] == rest;
    ShortTable(DS64_ID, w);
    ItemRead(bytes, 12, it, None);
    ChainStep(bytes, 8, 12, MAX_SIZE, None);
    AbsorbEmit(w);
    var tail := Chain(bytes, 8, next, total, Some(w));
    assert Chain(bytes, 8, 12, MAX_SIZE, None) == [Read(it, 12)] + tail;
    assert ReadAll(items, 12) == [Read(it, 12)] + ReadAll(items[1..], next);
    if AllReadable(items[1..], Some(w)) {
      assert forall i | 0 <= i < |items[1..]| :: Named(items[1..][i]);
      ChainReads(bytes, 8, next, items[1..], total, Some(w));
    }
    if Chain(bytes, 8, 12, MAX_SIZE, None) == ReadAll(items, 12) {
      assert tail == Chain(bytes, 8, 12, MAX_SIZE, None)[1..] == ReadAll(items[1..], next);
      ChainReadsOnly(bytes, 8, next, items[1..], total, Some(w));
    }
  }

  /** In a plain file every chunk is short enough for its header. */
  lemma PlainChain(bytes: seq<Byte>, items: seq<Item>, w: seq<Word>, total: nat)
    requires items != [] && items[0] == Item(JUNK_ID, Emit(w)) && AllReadable(items[1..], None)
    requires 12 <= |bytes| == 8 + total < TWO_63 && bytes[12..] == ItemsBytes(items) && 4 * |w| < MAX_SIZE
    ensures Chain(bytes, 8, 12, total, None) == ReadAll(items, 12)
  {
    hide Chain, Readable, Emit, ItemsBytes, ReadAll;
    ShortTable(JUNK_ID, w);
    assert items == [items[0]] + items[1..];
    forall i | 0 <= i < |items|
      ensures Readable(items[i], None) && items[i].id != DS64_ID
    {
      assert i != 0 ==> items[i] == items[1..][i - 1];
    }
    ChainReads(bytes, 8, 12, items, total, None);
  }

  /** The first two steps of opening. */
  lemma OpenSteps(bytes: seq<Byte>, id: Word, total: nat)
    requires id == RIFF_ID || id == RF64_ID
    requires 12 <= |bytes| && 4 <= total
    requires ChunkAt(bytes, 0, None) == Some(Found(id, Min(total, MAX_SIZE), 0, 8, None))
    requires ChunkAt(bytes, 8, None) == Some(Found(WAVE_ID, 0, 8, 0, None))
    ensures OpenFile(bytes) == Some([Found(id, Min(total, MAX_SIZE), 0, 8, None), Found(WAVE_ID, 0, 8, 0, None)]
                                    + Chain(bytes, 8, 12, Min(total, MAX_SIZE), None))
  {
    hide Chain, ChunkAt;
    var limit := Min(total, MAX_SIZE);
    var first, wave := Found(id, limit, 0, 8, None), Found(WAVE_ID, 0, 8, 0, None);
    var rest := Chain(bytes, 8, 12, limit, None);
    ChainStep(bytes, 8, 8, limit, None);
    assert Chain(bytes, 8, 8, limit, None) == [wave] + rest;
    assert [first] + ([wave] + rest) == [first, wave] + rest;
  }

  lemma Cancel(head: seq<Found>, a: seq<Found>, b: seq<Found>)
    ensures head + a == head + b <==> a == b
  {
    assert (head + a)[|head|..] == a && (head + b)[|head|..] == b;
  }

  lemma ExpectedParts(cs: seq<Chunk>, n: Word, frameBytes: nat, samples: seq<Byte>)
    requires WellFormed(cs) && 0 < frameBytes
    requires var items := FileItems(FinalChunks(cs, Blank(n)), FinalWords(cs, Blank(n), frameBytes), samples);
             items != [] && items[0].id == WriteId(FinalChunks(cs, Blank(n))[2])
    ensures |Expected(cs, n, frameBytes, samples)| >= 3
    ensures Expected(cs, n, frameBytes, samples)[0].id == FinalChunks(cs, Blank(n))[0].id
    ensures Expected(cs, n, frameBytes, samples)[2].id == WriteId(FinalChunks(cs, Blank(n))[2])
  {
    hide FinalChunks, FinalWords, FileItems;
  }

  /** A closed file opens with exactly the expected list if and only if every chunk that is too
      long for its header found an entry in ds64; it is RF64 exactly when the total is too
      large, and the ds64 chunk hides as JUNK exactly when it is not. */
  lemma ClosedFileOpens(cs: seq<Chunk>, n: Word, frameBytes: nat, samples: seq<Byte>)
    requires Closing(cs, n, samples) && 0 < frameBytes
    ensures OpenFile(Written(cs, n, frameBytes, samples)).Some?
    ensures OpenFile(Written(cs, n, frameBytes, samples)) == Some(Expected(cs, n, frameBytes, samples)) <==> Slotted(cs, n)
    ensures Expected(cs, n, frameBytes, samples)[0].id == if NeedsRf64(cs, Blank(n)) then RF64_ID else RIFF_ID
    ensures Expected(cs, n, frameBytes, samples)[2].id == if NeedsRf64(cs, Blank(n)) then DS64_ID else JUNK_ID
  {
    hide Chain, ChunkAt, Readable, Slotted, FinalWords, FinalChunks, Emit, ItemsBytes, Preamble, FileItems, FileBytes, TotalBytes, ReadAll, Extent;
    var ds, w := FinalChunks(cs, Blank(n)), FinalWords(cs, Blank(n), frameBytes);
    var total := TotalBytes(cs, Blank(n), |cs|);
    var items, bytes := FileItems(ds, w, samples), Written(cs, n, frameBytes, samples);
    FinalLength(cs, n, frameBytes, samples);
    FileIsItems(ds, w, samples);
    PreambleRead(bytes, ds, ItemsBytes(items));
    RestReadable(cs, n, frameBytes, samples);
    FinalTable(cs, n, frameBytes, samples);
    ExpectedParts(cs, n, frameBytes, samples);
    OpenSteps(bytes, ds[0].id, total);
    var head := [Found(ds[0].id, Min(total, MAX_SIZE), 0, 8, None), Found(WAVE_ID, 0, 8, 0, None)];
    Cancel(head, Chain(bytes, 8, 12, Min(total, MAX_SIZE), None), ReadAll(items, 12));
    if NeedsRf64(cs, Blank(n)) {
      Rf64Chain(bytes, items, w, total);
    } else {
      SmallFile(cs, n, samples);
      PlainChain(bytes, items, w, total);
    }
  }

  // ---------------------------------------------------------------------------
  // Where the data is
  // ---------------------------------------------------------------------------

  lemma {:induction false} ReadAllAt(items: seq<Item>, pos: nat, i: nat)
    requires i < |items|
    ensures |ReadAll(items, pos)| == |items|
    ensures ReadAll(items, pos)[i] == Read(items[i], pos + |ItemsBytes(items[..i])|)
  {
    hide ItemBytes, Read;
    if i == 0 {
      assert items[..0] == [];
      ReadAllLength(items, pos);
    } else {
      var next := pos + |ItemBytes(items[0])|;
      ReadAllAt(items[1..], next, i - 1);
      assert items[..i] == [items[0]] + items[1..][..i - 1];
      assert items[..i][1..] == items[1..][..i - 1];
    }
  }

  lemma {:induction false} ReadAllLength(items: seq<Item>, pos: nat)
    ensures |ReadAll(items, pos)| == |items|
  {
    if items != [] {
      ReadAllLength(items[1..], pos + |ItemBytes(items[0])|);
    }
  }

  /** A chunk header, read byte by byte: the identifier most significant byte first, then the
      length, limited to 32 bits, least significant byte first. */
  predicate Framed(bytes: seq<Byte>, start: nat, id: Word, length: nat) {
    && start + 8 <= |bytes| && BeValue(bytes[start..start + 4]) == id
    && LeValue(bytes[start + 4..start + 8]) == if length < 0xffff_ffff then length else 0xffff_ffff
  }

  /** A list entry that stands for this data: it points at the header and the bytes in the file,
      followed by a zero byte if their number is odd, and has a copy of them if the chunk is one
      of those that are loaded. */
  predicate Carries(bytes: seq<Byte>, f: Found, id: Word, data: seq<Byte>) {
    && f.id == id && f.length == |data| && f.datapos == f.start + 8 && Framed(bytes, f.start, id, |data|)
    && f.datapos + |data| + |data| % 2 <= |bytes| && bytes[f.datapos..f.datapos + |data|] == data
    && (|data| % 2 == 1 ==> bytes[f.datapos + |data|] == 0)
    && f.data == if id in {DS64_ID, FMT_ID, BEXT_ID, CHNA_ID, AXML_ID} then Some(data) else None
  }

  /** The entry that is found by the identifier does. */
  predicate Kept(bytes: seq<Byte>, fs: seq<Found>, m: map<Word, nat>, id: Word, data: seq<Byte>) {
    id in m && m[id] < |fs| && Carries(bytes, fs[m[id]], id, data)
  }

  lemma ItemCarried(bytes: seq<Byte>, pos: nat, it: Item)
    requires pos + |ItemBytes(it)| <= |bytes| && bytes[pos..pos + |ItemBytes(it)|] == ItemBytes(it)
    ensures Carries(bytes, Read(it, pos), it.id, it.data)
  {
    hide Be32, Le32, LeValue, BeValue;
    var n, all := |it.data|, ItemBytes(it);
    SubSlice(bytes, pos, all, 0, 4);
    SubSlice(bytes, pos, all, 4, 8);
    SubSlice(bytes, pos, all, 8, 8 + n);
    assert all[0..4] == Be32(it.id);
    assert all[4..8] == Le32(Min(n, MAX_SIZE));
    assert all[8..8 + n] == it.data;
    WordStored(it.id);
    WordStored(Min(n, MAX_SIZE));
    if n % 2 == 1 {
      assert all[8 + n] == 0;
      assert bytes[pos..pos + |all|][8 + n] == bytes[pos + 8 + n];
    }
  }

  /** Every expected entry stands for its own data. */
  lemma DataStands(bytes: seq<Byte>, head: seq<Byte>, items: seq<Item>, i: nat)
    requires bytes == head + ItemsBytes(items) && i < |items|
    ensures |ReadAll(items, |head|)| == |items|
    ensures Carries(bytes, ReadAll(items, |head|)[i], items[i].id, items[i].data)
  {
    hide ItemBytes, ItemsBytes, ReadAll, Read, Carries;
    ReadAllAt(items, |head|, i);
    var it, before, after := items[i], ItemsBytes(items[..i]), ItemsBytes(items[i + 1..]);
    assert items == items[..i] + ([it] + items[i + 1..]);
    ItemsAppend(items[..i], [it] + items[i + 1..]);
    ItemsAppend([it], items[i + 1..]);
    OneItem(it);
    assert head + (before + (ItemBytes(it) + after)) == (head + before) + ItemBytes(it) + after;
    Middle(head + before, ItemBytes(it), after);
    ItemCarried(bytes, |head + before|, it);
  }

  lemma Middle(a: seq<Byte>, b: seq<Byte>, c: seq<Byte>)
    ensures (a + b + c)[|a|..|a| + |b|] == b
  {
  }

  /** Where the entry of a chunk is in the expected list. */
  function Entry(cs: seq<Chunk>, n: Word, frameBytes: nat, i: nat): nat
    requires WellFormed(cs) && 0 < frameBytes && 2 <= i < |cs|
  {
    2 + O.Index(FinalChunks(cs, Blank(n)), FinalWords(cs, Blank(n), frameBytes), i)
  }

  lemma FinalApart(cs: seq<Chunk>, n: Word)
    requires Plain(cs, n)
    ensures O.Apart(FinalChunks(cs, Blank(n)))
  {
    hide TotalBytes;
    var ds := FinalChunks(cs, Blank(n));
    forall i, j | 5 <= i < j < |ds|
      ensures ds[i].id != ds[j].id
    {
      SameChunk(cs, n, i);
      SameChunk(cs, n, j);
    }
  }

  /** Every chunk that has data, and data always, is found by its identifier in the expected list,
      and the entry stands for its data. */
  lemma ChunkStands(cs: seq<Chunk>, n: Word, frameBytes: nat, samples: seq<Byte>, m: map<Word, nat>, i: nat)
    requires Closing(cs, n, samples) && 0 < frameBytes && 3 <= i < |cs| && (i == 4 || cs[i].length != 0)
    requires LastOf(m, Expected(cs, n, frameBytes, samples))
    ensures Kept(Written(cs, n, frameBytes, samples), Expected(cs, n, frameBytes, samples), m,
                 cs[i].id, if i == 4 then samples else cs[i].data)
    ensures m[cs[i].id] == Entry(cs, n, frameBytes, i)
  {
    hide FinalWords, FinalChunks, TotalBytes, ItemsBytes, ReadAll, EarlyItems, LateItems, FileBytes, Carries, Blank, O.Index, LastOf, O.Apart;
    var ds, w := FinalChunks(cs, Blank(n)), FinalWords(cs, Blank(n), frameBytes);
    var items, bytes, fs := FileItems(ds, w, samples), Written(cs, n, frameBytes, samples), Expected(cs, n, frameBytes, samples);
    SameChunk(cs, n, i);
    assert WellFormedChunk(cs[i]);
    O.ItemAt(ds, w, samples, i);
    var k := O.Index(ds, w, i);
    FinalLength(cs, n, frameBytes, samples);
    FileIsItems(ds, w, samples);
    DataStands(bytes, Preamble(ds), items, k);
    assert fs[k + 2] == ReadAll(items, 12)[k];
    CarriesId(bytes, fs[k + 2], cs[i].id, items[k].data);
    FinalApart(cs, n);
    forall j | k + 2 < j < |fs|
      ensures fs[j].id != fs[k + 2].id
    {
      O.NoneLater(ds, w, samples, i, j - 2);
      ReadAllAt(items, 12, j - 2);
      assert fs[j] == ReadAll(items, 12)[j - 2];
    }
    LastIs(m, fs, k + 2);
  }

  lemma CarriesId(bytes: seq<Byte>, f: Found, id: Word, data: seq<Byte>)
    requires Carries(bytes, f, id, data)
    ensures f.id == id
  {
  }

  lemma LastIs(m: map<Word, nat>, fs: seq<Found>, k: nat)
    requires LastOf(m, fs) && k < |fs| && forall j | k < j < |fs| :: fs[j].id != fs[k].id
    ensures fs[k].id in m && m[fs[k].id] == k
  {
  }

  /** Nothing else is in the list: after RIFF or RF64, WAVE, and ds64 or its filler, every entry is
      that of a chunk that has data, or of data. */
  lemma EntryFrom(cs: seq<Chunk>, n: Word, frameBytes: nat, samples: seq<Byte>, k: nat) returns (i: nat)
    requires Closing(cs, n, samples) && 0 < frameBytes && 3 <= k < |Expected(cs, n, frameBytes, samples)|
    ensures 3 <= i < |cs| && (i == 4 || cs[i].length != 0) && k == Entry(cs, n, frameBytes, i)
    ensures Expected(cs, n, frameBytes, samples)[k].id == cs[i].id
  {
    hide FinalWords, FinalChunks, TotalBytes, ItemsBytes, ReadAll, EarlyItems, LateItems, Blank, O.Index;
    var ds, w := FinalChunks(cs, Blank(n)), FinalWords(cs, Blank(n), frameBytes);
    var items := FileItems(ds, w, samples);
    ReadAllLength(items, 12);
    ReadAllAt(items, 12, k - 2);
    O.FirstPlace(ds, w);
    i := O.ItemFrom(ds, w, samples, k - 2);
    SameChunk(cs, n, i);
    assert WellFormedChunk(cs[i]);
  }

  /** Chunks that have data come before or after the samples as their class says, and those of one
      side in the order of the list. */
  lemma EntriesInOrder(cs: seq<Chunk>, n: Word, frameBytes: nat, i: nat)
    requires Plain(cs, n) && 0 < frameBytes && 3 <= i < |cs| && i != 4 && cs[i].length != 0
    ensures Entry(cs, n, frameBytes, i) != Entry(cs, n, frameBytes, 4)
    ensures Entry(cs, n, frameBytes, i) < Entry(cs, n, frameBytes, 4) <==> BeforeSamples(cs[i])
    ensures forall j | i < j < |cs| && j != 4 && cs[j].length != 0 && BeforeSamples(cs[j]) == BeforeSamples(cs[i]) ::
              Entry(cs, n, frameBytes, i) < Entry(cs, n, frameBytes, j)
  {
    hide FinalWords, FinalChunks, TotalBytes, O.Index, Blank;
    var ds, w := FinalChunks(cs, Blank(n)), FinalWords(cs, Blank(n), frameBytes);
    SameChunk(cs, n, i);
    O.Sides(ds, w, i);
    forall j | i < j < |cs| && j != 4 && cs[j].length != 0 && BeforeSamples(cs[j]) == BeforeSamples(cs[i])
      ensures Entry(cs, n, frameBytes, i) < Entry(cs, n, frameBytes, j)
    {
      SameChunk(cs, n, j);
      O.InOrder(ds, w, i, j);
    }
  }

  /** The data chunk of the expected list is the sample region that writing used. */
  lemma SamplesStand(cs: seq<Chunk>, n: Word, frameBytes: nat, samples: seq<Byte>)
    requires Closing(cs, n, samples) && 0 < frameBytes
    ensures var fs, at := Expected(cs, n, frameBytes, samples), SampleOffset(cs, Blank(n));
            Entry(cs, n, frameBytes, 4) < |fs| && fs[Entry(cs, n, frameBytes, 4)] == Found(DATA_ID, |samples|, at - 8, at, None)
  {
    hide FinalWords, FinalChunks, TotalBytes, ItemsBytes, ReadAll, PreBytes, PostBytes, EarlyItems, LateItems, FileBytes, Header;
    var ds, w := FinalChunks(cs, Blank(n)), FinalWords(cs, Blank(n), frameBytes);
    var items, early := FileItems(ds, w, samples), EarlyItems(ds, w, |ds|);
    FinalLength(cs, n, frameBytes, samples);
    FinalOffset(cs, Blank(n), frameBytes);
    PassItems(ds, w, |ds|);
    assert items[..|early|] == early && items[|early|] == Item(DATA_ID, samples);
    ReadAllAt(items, 12, |early|);
  }
}
