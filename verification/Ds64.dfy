/** The ds64 chunk: 64-bit sizes for the chunks whose 32-bit size field is too small.

    Its data is a packed structure made of 32-bit words only, so it is an array of words:
    RIFF size, data size and sample count (two words each, low first), the number of table
    entries, then three words for each entry: identifier, size low, size high. */
module Ds64 {
  import opened Bytes
  import opened ChunkIds

  // ---------------------------------------------------------------------------
  // The chunk data as a sequence of words
  // ---------------------------------------------------------------------------

  /** Word `k`, with the words that a truncated chunk lacks read as zero. */
  function At(w: seq<Word>, k: nat): Word { if k < |w| then w[k] else 0 }

  function Count(w: seq<Word>): Word { At(w, 6) }
  function SlotId(w: seq<Word>, i: nat): Word { At(w, 7 + 3 * i) }
  function SlotSize(w: seq<Word>, i: nat): nat { Join(At(w, 8 + 3 * i), At(w, 9 + 3 * i)) }
  function RiffSize(w: seq<Word>): nat { Join(At(w, 0), At(w, 1)) }
  function DataSize(w: seq<Word>): nat { Join(At(w, 2), At(w, 3)) }
  function SampleCount(w: seq<Word>): nat { Join(At(w, 4), At(w, 5)) }

  /** The table that the entry count announces lies inside the data. */
  predicate Fits(w: seq<Word>) { 7 <= |w| && 7 + 3 * w[6] <= |w| }

  function Blank(count: Word): (w: seq<Word>)
    ensures |w| == 7 + 3 * count && Fits(w) && Count(w) == count
  {
    seq(7 + 3 * count, k => if k == 6 then count else 0)
  }

  datatype Entry = Entry(id: Word, size: nat)

  /** The table as the lookup loops see it. */
  function Entries(w: seq<Word>): (es: seq<Entry>)
    ensures |es| == Count(w)
  {
    seq(Count(w), i requires 0 <= i < Count(w) => Entry(SlotId(w, i), SlotSize(w, i)))
  }

  /** The first entry with this identifier, or the length of the table. */
  function Find(es: seq<Entry>, id: Word): (j: nat)
    ensures j <= |es|
    ensures j < |es| ==> es[j].id == id
    ensures forall k | 0 <= k < j :: es[k].id != id
  {
    if es == [] || es[0].id == id then 0 else 1 + Find(es[1..], id)
  }

  /** Where SetChunkSize stores a size: the entry of this identifier, else the first unused
      one (identifier zero), else nowhere (the length of the table). */
  function Place(es: seq<Entry>, id: Word): (j: nat)
    ensures j <= |es|
  {
    if Find(es, id) < |es| then Find(es, id) else Find(es, 0)
  }

  function SetPair(w: seq<Word>, k: nat, size: nat): (r: seq<Word>)
    requires k + 2 <= |w|
    ensures |r| == |w|
  {
    w[k := Low(size)][k + 1 := High(size)]
  }

  function SetSlot(w: seq<Word>, i: nat, id: Word, size: nat): (r: seq<Word>)
    requires Fits(w) && i < Count(w)
    ensures Fits(r) && |r| == |w| && Count(r) == Count(w)
  {
    SetPair(w[7 + 3 * i := id], 8 + 3 * i, size)
  }

  /** SetChunkSize: RIFF and data have words of their own. */
  function SetSize(w: seq<Word>, id: Word, size: nat): (r: (seq<Word>, bool))
    requires Fits(w)
    ensures Fits(r.0) && |r.0| == |w| && Count(r.0) == Count(w)
  {
    var j := Place(Entries(w), id);
    if id == RIFF_ID then (SetPair(w, 0, size), true)
    else if id == DATA_ID then (SetPair(w, 2, size), true)
    else if j < Count(w) then (SetSlot(w, j, id, size), true)
    else (w, false)
  }

  /** GetChunkSize: only the escape value is replaced. */
  function GetSize(w: seq<Word>, id: Word, original: nat): nat {
    var j := Find(Entries(w), id);
    if original != MAX_SIZE then original
    else if id == RIFF_ID then RiffSize(w)
    else if id == DATA_ID then DataSize(w)
    else if j < Count(w) then SlotSize(w, j)
    else original
  }

  /** Writing slot `i` replaces that entry and nothing else. */
  lemma SetSlotEntries(w: seq<Word>, i: nat, id: Word, size: nat)
    requires Fits(w) && i < Count(w) && size < TWO_64
    ensures Entries(SetSlot(w, i, id, size)) == Entries(w)[i := Entry(id, size)]
    ensures SetSlot(w, i, id, size)[..7] == w[..7]
  {
    SplitJoin(size);
    var r := SetSlot(w, i, id, size);
    forall k | 0 <= k < Count(w)
      ensures Entries(r)[k] == Entries(w)[i := Entry(id, size)][k]
    {
      if k != i {
        assert r[7 + 3 * k] == w[7 + 3 * k] && r[8 + 3 * k] == w[8 + 3 * k] && r[9 + 3 * k] == w[9 + 3 * k];
      }
    }
  }

  // ---------------------------------------------------------------------------
  // The table is a bounded map
  // ---------------------------------------------------------------------------

  ghost predicate Has(es: seq<Entry>, id: Word) { exists i | 0 <= i < |es| :: es[i].id == id }

  /** The first |m| entries hold exactly the map `m`, without repetition; the rest are unused. */
  ghost predicate Holds(es: seq<Entry>, m: map<Word, nat>) {
    && |m| <= |es|
    && (forall i | 0 <= i < |m| :: es[i].id != 0 && es[i].id in m && m[es[i].id] == es[i].size)
    && (forall i, j | 0 <= i < j < |m| :: es[i].id != es[j].id)
    && (forall i | |m| <= i < |es| :: es[i].id == 0)
    && (forall id | id in m :: Has(es[..|m|], id))
  }

  /** The identifiers that live in the table. */
  predicate TableId(id: Word) { id != 0 && id != RIFF_ID && id != DATA_ID }

  /** What a bounded map does when asked to store a value. */
  function Put(m: map<Word, nat>, capacity: nat, id: Word, size: nat): (map<Word, nat>, bool) {
    if id in m || |m| < capacity then (m[id := size], true) else (m, false)
  }

  lemma BlankHoldsNothing(count: Word)
    ensures Holds(Entries(Blank(count)), map[])
  {
  }

  lemma PlaceIn(es: seq<Entry>, m: map<Word, nat>, id: Word)
    requires Holds(es, m) && id != 0
    ensures id in m <==> Find(es, id) < |es|
    ensures Place(es, id) == if id in m then Find(es, id) else |m|
    ensures id in m ==> Place(es, id) < |m|
  {
    var e := Find(es, 0);
    assert !(e < |m|);
    assert |m| < |es| ==> es[|m|].id == 0;
    if id in m {
      assert Has(es[..|m|], id);
    }
  }

  lemma EntriesUpdate(es: seq<Entry>, m: map<Word, nat>, i: nat, size: nat)
    requires Holds(es, m) && i < |m|
    ensures Holds(es[i := Entry(es[i].id, size)], m[es[i].id := size])
  {
    var id := es[i].id;
    var r, m' := es[i := Entry(id, size)], m[id := size];
    assert |m'| == |m|;
    forall k | k in m'
      ensures Has(r[..|m'|], k)
    {
      assert Has(es[..|m|], k);
      var o :| 0 <= o < |m| && es[..|m|][o].id == k;
      assert r[..|m'|][o].id == k;
    }
  }

  lemma EntriesInsert(es: seq<Entry>, m: map<Word, nat>, id: Word, size: nat)
    requires Holds(es, m) && id != 0 && id !in m && |m| < |es|
    ensures Holds(es[|m| := Entry(id, size)], m[id := size])
  {
    var r, m' := es[|m| := Entry(id, size)], m[id := size];
    assert |m'| == |m| + 1;
    forall k | k in m'
      ensures Has(r[..|m'|], k)
    {
      if k == id {
        assert r[..|m'|][|m|].id == k;
      } else {
        assert Has(es[..|m|], k);
        var o :| 0 <= o < |m| && es[..|m|][o].id == k;
        assert r[..|m'|][o].id == k;
      }
    }
  }

  /** A call succeeds exactly when a bounded map with as many places would accept the value,
      and the table then holds that map. */
  lemma SetSizePuts(w: seq<Word>, m: map<Word, nat>, id: Word, size: nat)
    requires Fits(w) && Holds(Entries(w), m) && TableId(id) && size < TWO_64
    ensures var (r, ok) := SetSize(w, id, size);
            var (m', ok') := Put(m, Count(w), id, size);
            ok == ok' && Holds(Entries(r), m') && r[..7] == w[..7]
  {
    var es := Entries(w);
    PlaceIn(es, m, id);
    var j := Place(es, id);
    if j < Count(w) {
      SetSlotEntries(w, j, id, size);
      if id in m {
        EntriesUpdate(es, m, j, size);
      } else {
        EntriesInsert(es, m, id, size);
      }
    }
  }

  /** A lookup answers from the map, and only when the header carries the escape value. */
  lemma GetSizeLooksUp(w: seq<Word>, m: map<Word, nat>, id: Word, original: nat)
    requires Holds(Entries(w), m) && TableId(id)
    ensures GetSize(w, id, original) ==
            if original == MAX_SIZE && id in m then m[id] else original
  {
    PlaceIn(Entries(w), m, id);
  }

  lemma PairKeepsTable(w: seq<Word>, k: nat, size: nat)
    requires Fits(w) && k <= 4
    ensures Entries(SetPair(w, k, size)) == Entries(w)
  {
  }

  lemma PairHolds(w: seq<Word>, k: nat, size: nat)
    requires Fits(w) && k <= 4 && size < TWO_64
    ensures Join(At(SetPair(w, k, size), k), At(SetPair(w, k, size), k + 1)) == size
  {
    SplitJoin(size);
  }

  /** All that ds64 keeps: the sizes of RIFF and data have words of their own. */
  datatype Sizes = Sizes(table: map<Word, nat>, riff: nat, data: nat)

  ghost predicate Keeps(w: seq<Word>, m: Sizes) {
    Holds(Entries(w), m.table) && RiffSize(w) == m.riff && DataSize(w) == m.data
  }

  /** Storing a size where it belongs; only the table can be full. */
  function Store(m: Sizes, capacity: nat, id: Word, size: nat): (Sizes, bool) {
    if id == RIFF_ID then (m.(riff := size), true)
    else if id == DATA_ID then (m.(data := size), true)
    else
      var (table, ok) := Put(m.table, capacity, id, size);
      (m.(table := table), ok)
  }

  /** What a header size is taken to mean. */
  function Lookup(m: Sizes, id: Word, original: nat): nat {
    if original != MAX_SIZE then original
    else if id == RIFF_ID then m.riff
    else if id == DATA_ID then m.data
    else if id in m.table then m.table[id]
    else original
  }

  lemma SetSizeStores(w: seq<Word>, m: Sizes, id: Word, size: nat)
    requires Fits(w) && Keeps(w, m) && id != 0 && size < TWO_64
    ensures var (r, ok) := SetSize(w, id, size);
            var (m', ok') := Store(m, Count(w), id, size);
            ok == ok' && Keeps(r, m')
  {
    hide Holds, Entries, Put;
    if id == RIFF_ID || id == DATA_ID {
      var k := if id == RIFF_ID then 0 else 2;
      PairKeepsTable(w, k, size);
      PairHolds(w, k, size);
    } else {
      SetSizePuts(w, m.table, id, size);
      var r := SetSize(w, id, size).0;
      assert forall k | 0 <= k < 7 :: r[k] == r[..7][k] == w[..7][k] == w[k];
    }
  }

  lemma GetSizeFinds(w: seq<Word>, m: Sizes, id: Word, original: nat)
    requires Keeps(w, m) && id != 0
    ensures GetSize(w, id, original) == Lookup(m, id, original)
  {
    hide Holds, Entries;
    if id != RIFF_ID && id != DATA_ID {
      GetSizeLooksUp(w, m.table, id, original);
    }
  }

  datatype Request = Request(id: Word, size: nat)

  predicate Proper(q: Request) { q.id != 0 && q.size < TWO_64 }

  /** Any sequence of SetChunkSize calls, with the answers they gave. */
  function SetAll(w: seq<Word>, qs: seq<Request>): (r: (seq<Word>, seq<bool>))
    requires Fits(w)
    ensures Fits(r.0) && |r.0| == |w| && Count(r.0) == Count(w)
    decreases |qs|
  {
    if qs == [] then (w, [])
    else
      var (w', ok) := SetSize(w, qs[0].id, qs[0].size);
      var (r, oks) := SetAll(w', qs[1..]);
      (r, [ok] + oks)
  }

  function StoreAll(m: Sizes, capacity: nat, qs: seq<Request>): (Sizes, seq<bool>)
    decreases |qs|
  {
    if qs == [] then (m, [])
    else
      var (m', ok) := Store(m, capacity, qs[0].id, qs[0].size);
      var (r, oks) := StoreAll(m', capacity, qs[1..]);
      (r, [ok] + oks)
  }

  /** Over every run of calls ds64 refines a bounded map with two places beside it: the same
      answers to the calls, and the same answers to every lookup afterwards. */
  lemma {:induction false} SetAllStoresAll(w: seq<Word>, m: Sizes, qs: seq<Request>)
    requires Fits(w) && Keeps(w, m)
    requires forall i | 0 <= i < |qs| :: Proper(qs[i])
    ensures var (r, oks) := SetAll(w, qs);
            var (m', oks') := StoreAll(m, Count(w), qs);
            && oks == oks' && Keeps(r, m')
            && forall id: Word, original: nat | id != 0 :: GetSize(r, id, original) == Lookup(m', id, original)
    decreases |qs|
  {
    hide Keeps, SetSize, Store;
    if qs == [] {
      forall id: Word, original: nat | id != 0
        ensures GetSize(w, id, original) == Lookup(m, id, original)
      {
        GetSizeFinds(w, m, id, original);
      }
    } else {
      assert Proper(qs[0]);
      SetSizeStores(w, m, qs[0].id, qs[0].size);
      SetAllStoresAll(SetSize(w, qs[0].id, qs[0].size).0, Store(m, Count(w), qs[0].id, qs[0].size).0, qs[1..]);
    }
  }

  /** SetTableCount reallocates, copies what fits and clears the rest. */
  function Resize(w: seq<Word>, count: Word): (r: seq<Word>)
    ensures |r| == 7 + 3 * count && Fits(r) && Count(r) == count
  {
    seq(7 + 3 * count, k requires 0 <= k => if k == 6 then count else At(w, k))
  }

  lemma ResizeEntries(w: seq<Word>, count: Word, i: nat)
    requires |w| == 7 + 3 * Count(w) && i < count
    ensures Entries(Resize(w, count))[i] == if i < Count(w) then Entries(w)[i] else Entry(0, 0)
  {
    var r := Resize(w, count);
    assert r[7 + 3 * i] == At(w, 7 + 3 * i) && r[8 + 3 * i] == At(w, 8 + 3 * i) && r[9 + 3 * i] == At(w, 9 + 3 * i);
  }

  /** Changing the number of entries keeps the whole map exactly when the map still fits. */
  lemma ResizeKeepsTable(w: seq<Word>, m: map<Word, nat>, count: Word)
    requires Holds(Entries(w), m) && |w| == 7 + 3 * Count(w)
    ensures Holds(Entries(Resize(w, count)), m) <==> |m| <= count
  {
    hide Resize, Entries;
    if |m| <= count {
      var es, es' := Entries(w), Entries(Resize(w, count));
      forall i | 0 <= i < count
        ensures es'[i] == if i < |es| then es[i] else Entry(0, 0)
      {
        ResizeEntries(w, count, i);
      }
      assert es'[..|m|] == es[..|m|];
    }
  }

  // ---------------------------------------------------------------------------
  // Bytes on file
  // ---------------------------------------------------------------------------

  /** Identifiers are four characters in order; every other word is a little-endian number. */
  predicate IsIdWord(k: nat) { 7 <= k && (k - 7) % 3 == 0 }

  function WordBytes(k: nat, v: Word): (bs: seq<Byte>)
    ensures |bs| == 4
  {
    if IsIdWord(k) then Be32(v) else Le32(v)
  }

  function WordFrom(k: nat, bs: seq<Byte>): Word
    requires |bs| == 4
  {
    if IsIdWord(k) then FromBe32(bs) else FromLe32(bs)
  }

  /** The chunk's bytes in the file. */
  function Emit(w: seq<Word>): (bs: seq<Byte>)
    ensures |bs| == 4 * |w|
  {
    seq(4 * |w|, j requires 0 <= j < 4 * |w| => WordBytes(j / 4, w[j / 4])[j % 4])
  }

  /** What ReadData leaves in memory for a chunk whose bytes are `bs`. */
  function Absorb(bs: seq<Byte>): (w: seq<Word>)
    ensures |w| == |bs| / 4
  {
    seq(|bs| / 4, k requires 0 <= k < |bs| / 4 => WordFrom(k, bs[4 * k..4 * k + 4]))
  }

  lemma EmitSlice(w: seq<Word>, k: nat)
    requires k < |w|
    ensures Emit(w)[4 * k..4 * k + 4] == WordBytes(k, w[k])
  {
    forall i | 0 <= i < 4
      ensures Emit(w)[4 * k..4 * k + 4][i] == WordBytes(k, w[k])[i]
    {
      assert (4 * k + i) / 4 == k && (4 * k + i) % 4 == i;
    }
  }

  lemma WordRoundTrip(k: nat, v: Word)
    ensures WordFrom(k, WordBytes(k, v)) == v
  {
    if IsIdWord(k) {
      Be32RoundTrip(v);
    } else {
      Le32RoundTrip(v);
    }
  }

  lemma AbsorbAt(bs: seq<Byte>, k: nat)
    requires 4 * k + 4 <= |bs|
    ensures k < |bs| / 4 && Absorb(bs)[k] == WordFrom(k, bs[4 * k..4 * k + 4])
  {
  }

  /** Reading back the chunk restores every word. */
  lemma AbsorbEmit(w: seq<Word>)
    ensures Absorb(Emit(w)) == w
  {
    var bs := Emit(w);
    var r := Absorb(bs);
    forall k | 0 <= k < |w|
      ensures r[k] == w[k]
    {
      AbsorbAt(bs, k);
      EmitSlice(w, k);
      WordRoundTrip(k, w[k]);
    }
  }

  // ---------------------------------------------------------------------------
  // Byte swapping on a big-endian host
  // ---------------------------------------------------------------------------

  /** The words that ByteSwapData reverses when the table has `count` entries. */
  predicate Swappable(k: nat, count: nat) { k < 7 || (k < 7 + 3 * count && !IsIdWord(k)) }

  function Swapped(w: seq<Word>, count: nat): (r: seq<Word>)
    ensures |r| == |w|
  {
    seq(|w|, k requires 0 <= k < |w| => if Swappable(k, count) then Swap32(w[k]) else w[k])
  }

  /** ByteSwapData on a big-endian host: the count is taken in native order both ways. */
  function SwapData(w: seq<Word>, writing: bool): (r: seq<Word>)
    ensures |r| == |w|
  {
    if |w| < 7 then w
    else Swapped(w, if writing then w[6] else Swap32(w[6]))
  }

  /** The bytes of a structure in memory: characters are in order on every host, numbers are
      in the order of the host. */
  function MemoryBytes(bigEndianHost: bool, k: nat, v: Word): seq<Byte> {
    if IsIdWord(k) || bigEndianHost then Be32(v) else Le32(v)
  }

  /** Swapping for writing and swapping back leaves the data as it was, whatever it holds. */
  lemma SwapUndone(w: seq<Word>)
    ensures SwapData(SwapData(w, true), false) == w
  {
    if 7 <= |w| {
      forall v: Word ensures Swap32(Swap32(v)) == v { Swap32Involution(v); }
    }
  }

  /** Between the two swaps, memory on a big-endian host holds the bytes of the file format. */
  lemma SwappedBytes(w: seq<Word>, k: nat)
    requires |w| == 7 + 3 * Count(w) && k < |w|
    ensures MemoryBytes(true, k, SwapData(w, true)[k]) == MemoryBytes(false, k, w[k]) == WordBytes(k, w[k])
  {
    Swap32Involution(w[k]);
  }
}
