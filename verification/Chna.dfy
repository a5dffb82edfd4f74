/** The chna chunk: the records that say which track carries which element of the audio model. */
module Chna {
  import opened Bytes
  import B = Blocks

  datatype Option<T> = None | Some(value: T)

  /** A track of the audio model, with its first references if it has any. */
  datatype Track = Track(number: nat, uid: seq<Byte>, trackRef: Option<seq<Byte>>, packRef: Option<seq<Byte>>)

  /** A record in memory: a 16-bit number and three fixed-width fields. */
  datatype Record = Record(trackNum: nat, uid: seq<Byte>, trackRef: seq<Byte>, packRef: seq<Byte>)

  /** A track as the reader hands it on. */
  datatype Known = Known(number: nat, uid: seq<Byte>, trackRef: seq<Byte>, packRef: seq<Byte>)

  const TWO_16: int := 0x1_0000
  const UID_WIDTH: nat := 12
  const TRACK_WIDTH: nat := 14
  const PACK_WIDTH: nat := 11
  const HEADER: nat := 4
  const RECORD: nat := 40

  predicate RecordOk(r: Record) {
    r.trackNum < TWO_16 && |r.uid| == UID_WIDTH && |r.trackRef| == TRACK_WIDTH && |r.packRef| == PACK_WIDTH
  }

  const BLANK: Record := Record(0, Zeros(UID_WIDTH), Zeros(TRACK_WIDTH), Zeros(PACK_WIDTH))

  // ---------------------------------------------------------------------------
  // Fixed-width strings
  // ---------------------------------------------------------------------------

  /** A string up to its first zero byte. */
  function Text(bs: seq<Byte>): (s: seq<Byte>)
    ensures |s| <= |bs| && 0 !in s && s == bs[..|s|]
    ensures |s| < |bs| ==> bs[|s|] == 0
  {
    if bs == [] || bs[0] == 0 then [] else [bs[0]] + Text(bs[1..])
  }

  /** strncpy() into a zeroed field: no terminator when the string fills it. */
  function Field(s: seq<Byte>, width: nat): (f: seq<Byte>)
    ensures |f| == width
  {
    var t := Text(s);
    if width <= |t| then t[..width] else t + Zeros(width - |t|)
  }

  lemma {:induction false} TextOnly(bs: seq<Byte>, n: nat)
    requires n <= |bs| && 0 !in bs[..n] && (n < |bs| ==> bs[n] == 0)
    ensures Text(bs) == bs[..n]
    decreases n
  {
    if n != 0 {
      assert bs[0] == bs[..n][0];
      assert bs[1..][..n - 1] == bs[..n][1..];
      TextOnly(bs[1..], n - 1);
    }
  }

  /** A field gives back what went into it, cut at the first zero byte and at the width; that is
      all of it exactly when it has no zero byte and fits, with or without a terminator. */
  lemma FieldText(s: seq<Byte>, width: nat)
    ensures Text(Field(s, width)) == Text(s)[..Min(width, |Text(s)|)]
    ensures Text(Field(s, width)) == s <==> |s| <= width && 0 !in s
  {
    var t := Text(s);
    TextOnly(Field(s, width), Min(width, |t|));
    if |s| <= width && 0 !in s {
      TextOnly(s, |s|);
    }
  }

  // ---------------------------------------------------------------------------
  // Records
  // ---------------------------------------------------------------------------

  function OrEmpty(o: Option<seq<Byte>>): seq<Byte> { if o.Some? then o.value else [] }

  function Packed(t: Track): (r: Record)
    ensures RecordOk(r)
  {
    Record((t.number + 1) % TWO_16, Field(t.uid, UID_WIDTH),
           Field(OrEmpty(t.trackRef), TRACK_WIDTH), Field(OrEmpty(t.packRef), PACK_WIDTH))
  }

  /** What the reader makes of a record; track number zero marks an unused one. */
  function Seen(r: Record): (ks: seq<Known>)
    ensures |ks| <= 1
  {
    if r.trackNum == 0 then [] else [Known(r.trackNum - 1, Text(r.uid), Text(r.trackRef), Text(r.packRef))]
  }

  function Collected(rs: seq<Record>): (ks: seq<Known>)
    ensures |ks| <= |rs|
  {
    if rs == [] then [] else Collected(rs[..|rs| - 1]) + Seen(rs[|rs| - 1])
  }

  function PackedAll(tracks: seq<Track>): (rs: seq<Record>)
    ensures |rs| == |tracks| && forall i | 0 <= i < |rs| :: RecordOk(rs[i])
  {
    seq(|tracks|, i requires 0 <= i < |tracks| => Packed(tracks[i]))
  }

  /** What a reader ought to see of a track. */
  function Plain(t: Track): Known { Known(t.number, t.uid, OrEmpty(t.trackRef), OrEmpty(t.packRef)) }

  function PlainAll(tracks: seq<Track>): (ks: seq<Known>)
    ensures |ks| == |tracks|
  {
    seq(|tracks|, i requires 0 <= i < |tracks| => Plain(tracks[i]))
  }

  predicate FitsField(s: seq<Byte>, width: nat) { |s| <= width && 0 !in s }

  predicate Fits(t: Track) {
    && t.number < TWO_16 - 1 && FitsField(t.uid, UID_WIDTH)
    && FitsField(OrEmpty(t.trackRef), TRACK_WIDTH) && FitsField(OrEmpty(t.packRef), PACK_WIDTH)
  }

  lemma SeenPacked(t: Track)
    ensures Seen(Packed(t)) == [Plain(t)] <==> Fits(t)
  {
    hide Text, Field;
    FieldText(t.uid, UID_WIDTH);
    FieldText(OrEmpty(t.trackRef), TRACK_WIDTH);
    FieldText(OrEmpty(t.packRef), PACK_WIDTH);
    if Seen(Packed(t)) == [Plain(t)] {
      assert Seen(Packed(t))[0] == Plain(t);
    }
  }

  lemma {:induction false} CollectedPacked(tracks: seq<Track>)
    ensures Collected(PackedAll(tracks)) == PlainAll(tracks) <==> forall i | 0 <= i < |tracks| :: Fits(tracks[i])
    decreases |tracks|
  {
    hide Seen, Packed, Fits, Plain;
    if tracks != [] {
      var n := |tracks| - 1;
      var init, last := tracks[..n], tracks[n];
      CollectedPacked(init);
      SeenPacked(last);
      assert PackedAll(tracks)[..n] == PackedAll(init);
      assert PlainAll(tracks) == PlainAll(init) + [Plain(last)];
      SplitsOne(Collected(PackedAll(init)), Seen(Packed(last)), PlainAll(init), Plain(last));
      assert (forall i | 0 <= i < |tracks| :: Fits(tracks[i])) <==> (forall i | 0 <= i < n :: Fits(init[i])) && Fits(last);
    }
  }

  lemma SplitsOne(xs: seq<Known>, ys: seq<Known>, zs: seq<Known>, k: Known)
    requires |xs| <= |zs| && |ys| <= 1
    ensures xs + ys == zs + [k] <==> xs == zs && ys == [k]
  {
    if xs + ys == zs + [k] {
      assert |xs| + |ys| == |zs| + 1;
      assert xs == (xs + ys)[..|zs|] == zs;
      assert ys == (xs + ys)[|zs|..] == [k];
    }
  }

  // ---------------------------------------------------------------------------
  // Bytes
  // ---------------------------------------------------------------------------

  function RecordBytes(r: Record): (bs: seq<Byte>)
    requires RecordOk(r)
    ensures |bs| == RECORD
  {
    Le16(r.trackNum) + r.uid + r.trackRef + r.packRef + [0]
  }

  function ParseRecord(bs: seq<Byte>): (r: Record)
    requires |bs| == RECORD
    ensures RecordOk(r)
  {
    Record(FromLe16(bs[..2]), bs[2..14], bs[14..28], bs[28..39])
  }

  lemma RecordRoundTrip(r: Record)
    requires RecordOk(r)
    ensures ParseRecord(RecordBytes(r)) == r
  {
    Le16RoundTrip(r.trackNum);
    var bs := RecordBytes(r);
    assert bs[..2] == Le16(r.trackNum);
    assert bs[2..14] == r.uid;
    assert bs[14..28] == r.trackRef;
    assert bs[28..39] == r.packRef;
  }

  function AllBytes(rs: seq<Record>): (xs: seq<seq<Byte>>)
    requires forall i | 0 <= i < |rs| :: RecordOk(rs[i])
    ensures |xs| == |rs| && B.AllOf(xs, RECORD)
  {
    seq(|rs|, i requires 0 <= i < |rs| => RecordBytes(rs[i]))
  }

  /** The whole chunk. */
  function Image(trackCount: nat, uidCount: nat, rs: seq<Record>): seq<Byte>
    requires trackCount < TWO_16 && uidCount < TWO_16 && forall i | 0 <= i < |rs| :: RecordOk(rs[i])
  {
    Le16(trackCount) + Le16(uidCount) + B.Glue(AllBytes(rs))
  }

  /** The numbers of the tracks, without repetition. */
  function Numbers(tracks: seq<Track>): set<nat> { set i | 0 <= i < |tracks| :: tracks[i].number }

  /** What GetChna writes. */
  function Written(tracks: seq<Track>): seq<Byte> {
    Image(|Numbers(tracks)| % TWO_16, |tracks| % TWO_16, PackedAll(tracks))
  }

  /** How many records there is room for, as a 32-bit count. */
  function MaxUids(bs: seq<Byte>): (n: nat)
    requires HEADER <= |bs|
    ensures HEADER + RECORD * n <= |bs|
  {
    (|bs| - HEADER) / RECORD % TWO_32
  }

  function UidCount(bs: seq<Byte>): (n: nat)
    requires HEADER <= |bs|
    ensures n < TWO_16
  {
    FromLe16(bs[2..4])
  }

  function RecordAt(bs: seq<Byte>, i: nat): (r: Record)
    requires HEADER + RECORD * (i + 1) <= |bs|
    ensures RecordOk(r)
  {
    ParseRecord(bs[HEADER + RECORD * i..HEADER + RECORD * i + RECORD])
  }

  function Records(bs: seq<Byte>, n: nat): (rs: seq<Record>)
    requires HEADER + RECORD * n <= |bs|
    ensures |rs| == n
  {
    seq(n, i requires 0 <= i < n => RecordAt(bs, i))
  }

  /** What SetChna makes of a chunk, before it sorts the tracks. */
  function Decoded(bs: seq<Byte>): (ks: seq<Known>)
    requires HEADER <= |bs|
    ensures |ks| < TWO_16
  {
    Collected(Records(bs, Min(UidCount(bs), MaxUids(bs))))
  }

  lemma ImageParts(trackCount: nat, uidCount: nat, rs: seq<Record>)
    requires trackCount < TWO_16 && uidCount < TWO_16 && forall i | 0 <= i < |rs| :: RecordOk(rs[i])
    ensures var bs := Image(trackCount, uidCount, rs);
            && |bs| == HEADER + RECORD * |rs|
            && FromLe16(bs[..2]) == trackCount && UidCount(bs) == uidCount
            && Records(bs, |rs|) == rs
  {
    var bs, xs := Image(trackCount, uidCount, rs), AllBytes(rs);
    Le16RoundTrip(trackCount);
    Le16RoundTrip(uidCount);
    B.GlueLength(xs, RECORD);
    assert bs[..2] == Le16(trackCount) && bs[2..4] == Le16(uidCount);
    forall i | 0 <= i < |rs|
      ensures RecordAt(bs, i) == rs[i]
    {
      B.GlueBlock(xs, RECORD, i);
      assert bs[HEADER + RECORD * i..HEADER + RECORD * i + RECORD] == xs[i];
      RecordRoundTrip(rs[i]);
    }
  }

  /** Reading back what was written gives the same tracks in order if and only if there are at
      most 65535 of them, their numbers are below 65535 and their identifiers fit their fields
      without a zero byte. */
  lemma RoundTrip(tracks: seq<Track>)
    ensures HEADER <= |Written(tracks)|
    ensures Decoded(Written(tracks)) == PlainAll(tracks)
            <==> |tracks| < TWO_16 && forall i | 0 <= i < |tracks| :: Fits(tracks[i])
  {
    hide Collected, PackedAll, PlainAll, Image, Fits;
    var bs := Written(tracks);
    ImageParts(|Numbers(tracks)| % TWO_16, |tracks| % TWO_16, PackedAll(tracks));
    if |tracks| < TWO_16 {
      assert (|bs| - HEADER) / RECORD == |tracks|;
      CollectedPacked(tracks);
    } else {
      assert |Decoded(bs)| < TWO_16 <= |PlainAll(tracks)|;
    }
  }

  /** A field in a file: the text up to its first zero byte, as far as there is room, then zeros. */
  predicate FieldOnFile(bs: seq<Byte>, at: nat, width: nat, s: seq<Byte>) {
    at + width <= |bs| && forall k | 0 <= k < width :: bs[at + k] == if k < |Text(s)| then Text(s)[k] else 0
  }

  /** Record `i` of the chunk, byte by byte. */
  predicate RecordOnFile(bs: seq<Byte>, i: nat, t: Track) {
    var at := 4 + 40 * i;
    && at + 40 <= |bs| && LeValue(bs[at..at + 2]) == (t.number + 1) % 65536
    && FieldOnFile(bs, at + 2, 12, t.uid) && FieldOnFile(bs, at + 14, 14, OrEmpty(t.trackRef))
    && FieldOnFile(bs, at + 28, 11, OrEmpty(t.packRef)) && bs[at + 39] == 0
  }

  /** What is written: two counts and the records, in order, and nothing else. */
  lemma OnFile(tracks: seq<Track>)
    ensures var bs := Written(tracks);
            && |bs| == 4 + 40 * |tracks|
            && LeValue(bs[0..2]) == |Numbers(tracks)| % 65536 && LeValue(bs[2..4]) == |tracks| % 65536
            && forall i | 0 <= i < |tracks| :: RecordOnFile(bs, i, tracks[i])
  {
    hide Packed, Numbers, LeValue, RecordBytes, Le16, RecordOnFile;
    var rs, bs := PackedAll(tracks), Written(tracks);
    var trackCount, uidCount := |Numbers(tracks)| % TWO_16, |tracks| % TWO_16;
    B.GlueLength(AllBytes(rs), RECORD);
    HalfStored(trackCount);
    HalfStored(uidCount);
    assert bs[0..2] == Le16(trackCount) && bs[2..4] == Le16(uidCount);
    forall i | 0 <= i < |tracks|
      ensures RecordOnFile(bs, i, tracks[i])
    {
      B.GlueBlock(AllBytes(rs), RECORD, i);
      assert bs[4 + 40 * i..4 + 40 * i + 40] == RecordBytes(Packed(tracks[i]));
      RecordAtIs(bs, i, tracks[i]);
    }
  }

  lemma RecordAtIs(bs: seq<Byte>, i: nat, t: Track)
    requires 4 + 40 * i + 40 <= |bs| && bs[4 + 40 * i..4 + 40 * i + 40] == RecordBytes(Packed(t))
    ensures RecordOnFile(bs, i, t)
  {
    hide LeValue, Le16, Text;
    var at, r := 4 + 40 * i, Packed(t);
    var all := RecordBytes(r);
    HalfStored(r.trackNum);
    assert forall k | 0 <= k < 40 :: bs[at + k] == all[k];
    assert bs[at..at + 2] == all[0..2] == Le16(r.trackNum);
    FieldThere(bs, at + 2, 12, t.uid, all[2..14]);
    FieldThere(bs, at + 14, 14, OrEmpty(t.trackRef), all[14..28]);
    FieldThere(bs, at + 28, 11, OrEmpty(t.packRef), all[28..39]);
  }

  lemma FieldThere(bs: seq<Byte>, at: nat, width: nat, s: seq<Byte>, f: seq<Byte>)
    requires at + width <= |bs| && f == Field(s, width) && forall k | 0 <= k < width :: bs[at + k] == f[k]
    ensures FieldOnFile(bs, at, width, s)
  {
    hide Text;
    forall k | 0 <= k < width
      ensures bs[at + k] == if k < |Text(s)| then Text(s)[k] else 0
    {
      assert bs[at + k] == f[k];
    }
  }

  /** A chunk that is cut short gives the tracks whose records are whole. */
  lemma CutShort(tracks: seq<Track>, n: nat)
    requires HEADER <= n <= HEADER + RECORD * |tracks| && |tracks| < TWO_16 && forall i | 0 <= i < |tracks| :: Fits(tracks[i])
    ensures |Written(tracks)| == HEADER + RECORD * |tracks|
    ensures Decoded(Written(tracks)[..n]) == PlainAll(tracks)[..(n - HEADER) / RECORD]
  {
    hide Collected, Image, Fits, RecordAt;
    var k, rs := (n - HEADER) / RECORD, PackedAll(tracks);
    ImageParts(|Numbers(tracks)| % TWO_16, |tracks|, rs);
    var bs := Written(tracks);
    var cut := bs[..n];
    assert cut[2..4] == bs[2..4];
    forall i | 0 <= i < k
      ensures RecordAt(cut, i) == rs[i]
    {
      assert Records(bs, |rs|)[i] == RecordAt(bs, i);
      SameRecord(bs, n, i);
    }
    assert Records(cut, k) == PackedAll(tracks[..k]);
    CollectedPacked(tracks[..k]);
    assert PlainAll(tracks[..k]) == PlainAll(tracks)[..k];
  }

  lemma SameRecord(bs: seq<Byte>, n: nat, i: nat)
    requires HEADER + RECORD * (i + 1) <= n <= |bs|
    ensures RecordAt(bs[..n], i) == RecordAt(bs, i)
  {
    assert bs[..n][HEADER + RECORD * i..HEADER + RECORD * i + RECORD] == bs[HEADER + RECORD * i..HEADER + RECORD * i + RECORD];
  }

  lemma NumbersAppend(tracks: seq<Track>, t: Track)
    ensures Numbers(tracks + [t]) == Numbers(tracks) + {t.number}
  {
    var all := tracks + [t];
    forall n | n in Numbers(tracks) + {t.number}
      ensures n in Numbers(all)
    {
      if n in Numbers(tracks) {
        var i :| 0 <= i < |tracks| && tracks[i].number == n;
        assert all[i].number == n;
      } else {
        assert all[|tracks|].number == n;
      }
    }
  }

  lemma {:induction false} NumbersBound(tracks: seq<Track>)
    ensures |Numbers(tracks)| <= |tracks|
    decreases |tracks|
  {
    if tracks != [] {
      var n := |tracks| - 1;
      assert tracks == tracks[..n] + [tracks[n]];
      NumbersAppend(tracks[..n], tracks[n]);
      NumbersBound(tracks[..n]);
    }
  }

  /** The header says how many records and how many different tracks there are, exactly when these
      are below 65536; the length says how many records in any case. */
  lemma Counts(tracks: seq<Track>)
    requires |tracks| < TWO_32
    ensures HEADER <= |Written(tracks)| && MaxUids(Written(tracks)) == |tracks|
    ensures UidCount(Written(tracks)) == |tracks| <==> |tracks| < TWO_16
    ensures FromLe16(Written(tracks)[..2]) == |Numbers(tracks)| <==> |Numbers(tracks)| < TWO_16
    ensures |Numbers(tracks)| <= |tracks|
  {
    hide Image, PackedAll, Numbers;
    NumbersBound(tracks);
    ImageParts(|Numbers(tracks)| % TWO_16, |tracks| % TWO_16, PackedAll(tracks));
    assert (|Written(tracks)| - HEADER) / RECORD == |tracks|;
  }

  // ---------------------------------------------------------------------------
  // The chunk in memory
  // ---------------------------------------------------------------------------

  function Swap16(n: nat): (r: nat)
    requires n < TWO_16
    ensures r < TWO_16
  {
    n % 0x100 * 0x100 + n / 0x100
  }

  lemma Swap16Involution(n: nat)
    requires n < TWO_16
    ensures Swap16(Swap16(n)) == n
    ensures Le16(Swap16(n)) == [Le16(n)[1], Le16(n)[0]]
  {
    var r := Swap16(n);
    assert r / 0x100 == n % 0x100 && r % 0x100 == n / 0x100;
  }

  /** The bit vector marks exactly these numbers. */
  ghost predicate Marks(bits: seq<bool>, numbers: set<nat>) {
    && (forall k | 0 <= k < |bits| :: bits[k] <==> k in numbers)
    && forall n | n in numbers :: n < |bits|
  }

  lemma MarksNone(n: nat)
    ensures Marks(seq(n, _ => false), Numbers([])) && |Numbers([])| == 0
  {
  }

  /** Marks a number in a bit vector that grows when the number lies beyond it. */
  method Mark(bits: seq<bool>, number: nat, ghost seen: set<nat>) returns (r: seq<bool>, isNew: bool)
    requires Marks(bits, seen)
    ensures Marks(r, seen + {number}) && isNew == (number !in seen)
    ensures |seen + {number}| == |seen| + if isNew then 1 else 0
  {
    r := bits;
    if number >= |r| {
      r := r + seq(number + 1 - |r|, _ => false);
    }
    isNew := !r[number];
    if isNew {
      r := r[number := true];
    } else {
      assert seen + {number} == seen;
    }
  }

  /** What the loop of GetChna has done after `i` tracks. */
  ghost predicate Filled(tracks: seq<Track>, i: nat, unique: seq<bool>, trackCount: nat, uidCount: nat, rs: seq<Record>) {
    && i <= |tracks| == |rs|
    && (forall k | 0 <= k < i :: rs[k] == Packed(tracks[k]))
    && uidCount == i % TWO_16
    && Marks(unique, Numbers(tracks[..i])) && trackCount == |Numbers(tracks[..i])| % TWO_16
  }

  lemma NothingFilled(tracks: seq<Track>, unique: seq<bool>, rs: seq<Record>)
    requires |rs| == |tracks| && unique == seq(|tracks|, _ => false)
    ensures Filled(tracks, 0, unique, 0, 0, rs)
  {
    MarksNone(|tracks|);
    assert tracks[..0] == [];
  }

  lemma MarksSoFar(tracks: seq<Track>, i: nat, unique: seq<bool>, trackCount: nat, uidCount: nat, rs: seq<Record>)
    requires Filled(tracks, i, unique, trackCount, uidCount, rs)
    ensures i <= |tracks| && Marks(unique, Numbers(tracks[..i])) && uidCount <= i
  {
  }

  lemma OneMore(tracks: seq<Track>, i: nat, unique: seq<bool>, trackCount: nat, uidCount: nat, rs: seq<Record>,
                marked: seq<bool>, isNew: bool)
    requires Filled(tracks, i, unique, trackCount, uidCount, rs) && i < |tracks|
    requires Marks(marked, Numbers(tracks[..i]) + {tracks[i].number})
    requires |Numbers(tracks[..i]) + {tracks[i].number}| == |Numbers(tracks[..i])| + if isNew then 1 else 0
    ensures |rs| == |tracks|
    ensures Filled(tracks, i + 1, marked, if isNew then (trackCount + 1) % TWO_16 else trackCount,
                   (uidCount + 1) % TWO_16, rs[i := Packed(tracks[i])])
  {
    hide Marks, Numbers, Packed;
    assert tracks[..i + 1] == tracks[..i] + [tracks[i]];
    NumbersAppend(tracks[..i], tracks[i]);
  }

  lemma AllFilled(tracks: seq<Track>, i: nat, unique: seq<bool>, trackCount: nat, uidCount: nat, rs: seq<Record>)
    requires Filled(tracks, i, unique, trackCount, uidCount, rs) && (i == |tracks| || |tracks| <= uidCount)
    ensures trackCount == |Numbers(tracks)| % TWO_16 && uidCount == |tracks| % TWO_16 && rs == PackedAll(tracks)
    ensures trackCount < TWO_16 && uidCount < TWO_16
    ensures forall k | 0 <= k < |rs| :: RecordOk(rs[k])
  {
    hide Marks, Numbers, RecordOk;
    assert tracks[..|tracks|] == tracks;
    assert rs == PackedAll(tracks);
  }

  class Memory {
    var trackCount: nat
    var uidCount: nat
    const records: array<Record>

    /** calloc() */
    constructor (n: nat)
      ensures trackCount == uidCount == 0 && fresh(records) && records[..] == seq(n, _ => BLANK)
    {
      trackCount, uidCount := 0, 0;
      records := new Record[n](_ => BLANK);
    }

    predicate Valid()
      reads this, records
    {
      trackCount < TWO_16 && uidCount < TWO_16 && forall i | 0 <= i < records.Length :: RecordOk(records[i])
    }

    /** GetChna(): a bit vector that grows as larger track numbers turn up counts the distinct ones. */
    static method GetChna(tracks: seq<Track>) returns (p: Memory)
      requires |tracks| < TWO_32 && forall i | 0 <= i < |tracks| :: tracks[i].number + 1 < TWO_32
      ensures fresh(p) && fresh(p.records) && p.Valid()
      ensures p.trackCount == |Numbers(tracks)| % TWO_16 && p.uidCount == |tracks| % TWO_16
      ensures p.records[..] == PackedAll(tracks)
    {
      hide Filled, Marks, Packed, RecordOk, Numbers;
      var nuids := |tracks|;
      p := new Memory(nuids);
      var unique := seq(|tracks|, _ => false);
      NothingFilled(tracks, unique, p.records[..]);
      var i := 0;
      while i < |tracks| && p.uidCount < nuids
        invariant i <= |tracks| && fresh(p) && fresh(p.records) && p.records.Length == |tracks|
        invariant Filled(tracks, i, unique, p.trackCount, p.uidCount, p.records[..])
      {
        var track := tracks[i];
        var isNew;
        MarksSoFar(tracks, i, unique, p.trackCount, p.uidCount, p.records[..]);
        ghost var was := p.records[..];
        ghost var trackCount, uidCount, before := p.trackCount, p.uidCount, unique;
        unique, isNew := Mark(unique, track.number, Numbers(tracks[..i]));
        OneMore(tracks, i, before, trackCount, uidCount, was, unique, isNew);
        if isNew {
          p.trackCount := (p.trackCount + 1) % TWO_16;
        }
        p.records[i] := Packed(track);
        p.uidCount := (p.uidCount + 1) % TWO_16;
        assert p.records[..] == was[i := Packed(track)];
        i := i + 1;
      }
      AllFilled(tracks, i, unique, p.trackCount, p.uidCount, p.records[..]);
    }

    /** ByteSwapData() on a big-endian host; both ways the loop is bounded by the count in the
        order of the host. */
    method ByteSwapData(writing: bool)
      requires Valid() && (if writing then uidCount else Swap16(uidCount)) <= records.Length
      modifies this, records
      ensures Valid() && trackCount == Swap16(old(trackCount)) && uidCount == Swap16(old(uidCount))
      ensures records[..] == Swapped(old(records[..]), if writing then old(uidCount) else uidCount)
    {
      ghost var was := records[..];
      if writing {
        SwapNumbers();
      }
      trackCount := Swap16(trackCount);
      uidCount := Swap16(uidCount);
      if !writing {
        SwapNumbers();
      }
    }

    method SwapNumbers()
      requires Valid() && uidCount <= records.Length
      modifies records
      ensures Valid() && records[..] == Swapped(old(records[..]), uidCount)
    {
      ghost var was := records[..];
      for i := 0 to uidCount
        invariant forall k | 0 <= k < i :: records[k] == SwapRecord(was[k])
        invariant forall k | i <= k < records.Length :: records[k] == was[k]
      {
        records[i] := SwapRecord(records[i]);
      }
      assert records[..] == Swapped(was, uidCount);
    }

    /** WriteChunkData(): the chunk is swapped, written and swapped back. */
    method WriteChunkData() returns (bs: seq<Byte>)
      requires Valid() && uidCount <= records.Length
      modifies this, records
      ensures Valid() && trackCount == old(trackCount) && uidCount == old(uidCount) && records[..] == old(records[..])
      ensures bs == BigImage(Swap16(old(trackCount)), Swap16(old(uidCount)), Swapped(old(records[..]), old(uidCount)))
    {
      Swap16Involution(trackCount);
      Swap16Involution(uidCount);
      SwapTwice(records[..], uidCount);
      ByteSwapData(true);
      bs := BigImage(trackCount, uidCount, records[..]);
      ByteSwapData(false);
    }
  }

  function SwapRecord(r: Record): (q: Record)
    requires RecordOk(r)
    ensures RecordOk(q)
  {
    r.(trackNum := Swap16(r.trackNum))
  }

  /** The records with the first `n` track numbers byte-swapped. */
  function Swapped(rs: seq<Record>, n: nat): (r: seq<Record>)
    requires forall i | 0 <= i < |rs| :: RecordOk(rs[i])
    ensures |r| == |rs| && forall i | 0 <= i < |r| :: RecordOk(r[i])
  {
    seq(|rs|, i requires 0 <= i < |rs| => if i < n then SwapRecord(rs[i]) else rs[i])
  }

  lemma SwapTwice(rs: seq<Record>, n: nat)
    requires forall i | 0 <= i < |rs| :: RecordOk(rs[i])
    ensures Swapped(Swapped(rs, n), n) == rs
  {
    forall i | 0 <= i < |rs|
      ensures Swapped(Swapped(rs, n), n)[i] == rs[i]
    {
      Swap16Involution(rs[i].trackNum);
    }
  }

  function Be16(n: nat): (bs: seq<Byte>)
    requires n < TWO_16
    ensures |bs| == 2
  {
    [n / 0x100, n % 0x100]
  }

  function BigRecordBytes(r: Record): (bs: seq<Byte>)
    requires RecordOk(r)
    ensures |bs| == RECORD
  {
    Be16(r.trackNum) + r.uid + r.trackRef + r.packRef + [0]
  }

  /** The bytes of the chunk in the memory of a big-endian host. */
  function BigImage(trackCount: nat, uidCount: nat, rs: seq<Record>): seq<Byte>
    requires trackCount < TWO_16 && uidCount < TWO_16 && forall i | 0 <= i < |rs| :: RecordOk(rs[i])
  {
    Be16(trackCount) + Be16(uidCount) + B.Glue(seq(|rs|, i requires 0 <= i < |rs| => BigRecordBytes(rs[i])))
  }

  lemma BigIsLittle(n: nat)
    requires n < TWO_16
    ensures Be16(Swap16(n)) == Le16(n)
  {
    Swap16Involution(n);
  }

  /** A big-endian host writes the bytes that a little-endian one does when the count covers all
      records, as that of GetChna does up to 65535 tracks. */
  lemma SwappedImage(trackCount: nat, rs: seq<Record>)
    requires trackCount < TWO_16 && |rs| < TWO_16 && forall i | 0 <= i < |rs| :: RecordOk(rs[i])
    ensures BigImage(Swap16(trackCount), Swap16(|rs|), Swapped(rs, |rs|)) == Image(trackCount, |rs|, rs)
  {
    BigIsLittle(trackCount);
    BigIsLittle(|rs|);
    var swapped := Swapped(rs, |rs|);
    forall i | 0 <= i < |rs|
      ensures BigRecordBytes(swapped[i]) == RecordBytes(rs[i])
    {
      BigIsLittle(rs[i].trackNum);
    }
    assert seq(|swapped|, i requires 0 <= i < |swapped| => BigRecordBytes(swapped[i])) == AllBytes(rs);
  }

  /** SetChna(): the loop over the records, as far as both the count and the length allow. */
  method SetChna(bs: seq<Byte>) returns (known: seq<Known>)
    requires HEADER <= |bs|
    ensures known == Decoded(bs)
  {
    hide Seen, RecordAt;
    var maxUids := (|bs| - HEADER) / RECORD % TWO_32;
    var count := FromLe16(bs[2..4]);
    known := [];
    ghost var rs := Records(bs, Min(count, maxUids));
    var i := 0;
    while i < count && i < maxUids
      invariant i <= |rs|
      invariant known == Collected(rs[..i])
    {
      var r := RecordAt(bs, i);
      known := known + Seen(r);
      assert rs[..i + 1][..i] == rs[..i];
      i := i + 1;
    }
    assert rs[..i] == rs;
  }
}
