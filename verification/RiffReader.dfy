/** The container reader: a chain of chunks, each starting where the one before it ends. */
module RiffReader {
  import opened Bytes
  import opened ChunkIds
  import opened EnhancedFile
  import opened Ds64
  import opened RiffLayout
  import F = FormatChunk
  import S = SoundFile

  datatype Option<T> = None | Some(value: T)

  /** A chunk that was read: `data` only when the chunk class loads it. */
  datatype Found = Found(id: Word, length: nat, start: nat, datapos: nat, data: Option<seq<Byte>>)

  /** The chunk classes that read their data (ChunkHandling_ReadChunk). */
  predicate Loads(id: Word) {
    id == DS64_ID || id == FMT_ID || id == BEXT_ID || id == CHNA_ID || id == AXML_ID
  }

  /** The bytes a chunk takes up: RIFF only its header (what follows is inside it), WAVE only
      its identifier. */
  function Extent(f: Found): (n: nat)
    ensures 4 <= n
  {
    if f.id == RIFF_ID || f.id == RF64_ID then 8
    else if f.id == WAVE_ID then 4
    else 8 + f.length + PadLength(f.length)
  }

  /** The format chunk is accepted. */
  predicate FormatKnown(data: seq<Byte>) { F.Parse(data).Some? }

  /** The length of a chunk, once a ds64 chunk has been seen. */
  function Resolve(ds64: Option<seq<Word>>, id: Word, field: Word): nat {
    if ds64.Some? then GetSize(ds64.value, id, field) else field
  }

  /** The entry of a format chunk has what the chunk says. */
  predicate Described(f: Found) { f.data.Some? && FormatKnown(f.data.value) }

  predicate AllDescribed(fs: seq<Found>) {
    forall i | 0 <= i < |fs| && fs[i].id == FMT_ID :: Described(fs[i])
  }

  /** RIFFChunk::Create from a file: the chunk at `pos`, unless it cannot be read. */
  function ChunkAt(bytes: seq<Byte>, pos: nat, ds64: Option<seq<Word>>): (r: Option<Found>)
    ensures r.Some? ==> r.value.start == pos && pos + 4 <= |bytes|
    ensures r.Some? && r.value.id == FMT_ID ==> Described(r.value)
  {
    if |bytes| < pos + 4 then None
    else
      var id := FromBe32(bytes[pos..pos + 4]);
      if id == WAVE_ID then Some(Found(id, 0, pos, 0, None))
      else if |bytes| < pos + 8 then None
      else
        var length := Resolve(ds64, id, FromLe32(bytes[pos + 4..pos + 8]));
        var at := pos + 8;
        if id == RIFF_ID || id == RF64_ID then Some(Found(id, length, pos, at, None))
        else if TWO_63 <= at + length + PadLength(length) then None
        else if !Loads(id) then Some(Found(id, length, pos, at, None))
        else if |bytes| < at + length then None
        else if id == FMT_ID && !FormatKnown(bytes[at..at + length]) then None
        else Some(Found(id, length, pos, at, Some(bytes[at..at + length])))
  }

  /** What the ds64 chunk, once read, is used for. */
  function NextDs64(f: Found, ds64: Option<seq<Word>>): Option<seq<Word>> {
    if f.id == DS64_ID && f.data.Some? then Some(Absorb(f.data.value)) else ds64
  }

  function NextLimit(f: Found, limit: nat): nat {
    if f.id == DS64_ID && f.data.Some? && limit == MAX_SIZE then RiffSize(Absorb(f.data.value)) else limit
  }

  /** ReadChunks: chunks from `pos` on while less than `limit` bytes after `start` are used up. */
  function Chain(bytes: seq<Byte>, start: nat, pos: nat, limit: nat, ds64: Option<seq<Word>>): (fs: seq<Found>)
    requires start <= pos
    ensures AllDescribed(fs)
    decreases Max(0, |bytes| - pos)
  {
    var next := ChunkAt(bytes, pos, ds64);
    if pos - start < limit && next.Some?
    then
      var f := next.value;
      [f] + Chain(bytes, start, pos + Extent(f), NextLimit(f, limit), NextDs64(f, ds64))
    else []
  }

  /** Open: the file must start with a RIFF or RF64 chunk. */
  function OpenFile(bytes: seq<Byte>): (r: Option<seq<Found>>)
    ensures r.Some? ==> AllDescribed(r.value)
  {
    var first := ChunkAt(bytes, 0, None);
    if first.Some? && (first.value.id == RIFF_ID || first.value.id == RF64_ID)
    then Some([first.value] + Chain(bytes, 8, 8, first.value.length, None))
    else None
  }

  /** Every chunk starts where the extent of the one before it ends. */
  predicate Tiled(fs: seq<Found>, pos: nat) {
    && (fs != [] ==> fs[0].start == pos)
    && forall i | 0 < i < |fs| :: fs[i].start == fs[i - 1].start + Extent(fs[i - 1])
  }

  /** Every accepted chunk tiles the file, wherever it came from. */
  lemma {:induction false} ChainTiles(bytes: seq<Byte>, start: nat, pos: nat, limit: nat, ds64: Option<seq<Word>>)
    requires start <= pos
    ensures Tiled(Chain(bytes, start, pos, limit, ds64), pos)
    decreases Max(0, |bytes| - pos)
  {
    hide ChunkAt;
    var next := ChunkAt(bytes, pos, ds64);
    if pos - start < limit && next.Some? {
      var f := next.value;
      var rest := Chain(bytes, start, pos + Extent(f), NextLimit(f, limit), NextDs64(f, ds64));
      ChainTiles(bytes, start, pos + Extent(f), NextLimit(f, limit), NextDs64(f, ds64));
      var fs := Chain(bytes, start, pos, limit, ds64);
      assert fs == [f] + rest;
      forall i | 0 < i < |fs|
        ensures fs[i].start == fs[i - 1].start + Extent(fs[i - 1])
      {
        assert fs[i] == rest[i - 1];
        if 1 < i { assert fs[i - 1] == rest[i - 2]; }
      }
    }
  }

  /** The list of any file that opens tiles it from its first byte on, and positions grow. */
  lemma OpenTiles(bytes: seq<Byte>)
    requires OpenFile(bytes).Some?
    ensures var fs := OpenFile(bytes).value;
            && Tiled(fs, 0)
            && forall i, j | 0 <= i < j < |fs| :: fs[i].start < fs[j].start
  {
    hide ChunkAt;
    var first := ChunkAt(bytes, 0, None).value;
    var rest := Chain(bytes, 8, 8, first.length, None);
    var fs := [first] + rest;
    ChainTiles(bytes, 8, 8, first.length, None);
    forall i | 0 < i < |fs|
      ensures fs[i].start == fs[i - 1].start + Extent(fs[i - 1])
    {
      assert fs[i] == rest[i - 1];
      if 1 < i { assert fs[i - 1] == rest[i - 2]; }
    }
    TiledGrows(fs, 0);
  }

  lemma TiledGrows(fs: seq<Found>, pos: nat)
    requires Tiled(fs, pos)
    ensures forall i, j | 0 <= i < j < |fs| :: fs[i].start < fs[j].start
  {
    forall i, j | 0 <= i < j < |fs|
      ensures fs[i].start < fs[j].start
    {
      TiledGrowsTo(fs, pos, i, j);
    }
  }

  lemma {:induction false} TiledGrowsTo(fs: seq<Found>, pos: nat, i: nat, j: nat)
    requires Tiled(fs, pos) && i < j < |fs|
    ensures fs[i].start < fs[j].start
  {
    assert fs[j].start == fs[j - 1].start + Extent(fs[j - 1]);
    if i < j - 1 {
      TiledGrowsTo(fs, pos, i, j - 1);
    }
  }

  /** chunkmap finds the last accepted chunk of every identifier. */
  ghost predicate LastOf(m: map<Word, nat>, fs: seq<Found>) {
    && (forall id | id in m :: m[id] < |fs| && fs[m[id]].id == id)
    && (forall i | 0 <= i < |fs| :: fs[i].id in m && i <= m[fs[i].id])
  }

  /** A chunk that is stepped over is in the list even if the file ends before it does; one that is
      loaded is not, and neither has a chunk after it. */
  lemma CutOff(bytes: seq<Byte>, start: nat, pos: nat, limit: nat, ds64: Option<seq<Word>>, id: Word, field: Word)
    requires start <= pos && pos - start < limit && pos + 8 <= |bytes|
    requires BeValue(bytes[pos..pos + 4]) == id && LeValue(bytes[pos + 4..pos + 8]) == field
    requires id != RIFF_ID && id != RF64_ID && id != WAVE_ID
    requires |bytes| < pos + 8 + Resolve(ds64, id, field) < TWO_63 - 1
    ensures Chain(bytes, start, pos, limit, ds64)
            == if id in {DS64_ID, FMT_ID, BEXT_ID, CHNA_ID, AXML_ID} then []
               else [Found(id, Resolve(ds64, id, field), pos, pos + 8, None)]
  {
    hide FromBe32, FromLe32, LeValue, BeValue, GetSize, FormatKnown;
    BeValueIs(bytes[pos..pos + 4]);
    LeValues(bytes[pos + 4..pos + 8]);
  }

  class Reader {
    var file: File?
    var chunklist: seq<Found>
    var chunkmap: map<Word, nat>

    constructor ()
      ensures file == null && chunklist == [] && chunkmap == map[]
    {
      file, chunklist, chunkmap := null, [], map[];
    }

    method Keep(f: Found)
      requires LastOf(chunkmap, chunklist)
      modifies `chunklist, `chunkmap
      ensures LastOf(chunkmap, chunklist) && chunklist == old(chunklist) + [f]
    {
      chunklist := chunklist + [f];
      chunkmap := chunkmap[f.id := |chunklist| - 1];
    }

    /** Opens a file that exists; on failure nothing is kept. */
    method Open(f: File) returns (ok: bool)
      requires file == null && chunklist == [] && chunkmap == map[] && f.pos == 0
      modifies this, f
      ensures f.bytes == old(f.bytes)
      ensures ok <==> OpenFile(f.bytes).Some?
      ensures ok ==> file == f && chunklist == OpenFile(f.bytes).value && LastOf(chunkmap, chunklist)
      ensures !ok ==> file == null && chunklist == [] && chunkmap == map[]
    {
      hide ChunkAt, Chain;
      file := f;
      ok := false;
      var first := ReadChunk(f, None);
      if first.Some? {
        Keep(first.value);
        if first.value.id == RIFF_ID || first.value.id == RF64_ID {
          ReadChunks(f, first.value.length);
          ok := true;
        }
      }
      if !ok {
        file, chunklist, chunkmap := null, [], map[];
      }
    }

    /** The sample object of the file, as ReadChunks leaves it: that of the last data chunk, with
        the format of the last format chunk. */
    method Link() returns (s: S.SoundFileSamples?)
      requires file != null && LastOf(chunkmap, chunklist) && AllDescribed(chunklist)
      requires FMT_ID in chunkmap ==> 0 < F.Parse(chunklist[chunkmap[FMT_ID]].data.value).value.channels
      requires DATA_ID in chunkmap ==> chunklist[chunkmap[DATA_ID]].length < TWO_64
      ensures s == null <==> DATA_ID !in chunkmap
      ensures s != null ==>
                var d := chunklist[chunkmap[DATA_ID]];
                && fresh(s) && s.Valid() && s.file == file && s.readonly && s.samplepos == 0 && !s.inError && 0 < s.bufferFrames
                && s.filepos == d.datapos && s.totalbytes == d.length && s.hasFormat == (FMT_ID in chunkmap)
      ensures s != null && FMT_ID in chunkmap ==>
                var f := F.Parse(chunklist[chunkmap[FMT_ID]].data.value).value;
                && s.channels == f.channels && s.bytesPerSample == F.Width(f.sample) && 0 < s.FrameBytes()
                && s.totalsamples == s.totalbytes / s.FrameBytes() && s.clip == S.Clip(0, s.totalsamples, 0, s.channels)
    {
      hide F.Parse;
      s := null;
      if DATA_ID in chunkmap {
        var d := chunklist[chunkmap[DATA_ID]];
        s := new S.SoundFileSamples();
        if FMT_ID in chunkmap {
          var f := F.Parse(chunklist[chunkmap[FMT_ID]].data.value).value;
          FrameBytesPositive(f.channels, F.Width(f.sample));
          s.SetFormat(f.channels, F.Width(f.sample));
        }
        s.SetFile(file, d.datapos, d.length, true);
      }
    }

    /** The loop over the chunks that follow the first one. */
    method ReadChunks(f: File, maxLength: nat)
      requires LastOf(chunkmap, chunklist)
      modifies `chunklist, `chunkmap, f
      ensures f.bytes == old(f.bytes) && LastOf(chunkmap, chunklist)
      ensures chunklist == old(chunklist) + Chain(f.bytes, old(f.pos), old(f.pos), maxLength, None)
    {
      hide ChunkAt, LastOf, Absorb, RiffSize;
      var start, limit, ds64 := f.pos, maxLength, None;
      ghost var all := Chain(f.bytes, start, start, maxLength, None);
      assert old(chunklist) + all == chunklist + all;
      while f.pos - start < limit
        invariant f.bytes == old(f.bytes) && start <= f.pos && LastOf(chunkmap, chunklist)
        invariant old(chunklist) + all == chunklist + Chain(f.bytes, start, f.pos, limit, ds64)
        decreases Max(0, |f.bytes| - f.pos)
      {
        ghost var at, was := f.pos, chunklist;
        var next := ReadChunk(f, ds64);
        if next.None? {
          assert old(chunklist) + all == chunklist + [] == chunklist;
          return;
        }
        Keep(next.value);
        ghost var rest := Chain(f.bytes, start, f.pos, NextLimit(next.value, limit), NextDs64(next.value, ds64));
        assert was + ([next.value] + rest) == chunklist + rest;
        limit, ds64 := NextLimit(next.value, limit), NextDs64(next.value, ds64);
      }
      assert chunklist + [] == chunklist;
    }
  }

  lemma FrameBytesPositive(channels: nat, width: nat)
    requires 0 < channels && 0 < width
    ensures 0 < channels * width
  {
  }

  /** One chunk; the position is left at the start of the next one. */
  method ReadChunk(f: File, ds64: Option<seq<Word>>) returns (r: Option<Found>)
    modifies f
    ensures f.bytes == old(f.bytes) && r == ChunkAt(f.bytes, old(f.pos), ds64)
    ensures r.Some? ==> f.pos == old(f.pos) + Extent(r.value)
  {
    hide FromBe32, FromLe32, GetSize, FormatKnown;
    var start := f.pos;
    var ok, word := f.Read(4);
    if !ok { return None; }
    var id := FromBe32(word);
    if id == WAVE_ID { return Some(Found(id, 0, start, 0, None)); }
    ok, word := f.Read(4);
    if !ok { return None; }
    var length := Resolve(ds64, id, FromLe32(word));
    var at := f.pos;
    if id == RIFF_ID || id == RF64_ID { return Some(Found(id, length, start, at, None)); }
    if !Loads(id) {
      ok := f.Seek(at + length + PadLength(length));
      return if ok then Some(Found(id, length, start, at, None)) else None;
    }
    if TWO_63 <= at + length + PadLength(length) { return None; }
    var data;
    ok, data := f.Read(length);
    if !ok || (id == FMT_ID && !FormatKnown(data)) { return None; }
    if length % 2 != 0 {
      ok := f.Seek(f.pos + 1);
    }
    r := Some(Found(id, length, start, at, Some(data)));
  }
}
