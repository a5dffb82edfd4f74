/** The container writer: headers first, samples appended, headers rewritten on closing. */
module RiffFile {
  import opened Bytes
  import opened ChunkIds
  import opened EnhancedFile
  import opened Ds64
  import opened RiffLayout
  import opened RiffWrite
  import F = FormatChunk
  import D = Ds64Chunk
  import S = SoundFile
  import Blocks

  class RiffFile {
    var file: File?
    var ds64: D.Chunk
    var samples: S.SoundFileSamples
    var chunklist: seq<Chunk>
    var chunkmap: map<Word, nat>
    var format: seq<Byte>
    var writing: bool

    constructor ()
      ensures file == null && !writing && chunklist == [] && chunkmap == map[]
    {
      file, chunklist, chunkmap, format, writing := null, [], map[], [], false;
      ds64 := new D.Chunk();
      samples := new S.SoundFileSamples();
    }

    /** The objects that a file being written is made of, and the list that Create starts. */
    ghost predicate Shape()
      reads this, ds64, ds64.data, samples
    {
      && writing && file != null
      && WellFormed(chunklist) && ChunkMap(chunkmap)
      && |format| == 16 && (chunklist[3].length == 0 || chunklist[3].length == 16)
      && ds64.Valid()
      && SamplesReady(samples)
    }

    /** Every chunk has its data. */
    ghost predicate Ready()
      reads this, ds64, ds64.data, samples
    {
      && Shape() && samples.file == file && ds64.data != null && chunklist[3].length == 16
    }

    /** A file open for writing: nothing of it is switched to RF64 yet. */
    ghost predicate Valid()
      reads this, ds64, ds64.data, samples
    {
      && Ready() && samples.Valid() && !samples.readonly && AllAllocated(chunklist)
      && |ds64.Words()| == 7 + 3 * Count(ds64.Words())
      && chunklist[0].id == RIFF_ID && chunklist[0].length == 0
      && (forall i | 0 <= i < |chunklist| :: !chunklist[i].riff64)
    }

    /** The samples lie where the headers put them, at the end of the file. */
    ghost predicate LaidOut()
      reads this, ds64, ds64.data, samples, file
    {
      && file != null
      && samples.filepos == SampleOffset(chunklist, ds64.Words())
      && |file.bytes| == samples.filepos + samples.totalbytes
    }

    /** The bytes of the samples. */
    ghost function SampleBytes(): seq<Byte>
      reads this, samples, file
    {
      if file != null && samples.filepos + samples.totalbytes <= |file.bytes|
      then file.bytes[samples.filepos..samples.filepos + samples.totalbytes] else []
    }

    /** The ds64 data once it is allocated. */
    ghost function NextWords(): seq<Word>
      reads this, ds64, ds64.data
    {
      if ds64.data == null then Blank(ds64.tableCount) else ds64.Words()
    }

    /** One chunk prepares its data. */
    method CreateWriteData(i: nat)
      requires ds64.Valid() && i < |chunklist| && (chunklist[i].kind.Ds64Kind? <==> i == 2)
      modifies `chunklist, ds64`data
      ensures chunklist == old(chunklist)[i := PreparedChunk(old(chunklist)[i], format, samples.totalbytes)]
      ensures ds64.Valid() && NextWords() == old(NextWords()) && (i == 2 ==> ds64.data != null)
      ensures ds64.data == old(ds64.data) || (i == 2 && old(ds64.data) == null && fresh(ds64.data))
    {
      var c := chunklist[i];
      if c.kind.Ds64Kind? {
        ds64.CreateWriteData();
      } else if c.kind.FmtKind? && c.length == 0 {
        chunklist := chunklist[i := c.(length := |format|, data := format)];
      } else if c.kind.DataKind? {
        chunklist := chunklist[i := c.(length := samples.totalbytes)];
      } else if c.kind.UserKind? && c.length == 0 && c.kind.least != 0 {
        chunklist := chunklist[i := c.(length := c.kind.least, data := Zeros(c.kind.least))];
      }
    }

    method WriteChunks(closing: bool)
      requires Shape() && (closing ==> Ready() && chunklist[4].length == samples.totalbytes && AllAllocated(chunklist))
      requires SampleOffset(Prepared(chunklist, format, samples.totalbytes), NextWords()) + samples.totalbytes < TWO_63
      modifies `chunklist, ds64`data, file, samples
      ensures Ready() && samples.Valid() && !samples.readonly
      ensures chunklist == Prepared(old(chunklist), format, old(samples.totalbytes))
      ensures ds64.Words() == old(NextWords()) && (if old(ds64.data) == null then fresh(ds64.data) else ds64.data == old(ds64.data))
      ensures file.bytes == Laid(old(file.bytes), chunklist, ds64.Words(), closing)
      ensures !closing ==> file.pos == samples.filepos + samples.totalbytes + PadLength(samples.totalbytes)
      ensures samples.filepos == SampleOffset(chunklist, ds64.Words())
      ensures SamplesReset(samples) && samples.totalbytes == old(samples.totalbytes)
      ensures samples.channels == old(samples.channels) && samples.bytesPerSample == old(samples.bytesPerSample)
      ensures samples.samplepos == Min(old(samples.samplepos), samples.totalsamples)
    {
      hide PreparedChunk, AllAllocated;
      PreparedShape(chunklist, format, samples.totalbytes);
      if !closing {
        PrepareAll();
      } else {
        PreparedAlready(chunklist, format, samples.totalbytes);
      }
      WritePasses(file, samples, chunklist, ds64.Words(), chunkmap[DATA_ID], closing);
    }

    /** Before the first layout every chunk creates its data. */
    method PrepareAll()
      requires ds64.Valid() && WellFormed(chunklist)
      modifies `chunklist, ds64`data
      ensures ds64.Valid() && ds64.data != null
      ensures chunklist == Prepared(old(chunklist), format, samples.totalbytes)
      ensures ds64.Words() == old(NextWords()) && (if old(ds64.data) == null then fresh(ds64.data) else ds64.data == old(ds64.data))
    {
      ghost var cs, goal, words := chunklist, Prepared(chunklist, format, samples.totalbytes), NextWords();
      for i := 0 to |chunklist|
        invariant |chunklist| == |cs| && ds64.Valid()
        invariant forall k | 0 <= k < |cs| :: chunklist[k] == if k < i then goal[k] else cs[k]
        invariant ds64.data == old(ds64.data) || (old(ds64.data) == null && fresh(ds64.data))
        invariant NextWords() == words && (2 < i ==> ds64.data != null)
      {
        CreateWriteData(i);
      }
      assert chunklist == goal;
    }

    /** AddChunk by identifier: the chunks of the container may be added once each. */
    method AddChunk(id: Word) returns (ok: bool)
      modifies `chunklist, `chunkmap
      ensures ok == (writing && (id !in old(chunkmap) || id !in {RIFF_ID, WAVE_ID, FMT_ID, DS64_ID, DATA_ID}))
      ensures chunklist == if ok then old(chunklist) + [NewChunk(id)] else old(chunklist)
      ensures chunkmap == if ok then old(chunkmap)[id := |old(chunklist)|] else old(chunkmap)
    {
      ok := writing && (id !in chunkmap || !Single(id));
      if ok {
        chunklist := chunklist + [NewChunk(id)];
        chunkmap := chunkmap[id := |chunklist| - 1];
      }
    }

    /** The chunks that every file has, then the extra ones with the data they are given. */
    method AddChunks(extras: seq<Extra>)
      requires writing && chunklist == [] && chunkmap == map[]
      requires forall i | 0 <= i < |extras| :: !BuiltIn(extras[i].id)
      modifies `chunklist, `chunkmap
      ensures chunklist == StartList(extras) && ChunkMap(chunkmap)
    {
      hide NewChunk;
      var ids := [RIFF_ID, WAVE_ID, DS64_ID, FMT_ID, DATA_ID];
      for i := 0 to |ids|
        invariant chunklist == StartList([])[..i]
        invariant forall id | id in chunkmap :: chunkmap[id] < i && ids[chunkmap[id]] == id
        invariant forall k | 0 <= k < i :: ids[k] in chunkmap && chunkmap[ids[k]] == k
      {
        var _ := AddChunk(ids[i]);
        StartId(i);
      }
      assert ids[0] in chunkmap && ids[2] in chunkmap && ids[4] in chunkmap;
      for i := 0 to |extras|
        invariant chunklist == StartList(extras[..i]) && ChunkMap(chunkmap)
      {
        var _ := AddChunk(extras[i].id);
        var last := |chunklist| - 1;
        chunklist := chunklist[last := chunklist[last].(length := |extras[i].data|, data := extras[i].data)];
        StartMore(extras, i);
      }
      assert extras[..|extras|] == extras;
    }

    /** Creates a file; `extras` is what CreateExtraChunks adds. */
    method Create(rate: Word, channels: nat, bytesPerSample: nat, bits: nat, isFloat: bool, extras: seq<Extra>) returns (ok: bool)
      requires 0 < bytesPerSample && channels < TWO_32 && |extras| < TWO_32
      requires forall i | 0 <= i < |extras| :: !BuiltIn(extras[i].id)
      requires SampleOffset(Prepared(StartList(extras), F.FormatData(rate, channels, bytesPerSample, bits, isFloat), 0), Blank(|extras|)) < TWO_63
      modifies this
      requires file == null && rate != 0 && channels != 0 ==> chunklist == [] && chunkmap == map[]
      ensures ok == (old(file) == null && rate != 0 && channels != 0)
      ensures ok ==> Valid() && LaidOut() && samples.Recording() && fresh(file) && fresh(ds64) && fresh(ds64.data) && fresh(samples)
      ensures ok ==> ds64.Words() == Blank(|extras|) && samples.totalbytes == 0
      ensures ok ==> samples.channels == channels && samples.bytesPerSample == bytesPerSample
      ensures ok ==> format == F.FormatData(rate, channels, bytesPerSample, bits, isFloat)
      ensures ok ==> F.Fields(format, if isFloat then 3 else 1, channels % 65536, rate, rate * channels * bytesPerSample % 0x1_0000_0000,
                              channels * bytesPerSample % 65536, bits % 65536)
      ensures ok ==> chunklist == Prepared(StartList(extras), F.FormatData(rate, channels, bytesPerSample, bits, isFloat), 0)
      ensures !ok && old(file) != null ==> unchanged(this)
      ensures !ok && old(file) == null ==> file == null && !writing && chunklist == [] && chunkmap == map[]
    {
      hide Laid, F.FormatData, F.Fields, StartList, Prepared, HeadBytes, PreBytes, WellFormed;
      ok := file == null && rate != 0 && channels != 0;
      if ok {
        StartReady(extras, F.FormatData(rate, channels, bytesPerSample, bits, isFloat));
        F.FieldsWritten(rate, channels, bytesPerSample, bits, isFloat);
        Setup(rate, channels, bytesPerSample, bits, isFloat, extras);
        WriteChunks(false);
        LaidFresh([], chunklist, ds64.Words());
        HeadLength(chunklist, ds64.Words());
        assert samples.FrameBytes() == channels * bytesPerSample;
      } else if file == null {
        chunklist, chunkmap, writing := [], map[], false;
      }
    }

    /** The objects of a new file, before anything is written. */
    method Setup(rate: Word, channels: nat, bytesPerSample: nat, bits: nat, isFloat: bool, extras: seq<Extra>)
      requires 0 < bytesPerSample && 0 < channels < TWO_32 && |extras| < TWO_32
      requires forall i | 0 <= i < |extras| :: !BuiltIn(extras[i].id)
      requires chunklist == [] && chunkmap == map[]
      modifies this
      ensures Shape() && fresh(file) && fresh(ds64) && fresh(samples)
      ensures chunklist == StartList(extras) && format == F.FormatData(rate, channels, bytesPerSample, bits, isFloat)
      ensures file.bytes == [] && ds64.data == null && ds64.tableCount == |extras|
      ensures samples.channels == channels && samples.bytesPerSample == bytesPerSample
      ensures samples.totalbytes == 0 && samples.samplepos == 0
    {
      hide F.FormatData, StartList, WellFormed, NewChunk, BuiltIn, Blank;
      file := new File();
      writing := true;
      AddChunks(extras);
      format := F.FormatData(rate, channels, bytesPerSample, bits, isFloat);
      StartReady(extras, format);
      samples := NewSamples(channels, bytesPerSample);
      ds64 := NewDs64(|chunklist| - 5);
    }

    /** AddChunk with data. A chunk meant to go ahead of the samples is moved after them once
        samples have been written; otherwise the headers are laid out again. */
    method AddData(id: Word, data: seq<Byte>, beforeSamples: bool)
      requires Valid() && !BuiltIn(id)
      requires SampleOffset(chunklist, ds64.Words()) + 9 + |data| + samples.totalbytes < TWO_63
      modifies `chunklist, `chunkmap, ds64`data, file, samples
      ensures Valid() && ds64.data == old(ds64.data) && ds64.Words() == old(ds64.Words())
      ensures chunkmap == old(chunkmap)[id := |old(chunklist)|]
      ensures samples.totalbytes == old(samples.totalbytes)
      ensures samples.channels == old(samples.channels) && samples.bytesPerSample == old(samples.bytesPerSample)
      ensures SampleOffset(chunklist, ds64.Words()) <= old(SampleOffset(chunklist, ds64.Words())) + 9 + |data|
      ensures var before := beforeSamples && old(samples.samplepos) == 0;
              var cs := old(chunklist) + [UserChunk(id, data, before)];
              && chunklist == (if before then Prepared(cs, format, samples.totalbytes) else cs)
              && file.bytes == (if before then Laid(old(file.bytes), chunklist, ds64.Words(), false) else old(file.bytes))
              && (!before ==> unchanged(samples) && unchanged(file))
              && (before ==> samples.filepos == SampleOffset(chunklist, ds64.Words()))
      ensures old(LaidOut()) ==>
                (LaidOut() <==> old(samples.samplepos) != 0 || !beforeSamples || samples.totalbytes == 0
                                || (data == [] && samples.totalbytes % 2 == 0))
      ensures old(LaidOut()) && (old(samples.samplepos) != 0 || !beforeSamples || samples.totalbytes == 0) ==>
                LaidOut() && SampleBytes() == old(SampleBytes())
      ensures old(LaidOut()) && data == [] ==> SampleBytes() == old(SampleBytes())
      ensures old(LaidOut() && samples.Recording()) && (old(samples.samplepos) != 0 || !beforeSamples || samples.totalbytes == 0) ==>
                samples.Recording()
    {
      hide Laid, Prepared, WellFormed, SampleOffset, AllAllocated, Fits;
      var before := beforeSamples && samples.samplepos == 0;
      var c := UserChunk(id, data, before);
      UserLength(id, data, before, ds64.Words());
      AppendChunk(c);
      if before {
        LayOutAgain(LengthOnFile(c, ds64.Words()));
      }
    }

    /** The headers are laid out again for a chunk that was just added ahead of the samples and takes
        up `room` bytes there. */
    method LayOutAgain(ghost room: nat)
      requires Valid() && PreparedWell(chunklist, format, samples.totalbytes)
      requires SampleOffset(Prepared(chunklist, format, samples.totalbytes), ds64.Words())
               == SampleOffset(chunklist, ds64.Words())
      requires SampleOffset(chunklist, ds64.Words()) + samples.totalbytes < TWO_63
      requires samples.samplepos == 0
      modifies `chunklist, ds64`data, file, samples
      ensures Valid() && ds64.data == old(ds64.data) && ds64.Words() == old(ds64.Words())
      ensures samples.totalbytes == old(samples.totalbytes)
      ensures samples.channels == old(samples.channels) && samples.bytesPerSample == old(samples.bytesPerSample)
      ensures chunklist == Prepared(old(chunklist), format, samples.totalbytes)
      ensures file.bytes == Laid(old(file.bytes), chunklist, ds64.Words(), false)
      ensures samples.filepos == SampleOffset(chunklist, ds64.Words()) == old(SampleOffset(chunklist, ds64.Words()))
      ensures var n, was := samples.totalbytes, old(samples.filepos);
              old(file != null && |file.bytes| == was + n) && samples.filepos == was + room ==>
                && (LaidOut() <==> n == 0 || (room == 0 && n % 2 == 0))
                && (n == 0 || room == 0 ==> SampleBytes() == old(SampleBytes()))
                && (n == 0 ==> samples.Recording())
    {
      hide Laid, Prepared, WellFormed, SampleOffset, AllAllocated, LengthOnFile, S.Decode;
      ghost var was, n := samples.filepos, samples.totalbytes;
      WriteChunks(false);
      if |old(file.bytes)| == was + n && was <= samples.filepos {
        NewLayout(old(file.bytes), chunklist, ds64.Words(), was);
      }
    }

    method AppendChunk(c: Chunk)
      requires Valid() && WellFormedChunk(c) && c.kind.UserKind? && !c.riff64 && Allocated(c)
      modifies `chunklist, `chunkmap
      ensures Valid() && chunklist == old(chunklist) + [c] && chunkmap == old(chunkmap)[c.id := |old(chunklist)|]
      ensures PreparedWell(chunklist, format, samples.totalbytes)
      ensures SampleOffset(Prepared(chunklist, format, samples.totalbytes), ds64.Words())
              == SampleOffset(chunklist, ds64.Words())
              == SampleOffset(old(chunklist), ds64.Words()) + (if c.kind.before then LengthOnFile(c, ds64.Words()) else 0)
      ensures LengthOnFile(c, ds64.Words()) <= 9 + |c.data|
    {
      hide PreBytes, Prepared, WellFormed, LengthOnFile, SampleOffset;
      AddedShape(chunklist, c, format, samples.totalbytes, ds64.Words());
      chunklist := chunklist + [c];
      chunkmap := chunkmap[c.id := |chunklist| - 1];
    }

    /** Samples are appended at the file position. */
    method WriteSamples(src: seq<S.Frame>, srcChannel: nat, nsrc: nat) returns (n: nat)
      requires Valid() && samples.Recording() && LaidOut()
      requires srcChannel + samples.channels <= nsrc
      requires forall i | 0 <= i < |src| :: |src[i]| == nsrc && Blocks.AllOf(src[i], samples.bytesPerSample)
      requires (samples.totalsamples + |src|) * samples.FrameBytes() < TWO_63
      modifies file, samples
      ensures Valid() && samples.Recording() && LaidOut() && n == |src|
      ensures samples.totalsamples == old(samples.totalsamples) + |src|
      ensures samples.totalbytes == old(samples.totalbytes) + |src| * old(samples.FrameBytes())
      ensures file.bytes == old(file.bytes) + S.Encode(S.Taken(src, srcChannel, samples.channels))
      ensures SampleBytes() == old(SampleBytes()) + S.Encode(S.Taken(src, srcChannel, samples.channels))
      ensures samples.Recorded() == old(samples.Recorded()) + S.Taken(src, srcChannel, samples.channels)
      ensures samples.filepos == old(samples.filepos)
      ensures samples.channels == old(samples.channels) && samples.bytesPerSample == old(samples.bytesPerSample)
    {
      hide S.Encode, Overwrite, S.Decode, SampleOffset, WellFormed, S.Taken, AllAllocated;
      ghost var fs, was := S.Taken(src, srcChannel, samples.channels), file.bytes;
      ghost var base, q, m := samples.filepos, samples.totalsamples, samples.FrameBytes();
      TakenWhole(src, srcChannel, nsrc, samples.channels, samples.bytesPerSample);
      S.EncodeLength(fs, samples.channels, samples.bytesPerSample);
      S.DecodeAppend(was, base, samples.channels, samples.bytesPerSample, q, fs);
      OverwriteEnd(was, S.Encode(fs));
      SliceMore(was, S.Encode(fs), base);
      assert (q + |fs|) * m == q * m + |fs| * m;
      n := samples.WriteSamples(src, srcChannel, nsrc, 0, TWO_32 - 1);
    }

    /** CreateChunkData on a chunk of the list: its data is replaced. */
    method SetChunkData(i: nat, data: seq<Byte>)
      requires Valid() && 5 <= i < |chunklist|
      requires chunklist[i].kind.UserKind? && chunklist[i].kind.least != 0 ==> data != []
      modifies `chunklist
      ensures Valid() && chunklist == old(chunklist)[i := old(chunklist)[i].(length := |data|, data := data)]
      ensures old(LaidOut()) ==>
                (LaidOut() <==> !BeforeSamples(chunklist[i])
                                || LengthOnFile(chunklist[i], ds64.Words()) == LengthOnFile(old(chunklist)[i], ds64.Words()))
    {
      hide PreBytes, LengthOnFile;
      var c := chunklist[i].(length := |data|, data := data);
      ReplacedPre(chunklist, i, c, ds64.Words(), |chunklist|);
      chunklist := chunklist[i := c];
    }

    method SetSamplePosition(pos: nat)
      requires Valid()
      modifies samples
      ensures Valid() && samples.samplepos == Min(pos, samples.clip.nsamples)
      ensures old(LaidOut()) ==> LaidOut() && SampleBytes() == old(SampleBytes())
    {
      samples.SetSamplePosition(pos);
    }

    /** The accounting of Close: the total, and the sizes that the ds64 chunk must know. */
    method Account() returns (total: nat)
      requires Valid()
      modifies `chunklist, ds64.data
      ensures chunklist == Prepared(old(chunklist), format, samples.totalbytes)
      ensures ds64.data == old(ds64.data) && ds64.Valid()
      ensures ds64.Words() == AllNoted(chunklist, old(ds64.Words()), samples.FrameBytes(), |chunklist|)
      ensures total == TotalBytes(chunklist, old(ds64.Words()), |chunklist|)
    {
      hide Noted, AllNoted, LengthOnFile, Length, PreparedChunk, Accounted, TotalBytes, WellFormed, AllAllocated;
      ghost var cs, goal, w := chunklist, Prepared(chunklist, format, samples.totalbytes), ds64.Words();
      NothingAccounted(cs, goal, w, samples.FrameBytes());
      total := 0;
      for i := 0 to |chunklist|
        invariant ds64.data == old(ds64.data) && ds64.Valid() && ds64.data != null
        invariant |chunklist| == |cs| && Fits(w)
        invariant Accounted(cs, goal, w, samples.FrameBytes(), i, chunklist, ds64.Words(), total)
      {
        AccountedStep(cs, w, format, samples.totalbytes, samples.FrameBytes(), i, chunklist, ds64.Words(), total);
        if chunklist[i].id == DATA_ID {
          chunklist := chunklist[i := chunklist[i].(length := samples.totalbytes)];
        }
        var c := chunklist[i];
        if c.id != RIFF_ID {
          total := total + LengthOnFile(c, ds64.Words());
        }
        Note(c);
      }
      AllAccounted(cs, goal, w, samples.FrameBytes(), chunklist, ds64.Words(), total);
    }

    /** A chunk that is too long for its header, and RIFF and data always, goes into ds64. */
    method Note(c: Chunk)
      requires ds64.Valid() && ds64.data != null && 0 < samples.FrameBytes()
      modifies ds64.data
      ensures ds64.Valid() && ds64.data == old(ds64.data)
      ensures ds64.Words() == Noted(c, old(ds64.Words()), samples.FrameBytes())
    {
      hide SetSize, SetPair;
      var bytes := Length(c, ds64.Words());
      if MAX_SIZE <= bytes || c.id == RIFF_ID || c.id == DATA_ID {
        var _ := ds64.SetChunkSize(c.id, bytes);
        if c.id == DATA_ID {
          ds64.SetSampleCount(bytes / samples.FrameBytes());
        }
      }
    }

    /** Closes the file; unless aborted, the headers get their final sizes first. */
    method Close(abortWrite: bool)
      requires file != null && writing && !abortWrite ==> Valid() && Closable()
      modifies this, file, samples, ds64, ds64.data
      ensures file == null && !writing && chunklist == [] && chunkmap == map[]
      ensures old(file != null && writing) && !abortWrite ==>
                var cs := Prepared(old(chunklist), old(format), old(samples.totalbytes));
                var w, m := old(ds64.Words()), old(samples.FrameBytes());
                && WellFormed(cs) && Fits(w) && 0 < m
                && old(file).bytes == Laid(old(if file == null then [] else file.bytes), FinalChunks(cs, w), FinalWords(cs, w, m), true)
                && (old(LaidOut()) ==> old(file).bytes == FileBytes(FinalChunks(cs, w), FinalWords(cs, w, m), old(SampleBytes())))
    {
      if file != null && writing && !abortWrite {
        Finish();
      }
      file, chunklist, chunkmap, writing := null, [], map[], false;
    }

    /** The finished file stays within a file offset. */
    ghost predicate Closable()
      requires Valid()
      reads this, ds64, ds64.data, samples
    {
      SampleOffset(chunklist, ds64.Words()) + samples.totalbytes < TWO_63
    }

    method Finish()
      requires Valid() && Closable()
      modifies `chunklist, file, samples, ds64`data, ds64.data
      ensures var cs := Prepared(old(chunklist), format, old(samples.totalbytes));
              var w, m := old(ds64.Words()), old(samples.FrameBytes());
              && WellFormed(cs) && Fits(w) && 0 < m
              && file.bytes == Laid(old(file.bytes), FinalChunks(cs, w), FinalWords(cs, w, m), true)
              && (old(LaidOut()) ==> file.bytes == FileBytes(FinalChunks(cs, w), FinalWords(cs, w, m), old(SampleBytes())))
    {
      hide Laid, FinalChunks, FinalWords, Prepared, SampleOffset, WellFormed, FileBytes, HeadBytes, Fits;
      ghost var cs, w, m := Prepared(chunklist, format, samples.totalbytes), ds64.Words(), samples.FrameBytes();
      PreparedShape(chunklist, format, samples.totalbytes);
      PreparedOffset(chunklist, format, samples.totalbytes, w);
      FinalOffset(cs, w, m);
      FinalPrepared(cs, w, format, samples.totalbytes);
      if LaidOut() {
        LaidInPlace(file.bytes, FinalChunks(cs, w), FinalWords(cs, w, m));
        assert file.bytes[samples.filepos..] == SampleBytes();
      }
      SetSizes();
      assert chunklist == FinalChunks(cs, w) && ds64.Words() == FinalWords(cs, w, m);
      assert SampleOffset(chunklist, ds64.Words()) + samples.totalbytes < TWO_63;
      WriteChunks(true);
    }

    /** The final sizes, in the chunks and in ds64, and the switch to RF64. */
    method SetSizes()
      requires Valid()
      modifies `chunklist, ds64.data
      ensures var cs := Prepared(old(chunklist), format, samples.totalbytes);
              && WellFormed(cs) && Fits(old(ds64.Words())) && 0 < samples.FrameBytes()
              && chunklist == FinalChunks(cs, old(ds64.Words()))
              && ds64.Words() == FinalWords(cs, old(ds64.Words()), samples.FrameBytes())
      ensures ds64.data == old(ds64.data) && ds64.Valid()
    {
      hide AllNoted, TotalBytes, PreparedChunk, SetPair, Enabled;
      PreparedShape(chunklist, format, samples.totalbytes);
      var total := Account();
      if MAX_SIZE <= total {
        EnableAll();
        ds64.SetRiffSize(total);
      }
      var riff := chunkmap[RIFF_ID];
      chunklist := chunklist[riff := chunklist[riff].(length := total)];
    }

    /** Every chunk is told that the file becomes RF64. */
    method EnableAll()
      modifies `chunklist
      ensures chunklist == AllEnabled(old(chunklist))
    {
      ghost var cs := chunklist;
      for i := 0 to |chunklist|
        invariant |chunklist| == |cs|
        invariant forall k | 0 <= k < |cs| :: chunklist[k] == if k < i then Enabled(cs[k]) else cs[k]
      {
        chunklist := chunklist[i := Enabled(chunklist[i])];
      }
      assert chunklist == AllEnabled(cs);
    }
  }

  /** The sample object of a new file. */
  method NewSamples(channels: nat, bytesPerSample: nat) returns (s: S.SoundFileSamples)
    requires 0 < bytesPerSample && 0 < channels < TWO_32
    ensures fresh(s) && SamplesReady(s) && s.channels == channels && s.bytesPerSample == bytesPerSample
    ensures s.totalbytes == 0 && s.samplepos == 0
  {
    FramePositive(channels, bytesPerSample);
    s := new S.SoundFileSamples();
    s.SetFormat(channels, bytesPerSample);
  }

  /** The ds64 object of a new file, with room for `count` sizes. */
  method NewDs64(count: Word) returns (d: D.Chunk)
    ensures fresh(d) && d.Valid() && d.data == null && d.tableCount == count
  {
    d := new D.Chunk();
    d.SetTableCount(count);
  }

  /** chunkmap finds the chunks of the container itself where Create put them. */
  predicate ChunkMap(m: map<Word, nat>) {
    && RIFF_ID in m && m[RIFF_ID] == 0
    && DS64_ID in m && m[DS64_ID] == 2
    && DATA_ID in m && m[DATA_ID] == 4
  }

  /** The identifiers that AddChunk refuses to add twice. */
  predicate Single(id: Word) {
    id == RIFF_ID || id == WAVE_ID || id == FMT_ID || id == DS64_ID || id == DATA_ID
  }

  /** An extra chunk asked for when the file is created. */
  datatype Extra = Extra(id: Word, data: seq<Byte>)

  /** The chunk object that the registered provider makes: chna and axml go after the samples. */
  function NewChunk(id: Word): Chunk {
    var kind :=
      if id == RIFF_ID || id == RF64_ID then RiffKind
      else if id == WAVE_ID then WaveKind
      else if id == DS64_ID then Ds64Kind
      else if id == FMT_ID then FmtKind
      else if id == DATA_ID then DataKind
      else UserKind(id != CHNA_ID && id != AXML_ID, if id == BEXT_ID then BROADCAST_SIZE else 0);
    Chunk(kind, id, 0, [], false)
  }

  function StartList(extras: seq<Extra>): (cs: seq<Chunk>)
    ensures |cs| == 5 + |extras|
  {
    [NewChunk(RIFF_ID), NewChunk(WAVE_ID), NewChunk(DS64_ID), NewChunk(FMT_ID), NewChunk(DATA_ID)]
    + seq(|extras|, i requires 0 <= i < |extras| =>
        NewChunk(extras[i].id).(length := |extras[i].data|, data := extras[i].data))
  }

  lemma StartId(i: nat)
    requires i < 5
    ensures StartList([])[..i + 1] == StartList([])[..i] + [NewChunk([RIFF_ID, WAVE_ID, DS64_ID, FMT_ID, DATA_ID][i])]
  {
  }

  lemma StartMore(extras: seq<Extra>, i: nat)
    requires i < |extras|
    ensures StartList(extras[..i + 1]) == StartList(extras[..i])
            + [NewChunk(extras[i].id).(length := |extras[i].data|, data := extras[i].data)]
  {
  }

  lemma StartReady(extras: seq<Extra>, format: seq<Byte>)
    requires |format| == 16 && forall i | 0 <= i < |extras| :: !BuiltIn(extras[i].id)
    ensures var cs := StartList(extras);
            WellFormed(cs) && cs[3].length == 0
    ensures var cs := Prepared(StartList(extras), format, 0);
            && WellFormed(cs) && cs[0].id == RIFF_ID && cs[0].length == 0 && cs[3].length == 16 && cs[4].length == 0
            && forall i | 0 <= i < |cs| :: !cs[i].riff64
  {
  }

  lemma SliceMore(bytes: seq<Byte>, more: seq<Byte>, at: nat)
    requires at <= |bytes|
    ensures (bytes + more)[at..|bytes| + |more|] == bytes[at..|bytes|] + more
  {
  }

  lemma TakenWhole(src: seq<S.Frame>, srcChannel: nat, nsrc: nat, channels: nat, bytesPerSample: nat)
    requires srcChannel + channels <= nsrc
    requires forall i | 0 <= i < |src| :: |src[i]| == nsrc && Blocks.AllOf(src[i], bytesPerSample)
    ensures var fs := S.Taken(src, srcChannel, channels);
            forall i | 0 <= i < |fs| :: S.WholeFrame(fs[i], channels, bytesPerSample)
  {
  }

  /** A chunk of the caller's own data. */
  function UserChunk(id: Word, data: seq<Byte>, before: bool): Chunk {
    Chunk(UserKind(before, 0), id, |data|, data, false)
  }

  /** A layout that starts the samples where they are keeps them. */
  lemma SameRegion(bytes: seq<Byte>, cs: seq<Chunk>, w: seq<Word>, at: nat)
    requires WellFormed(cs) && SampleOffset(cs, w) == at && |bytes| == at + cs[4].length
    ensures Region(Laid(bytes, cs, w, false), at, cs[4].length) == bytes[at..]
  {
    hide Laid, SampleOffset, Region;
    assert bytes == bytes[..at] + bytes[at..];
    RelayInPlace(bytes[..at], cs, w, false);
  }

  /** The bytes after the start of the samples was moved up, or left where it was. */
  lemma NewLayout(start: seq<Byte>, cs: seq<Chunk>, w: seq<Word>, was: nat)
    requires WellFormed(cs) && was <= SampleOffset(cs, w) && |start| == was + cs[4].length
    ensures var at, n, laid := SampleOffset(cs, w), cs[4].length, Laid(start, cs, w, false);
            && at <= |laid| && (|laid| == at + n <==> n == 0 || (at == was && n % 2 == 0))
            && (at == was ==> Region(laid, at, n) == start[at..] && at + n <= |laid|)
  {
    hide Laid, SampleOffset, Region;
    LaidLength(start, cs, w);
    if SampleOffset(cs, w) == was {
      SameRegion(start, cs, w, was);
    }
  }

  lemma UserLength(id: Word, data: seq<Byte>, before: bool, w: seq<Word>)
    ensures var n := LengthOnFile(UserChunk(id, data, before), w);
            if data == [] then n == 0 else 8 + |data| <= n <= 9 + |data|
  {
  }

  /** The list, prepared again, is that of a file open for writing. */
  ghost predicate PreparedWell(cs: seq<Chunk>, format: seq<Byte>, samples: nat) {
    var ps := Prepared(cs, format, samples);
    && WellFormed(ps) && ps[0].id == RIFF_ID && ps[0].length == 0 && ps[3].length == 16 && ps[4].length == samples
    && (forall i | 0 <= i < |ps| :: !ps[i].riff64)
  }

  lemma AddedShape(cs: seq<Chunk>, c: Chunk, format: seq<Byte>, samples: nat, w: seq<Word>)
    requires WellFormed(cs) && cs[3].length == 16 && |format| == 16 && WellFormedChunk(c) && c.kind.UserKind? && !c.riff64
    requires AllAllocated(cs) && Allocated(c)
    requires cs[0].id == RIFF_ID && cs[0].length == 0 && forall i | 0 <= i < |cs| :: !cs[i].riff64
    ensures var ds := cs + [c];
            && WellFormed(ds) && ds[0] == cs[0] && ds[3] == cs[3] && (forall i | 0 <= i < |ds| :: !ds[i].riff64)
            && PreparedWell(ds, format, samples) && AllAllocated(ds)
            && SampleOffset(Prepared(ds, format, samples), w) == SampleOffset(ds, w)
               == SampleOffset(cs, w) + (if c.kind.before then LengthOnFile(c, w) else 0)
            && LengthOnFile(c, w) <= 9 + |c.data|
  {
    hide SampleOffset;
    var ds := cs + [c];
    AddedOffset(cs, c, w);
    PreparedOffset(ds, format, samples, w);
  }

  lemma PreparedData(c: Chunk, format: seq<Byte>, samples: nat)
    requires WellFormedChunk(c) && (c.kind.FmtKind? ==> c.length != 0) && Allocated(c)
    ensures PreparedChunk(c, format, samples)
            == if c.id == DATA_ID && c.kind.DataKind? then c.(length := samples) else c
  {
  }

  lemma KindById(cs: seq<Chunk>, i: nat)
    requires WellFormed(cs) && i < |cs| && cs[0].id == RIFF_ID
    ensures (cs[i].id == RIFF_ID <==> cs[i].kind.RiffKind?) && (cs[i].id == DATA_ID <==> cs[i].kind.DataKind?)
  {
    assert WellFormedChunk(cs[i]);
  }

  /** Sizes depend on how many ds64 words there are, not on what they hold. */
  lemma LengthOnly(c: Chunk, w: seq<Word>, v: seq<Word>)
    requires |w| == |v|
    ensures Length(c, w) == Length(c, v) && LengthOnFile(c, w) == LengthOnFile(c, v)
  {
  }

  /** What the accounting loop of Close has done after `i` chunks. */
  ghost predicate Accounted(cs: seq<Chunk>, goal: seq<Chunk>, w: seq<Word>, m: nat, i: nat,
                            list: seq<Chunk>, words: seq<Word>, total: nat)
    requires Fits(w) && 0 < m
  {
    && i <= |cs| == |goal| == |list|
    && (forall k | 0 <= k < |cs| :: list[k] == if k < i then goal[k] else cs[k])
    && words == AllNoted(goal, w, m, i) && total == TotalBytes(goal, w, i)
  }

  lemma NothingAccounted(cs: seq<Chunk>, goal: seq<Chunk>, w: seq<Word>, m: nat)
    requires Fits(w) && 0 < m && |goal| == |cs|
    ensures Accounted(cs, goal, w, m, 0, cs, w, 0)
  {
  }

  lemma AllAccounted(cs: seq<Chunk>, goal: seq<Chunk>, w: seq<Word>, m: nat, list: seq<Chunk>, words: seq<Word>, total: nat)
    requires Fits(w) && 0 < m && Accounted(cs, goal, w, m, |cs|, list, words, total)
    ensures list == goal && words == AllNoted(goal, w, m, |goal|) && total == TotalBytes(goal, w, |goal|)
  {
  }

  lemma AccountedStep(cs: seq<Chunk>, w: seq<Word>, format: seq<Byte>, samples: nat, m: nat, i: nat,
                      list: seq<Chunk>, words: seq<Word>, total: nat)
    requires WellFormed(cs) && cs[0].id == RIFF_ID && cs[3].length == 16 && AllAllocated(cs)
    requires Fits(w) && 0 < m && i < |cs| && Accounted(cs, Prepared(cs, format, samples), w, m, i, list, words, total)
    ensures |list| == |cs| && Fits(words)
    ensures var list' := if list[i].id == DATA_ID then list[i := list[i].(length := samples)] else list;
            var total' := if list'[i].id == RIFF_ID then total else total + LengthOnFile(list'[i], words);
            Accounted(cs, Prepared(cs, format, samples), w, m, i + 1, list', Noted(list'[i], words, m), total')
  {
    hide Noted, LengthOnFile, Length, PreparedChunk, WellFormed;
    KindById(cs, i);
    WellFormedAt(cs, i);
    PreparedData(cs[i], format, samples);
    LengthOnly(PreparedChunk(cs[i], format, samples), w, words);
  }

  lemma WellFormedAt(cs: seq<Chunk>, i: nat)
    requires WellFormed(cs) && i < |cs| && cs[3].length == 16
    ensures WellFormedChunk(cs[i]) && (cs[i].kind.FmtKind? ==> cs[i].length != 0)
  {
  }

  lemma FinalPrepared(cs: seq<Chunk>, w: seq<Word>, format: seq<Byte>, samples: nat)
    requires WellFormed(cs) && cs[3].length == 16 && cs[4].length == samples && AllAllocated(cs)
    ensures var ds := FinalChunks(cs, w);
            Prepared(ds, format, samples) == ds && AllAllocated(ds) && ds[3].length == 16 && ds[4].length == samples
  {
    hide TotalBytes;
  }

  lemma PreparedAlready(cs: seq<Chunk>, format: seq<Byte>, samples: nat)
    requires WellFormed(cs) && AllAllocated(cs) && cs[3].length == 16 && cs[4].length == samples
    ensures Prepared(cs, format, samples) == cs
  {
  }

  lemma HeadLength(cs: seq<Chunk>, w: seq<Word>)
    requires WellFormed(cs)
    ensures |HeadBytes(cs, w)| == SampleOffset(cs, w)
  {
  }

  lemma FramePositive(channels: nat, bytesPerSample: nat)
    requires 0 < channels && 0 < bytesPerSample
    ensures 0 < channels * bytesPerSample
  {
  }
}
