/** What is found in the file that a run left, said of the run alone. */
module Reopen {
  import opened Bytes
  import opened ChunkIds
  import opened Ds64
  import opened RiffLayout
  import opened RiffFile
  import opened Session
  import opened ReadBack
  import B = Blocks
  import E = EnhancedFile
  import R = RiffReader
  import S = SoundFile
  import F = FormatChunk
  import H = FileHead
  import Slots
  import Chna

  // ---------------------------------------------------------------------------
  // The chunks of a run
  // ---------------------------------------------------------------------------

  /** A chunk that was put into the file is found by its identifier, ahead of the samples or after
      them. */
  predicate Found(bytes: seq<Byte>, fs: seq<R.Found>, m: map<Word, nat>, id: Word, data: seq<Byte>, before: bool) {
    && Kept(bytes, fs, m, id, data)
    && DATA_ID in m && m[id] != m[DATA_ID] && (m[id] < m[DATA_ID] <==> before)
  }

  /** The format, the samples, and every chunk with data, from creation or added since, are found, and
      beyond the first three entries nothing else. */
  ghost predicate AllFound(bytes: seq<Byte>, fs: seq<R.Found>, m: map<Word, nat>, format: Format, extras: seq<Extra>, ops: seq<Op>) {
    && Found(bytes, fs, m, FMT_ID, Data(format), true)
    && Kept(bytes, fs, m, DATA_ID, S.Encode(Frames(ops)))
    && (forall j | 0 <= j < |extras| && ExtraData(extras[j]) != [] ::
          Found(bytes, fs, m, extras[j].id, ExtraData(extras[j]), extras[j].id != CHNA_ID && extras[j].id != AXML_ID))
    && (forall k | 0 <= k < |ops| && ops[k].Add? && ops[k].data != [] ::
          Found(bytes, fs, m, ops[k].id, ops[k].data, ops[k].beforeSamples && NothingRecorded(ops, k)))
    && (forall k | 3 <= k < |fs| :: Put(fs[k].id, extras, ops))
  }

  /** The identifier is that of a chunk every file has or of one with data that was put into it. */
  ghost predicate Put(id: Word, extras: seq<Extra>, ops: seq<Op>) {
    || id == FMT_ID || id == DATA_ID
    || (exists j | 0 <= j < |extras| :: extras[j].id == id && ExtraData(extras[j]) != [])
    || (exists k | 0 <= k < |ops| && ops[k].Add? :: ops[k].id == id && ops[k].data != [])
  }

  /** The limits within which what a run leaves can be read back. */
  ghost predicate Bounded(format: Format, extras: seq<Extra>, ops: seq<Op>)
    requires |extras| < TWO_32
  {
    var samples := S.Encode(Frames(ops));
    Closing(Chunks(format, extras, ops, |samples|), |extras|, samples)
  }

  /** Every chunk of the run that is too long for its header has a ds64 entry. */
  ghost predicate AllSlotted(format: Format, extras: seq<Extra>, ops: seq<Op>)
    requires |extras| < TWO_32
  {
    Slotted(Chunks(format, extras, ops, |S.Encode(Frames(ops))|), |extras|)
  }

  /** Every run with distinct identifiers that makes a file of less than 4 GiB can be read back. */
  lemma SmallRun(format: Format, extras: seq<Extra>, ops: seq<Op>)
    requires RunOk(format, extras, ops) && Distinct(Ids(extras, ops)) && 28 + 12 * |extras| < MAX_SIZE
    requires var cs := Chunks(format, extras, ops, |S.Encode(Frames(ops))|);
             TotalBytes(cs, Blank(|extras|), |cs|) < MAX_SIZE
    ensures Bounded(format, extras, ops) && AllSlotted(format, extras, ops)
  {
    hide RunOk, S.Encode, Frames, Chunks, Closing, Slotted, TotalBytes, Distinct, Ids, Blank;
    var samples := S.Encode(Frames(ops));
    var cs := Chunks(format, extras, ops, |samples|);
    FewExtras(format, extras, ops);
    RunCloses(format, extras, ops);
    SmallClosing(cs, |extras|, samples);
  }

  lemma SmallClosing(cs: seq<Chunk>, n: Word, samples: seq<Byte>)
    requires Closing(cs, n, samples) && TotalBytes(cs, Blank(n), |cs|) < MAX_SIZE
    ensures Slotted(cs, n)
  {
    hide TotalBytes, Blank, Slots.Plain, Slots.Oversized;
    SmallFile(cs, n, samples);
  }

  /** The file of the run that adds nothing can be read back in every format. */
  lemma EmptyRunReads(format: Format)
    requires format.rate != 0 && 0 < format.channels < TWO_32 && 0 < format.bytesPerSample
    ensures RunOk(format, [], []) && Bounded(format, [], []) && AllSlotted(format, [], [])
  {
    hide RunOk, Bounded, AllSlotted, F.FormatData, SampleOffset;
    EmptyRunOk(format);
    S.EncodeNone();
    EmptyTotal(format);
    SmallRun(format, [], []);
  }

  lemma EmptyTotal(format: Format)
    ensures var cs := Chunks(format, [], [], 0);
            TotalBytes(cs, Blank(0), |cs|) == 72
  {
    hide F.FormatData;
    var cs, w := Chunks(format, [], [], 0), Blank(0);
    assert |cs| == 5;
    assert TotalBytes(cs, w, 1) == 0;
    assert TotalBytes(cs, w, 2) == 4;
    assert TotalBytes(cs, w, 3) == 40;
    assert TotalBytes(cs, w, 4) == 64;
  }

  /** The bytes that a run leaves. */
  ghost function Left(format: Format, extras: seq<Extra>, ops: seq<Op>): seq<Byte>
    requires |extras| < TWO_32 && Bounded(format, extras, ops) && 0 < FrameSize(format)
  {
    var samples := S.Encode(Frames(ops));
    Written(Chunks(format, extras, ops, |samples|), |extras|, FrameSize(format), samples)
  }

  /** The list that they ought to open with. */
  ghost function Sought(format: Format, extras: seq<Extra>, ops: seq<Op>): seq<R.Found>
    requires |extras| < TWO_32 && Bounded(format, extras, ops) && 0 < FrameSize(format)
  {
    var samples := S.Encode(Frames(ops));
    Expected(Chunks(format, extras, ops, |samples|), |extras|, FrameSize(format), samples)
  }

  lemma ChunkFound(format: Format, extras: seq<Extra>, ops: seq<Op>, m: map<Word, nat>, i: nat)
    requires RunOk(format, extras, ops) && Bounded(format, extras, ops) && 0 < FrameSize(format)
    requires R.LastOf(m, Sought(format, extras, ops))
    requires var cs := Chunks(format, extras, ops, |S.Encode(Frames(ops))|);
             3 <= i < |cs| && i != 4 && cs[i].length != 0
    ensures var c := Chunks(format, extras, ops, |S.Encode(Frames(ops))|)[i];
            Found(Left(format, extras, ops), Sought(format, extras, ops), m, c.id, c.data, BeforeSamples(c))
  {
    hide S.Encode, Frames, Chunks, Closing, Expected, Written, Kept, R.LastOf, ReadBack.Entry, WellFormedChunk;
    var samples := S.Encode(Frames(ops));
    var cs, n, frame := Chunks(format, extras, ops, |samples|), |extras|, FrameSize(format);
    ClosingPlain(cs, n, samples);
    ChunkStands(cs, n, frame, samples, m, i);
    ChunkStands(cs, n, frame, samples, m, 4);
    EntriesInOrder(cs, n, frame, i);
    KeptIn(Written(cs, n, frame, samples), Expected(cs, n, frame, samples), m, DATA_ID, samples);
  }

  lemma ClosingPlain(cs: seq<Chunk>, n: Word, samples: seq<Byte>)
    requires Closing(cs, n, samples)
    ensures Slots.Plain(cs, n) && 5 <= |cs| && cs[4].id == DATA_ID && cs[3].id == FMT_ID && cs[3].length == 16
  {
    assert WellFormedChunk(cs[4]) && WellFormedChunk(cs[3]);
  }

  lemma KeptIn(bytes: seq<Byte>, fs: seq<R.Found>, m: map<Word, nat>, id: Word, data: seq<Byte>)
    requires Kept(bytes, fs, m, id, data)
    ensures id in m
  {
  }

  /** Everything that a run put into its file is found in the list that is sought. */
  lemma RunFound(format: Format, extras: seq<Extra>, ops: seq<Op>, m: map<Word, nat>)
    requires RunOk(format, extras, ops) && Bounded(format, extras, ops) && 0 < FrameSize(format)
    requires R.LastOf(m, Sought(format, extras, ops))
    ensures AllFound(Left(format, extras, ops), Sought(format, extras, ops), m, format, extras, ops)
  {
    hide S.Encode, Frames, Chunks, Closing, Expected, Written, Kept, R.LastOf, Found, Bounded, Added, OpOk, NothingRecorded, Data, Sought, Left, Ids, BeforeSamples, SampleOffset, Prepared, StartList;
    var samples := S.Encode(Frames(ops));
    var cs, bytes, fs := Chunks(format, extras, ops, |samples|), Left(format, extras, ops), Sought(format, extras, ops);
    ChunksAt(format, extras, ops, |samples|);
    FormatFound(format, extras, ops, m);
    forall j | 0 <= j < |extras| && ExtraData(extras[j]) != []
      ensures Found(bytes, fs, m, extras[j].id, ExtraData(extras[j]), extras[j].id != CHNA_ID && extras[j].id != AXML_ID)
    {
      ExtraAt(format, extras, ops, |samples|, j);
      ChunkFound(format, extras, ops, m, 5 + j);
    }
    forall k | 0 <= k < |ops| && ops[k].Add? && ops[k].data != []
      ensures Found(bytes, fs, m, ops[k].id, ops[k].data, ops[k].beforeSamples && NothingRecorded(ops, k))
    {
      AddedBy(ops, k);
      var j := |Added(ops[..k])|;
      AddedAt(format, extras, ops, |samples|, j);
      UserSide(ops[k].id, ops[k].data, ops[k].beforeSamples && NothingRecorded(ops, k));
      ChunkFound(format, extras, ops, m, 5 + |extras| + j);
    }
    forall k | 3 <= k < |fs|
      ensures Put(fs[k].id, extras, ops)
    {
      NothingElse(format, extras, ops, k);
    }
  }

  lemma NothingElse(format: Format, extras: seq<Extra>, ops: seq<Op>, k: nat)
    requires RunOk(format, extras, ops) && Bounded(format, extras, ops) && 0 < FrameSize(format)
    requires 3 <= k < |Sought(format, extras, ops)|
    ensures Put(Sought(format, extras, ops)[k].id, extras, ops)
  {
    hide S.Encode, Frames, Chunks, Closing, Expected, Added, OpOk, Data, Ids, SampleOffset, Prepared, StartList, WellFormedChunk, ReadBack.Entry, F.FormatData;
    var samples := S.Encode(Frames(ops));
    var cs := Chunks(format, extras, ops, |samples|);
    ChunksAt(format, extras, ops, |samples|);
    ClosingPlain(cs, |extras|, samples);
    var i := EntryFrom(cs, |extras|, FrameSize(format), samples, k);
    if 5 <= i < 5 + |extras| {
      ExtraAt(format, extras, ops, |samples|, i - 5);
      assert extras[i - 5].id == cs[i].id && ExtraData(extras[i - 5]) != [];
    } else if 5 + |extras| <= i {
      ListSize(format, extras, ops, |samples|);
      AddedAt(format, extras, ops, |samples|, i - 5 - |extras|);
      var o := AddedFrom(ops, i - 5 - |extras|);
      assert ops[o].Add? && ops[o].id == cs[i].id && ops[o].data != [];
    }
  }

  lemma ListSize(format: Format, extras: seq<Extra>, ops: seq<Op>, length: nat)
    ensures |Chunks(format, extras, ops, length)| == 5 + |extras| + |Added(ops)|
  {
    hide F.FormatData, Added, PreparedChunk, NewChunk;
  }

  lemma UserSide(id: Word, data: seq<Byte>, before: bool)
    ensures BeforeSamples(UserChunk(id, data, before)) <==> before
  {
  }

  lemma FormatFound(format: Format, extras: seq<Extra>, ops: seq<Op>, m: map<Word, nat>)
    requires RunOk(format, extras, ops) && Bounded(format, extras, ops) && 0 < FrameSize(format)
    requires R.LastOf(m, Sought(format, extras, ops))
    ensures Found(Left(format, extras, ops), Sought(format, extras, ops), m, FMT_ID, Data(format), true)
    ensures Kept(Left(format, extras, ops), Sought(format, extras, ops), m, DATA_ID, S.Encode(Frames(ops)))
  {
    hide S.Encode, Frames, Chunks, Closing, Expected, Written, Kept, R.LastOf, OpOk, Data, Found, SampleOffset, Prepared, StartList, Ids, ReadBack.Entry, WellFormedChunk;
    var samples := S.Encode(Frames(ops));
    var cs := Chunks(format, extras, ops, |samples|);
    ChunksAt(format, extras, ops, |samples|);
    ClosingPlain(cs, |extras|, samples);
    ChunkFound(format, extras, ops, m, 3);
    ChunkStands(cs, |extras|, FrameSize(format), samples, m, 4);
  }

  // ---------------------------------------------------------------------------
  // Opening
  // ---------------------------------------------------------------------------

  /** What the list that is sought is, and when a file opens with it. */
  lemma RunOpens(format: Format, extras: seq<Extra>, ops: seq<Op>)
    requires RunOk(format, extras, ops) && Bounded(format, extras, ops) && 0 < FrameSize(format)
    ensures R.OpenFile(Left(format, extras, ops)).Some?
    ensures R.OpenFile(Left(format, extras, ops)).value == Sought(format, extras, ops) <==> AllSlotted(format, extras, ops)
    ensures var n := |S.Encode(Frames(ops))|;
            H.Head(Left(format, extras, ops), |extras|, n, n / FrameSize(format))
  {
    hide S.Encode, Frames, Chunks, Closing, Expected, Written, Slotted, H.Head, R.OpenFile, OpOk, SampleOffset, Prepared, StartList, F.FormatData;
    var samples := S.Encode(Frames(ops));
    var cs := Chunks(format, extras, ops, |samples|);
    ClosedFileOpens(cs, |extras|, FrameSize(format), samples);
    H.ClosedHead(cs, |extras|, FrameSize(format), samples);
  }

  /** The reader has the file of the run open, with all that was put into it. */
  ghost predicate Reads(reader: R.Reader, format: Format, extras: seq<Extra>, ops: seq<Op>)
    requires |extras| < TWO_32 && Bounded(format, extras, ops) && 0 < FrameSize(format)
    reads reader, reader.file
  {
    && reader.file != null && reader.file.bytes == Left(format, extras, ops)
    && R.AllDescribed(reader.chunklist) && R.LastOf(reader.chunkmap, reader.chunklist)
    && (reader.chunklist == Sought(format, extras, ops) <==> AllSlotted(format, extras, ops))
    && (AllSlotted(format, extras, ops) ==>
          AllFound(reader.file.bytes, reader.chunklist, reader.chunkmap, format, extras, ops))
    && var n := |S.Encode(Frames(ops))|;
       H.Head(reader.file.bytes, |extras|, n, n / FrameSize(format))
  }

  /** A run, and the reader's view of what it left. The opened file holds exactly the bytes the run
      wrote; its list is the expected one if and only if every chunk too long for its header found
      an entry in ds64, and then everything that was put into the file is found in it. */
  method RunAndOpen(format: Format, extras: seq<Extra>, ops: seq<Op>, updates: seq<Update>) returns (reader: R.Reader, ok: bool)
    requires RunOk(format, extras, ops) && AllUpdatesOk(updates, extras)
    ensures fresh(reader) && (reader.file != null ==> fresh(reader.file)) && 0 < FrameSize(format)
    ensures var xs := Updated(extras, updates);
            Bounded(format, xs, ops) ==> ok && Reads(reader, format, xs, ops)
  {
    hide Bounded, AllSlotted, AllFound, Left, Sought, R.OpenFile, Chunks, S.Encode, Frames, OpOk, SampleOffset, Prepared, StartList, F.FormatData, Written;
    hide UpdateOk, R.LastOf, Updated, H.Head, R.AllDescribed;
    var file := Run(format, extras, ops, updates);
    ghost var xs, bytes := Updated(extras, updates), file.bytes;
    UpdatedOk(format, extras, ops, updates);
    if Bounded(format, xs, ops) {
      LeftIs(format, xs, ops);
      RunOpens(format, xs, ops);
    }
    reader := new R.Reader();
    var _ := file.Seek(0);
    ok := reader.Open(file);
    if Bounded(format, xs, ops) && AllSlotted(format, xs, ops) {
      RunFound(format, xs, ops, reader.chunkmap);
    }
  }

  lemma LeftIs(format: Format, extras: seq<Extra>, ops: seq<Op>)
    requires |extras| < TWO_32 && Bounded(format, extras, ops) && 0 < FrameSize(format)
    ensures var samples := S.Encode(Frames(ops));
            var cs := Chunks(format, extras, ops, |samples|);
            WellFormed(cs) && Left(format, extras, ops) == Written(cs, |extras|, FrameSize(format), samples)
  {
    hide Chunks, S.Encode, Frames, Written, WellFormedChunk;
  }

  // ---------------------------------------------------------------------------
  // Hearing what was recorded
  // ---------------------------------------------------------------------------

  /** The width of a sample is the one its number of bits stands for, and the number of channels
      fits its field. */
  predicate Consistent(format: Format) {
    && format.channels < 65536
    && format.bytesPerSample == if format.isFloat then if format.bits % 65536 == 32 then 4 else 8
                                else if format.bits % 65536 <= 16 then 2 else if format.bits % 65536 <= 24 then 3 else 4
  }

  /** The entry of the format chunk has every field of the format of the run, and what the reader
      takes from it is that format if and only if it is consistent. */
  lemma FormatBack(format: Format, bytes: seq<Byte>, fs: seq<R.Found>, m: map<Word, nat>)
    requires Found(bytes, fs, m, FMT_ID, Data(format), true)
    ensures fs[m[FMT_ID]].data.Some?
    ensures var data := fs[m[FMT_ID]].data.value;
            && F.Fields(data, if format.isFloat then 3 else 1, format.channels % 65536, format.rate,
                        format.rate * format.channels * format.bytesPerSample % 0x1_0000_0000,
                        format.channels * format.bytesPerSample % 65536, format.bits % 65536)
            && F.Parse(data).Some? && F.Parse(data).value.rate == format.rate
            && (Consistent(format) <==> F.Parse(data).value.channels == format.channels
                                        && F.Width(F.Parse(data).value.sample) == format.bytesPerSample)
  {
    hide F.FormatData, F.Parse, F.Fields, Framed;
    F.FieldsWritten(format.rate, format.channels, format.bytesPerSample, format.bits, format.isFloat);
    F.FormatKept(format.rate, format.channels, format.bytesPerSample, format.bits, format.isFloat);
  }

  lemma {:induction false} FramesWhole(format: Format, ops: seq<Op>)
    requires forall i | 0 <= i < |ops| :: OpOk(ops[i], format)
    ensures forall i | 0 <= i < |Frames(ops)| :: S.WholeFrame(Frames(ops)[i], format.channels, format.bytesPerSample)
    decreases |ops|
  {
    if ops != [] {
      var n := |ops| - 1;
      FramesWhole(format, ops[..n]);
      assert OpOk(ops[n], format);
    }
  }

  /** Encoded frames are found where they stand, whatever follows them. */
  lemma FramesStand(bytes: seq<Byte>, at: nat, format: Format, fs: seq<S.Frame>)
    requires 0 < FrameSize(format)
    requires forall i | 0 <= i < |fs| :: S.WholeFrame(fs[i], format.channels, format.bytesPerSample)
    requires at + |S.Encode(fs)| <= |bytes| && bytes[at..at + |S.Encode(fs)|] == S.Encode(fs)
    ensures var all := S.Decode(bytes, at, format.channels, format.bytesPerSample);
            |fs| <= |all| && all[..|fs|] == fs
  {
    hide S.Encode, B.Cut, B.Glue;
    var m, head := FrameSize(format), bytes[..at + |S.Encode(fs)|];
    S.EncodeLength(fs, format.channels, format.bytesPerSample);
    S.DecodeAppend(bytes[..at], at, format.channels, format.bytesPerSample, 0, fs);
    assert head == bytes[..at] + S.Encode(fs);
    B.BlocksEnd(bytes[..at], at, m, 0);
    assert S.Decode(bytes[..at], at, format.channels, format.bytesPerSample) + fs == fs;
    if fs != [] {
      B.BlocksSlice(bytes, at, m, 0, |fs|);
      B.BlocksSlice(head, at, m, 0, |fs|);
      assert bytes[at + 0 * m..at + 0 * m + |fs| * m] == head[at + 0 * m..at + 0 * m + |fs| * m];
      assert B.BlocksFrom(bytes, at, m)[0..0 + |fs|] == B.BlocksFrom(head, at, m)[0..0 + |fs|];
    }
  }


  /** Where the sample object of an opened run starts, the recorded frames are what it decodes. */
  lemma RecordedThere(format: Format, extras: seq<Extra>, ops: seq<Op>, bytes: seq<Byte>, fs: seq<R.Found>, m: map<Word, nat>)
    requires RunOk(format, extras, ops) && Bounded(format, extras, ops) && 0 < FrameSize(format)
    requires bytes == Left(format, extras, ops) && Kept(bytes, fs, m, DATA_ID, S.Encode(Frames(ops)))
    ensures |bytes| < TWO_63
    ensures var d := fs[m[DATA_ID]];
            var all := S.Decode(bytes, d.datapos, format.channels, format.bytesPerSample);
            && d.datapos + |Frames(ops)| * FrameSize(format) < TWO_63 && d.length / FrameSize(format) == |Frames(ops)|
            && |Frames(ops)| <= |all| && all[..|Frames(ops)|] == Frames(ops)
  {
    hide S.Encode, S.Decode, Chunks, Frames, SampleOffset, Closing, Written, Framed, OpOk, Prepared, StartList, F.FormatData, TotalBytes, Blank;
    var samples := S.Encode(Frames(ops));
    ClosingShort(Chunks(format, extras, ops, |samples|), |extras|, FrameSize(format), samples);
    FramesWhole(format, ops);
    S.EncodeLength(Frames(ops), format.channels, format.bytesPerSample);
    B.QuotientIs(|samples|, FrameSize(format), |Frames(ops)|);
    FramesStand(bytes, fs[m[DATA_ID]].datapos, format, Frames(ops));
  }

  lemma ClosingShort(cs: seq<Chunk>, n: Word, frameBytes: nat, samples: seq<Byte>)
    requires Closing(cs, n, samples) && 0 < frameBytes
    ensures |Written(cs, n, frameBytes, samples)| < TWO_63
  {
    hide Written, TotalBytes, FinalChunks, Slots.Plain, Blank;
    FinalLength(cs, n, frameBytes, samples);
  }

  lemma WholeHeard(now: seq<S.Frame>, was: seq<S.Frame>, stored: seq<S.Frame>, n: nat, channels: nat)
    requires S.Heard(now, was, stored, 0, n, 0, 0, channels) && |was| == n
    requires forall i | 0 <= i < n :: |was[i]| == channels
    requires forall i | 0 <= i < |stored| :: |stored[i]| == channels
    ensures n == 0 || now == stored[..n]
  {
    forall i | 0 <= i < n
      ensures now[i] == stored[i]
    {
      assert S.FrameHeard(now[i], was[i], stored[0 + i], 0, 0, channels);
    }
  }

  /** All frames that a sample object counts, read at once. */
  method ReadWhole(s: S.SoundFileSamples) returns (frames: seq<S.Frame>)
    requires s.file != null && s.hasFormat && s.Valid() && 0 < s.bufferFrames && s.samplepos == 0
    requires s.clip == S.Clip(0, s.totalsamples, 0, s.channels) && 0 < s.channels
    requires s.filepos + s.totalsamples * s.FrameBytes() < TWO_63 && s.totalsamples <= |s.Stored()|
    modifies s`samplepos, s`inError, s.file
    ensures frames == old(s.Stored())[..s.totalsamples]
  {
    hide S.Decode, S.Heard, S.Filled;
    var n, channels := s.totalsamples, s.channels;
    var dst := new S.Frame[n](_ => seq(channels, _ => []));
    ghost var was, stored := dst[..], s.Stored();
    var got := s.ReadSamples(dst, 0, channels, n, 0, channels);
    WholeHeard(dst[..], was, stored, n, channels);
    frames := dst[..];
  }

  /** All that linking and reading the samples of an opened run need to know. */
  lemma Hearable(reader: R.Reader, format: Format, extras: seq<Extra>, ops: seq<Op>)
    requires RunOk(format, extras, ops) && Bounded(format, extras, ops) && AllSlotted(format, extras, ops)
    requires 0 < FrameSize(format) && Consistent(format) && Reads(reader, format, extras, ops)
    ensures reader.file != null && R.AllDescribed(reader.chunklist) && R.LastOf(reader.chunkmap, reader.chunklist)
    ensures FMT_ID in reader.chunkmap && reader.chunkmap[FMT_ID] < |reader.chunklist|
    ensures R.Described(reader.chunklist[reader.chunkmap[FMT_ID]])
    ensures DATA_ID in reader.chunkmap && reader.chunkmap[DATA_ID] < |reader.chunklist|
    ensures var (d, f) := (reader.chunklist[reader.chunkmap[DATA_ID]], F.Parse(reader.chunklist[reader.chunkmap[FMT_ID]].data.value).value);
            && f.rate == format.rate && f.channels == format.channels != 0 && F.Width(f.sample) == format.bytesPerSample
            && d.length < TWO_64 && d.length / FrameSize(format) == |Frames(ops)|
            && d.datapos + |Frames(ops)| * FrameSize(format) < TWO_63
            && var all := S.Decode(reader.file.bytes, d.datapos, format.channels, format.bytesPerSample);
               |Frames(ops)| <= |all| && all[..|Frames(ops)|] == Frames(ops)
  {
    hide Bounded, AllSlotted, Left, Sought, S.Encode, Frames, OpOk, SampleOffset, Prepared, StartList, F.Parse, Data, F.Fields, Framed, R.LastOf, H.Head, S.Decode, FrameSize, ExtraData;
    var bytes, fs, m := reader.file.bytes, reader.chunklist, reader.chunkmap;
    FormatBack(format, bytes, fs, m);
    RecordedThere(format, extras, ops, bytes, fs, m);
  }

  /** The samples of an opened run are read through the sample object that opening leaves, in the
      format that the file states. */
  method Listen(reader: R.Reader, format: Format, ghost extras: seq<Extra>, ghost ops: seq<Op>) returns (frames: seq<S.Frame>, rate: Word)
    requires RunOk(format, extras, ops) && Bounded(format, extras, ops) && AllSlotted(format, extras, ops)
    requires 0 < FrameSize(format) && Consistent(format) && Reads(reader, format, extras, ops)
    modifies reader.file
    ensures frames == Frames(ops) && rate == format.rate
  {
    hide Bounded, AllSlotted, Frames, RunOk, Consistent, F.Parse, S.Decode, Reads, F.Width, R.AllDescribed, R.LastOf;
    Hearable(reader, format, extras, ops);
    rate := F.Parse(reader.chunklist[reader.chunkmap[FMT_ID]].data.value).value.rate;
    var s := reader.Link();
    frames := ReadWhole(s);
  }

  /** A run is recorded, closed, opened, and read through the sample object that opening leaves, in
      the format that the file states: every recorded frame is heard, and nothing else. */
  method Replay(format: Format, extras: seq<Extra>, ops: seq<Op>, updates: seq<Update>) returns (frames: seq<S.Frame>, rate: Word)
    requires RunOk(format, extras, ops) && AllUpdatesOk(updates, extras) && Consistent(format)
    requires Bounded(format, Updated(extras, updates), ops) && AllSlotted(format, Updated(extras, updates), ops)
    ensures frames == Frames(ops) && rate == format.rate
  {
    hide Bounded, AllSlotted, Frames, RunOk, Reads, Updated, Consistent, UpdateOk;
    UpdatedOk(format, extras, ops, updates);
    var reader, _ := RunAndOpen(format, extras, ops, updates);
    frames, rate := Listen(reader, format, Updated(extras, updates), ops);
  }

  // ---------------------------------------------------------------------------
  // The tracks of the audio model
  // ---------------------------------------------------------------------------

  /** What is decoded from a chna chunk that was found is what was put into it, exactly within the
      limits of its records. */
  lemma TracksFound(bytes: seq<Byte>, fs: seq<R.Found>, m: map<Word, nat>, tracks: seq<Chna.Track>, before: bool)
    requires Found(bytes, fs, m, CHNA_ID, Chna.Written(tracks), before)
    ensures fs[m[CHNA_ID]].data.Some? && Chna.HEADER <= |fs[m[CHNA_ID]].data.value|
    ensures Chna.Decoded(fs[m[CHNA_ID]].data.value) == Chna.PlainAll(tracks)
            <==> |tracks| < 65536 && forall i | 0 <= i < |tracks| :: Chna.Fits(tracks[i])
  {
    hide Chna.Written, Chna.Decoded, Chna.PlainAll, Chna.Fits, Framed;
    Chna.RoundTrip(tracks);
  }

  lemma TracksThere(reader: R.Reader, format: Format, extras: seq<Extra>, ops: seq<Op>, j: nat, tracks: seq<Chna.Track>)
    requires |extras| < TWO_32 && Bounded(format, extras, ops) && AllSlotted(format, extras, ops) && 0 < FrameSize(format)
    requires Reads(reader, format, extras, ops) && j < |extras| && extras[j] == Extra(CHNA_ID, Chna.Written(tracks))
    ensures CHNA_ID in reader.chunkmap && reader.chunkmap[CHNA_ID] < |reader.chunklist|
    ensures var data := reader.chunklist[reader.chunkmap[CHNA_ID]].data;
            && data.Some? && Chna.HEADER <= |data.value|
            && (Chna.Decoded(data.value) == Chna.PlainAll(tracks)
                <==> |tracks| < 65536 && forall i | 0 <= i < |tracks| :: Chna.Fits(tracks[i]))
  {
    hide Bounded, AllSlotted, Frames, Chna.Written, Chna.Decoded, Chna.PlainAll, Chna.Fits, S.Encode, H.Head, Data, Framed, Left, Sought;
    Chna.RoundTrip(tracks);
    assert ExtraData(extras[j]) != [];
    TracksFound(reader.file.bytes, reader.chunklist, reader.chunkmap, tracks, false);
  }

  /** Tracks are packed into records, put before the file is closed into a chna chunk that was made
      for as many, and unpacked from the chunk that opening the file finds. */
  method ReplayTracks(format: Format, extras: seq<Extra>, ops: seq<Op>, j: nat, tracks: seq<Chna.Track>) returns (known: seq<Chna.Known>)
    requires RunOk(format, extras, ops) && j < |extras| && extras[j].id == CHNA_ID
    requires |extras[j].data| == 4 + 40 * |tracks|
    requires |tracks| < TWO_32 && forall i | 0 <= i < |tracks| :: tracks[i].number + 1 < TWO_32
    requires var xs := extras[j := Extra(CHNA_ID, Chna.Written(tracks))];
             Bounded(format, xs, ops) && AllSlotted(format, xs, ops)
    ensures known == Chna.PlainAll(tracks) <==> |tracks| < 65536 && forall i | 0 <= i < |tracks| :: Chna.Fits(tracks[i])
  {
    hide Bounded, AllSlotted, Frames, RunOk, Chna.Decoded, Chna.PlainAll, Chna.Fits, Chna.Image, Reads, Chna.RecordOk, Chna.RecordOnFile, UpdateOk, Updated;
    var p := Chna.Memory.GetChna(tracks);
    var data := Chna.Image(p.trackCount, p.uidCount, p.records[..]);
    FewExtras(format, extras, ops);
    Chna.OnFile(tracks);
    OneUpdate(extras, j, data);
    ghost var xs := extras[j := Extra(CHNA_ID, data)];
    var reader, _ := RunAndOpen(format, extras, ops, [Update(j, data)]);
    TracksThere(reader, format, xs, ops, j, tracks);
    known := Chna.SetChna(reader.chunklist[reader.chunkmap[CHNA_ID]].data.value);
  }

  lemma FewExtras(format: Format, extras: seq<Extra>, ops: seq<Op>)
    requires RunOk(format, extras, ops)
    ensures |extras| < TWO_32
  {
  }

  /** Data that a chna chunk of the same length takes, or an axml chunk that is no longer. */
  lemma OneUpdate(extras: seq<Extra>, j: nat, data: seq<Byte>)
    requires j < |extras|
    requires (extras[j].id == CHNA_ID && |extras[j].data| == |data|) || (extras[j].id == AXML_ID && |extras[j].data| <= |data|)
    ensures AllUpdatesOk([Update(j, data)], extras)
    ensures Updated(extras, [Update(j, data)]) == extras[j := Extra(extras[j].id, data)]
  {
    assert [Update(j, data)][..0] == [];
  }
}
