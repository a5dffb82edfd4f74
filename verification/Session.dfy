/** Whole runs: a file is created, chunks and samples are added in any order, the file is closed
    and opened again. */
module Session {
  import opened Bytes
  import opened ChunkIds
  import opened Ds64
  import opened RiffLayout
  import opened RiffFile
  import W = RiffFile
  import B = Blocks
  import E = EnhancedFile
  import R = RiffReader
  import F = FormatChunk
  import S = SoundFile
  import Slots
  import ReadBack

  /** What a caller may do between Create and Close. */
  datatype Op =
    | Add(id: Word, data: seq<Byte>, beforeSamples: bool)
    | Record(frames: seq<S.Frame>)

  /** The sound format of a file. */
  datatype Format = Format(rate: Word, channels: nat, bytesPerSample: nat, bits: nat, isFloat: bool)

  function Data(f: Format): seq<Byte> { F.FormatData(f.rate, f.channels, f.bytesPerSample, f.bits, f.isFloat) }

  function FrameSize(f: Format): nat { f.channels * f.bytesPerSample }

  predicate OpOk(op: Op, f: Format) {
    match op
    case Add(id, _, _) => !BuiltIn(id)
    case Record(frames) => forall i | 0 <= i < |frames| :: S.WholeFrame(frames[i], f.channels, f.bytesPerSample)
  }

  /** The most that the operations can add to the file ahead of its end. */
  function Budget(ops: seq<Op>, f: Format): nat {
    if ops == [] then 0
    else
      var n := |ops| - 1;
      Budget(ops[..n], f) + match ops[n] case Add(_, data, _) => 9 + |data| case Record(frames) => |frames| * FrameSize(f)
  }

  /** The frames that were recorded. */
  function Frames(ops: seq<Op>): seq<S.Frame> {
    if ops == [] then []
    else
      var n := |ops| - 1;
      Frames(ops[..n]) + if ops[n].Record? then ops[n].frames else []
  }

  /** The chunks that were added: one meant to go ahead of the samples does so only while there
      are none. */
  function Added(ops: seq<Op>): seq<Chunk> {
    if ops == [] then []
    else
      var n := |ops| - 1;
      Added(ops[..n]) + match ops[n]
        case Add(id, data, before) => [UserChunk(id, data, before && Frames(ops[..n]) == [])]
        case Record(_) => []
  }

  /** The chunks that Close finds. */
  function Chunks(f: Format, extras: seq<Extra>, ops: seq<Op>, length: nat): seq<Chunk> {
    Prepared(StartList(extras) + Added(ops), Data(f), length)
  }

  // ---------------------------------------------------------------------------
  // Lists that differ in what preparing them sets
  // ---------------------------------------------------------------------------

  predicate Like(x: Chunk, y: Chunk, format: seq<Byte>) {
    || x == y
    || (y.kind.FmtKind? && y.length == 0 && x == y.(length := |format|, data := format))
    || (y.kind.DataKind? && x == y.(length := x.length))
    || (!Allocated(y) && x == y.(length := y.kind.least, data := Zeros(y.kind.least)))
  }

  predicate AllLike(xs: seq<Chunk>, ys: seq<Chunk>, format: seq<Byte>) {
    |xs| == |ys| && forall i | 0 <= i < |xs| :: Like(xs[i], ys[i], format)
  }

  lemma LikePrepared(xs: seq<Chunk>, ys: seq<Chunk>, format: seq<Byte>, length: nat)
    requires AllLike(xs, ys, format) && |format| == 16
    ensures Prepared(xs, format, length) == Prepared(ys, format, length)
    ensures AllLike(Prepared(xs, format, length), ys, format)
  {
    assert forall i | 0 <= i < |xs| :: Like(xs[i], ys[i], format);
  }

  lemma LikeAppend(xs: seq<Chunk>, ys: seq<Chunk>, c: Chunk, format: seq<Byte>)
    requires AllLike(xs, ys, format)
    ensures AllLike(xs + [c], ys + [c], format)
  {
  }

  // ---------------------------------------------------------------------------
  // Runs
  // ---------------------------------------------------------------------------

  /** A file that was created and has since seen these operations. */
  ghost predicate Running(f: RiffFile, format: Format, extras: seq<Extra>, ops: seq<Op>)
    reads f, f.ds64, f.ds64.data, f.samples, f.file
  {
    && f.Valid() && f.LaidOut() && f.samples.Recording()
    && |extras| < TWO_32 && f.ds64.Words() == Blank(|extras|)
    && f.format == Data(format)
    && f.samples.channels == format.channels && f.samples.bytesPerSample == format.bytesPerSample
    && AllLike(f.chunklist, StartList(extras) + Added(ops), f.format)
    && f.SampleBytes() == S.Encode(Frames(ops))
    && f.samples.totalsamples == |Frames(ops)|
  }

  ghost predicate Room(f: RiffFile, n: nat)
    reads f, f.ds64, f.ds64.data, f.samples
  {
    SampleOffset(f.chunklist, if f.ds64.data == null then [] else f.ds64.Words()) + f.samples.totalbytes + n < TWO_63
  }

  /** One operation of a run. */
  method Do(f: RiffFile, format: Format, ghost extras: seq<Extra>, ghost done: seq<Op>, op: Op)
    requires Running(f, format, extras, done) && OpOk(op, format) && Room(f, Budget([op], format))
    modifies f`chunklist, f`chunkmap, f.ds64`data, f.file, f.samples
    ensures f.ds64.data == old(f.ds64.data)
    ensures Running(f, format, extras, done + [op])
    ensures forall n: nat | old(Room(f, Budget([op], format) + n)) :: Room(f, n)
  {
    hide Running, Room, Budget, FrameSize;
    BudgetOne(op, format);
    match op
    case Add(id, data, before) => DoAdd(f, format, extras, done, id, data, before);
    case Record(frames) => DoRecord(f, format, extras, done, frames);
  }

  lemma BudgetOne(op: Op, format: Format)
    ensures Budget([op], format) == match op case Add(_, data, _) => 9 + |data| case Record(frames) => |frames| * FrameSize(format)
  {
    assert [op][..0] == [];
  }

  /** What of a recording the operations below need to know. */
  lemma Recorded(s: S.SoundFileSamples)
    requires s.Recording()
    ensures s.samplepos == s.totalsamples && s.totalbytes == s.totalsamples * s.FrameBytes()
  {
  }

  lemma FrameSizeIs(s: S.SoundFileSamples, format: Format)
    requires s.channels == format.channels && s.bytesPerSample == format.bytesPerSample
    ensures s.FrameBytes() == FrameSize(format)
  {
  }

  lemma AddedMore(extras: seq<Extra>, done: seq<Op>, id: Word, data: seq<Byte>, before: bool,
                  cs: seq<Chunk>, format: seq<Byte>, length: nat)
    requires AllLike(cs, StartList(extras) + Added(done), format) && |format| == 16
    ensures var op := Add(id, data, before);
            var c := UserChunk(id, data, before && Frames(done) == []);
            && Frames(done + [op]) == Frames(done)
            && AllLike(cs + [c], StartList(extras) + Added(done + [op]), format)
            && AllLike(Prepared(cs + [c], format, length), StartList(extras) + Added(done + [op]), format)
  {
    hide Like, Prepared, StartList;
    var op := Add(id, data, before);
    var goal, c := StartList(extras) + Added(done), UserChunk(id, data, before && Frames(done) == []);
    assert (done + [op])[..|done|] == done;
    assert StartList(extras) + Added(done + [op]) == goal + [c];
    LikeAppend(cs, goal, c, format);
    LikePrepared(cs + [c], goal + [c], format, length);
  }

  method DoAdd(f: RiffFile, format: Format, ghost extras: seq<Extra>, ghost done: seq<Op>,
               id: Word, data: seq<Byte>, before: bool)
    requires Running(f, format, extras, done) && !BuiltIn(id) && Room(f, 9 + |data|)
    modifies f`chunklist, f`chunkmap, f.ds64`data, f.file, f.samples
    ensures f.ds64.data == old(f.ds64.data)
    ensures Running(f, format, extras, done + [Add(id, data, before)])
    ensures forall n: nat | old(Room(f, 9 + |data| + n)) :: Room(f, n)
  {
    hide S.Encode, Blank, Data, SampleOffset, Prepared, Laid, WellFormed, AllLike, Added, StartList, Frames;
    hide S.SoundFileSamples.Recording;
    Recorded(f.samples);
    AddedMore(extras, done, id, data, before, f.chunklist, f.format, f.samples.totalbytes);
    f.AddData(id, data, before);
    Recorded(f.samples);
  }

  method DoRecord(f: RiffFile, format: Format, ghost extras: seq<Extra>, ghost done: seq<Op>, frames: seq<S.Frame>)
    requires Running(f, format, extras, done) && Room(f, |frames| * FrameSize(format))
    requires forall i | 0 <= i < |frames| :: S.WholeFrame(frames[i], format.channels, format.bytesPerSample)
    modifies f.file, f.samples
    ensures Running(f, format, extras, done + [Record(frames)])
    ensures forall n: nat | old(Room(f, |frames| * FrameSize(format) + n)) :: Room(f, n)
  {
    hide S.Encode, Blank, Data, SampleOffset, Prepared, WellFormed, AllLike, StartList, S.Taken;
    hide S.SoundFileSamples.Recording, S.SoundFileSamples.FrameBytes, FrameSize;
    Recorded(f.samples);
    FrameSizeIs(f.samples, format);
    ghost var op := Record(frames);
    assert (done + [op])[..|done|] == done;
    assert Added(done + [op]) == Added(done);
    TakenAll(frames, format.channels, format.bytesPerSample);
    S.EncodeAppend(Frames(done), frames);
    Distribute(f.samples.totalsamples, |frames|, FrameSize(format));
    var _ := f.WriteSamples(frames, 0, format.channels);
  }

  lemma Distribute(a: nat, b: nat, m: nat)
    ensures (a + b) * m == a * m + b * m
  {
  }

  lemma TakenAll(frames: seq<S.Frame>, channels: nat, bytesPerSample: nat)
    requires forall i | 0 <= i < |frames| :: S.WholeFrame(frames[i], channels, bytesPerSample)
    ensures S.Taken(frames, 0, channels) == frames
    ensures forall i | 0 <= i < |frames| :: |frames[i]| == channels && B.AllOf(frames[i], bytesPerSample)
  {
    forall i | 0 <= i < |frames|
      ensures S.Taken(frames, 0, channels)[i] == frames[i]
      ensures |frames[i]| == channels && B.AllOf(frames[i], bytesPerSample)
    {
      assert S.WholeFrame(frames[i], channels, bytesPerSample);
    }
  }

  lemma {:induction false} BudgetGrows(ops: seq<Op>, format: Format, i: nat)
    requires i <= |ops|
    ensures Budget(ops[..i], format) <= Budget(ops, format)
    decreases |ops|
  {
    if i < |ops| {
      var n := |ops| - 1;
      assert ops[..n][..i] == ops[..i];
      BudgetGrows(ops[..n], format, i);
    } else {
      assert ops[..i] == ops;
    }
  }

  lemma BudgetStep(ops: seq<Op>, format: Format, i: nat)
    requires i < |ops|
    ensures ops[..i + 1] == ops[..i] + [ops[i]]
    ensures Budget(ops[..i + 1], format) == Budget(ops[..i], format) + Budget([ops[i]], format) <= Budget(ops, format)
  {
    assert ops[..i + 1][..i] == ops[..i];
    assert [ops[i]][..0] == [];
    BudgetGrows(ops, format, i + 1);
  }

  /** What the caller of a run has to see to: the format makes frames, extra chunks have
      identifiers of their own, frames are whole, and everything stays within a file offset. */
  ghost predicate RunOk(format: Format, extras: seq<Extra>, ops: seq<Op>) {
    && format.rate != 0 && 0 < format.channels < TWO_32 && 0 < format.bytesPerSample && |extras| < TWO_32
    && (forall i | 0 <= i < |extras| :: !BuiltIn(extras[i].id))
    && (forall i | 0 <= i < |ops| :: OpOk(ops[i], format))
    && SampleOffset(Prepared(StartList(extras), Data(format), 0), Blank(|extras|)) + Budget(ops, format) < TWO_63
  }

  /** There is a run for every format: one that adds nothing, with the samples at byte 80. */
  lemma EmptyRunOk(format: Format)
    requires format.rate != 0 && 0 < format.channels < TWO_32 && 0 < format.bytesPerSample
    ensures RunOk(format, [], [])
    ensures SampleOffset(Prepared(StartList([]), Data(format), 0), Blank(0)) == 80
  {
    hide F.FormatData;
    var cs, w := Prepared(StartList([]), Data(format), 0), Blank(0);
    StartReady([], Data(format));
    FirstPass(cs, w);
    assert |PreBytes(cs, w, 2)| == |PreBytes(cs, w, 1)| + 4 by { ChunkBytesLength(cs[1], w); }
    assert |PreBytes(cs, w, 3)| == |PreBytes(cs, w, 2)| + 36 by { ChunkBytesLength(cs[2], w); }
    assert |PreBytes(cs, w, 4)| == |PreBytes(cs, w, 3)| + 24 by { ChunkBytesLength(cs[3], w); }
    assert PreBytes(cs, w, 5) == PreBytes(cs, w, 4) + [];
  }

  /** A file is created and the first `n` operations are performed; there is room for the others. */
  method Perform(format: Format, extras: seq<Extra>, ops: seq<Op>, n: nat) returns (f: RiffFile)
    requires RunOk(format, extras, ops) && n <= |ops|
    ensures fresh(f) && f.file != null && fresh(f.file) && fresh(f.ds64) && fresh(f.samples)
    ensures f.ds64.data != null && fresh(f.ds64.data)
    ensures Running(f, format, extras, ops[..n])
    ensures Budget(ops[..n], format) <= Budget(ops, format) && Room(f, Budget(ops, format) - Budget(ops[..n], format))
  {
    hide S.Encode, Blank, SampleOffset, Prepared, WellFormed, Running, Added, Frames, StartList, F.FormatData, F.Fields, Budget, OpOk;
    f := new RiffFile();
    var ok := f.Create(format.rate, format.channels, format.bytesPerSample, format.bits, format.isFloat, extras);
    Started(f, format, extras);
    ghost var words, file, ds64, samples := f.ds64.data, f.file, f.ds64, f.samples;
    assert ops[..0] == [];
    BudgetGrows(ops, format, 0);
    for i := 0 to n
      invariant f.file == file && f.ds64 == ds64 && f.samples == samples && f.ds64.data == words
      invariant fresh(f) && fresh(file) && fresh(ds64) && fresh(samples) && fresh(words)
      invariant Running(f, format, extras, ops[..i])
      invariant Budget(ops[..i], format) <= Budget(ops, format)
      invariant Room(f, Budget(ops, format) - Budget(ops[..i], format))
    {
      BudgetStep(ops, format, i);
      Do(f, format, extras, ops[..i], ops[i]);
    }
  }

  // ---------------------------------------------------------------------------
  // Data set before closing
  // ---------------------------------------------------------------------------

  /** New data for one of the extra chunks. */
  datatype Update = Update(index: nat, data: seq<Byte>)

  /** The chunks that are given their data when the file is closed are chna and axml. */
  predicate UpdateOk(u: Update, extras: seq<Extra>) {
    u.index < |extras| && extras[u.index].id in {CHNA_ID, AXML_ID}
  }

  predicate AllUpdatesOk(updates: seq<Update>, extras: seq<Extra>) {
    forall i | 0 <= i < |updates| :: UpdateOk(updates[i], extras)
  }

  /** What a chunk holds after new data was set: chna refuses data of another length, and axml grows
      if it must but never shrinks. */
  function Refilled(x: Extra, data: seq<Byte>): seq<Byte> {
    if x.id == CHNA_ID then if |data| == |x.data| then data else x.data
    else if |data| < |x.data| then data + x.data[|data|..] else data
  }

  function Replaced(extras: seq<Extra>, u: Update): (r: seq<Extra>)
    requires UpdateOk(u, extras)
    ensures |r| == |extras| && forall i | 0 <= i < |r| :: r[i].id == extras[i].id
  {
    extras[u.index := Extra(extras[u.index].id, Refilled(extras[u.index], u.data))]
  }

  /** The extra chunks with the data they have in the end. */
  function Updated(extras: seq<Extra>, updates: seq<Update>): (r: seq<Extra>)
    requires AllUpdatesOk(updates, extras)
    ensures |r| == |extras| && forall i | 0 <= i < |r| :: r[i].id == extras[i].id
  {
    if updates == [] then extras
    else
      var n := |updates| - 1;
      var before := Updated(extras, updates[..n]);
      assert UpdateOk(updates[n], extras);
      Replaced(before, updates[n])
  }

  lemma ReplacedLike(cs: seq<Chunk>, extras: seq<Extra>, u: Update, added: seq<Chunk>, format: seq<Byte>)
    requires UpdateOk(u, extras) && AllLike(cs, StartList(extras) + added, format)
    ensures var i := 5 + u.index;
            && i < |cs| && cs[i].kind == UserKind(false, 0) && cs[i].id == extras[u.index].id
            && cs[i].data == extras[u.index].data
            && var data := Refilled(extras[u.index], u.data);
               AllLike(cs[i := cs[i].(length := |data|, data := data)], StartList(Replaced(extras, u)) + added, format)
  {
    hide PreparedChunk;
    var i, goal := 5 + u.index, StartList(extras) + added;
    assert Like(cs[i], goal[i], format);
    var data := Refilled(extras[u.index], u.data);
    var c := cs[i].(length := |data|, data := data);
    assert StartList(Replaced(extras, u)) + added == goal[i := c];
  }

  /** A chunk that goes after the samples takes new data; the recording stays where it is, and the
      file is that of a run that had given the chunk this data from the start. */
  method SetExtra(f: RiffFile, format: Format, ghost extras: seq<Extra>, ghost ops: seq<Op>, u: Update)
    requires Running(f, format, extras, ops) && UpdateOk(u, extras)
    modifies f`chunklist
    ensures Running(f, format, Replaced(extras, u), ops) && f.SampleBytes() == old(f.SampleBytes())
    ensures forall n: nat | old(Room(f, n)) :: Room(f, n)
  {
    hide S.Encode, Blank, Data, SampleOffset, Prepared, WellFormed, AllLike, StartList, AllAllocated, Added, Frames;
    hide S.SoundFileSamples.Recording, LengthOnFile;
    ReplacedLike(f.chunklist, extras, u, Added(ops), f.format);
    var c := f.chunklist[5 + u.index];
    f.SetChunkData(5 + u.index, Refilled(Extra(c.id, c.data), u.data));
  }

  /** Such data does not matter for what a run needs. */
  lemma {:induction false} UpdatedOk(format: Format, extras: seq<Extra>, ops: seq<Op>, updates: seq<Update>)
    requires RunOk(format, extras, ops) && AllUpdatesOk(updates, extras)
    ensures RunOk(format, Updated(extras, updates), ops)
  {
    hide RunOk;
    if updates != [] {
      var n := |updates| - 1;
      UpdatedOk(format, extras, ops, updates[..n]);
      assert UpdateOk(updates[n], extras);
      ReplacedOk(format, Updated(extras, updates[..n]), ops, updates[n]);
    }
  }

  lemma ReplacedOk(format: Format, extras: seq<Extra>, ops: seq<Op>, u: Update)
    requires RunOk(format, extras, ops) && UpdateOk(u, extras)
    ensures RunOk(format, Replaced(extras, u), ops)
  {
    hide OpOk, F.FormatData, PreBytes, Budget, LengthOnFile, WellFormedChunk, Blank, Refilled;
    var i, data := 5 + u.index, Data(format);
    var cs, ds := Prepared(StartList(extras), data, 0), Prepared(StartList(Replaced(extras, u)), data, 0);
    StartReady(extras, data);
    StartReady(Replaced(extras, u), data);
    assert cs[i].kind == ds[i].kind == UserKind(false, 0);
    assert ds == cs[i := ds[i]];
    assert WellFormedChunk(cs[i]) && WellFormedChunk(ds[i]);
    ReplacedPre(cs, i, ds[i], Blank(|extras|), |cs|);
  }

  /** Any run leaves the file that Close describes, for exactly the chunks that were added, in
      order, with the data they had last, and exactly the samples that were recorded. */
  method Run(format: Format, extras: seq<Extra>, ops: seq<Op>, updates: seq<Update>) returns (file: E.File)
    requires RunOk(format, extras, ops) && AllUpdatesOk(updates, extras)
    ensures fresh(file)
    ensures var samples := S.Encode(Frames(ops));
            var cs := Chunks(format, Updated(extras, updates), ops, |samples|);
            && WellFormed(cs) && 0 < FrameSize(format)
            && file.bytes == ReadBack.Written(cs, |extras|, FrameSize(format), samples)
  {
    hide S.Encode, Blank, SampleOffset, Prepared, WellFormed, Running, Added, Frames, StartList, F.FormatData, Budget, OpOk, RunOk;
    hide FinalChunks, FinalWords, FileBytes, Laid, Room, UpdateOk, Replaced, Refilled;
    var f := Perform(format, extras, ops, |ops|);
    file := f.file;
    assert ops[..|ops|] == ops;
    RoomLeft(f, Budget(ops, format) - Budget(ops, format));
    for i := 0 to |updates|
      invariant f.file == file && fresh(f) && fresh(f.ds64) && fresh(f.samples) && fresh(file)
      invariant f.ds64.data != null && fresh(f.ds64.data)
      invariant Running(f, format, Updated(extras, updates[..i]), ops) && Room(f, 0)
    {
      UpdateStep(extras, updates, i);
      SetExtra(f, format, Updated(extras, updates[..i]), ops, updates[i]);
    }
    assert updates[..|updates|] == updates;
    Finished(f, format, Updated(extras, updates), ops);
    f.Close(false);
  }

  lemma RoomLeft(f: RiffFile, n: nat)
    requires Room(f, n)
    ensures Room(f, 0)
  {
    hide SampleOffset;
  }

  lemma UpdateStep(extras: seq<Extra>, updates: seq<Update>, i: nat)
    requires i < |updates| && AllUpdatesOk(updates, extras)
    ensures UpdateOk(updates[i], Updated(extras, updates[..i]))
    ensures Updated(extras, updates[..i + 1]) == Replaced(Updated(extras, updates[..i]), updates[i])
  {
    assert updates[..i + 1][..i] == updates[..i];
    assert UpdateOk(updates[i], extras);
  }

  /** Back to the start, and a chunk added ahead of the samples: the layout moves the start of the
      samples, not the samples. */
  method Rewind(f: RiffFile, format: Format, ghost extras: seq<Extra>, ghost ops: seq<Op>, id: Word, data: seq<Byte>)
    requires Running(f, format, extras, ops) && !BuiltIn(id) && data != [] && Room(f, 9 + |data|)
    requires 0 < f.samples.totalbytes
    modifies f`chunklist, f`chunkmap, f.ds64`data, f.file, f.samples
    ensures f.Valid() && f.Closable() && f.ds64.data == old(f.ds64.data) && f.ds64.Words() == Blank(|extras|)
    ensures f.samples.totalbytes == old(f.samples.totalbytes)
    ensures var cs, n := f.chunklist, f.samples.totalbytes;
            && WellFormed(cs) && Prepared(cs, f.format, n) == cs && cs[0].length == 0 && cs[4].length == n
            && SampleOffset(cs, Blank(|extras|))
               == old(SampleOffset(f.chunklist, f.ds64.Words())) + LengthOnFile(UserChunk(id, data, true), Blank(|extras|))
            && var last := SampleOffset(cs, Blank(|extras|)) + n - 1;
               last < |f.file.bytes| ==> f.file.bytes[last] == 0
  {
    hide Blank, SampleOffset, Prepared, WellFormed, Laid, LengthOnFile, AllAllocated, Running, Room;
    hide W.RiffFile.Valid, W.RiffFile.LaidOut, W.RiffFile.SampleBytes, W.RiffFile.Closable, S.SoundFileSamples.Recording;
    ListOf(f, format, extras, ops, 9 + |data|);
    RewindLayout(f.file.bytes, f.chunklist, UserChunk(id, data, true), f.format, f.samples.totalbytes, f.ds64.Words());
    f.SetSamplePosition(0);
    f.AddData(id, data, true);
    Closes(f);
  }

  lemma Closes(f: RiffFile)
    requires f.Valid() && SampleOffset(f.chunklist, f.ds64.Words()) + f.samples.totalbytes < TWO_63
    ensures f.Closable()
  {
    hide SampleOffset;
  }

  /** What of a running file the list, the layout and the room are made of. */
  lemma ListOf(f: RiffFile, format: Format, extras: seq<Extra>, ops: seq<Op>, n: nat)
    requires Running(f, format, extras, ops) && Room(f, n)
    ensures f.Valid() && f.LaidOut() && f.file != null && f.ds64.Words() == Blank(|extras|)
    ensures var cs, at := f.chunklist, SampleOffset(f.chunklist, f.ds64.Words());
            && WellFormed(cs) && cs[3].length == 16 && |f.format| == 16 && AllAllocated(cs)
            && cs[0].id == RIFF_ID && cs[0].length == 0 && (forall i | 0 <= i < |cs| :: !cs[i].riff64)
            && |f.file.bytes| == at + f.samples.totalbytes && at + f.samples.totalbytes + n < TWO_63
  {
    hide Blank, SampleOffset, WellFormed, AllAllocated, Data, S.Encode, Frames, Added, StartList, AllLike;
  }

  /** The list and the bytes after a chunk was added ahead of samples that are already there. */
  lemma RewindLayout(start: seq<Byte>, cs: seq<Chunk>, c: Chunk, format: seq<Byte>, n: nat, w: seq<Word>)
    requires WellFormed(cs) && cs[3].length == 16 && |format| == 16 && WellFormedChunk(c) && c.kind.UserKind? && !c.riff64
    requires AllAllocated(cs) && Allocated(c) && c.kind.before && c.length != 0
    requires cs[0].id == RIFF_ID && cs[0].length == 0 && forall i | 0 <= i < |cs| :: !cs[i].riff64
    requires |start| == SampleOffset(cs, w) + n && 0 < n
    ensures var ds := Prepared(cs + [c], format, n);
            && WellFormed(ds) && Prepared(ds, format, n) == ds && ds[0].length == 0 && ds[4].length == n
            && SampleOffset(ds, w) == SampleOffset(cs, w) + LengthOnFile(c, w)
            && SampleOffset(cs, w) < SampleOffset(ds, w) <= SampleOffset(cs, w) + 9 + |c.data|
            && var last, laid := SampleOffset(ds, w) + n - 1, Laid(start, ds, w, false);
               last < |laid| ==> laid[last] == 0
  {
    hide SampleOffset, Prepared, Laid;
    AddedShape(cs, c, format, n, w);
    var ds := Prepared(cs + [c], format, n);
    PreparedAlready(ds, format, n);
    LaidBetween(start, ds, w, false, SampleOffset(ds, w) + n - 1);
  }

  /** A recording is lost when the position is moved back to the start and a chunk with data is then
      added ahead of the samples: the closed file does not have the samples where its headers say. */
  method RewindAndAdd(format: Format, extras: seq<Extra>, ops: seq<Op>, id: Word, data: seq<Byte>)
    returns (file: E.File, ghost at: nat)
    requires RunOk(format, extras, ops + [Add(id, data, true)]) && data != []
    requires var samples := S.Encode(Frames(ops)); samples != [] && samples[|samples| - 1] != 0
    ensures fresh(file)
    ensures var samples := S.Encode(Frames(ops));
            && at == SampleOffset(Chunks(format, extras, ops, |samples|), Blank(|extras|))
                     + LengthOnFile(UserChunk(id, data, true), Blank(|extras|))
            && Region(file.bytes, at, |samples|) != samples
  {
    hide S.Encode, Blank, SampleOffset, Prepared, WellFormed, Added, Frames, StartList, Budget, OpOk, RunOk, Running, Data;
    hide FinalChunks, FinalWords, FileBytes, Laid, AllLike, LengthOnFile, TotalBytes, Region, UserChunk;
    var all := ops + [Add(id, data, true)];
    LastOp(ops, id, data, format, extras);
    var f := Perform(format, extras, all, |ops|);
    ghost var samples := S.Encode(Frames(ops));
    Finished(f, format, extras, ops);
    OffsetOf(f, format, extras, ops);
    file := f.file;
    Rewind(f, format, extras, ops, id, data);
    at := SampleOffset(f.chunklist, f.ds64.Words());
    LastLost(file.bytes, f.chunklist, f.ds64.Words(), f.samples.FrameBytes(), samples);
    f.Close(false);
  }

  lemma OffsetOf(f: RiffFile, format: Format, extras: seq<Extra>, ops: seq<Op>)
    requires Running(f, format, extras, ops) && Room(f, 0)
    ensures var samples := S.Encode(Frames(ops));
            SampleOffset(f.chunklist, f.ds64.Words()) == SampleOffset(Chunks(format, extras, ops, |samples|), Blank(|extras|))
  {
    hide S.Encode, Blank, SampleOffset, WellFormed, Prepared, StartList, AllLike, Added, Frames;
    Finished(f, format, extras, ops);
    PreparedOffset(f.chunklist, f.format, f.samples.totalbytes, f.ds64.Words());
  }

  lemma LastOp(ops: seq<Op>, id: Word, data: seq<Byte>, format: Format, extras: seq<Extra>)
    requires RunOk(format, extras, ops + [Add(id, data, true)])
    ensures var all := ops + [Add(id, data, true)];
            && all[..|ops|] == ops && Budget(all, format) == Budget(ops, format) + 9 + |data| && !BuiltIn(id)
  {
    hide Prepared, StartList, F.FormatData, SampleOffset;
    var all := ops + [Add(id, data, true)];
    assert all[..|ops|] == ops;
    assert OpOk(all[|ops|], format);
  }

  /** A last sample byte that is zero or missing in the file stays so when it is closed. */
  lemma LastLost(bytes: seq<Byte>, cs: seq<Chunk>, w: seq<Word>, m: nat, samples: seq<Byte>)
    requires WellFormed(cs) && cs[0].length % 2 == 0 && cs[4].length == |samples| && Fits(w) && 0 < m
    requires samples != [] && samples[|samples| - 1] != 0
    requires var last := SampleOffset(cs, w) + |samples| - 1; last < |bytes| ==> bytes[last] == 0
    ensures Region(Laid(bytes, FinalChunks(cs, w), FinalWords(cs, w, m), true), SampleOffset(cs, w), |samples|) != samples
  {
    hide Laid, SampleOffset, FinalWords, TotalBytes;
    var at := SampleOffset(cs, w);
    FinalOffset(cs, w, m);
    LaidBetween(bytes, FinalChunks(cs, w), FinalWords(cs, w, m), true, at + |samples| - 1);
    var laid := Laid(bytes, FinalChunks(cs, w), FinalWords(cs, w, m), true);
    if at + |samples| <= |laid| {
      assert laid[at..at + |samples|][|samples| - 1] == 0;
    }
  }

  lemma Started(f: RiffFile, format: Format, extras: seq<Extra>)
    requires f.Valid() && f.LaidOut() && f.samples.Recording() && |extras| < TWO_32
    requires f.ds64.Words() == Blank(|extras|) && f.samples.totalbytes == 0
    requires f.samples.channels == format.channels && f.samples.bytesPerSample == format.bytesPerSample
    requires f.format == Data(format) && f.chunklist == Prepared(StartList(extras), Data(format), 0)
    ensures Running(f, format, extras, [])
  {
    hide S.Encode, Blank, SampleOffset, WellFormed, F.FormatData, Prepared, StartList, Like;
    var cs := StartList(extras);
    LikeSelf(cs, f.format);
    LikePrepared(cs, cs, f.format, 0);
    assert cs + Added([]) == cs;
    S.EncodeNone();
    NoFrames(f.samples);
  }

  lemma NoFrames(s: S.SoundFileSamples)
    requires s.Recording() && s.totalbytes == 0
    ensures s.totalsamples == 0
  {
    if s.totalsamples != 0 {
      B.MulMono(1, s.totalsamples, s.FrameBytes());
    }
  }

  lemma LikeSelf(cs: seq<Chunk>, format: seq<Byte>)
    ensures AllLike(cs, cs, format)
  {
  }

  lemma Finished(f: RiffFile, format: Format, extras: seq<Extra>, ops: seq<Op>)
    requires Running(f, format, extras, ops) && Room(f, 0)
    ensures f.Valid() && f.Closable() && f.LaidOut() && f.writing && f.file != null
    ensures var samples := S.Encode(Frames(ops));
            && f.SampleBytes() == samples && f.samples.totalbytes == |samples|
            && Prepared(f.chunklist, f.format, |samples|) == Chunks(format, extras, ops, |samples|)
            && f.ds64.Words() == Blank(|extras|) && f.samples.FrameBytes() == FrameSize(format)
  {
    hide S.Encode, Blank, SampleOffset, WellFormed, F.FormatData, Prepared, StartList, Like, AllLike, Added, Frames;
    LikePrepared(f.chunklist, StartList(extras) + Added(ops), f.format, f.samples.totalbytes);
  }

  // ---------------------------------------------------------------------------
  // The list that a run leaves
  // ---------------------------------------------------------------------------

  /** The identifiers of the chunks a run adds, in order. */
  function Ids(extras: seq<Extra>, ops: seq<Op>): seq<Word> {
    seq(|extras|, i requires 0 <= i < |extras| => extras[i].id)
    + seq(|Added(ops)|, i requires 0 <= i < |Added(ops)| => Added(ops)[i].id)
  }

  predicate Distinct(ids: seq<Word>) {
    (forall i | 0 <= i < |ids| :: ids[i] != 0) && forall i, j | 0 <= i < j < |ids| :: ids[i] != ids[j]
  }

  /** The chunks that a run leaves, one by one. */
  lemma ChunksAt(format: Format, extras: seq<Extra>, ops: seq<Op>, length: nat)
    requires RunOk(format, extras, ops)
    ensures var cs := Chunks(format, extras, ops, length);
            && WellFormed(cs) && |cs| == 5 + |Ids(extras, ops)|
            && cs[0].id == RIFF_ID && cs[0].length == 0 && cs[1].length == 0 && !cs[2].riff64 && cs[2].length == 0
            && cs[3].length == 16 && cs[3].data == Data(format) && cs[4].length == length
            && forall i | 5 <= i < |cs| :: cs[i].id == Ids(extras, ops)[i - 5]
  {
    hide F.FormatData, OpOk, Added, PreparedChunk, StartList, WellFormedChunk, Ids;
    ListWell(format, extras, ops);
    ListIds(extras, ops);
    FirstFive(extras, format, length);
    var all := StartList(extras) + Added(ops);
    forall i | 0 <= i < |all|
      ensures PreparedChunk(all[i], Data(format), length).id == all[i].id
    {
      PreparedSame(all[i], Data(format), length);
    }
  }

  lemma UserStays(c: Chunk, format: seq<Byte>, length: nat)
    requires c.kind.UserKind? && c.kind.least == 0
    ensures PreparedChunk(c, format, length) == c
  {
  }

  /** The added chunks are left as they were given. */
  lemma AddedAt(format: Format, extras: seq<Extra>, ops: seq<Op>, length: nat, j: nat)
    requires RunOk(format, extras, ops) && j < |Added(ops)|
    ensures var cs := Chunks(format, extras, ops, length);
            |cs| == 5 + |extras| + |Added(ops)| && cs[5 + |extras| + j] == Added(ops)[j]
  {
    hide F.FormatData, OpOk, Added, PreparedChunk, StartList, RunOk;
    RunAdded(format, extras, ops);
    var all := StartList(extras) + Added(ops);
    assert all[5 + |extras| + j] == Added(ops)[j];
    UserStays(Added(ops)[j], Data(format), length);
  }

  /** The chunk that an operation adds: on the side it asked for, but after the samples if any
      have been recorded by then. */
  lemma {:induction false} AddedBy(ops: seq<Op>, k: nat)
    requires k < |ops| && ops[k].Add?
    ensures |Added(ops[..k])| < |Added(ops)|
    ensures Added(ops)[|Added(ops[..k])|] == UserChunk(ops[k].id, ops[k].data, ops[k].beforeSamples && NothingRecorded(ops, k))
    decreases |ops|
  {
    var n := |ops| - 1;
    RecordedNone(ops, k);
    if k < n {
      assert ops[..n][..k] == ops[..k];
      AddedBy(ops[..n], k);
    }
  }

  /** The operation that added a chunk. */
  lemma {:induction false} AddedFrom(ops: seq<Op>, j: nat) returns (k: nat)
    requires j < |Added(ops)|
    ensures k < |ops| && ops[k].Add? && Added(ops)[j].id == ops[k].id && Added(ops)[j].length == |ops[k].data|
    decreases |ops|
  {
    var n := |ops| - 1;
    if j < |Added(ops[..n])| {
      k := AddedFrom(ops[..n], j);
    } else {
      k := n;
    }
  }

  /** Nothing has been recorded by the first `k` operations. */
  predicate NothingRecorded(ops: seq<Op>, k: nat)
    requires k <= |ops|
  {
    forall i | 0 <= i < k :: ops[i].Record? ==> ops[i].frames == []
  }

  lemma {:induction false} RecordedNone(ops: seq<Op>, k: nat)
    requires k <= |ops|
    ensures Frames(ops[..k]) == [] <==> NothingRecorded(ops, k)
  {
    if k != 0 {
      assert ops[..k][..k - 1] == ops[..k - 1];
      RecordedNone(ops, k - 1);
    }
  }

  /** The data of an extra chunk when the file is closed: bext is never empty. */
  function ExtraData(x: Extra): seq<Byte> {
    if x.id == BEXT_ID && x.data == [] then Zeros(602) else x.data
  }

  /** An extra chunk in the list that Close finds: chna and axml go after the samples. */
  lemma ExtraAt(format: Format, extras: seq<Extra>, ops: seq<Op>, length: nat, j: nat)
    requires RunOk(format, extras, ops) && j < |extras|
    ensures var cs := Chunks(format, extras, ops, length);
            && 5 + j < |cs| && cs[5 + j].id == extras[j].id && cs[5 + j].data == ExtraData(extras[j])
            && cs[5 + j].length == |ExtraData(extras[j])|
            && (BeforeSamples(cs[5 + j]) <==> extras[j].id != CHNA_ID && extras[j].id != AXML_ID)
  {
    hide F.FormatData, OpOk, Added;
    var all := StartList(extras) + Added(ops);
    assert !BuiltIn(extras[j].id);
    assert all[5 + j] == NewChunk(extras[j].id).(length := |extras[j].data|, data := extras[j].data);
  }

  lemma RunAdded(format: Format, extras: seq<Extra>, ops: seq<Op>)
    requires RunOk(format, extras, ops)
    ensures forall i | 0 <= i < |Added(ops)| :: Added(ops)[i].kind.UserKind? && Added(ops)[i].kind.least == 0
  {
    hide Added, OpOk;
    AddedWell(format, ops);
  }

  lemma ListWell(format: Format, extras: seq<Extra>, ops: seq<Op>)
    requires RunOk(format, extras, ops)
    ensures WellFormed(StartList(extras) + Added(ops))
  {
    hide F.FormatData, OpOk, Added, Prepared, StartList, WellFormedChunk, SampleOffset, Blank;
    AddedWell(format, ops);
    StartReady(extras, Data(format));
  }

  lemma ListIds(extras: seq<Extra>, ops: seq<Op>)
    ensures var all, ids := StartList(extras) + Added(ops), Ids(extras, ops);
            |all| == 5 + |ids| && forall i | 5 <= i < |all| :: all[i].id == ids[i - 5]
  {
    hide Added;
  }

  lemma PreparedSame(c: Chunk, format: seq<Byte>, length: nat)
    ensures PreparedChunk(c, format, length).id == c.id
  {
  }

  lemma FirstFive(extras: seq<Extra>, format: Format, length: nat)
    ensures var cs := StartList(extras);
            && PreparedChunk(cs[0], Data(format), length) == cs[0] && cs[0].id == RIFF_ID && cs[0].length == 0
            && PreparedChunk(cs[1], Data(format), length) == cs[1] && cs[1].length == 0
            && PreparedChunk(cs[2], Data(format), length) == cs[2] && !cs[2].riff64 && cs[2].length == 0
            && PreparedChunk(cs[3], Data(format), length) == cs[3].(length := 16, data := Data(format))
            && PreparedChunk(cs[4], Data(format), length) == cs[4].(length := length)
  {
  }

  lemma {:induction false} AddedWell(format: Format, ops: seq<Op>)
    requires forall i | 0 <= i < |ops| :: OpOk(ops[i], format)
    ensures forall i | 0 <= i < |Added(ops)| :: WellFormedChunk(Added(ops)[i]) && Added(ops)[i].kind.UserKind? && Added(ops)[i].kind.least == 0
    decreases |ops|
  {
    if ops != [] {
      var n := |ops| - 1;
      AddedWell(format, ops[..n]);
      assert OpOk(ops[n], format);
    }
  }

  /** When what a run leaves can be expected to open: exactly when the identifiers are distinct
      and not zero, and the sizes stay within the table's and a file's limits. */
  lemma RunCloses(format: Format, extras: seq<Extra>, ops: seq<Op>)
    requires RunOk(format, extras, ops)
    ensures var samples := S.Encode(Frames(ops));
            var cs := Chunks(format, extras, ops, |samples|);
            ReadBack.Closing(cs, |extras|, samples)
            <==> Distinct(Ids(extras, ops)) && 28 + 12 * |extras| < MAX_SIZE && 8 + TotalBytes(cs, Blank(|extras|), |cs|) < TWO_63
  {
    hide Chunks, TotalBytes, Ids, S.Encode, Frames, LengthOnFile, F.FormatData, F.Parse, Blank;
    F.FormatKept(format.rate, format.channels, format.bytesPerSample, format.bits, format.isFloat);
    var samples := S.Encode(Frames(ops));
    var cs, ids := Chunks(format, extras, ops, |samples|), Ids(extras, ops);
    ChunksAt(format, extras, ops, |samples|);
    if 8 + TotalBytes(cs, Blank(|extras|), |cs|) < TWO_63 {
      forall i | 0 <= i < |cs|
        ensures cs[i].length < TWO_64
      {
        Short(cs, Blank(|extras|), i);
      }
    }
    if ReadBack.Closing(cs, |extras|, samples) {
      forall i | 0 <= i < |ids| ensures ids[i] != 0 { assert cs[5 + i].id == ids[i]; }
      forall i, j | 0 <= i < j < |ids| ensures ids[i] != ids[j] { assert cs[5 + i].id == ids[i] && cs[5 + j].id == ids[j]; }
    }
  }

  lemma Short(cs: seq<Chunk>, w: seq<Word>, i: nat)
    requires WellFormed(cs) && i < |cs| && TotalBytes(cs, w, |cs|) < TWO_63
    requires cs[0].length == 0 && cs[2].length == 0
    ensures cs[i].length < TWO_64
  {
    assert WellFormedChunk(cs[i]);
    if 2 < i {
      TotalBounds(cs, w, |cs|, i);
    }
  }

  // ---------------------------------------------------------------------------
  // A run that cannot be read back
  // ---------------------------------------------------------------------------

  /** The list that one added chunk makes, and how much it adds to the file. */
  lemma OneAdded(format: Format, id: Word, data: seq<Byte>)
    requires RunOk(format, [], [Add(id, data, false)])
    ensures var ops := [Add(id, data, false)];
            && Frames(ops) == [] && Ids([], ops) == [id]
            && var cs := Chunks(format, [], ops, 0);
               && WellFormed(cs) && |cs| == 6 && cs[5] == UserChunk(id, data, false)
               && TotalBytes(cs, Blank(0), 6) <= 81 + |data|
  {
    hide F.FormatData, OpOk;
    var ops := [Add(id, data, false)];
    assert ops[..0] == [];
    assert Added(ops) == [UserChunk(id, data, false)];
    ListWell(format, [], ops);
    FirstFive([], format, 0);
    var cs := Chunks(format, [], ops, 0);
    OneTotal(cs, Blank(0));
  }

  lemma OneTotal(cs: seq<Chunk>, w: seq<Word>)
    requires WellFormed(cs) && |cs| == 6 && |w| == 7 && cs[3].length == 16 && cs[4].length == 0
    ensures TotalBytes(cs, w, 6) == 72 + LengthOnFile(cs[5], w)
  {
    assert TotalBytes(cs, w, 0) == 0 && TotalBytes(cs, w, 1) == 0;
    assert TotalBytes(cs, w, 2) == 4;
    assert TotalBytes(cs, w, 3) == 4 + 36;
    assert TotalBytes(cs, w, 4) == 40 + 24;
    assert TotalBytes(cs, w, 5) == 64 + 8;
  }

  /** A file created without extra chunks has no table entries: one chunk that is added later and is
      too long for its header makes a run whose file does not read back, for every format. */
  lemma UnslottedRun(format: Format, id: Word, data: seq<Byte>)
    requires format.rate != 0 && 0 < format.channels < TWO_32 && 0 < format.bytesPerSample
    requires id != 0 && !BuiltIn(id) && MAX_SIZE < |data| < TWO_63 - 89
    ensures var ops := [Add(id, data, false)];
            var cs := Chunks(format, [], ops, 0);
            && RunOk(format, [], ops) && Frames(ops) == [] && S.Encode([]) == []
            && ReadBack.Closing(cs, 0, []) && !ReadBack.Slotted(cs, 0)
  {
    hide F.FormatData, SampleOffset, Prepared, StartList, Data, Chunks, TotalBytes;
    var ops := [Add(id, data, false)];
    EmptyRunOk(format);
    BudgetOne(ops[0], format);
    OneAdded(format, id, data);
    S.EncodeNone();
    RunCloses(format, [], ops);
    var cs := Chunks(format, [], ops, 0);
    assert Slots.Oversize(cs[5]);
    assert Slots.Oversized(cs, 6) == Slots.Oversized(cs, 5) + 1;
  }
}
