/** Which bytes a list of chunks becomes, and where. */
module RiffLayout {
  import opened Bytes
  import opened ChunkIds
  import opened Ds64
  import opened EnhancedFile

  /** The chunk classes, by how they are sized, named and placed. Every chunk that is not part
      of the container itself carries data of its own and states its side of the samples; a class
      that does not go without data also states how many zeros it allocates for itself. */
  datatype Kind = RiffKind | WaveKind | Ds64Kind | FmtKind | DataKind | UserKind(before: bool, least: nat)

  /** A chunk object. The ds64 words and the samples are kept by objects of their own, so
      `data` is not used for those two. */
  datatype Chunk = Chunk(kind: Kind, id: Word, length: nat, data: seq<Byte>, riff64: bool)

  /** GetLength(). */
  function Length(c: Chunk, w: seq<Word>): nat {
    if c.kind.Ds64Kind? then 4 * |w| else c.length
  }

  /** WriteThisChunk(): empty chunks are skipped unless the container needs them. */
  predicate IsWritten(c: Chunk, w: seq<Word>) {
    Length(c, w) != 0 || c.kind.RiffKind? || c.kind.WaveKind? || c.kind.DataKind?
  }

  /** GetWriteID(): the ds64 chunk hides as JUNK in a plain RIFF file. */
  function WriteId(c: Chunk): Word {
    if c.kind.Ds64Kind? && !c.riff64 then JUNK_ID else c.id
  }

  function PadLength(length: nat): nat { length % 2 }
  function Pad(length: nat): (bs: seq<Byte>)
    ensures |bs| == PadLength(length)
  {
    Zeros(PadLength(length))
  }

  /** GetLengthOnFile(). */
  function LengthOnFile(c: Chunk, w: seq<Word>): nat {
    if c.kind.WaveKind? then 4
    else if IsWritten(c, w) then 8 + Length(c, w) + PadLength(Length(c, w))
    else 0
  }

  predicate BeforeSamples(c: Chunk) { c.kind.UserKind? ==> c.kind.before }

  /** Identifier and size field: big-endian, then little-endian and limited to 32 bits. */
  function Header(id: Word, length: nat): (bs: seq<Byte>)
    ensures |bs| == 8
  {
    Be32(id) + Le32(Min(length, MAX_SIZE))
  }

  /** The stored data of a chunk other than data. */
  function Payload(c: Chunk, w: seq<Word>): seq<Byte> {
    if c.kind.Ds64Kind? then Emit(w) else if c.kind.RiffKind? then [] else c.data
  }

  /** Every byte that WriteChunk emits for a chunk other than data. */
  function ChunkBytes(c: Chunk, w: seq<Word>): seq<Byte> {
    if c.kind.WaveKind? then Be32(c.id)
    else if IsWritten(c, w) then Header(WriteId(c), Length(c, w)) + Payload(c, w) + Pad(Length(c, w))
    else []
  }

  function Early(c: Chunk, w: seq<Word>): seq<Byte> {
    if !c.kind.DataKind? && BeforeSamples(c) then ChunkBytes(c, w) else []
  }

  function Late(c: Chunk, w: seq<Word>): seq<Byte> {
    if !c.kind.DataKind? && !BeforeSamples(c) then ChunkBytes(c, w) else []
  }

  /** What the first pass of WriteChunks has emitted after `n` chunks of the list. */
  function PreBytes(cs: seq<Chunk>, w: seq<Word>, n: nat): seq<Byte>
    requires n <= |cs|
  {
    if n == 0 then []
    else PreBytes(cs, w, n - 1) + Early(cs[n - 1], w)
  }

  /** What the last pass, made only when closing, has emitted after `n` chunks. */
  function PostBytes(cs: seq<Chunk>, w: seq<Word>, n: nat): seq<Byte>
    requires n <= |cs|
  {
    if n == 0 then []
    else PostBytes(cs, w, n - 1) + Late(cs[n - 1], w)
  }

  /** The sum that Close forms over the list, without the RIFF chunk. */
  function TotalBytes(cs: seq<Chunk>, w: seq<Word>, n: nat): nat
    requires n <= |cs|
  {
    if n == 0 then 0
    else TotalBytes(cs, w, n - 1) + if cs[n - 1].kind.RiffKind? then 0 else LengthOnFile(cs[n - 1], w)
  }

  predicate WellFormedChunk(c: Chunk) {
    match c.kind
    case RiffKind => c.id == RIFF_ID || c.id == RF64_ID
    case WaveKind => c.id == WAVE_ID && c.length == 0
    case Ds64Kind => c.id == DS64_ID
    case FmtKind => c.id == FMT_ID && |c.data| == c.length
    case DataKind => c.id == DATA_ID
    case UserKind(_, _) => !BuiltIn(c.id) && |c.data| == c.length
  }

  /** The list that Create starts, in its order, and the chunks added since. */
  predicate WellFormed(cs: seq<Chunk>) {
    && 5 <= |cs| && cs[0].kind.RiffKind? && cs[1].kind.WaveKind? && cs[2].kind.Ds64Kind?
    && cs[3].kind.FmtKind? && cs[4].kind.DataKind?
    && (forall i | 5 <= i < |cs| :: cs[i].kind.UserKind?)
    && (forall i | 0 <= i < |cs| :: WellFormedChunk(cs[i]))
  }

  /** The whole file, for given sample bytes. */
  function FileBytes(cs: seq<Chunk>, w: seq<Word>, samples: seq<Byte>): seq<Byte>
    requires WellFormed(cs)
  {
    PreBytes(cs, w, |cs|) + Header(DATA_ID, |samples|) + samples + Pad(|samples|) + PostBytes(cs, w, |cs|)
  }

  /** Where the samples start: everything ahead of them, and the header of the data chunk. */
  function SampleOffset(cs: seq<Chunk>, w: seq<Word>): nat { |PreBytes(cs, w, |cs|)| + 8 }

  // ---------------------------------------------------------------------------
  // Size accounting
  // ---------------------------------------------------------------------------

  lemma ChunkBytesLength(c: Chunk, w: seq<Word>)
    requires WellFormedChunk(c) && !c.kind.DataKind?
    ensures |ChunkBytes(c, w)| == if c.kind.RiffKind? then 8 + PadLength(c.length) else LengthOnFile(c, w)
  {
  }

  lemma FirstPass(cs: seq<Chunk>, w: seq<Word>)
    requires WellFormed(cs) && cs[0].length % 2 == 0
    ensures |PreBytes(cs, w, 1)| == 8 && PostBytes(cs, w, 1) == [] && TotalBytes(cs, w, 1) == 0
  {
    assert PreBytes(cs, w, 0) == [] && PostBytes(cs, w, 0) == [] && TotalBytes(cs, w, 0) == 0;
    ChunkBytesLength(cs[0], w);
  }

  /** The two passes and the data chunk together write what Close sums over the list. */
  lemma {:induction false} PassesAddUp(cs: seq<Chunk>, w: seq<Word>, n: nat)
    requires WellFormed(cs) && 1 <= n <= |cs| && cs[0].length % 2 == 0
    ensures |PreBytes(cs, w, n)| + |PostBytes(cs, w, n)| + (if 4 < n then LengthOnFile(cs[4], w) else 0)
            == 8 + TotalBytes(cs, w, n)
  {
    if n == 1 {
      FirstPass(cs, w);
    } else {
      PassesAddUp(cs, w, n - 1);
      assert cs[n - 1].kind.DataKind? <==> n - 1 == 4;
      if n - 1 != 4 {
        ChunkBytesLength(cs[n - 1], w);
      }
    }
  }

  lemma EvenOnFile(c: Chunk, w: seq<Word>)
    ensures LengthOnFile(c, w) % 2 == 0
  {
    var n := Length(c, w);
    assert (n + n % 2) % 2 == 0;
  }

  lemma {:induction false} TotalEven(cs: seq<Chunk>, w: seq<Word>, n: nat)
    requires n <= |cs|
    ensures TotalBytes(cs, w, n) % 2 == 0
  {
    if n != 0 {
      EvenOnFile(cs[n - 1], w);
      TotalEven(cs, w, n - 1);
    }
  }

  lemma {:induction false} TotalBounds(cs: seq<Chunk>, w: seq<Word>, n: nat, i: nat)
    requires i < n <= |cs| && !cs[i].kind.RiffKind?
    ensures LengthOnFile(cs[i], w) <= TotalBytes(cs, w, n)
  {
    if i < n - 1 {
      TotalBounds(cs, w, n - 1, i);
    }
  }

  /** The file has exactly the length its RIFF header states, plus that header; the length is
      even; and one chunk that is too long for its size field makes the whole file so. */
  lemma FileLength(cs: seq<Chunk>, w: seq<Word>, samples: seq<Byte>)
    requires WellFormed(cs) && cs[0].length % 2 == 0 && cs[4].length == |samples|
    ensures |FileBytes(cs, w, samples)| == 8 + TotalBytes(cs, w, |cs|)
    ensures TotalBytes(cs, w, |cs|) % 2 == 0
    ensures forall i | 0 < i < |cs| && MAX_SIZE <= Length(cs[i], w) :: MAX_SIZE <= TotalBytes(cs, w, |cs|)
  {
    hide PreBytes, PostBytes, TotalBytes, Header, Pad;
    PassesAddUp(cs, w, |cs|);
    TotalEven(cs, w, |cs|);
    forall i | 0 < i < |cs| && MAX_SIZE <= Length(cs[i], w)
      ensures MAX_SIZE <= TotalBytes(cs, w, |cs|)
    {
      assert WellFormedChunk(cs[i]);
      TotalBounds(cs, w, |cs|, i);
    }
  }

  // ---------------------------------------------------------------------------
  // Layout stability
  // ---------------------------------------------------------------------------

  /** Two versions of a chunk take up the same room ahead of the samples. */
  predicate SameRoom(c: Chunk, w: seq<Word>, d: Chunk, v: seq<Word>) {
    && c.kind == d.kind
    && (c.kind.RiffKind? ==> c.length % 2 == d.length % 2)
    && (!c.kind.RiffKind? && !c.kind.DataKind? && BeforeSamples(c) ==> LengthOnFile(c, w) == LengthOnFile(d, v))
  }

  lemma SameRoomBytes(c: Chunk, w: seq<Word>, d: Chunk, v: seq<Word>)
    requires WellFormedChunk(c) && WellFormedChunk(d) && SameRoom(c, w, d, v)
    ensures |Early(c, w)| == |Early(d, v)|
  {
    if !c.kind.DataKind? && BeforeSamples(c) {
      ChunkBytesLength(c, w);
      ChunkBytesLength(d, v);
    }
  }

  lemma {:induction false} SamePre(cs: seq<Chunk>, w: seq<Word>, ds: seq<Chunk>, v: seq<Word>, n: nat)
    requires n <= |cs| == |ds|
    requires forall i | 0 <= i < n :: WellFormedChunk(cs[i]) && WellFormedChunk(ds[i]) && SameRoom(cs[i], w, ds[i], v)
    ensures |PreBytes(cs, w, n)| == |PreBytes(ds, v, n)|
  {
    if n != 0 {
      SamePre(cs, w, ds, v, n - 1);
      SameRoomBytes(cs[n - 1], w, ds[n - 1], v);
    }
  }

  lemma {:induction false} PrePrefix(cs: seq<Chunk>, more: seq<Chunk>, w: seq<Word>, n: nat)
    requires n <= |cs|
    ensures PreBytes(cs + more, w, n) == PreBytes(cs, w, n)
  {
    if n != 0 {
      PrePrefix(cs, more, w, n - 1);
    }
  }

  /** A chunk added at the end of the list leaves room for itself only, and only if it goes
      ahead of the samples. */
  lemma AddedOffset(cs: seq<Chunk>, c: Chunk, w: seq<Word>)
    requires WellFormedChunk(c) && c.kind.UserKind?
    ensures SampleOffset(cs + [c], w) == SampleOffset(cs, w) + if c.kind.before then LengthOnFile(c, w) else 0
  {
    PrePrefix(cs, [c], w, |cs|);
    if c.kind.before {
      ChunkBytesLength(c, w);
    }
  }

  /** Replacing the data of a chunk shifts the samples exactly when it goes ahead of them and
      changes its length on file. */
  lemma {:induction false} ReplacedPre(cs: seq<Chunk>, i: nat, c: Chunk, w: seq<Word>, n: nat)
    requires i < |cs| && n <= |cs| && WellFormedChunk(cs[i]) && WellFormedChunk(c) && cs[i].kind == c.kind && c.kind.UserKind?
    ensures |PreBytes(cs[i := c], w, n)| - |PreBytes(cs, w, n)|
            == if i < n && c.kind.before then LengthOnFile(c, w) - LengthOnFile(cs[i], w) else 0
  {
    hide ChunkBytes, LengthOnFile, WellFormedChunk;
    if n != 0 {
      ReplacedPre(cs, i, c, w, n - 1);
      if n - 1 == i && c.kind.before {
        ChunkBytesLength(c, w);
        ChunkBytesLength(cs[i], w);
      }
    }
  }

  // ---------------------------------------------------------------------------
  // Preparing the chunks
  // ---------------------------------------------------------------------------

  /** A chunk that needs data has some. */
  predicate Allocated(c: Chunk) { c.kind.UserKind? && c.kind.least != 0 ==> c.length != 0 }

  predicate AllAllocated(cs: seq<Chunk>) { forall i | 0 <= i < |cs| :: Allocated(cs[i]) }

  /** CreateWriteData: the format chunk takes its data once, the data chunk its length every
      time, a bext chunk allocates zeros if it has no data, the others have theirs. (The ds64 chunk
      allocates in its own object.) */
  function PreparedChunk(c: Chunk, format: seq<Byte>, samples: nat): Chunk {
    if c.kind.FmtKind? && c.length == 0 then c.(length := |format|, data := format)
    else if c.kind.DataKind? then c.(length := samples)
    else if !Allocated(c) then c.(length := c.kind.least, data := Zeros(c.kind.least))
    else c
  }

  function Prepared(cs: seq<Chunk>, format: seq<Byte>, samples: nat): (r: seq<Chunk>)
    ensures |r| == |cs|
    ensures WellFormed(cs) ==> WellFormed(r)
    ensures AllAllocated(r)
  {
    seq(|cs|, i requires 0 <= i < |cs| => PreparedChunk(cs[i], format, samples))
  }

  /** Preparing the chunks keeps the shape of the list. */
  lemma PreparedShape(cs: seq<Chunk>, format: seq<Byte>, samples: nat)
    requires WellFormed(cs) && |format| == 16 && (cs[3].length == 0 || cs[3].length == 16)
    ensures var r := Prepared(cs, format, samples);
            WellFormed(r) && r[0] == cs[0] && (cs[3].length == 16 ==> r[3] == cs[3]) && r[3].length == 16 && r[4].length == samples
  {
  }

  /** Once the format is fixed, preparing again moves nothing. */
  lemma PreparedOffset(cs: seq<Chunk>, format: seq<Byte>, samples: nat, w: seq<Word>)
    requires WellFormed(cs) && cs[3].length == 16 && AllAllocated(cs)
    ensures SampleOffset(Prepared(cs, format, samples), w) == SampleOffset(cs, w)
  {
    SamePre(cs, w, Prepared(cs, format, samples), w, |cs|);
  }

  // ---------------------------------------------------------------------------
  // What Close makes of the list
  // ---------------------------------------------------------------------------

  /** The ds64 words after Close has looked at one chunk. */
  function Noted(c: Chunk, w: seq<Word>, frameBytes: nat): (r: seq<Word>)
    requires Fits(w) && 0 < frameBytes
    ensures Fits(r) && |r| == |w| && Count(r) == Count(w)
  {
    var length := Length(c, w);
    if length < MAX_SIZE && c.id != RIFF_ID && c.id != DATA_ID then w
    else
      var w1 := SetSize(w, c.id, length).0;
      if c.id == DATA_ID then SetPair(w1, 4, length / frameBytes) else w1
  }

  function AllNoted(cs: seq<Chunk>, w: seq<Word>, frameBytes: nat, n: nat): (r: seq<Word>)
    requires Fits(w) && 0 < frameBytes && n <= |cs|
    ensures Fits(r) && |r| == |w| && Count(r) == Count(w)
  {
    if n == 0 then w else Noted(cs[n - 1], AllNoted(cs, w, frameBytes, n - 1), frameBytes)
  }

  /** EnableRIFF64() of one chunk. */
  function Enabled(c: Chunk): Chunk {
    if c.kind.RiffKind? then c.(riff64 := true, id := RF64_ID)
    else c.(riff64 := c.kind.Ds64Kind? || c.kind.DataKind?)
  }

  function AllEnabled(cs: seq<Chunk>): (r: seq<Chunk>)
    ensures |r| == |cs|
  {
    seq(|cs|, i requires 0 <= i < |cs| => Enabled(cs[i]))
  }

  predicate NeedsRf64(cs: seq<Chunk>, w: seq<Word>) { MAX_SIZE <= TotalBytes(cs, w, |cs|) }

  /** The list as it is written when closing; `cs` already has the final data length. */
  function FinalChunks(cs: seq<Chunk>, w: seq<Word>): (r: seq<Chunk>)
    requires WellFormed(cs)
    ensures WellFormed(r) && |r| == |cs|
  {
    var total := TotalBytes(cs, w, |cs|);
    var ds := if NeedsRf64(cs, w) then AllEnabled(cs) else cs;
    ds[0 := ds[0].(length := total)]
  }

  function FinalWords(cs: seq<Chunk>, w: seq<Word>, frameBytes: nat): (r: seq<Word>)
    requires Fits(w) && 0 < frameBytes
    ensures Fits(r) && |r| == |w| && Count(r) == Count(w)
  {
    var w1 := AllNoted(cs, w, frameBytes, |cs|);
    if NeedsRf64(cs, w) then SetPair(w1, 0, TotalBytes(cs, w, |cs|)) else w1
  }

  /** Close moves nothing: the samples stay where the last layout put them. */
  lemma FinalOffset(cs: seq<Chunk>, w: seq<Word>, frameBytes: nat)
    requires WellFormed(cs) && Fits(w) && 0 < frameBytes && cs[0].length % 2 == 0
    ensures SampleOffset(FinalChunks(cs, w), FinalWords(cs, w, frameBytes)) == SampleOffset(cs, w)
  {
    hide PreBytes, TotalBytes, AllNoted;
    TotalEven(cs, w, |cs|);
    SamePre(cs, w, FinalChunks(cs, w), FinalWords(cs, w, frameBytes), |cs|);
  }

  // ---------------------------------------------------------------------------
  // What one run of WriteChunks does to the bytes of the file
  // ---------------------------------------------------------------------------

  /** Everything ahead of the samples, and what follows them. */
  function HeadBytes(cs: seq<Chunk>, w: seq<Word>): seq<Byte>
    requires WellFormed(cs)
  {
    PreBytes(cs, w, |cs|) + Header(DATA_ID, cs[4].length)
  }

  /** The headers are overwritten, the samples are stepped over, the rest is written after them. */
  function Laid(bytes: seq<Byte>, cs: seq<Chunk>, w: seq<Word>, closing: bool): seq<Byte>
    requires WellFormed(cs)
  {
    var pre, size := PreBytes(cs, w, |cs|), cs[4].length;
    var end := |pre| + 8 + size;
    var headed := Overwrite(Overwrite(bytes, 0, pre), |pre|, Header(DATA_ID, size));
    var padded := Overwrite(headed, end, Pad(size));
    if closing then Overwrite(padded, end + PadLength(size), PostBytes(cs, w, |cs|)) else padded
  }

  /** When the samples already lie where this layout puts them, at the end of the file, the
      rewrite leaves them alone and the result is exactly the file that the list describes. */
  lemma LaidInPlace(bytes: seq<Byte>, cs: seq<Chunk>, w: seq<Word>)
    requires WellFormed(cs) && |bytes| == SampleOffset(cs, w) + cs[4].length
    ensures var samples := bytes[SampleOffset(cs, w)..];
            && Laid(bytes, cs, w, false) == HeadBytes(cs, w) + samples + Pad(|samples|)
            && Laid(bytes, cs, w, true) == FileBytes(cs, w, samples)
  {
    hide Overwrite, Header, PreBytes, PostBytes, Pad;
    var pre, head, size := PreBytes(cs, w, |cs|), HeadBytes(cs, w), cs[4].length;
    var samples, post := bytes[SampleOffset(cs, w)..], PostBytes(cs, w, |cs|);
    OverwriteTwice(bytes, 0, pre, Header(DATA_ID, size));
    OverwriteHead(bytes, head);
    OverwriteEnd(head + samples, Pad(size));
    OverwriteEnd(head + samples + Pad(size), post);
  }

  /** Before any sample is written a new layout replaces the old one completely. */
  lemma LaidFresh(bytes: seq<Byte>, cs: seq<Chunk>, w: seq<Word>)
    requires WellFormed(cs) && cs[4].length == 0 && |bytes| <= SampleOffset(cs, w)
    ensures Laid(bytes, cs, w, false) == HeadBytes(cs, w)
  {
    hide Overwrite, Header, PreBytes;
    var pre, head := PreBytes(cs, w, |cs|), HeadBytes(cs, w);
    OverwriteTwice(bytes, 0, pre, Header(DATA_ID, 0));
    OverwriteTwice(head, |head|, [], []);
    OverwriteAll(bytes, head);
  }

  /** The samples as the sample object finds them in a file. */
  function Region(bytes: seq<Byte>, offset: nat, length: nat): seq<Byte> {
    if offset + length <= |bytes| then bytes[offset..offset + length] else []
  }

  /** Between its start and its end a layout leaves the samples alone, and fills a gap with zeros. */
  lemma LaidBetween(bytes: seq<Byte>, cs: seq<Chunk>, w: seq<Word>, closing: bool, i: nat)
    requires WellFormed(cs) && SampleOffset(cs, w) <= i < SampleOffset(cs, w) + cs[4].length
    ensures var laid := Laid(bytes, cs, w, closing);
            && |bytes| <= |laid| && (i < |bytes| ==> laid[i] == bytes[i])
            && (|bytes| <= i < |laid| ==> laid[i] == 0)
  {
    hide Overwrite, PreBytes, PostBytes, Header, Pad;
    var pre, size := PreBytes(cs, w, |cs|), cs[4].length;
    var end := |pre| + 8 + size;
    var once := Overwrite(bytes, 0, pre);
    var headed := Overwrite(once, |pre|, Header(DATA_ID, size));
    var padded := Overwrite(headed, end, Pad(size));
    OverwriteElsewhere(bytes, 0, pre, i);
    OverwriteElsewhere(once, |pre|, Header(DATA_ID, size), i);
    OverwriteElsewhere(headed, end, Pad(size), i);
    OverwriteElsewhere(padded, end + PadLength(size), PostBytes(cs, w, |cs|), i);
  }

  /** How long the file is after a layout while writing. */
  lemma LaidLength(bytes: seq<Byte>, cs: seq<Chunk>, w: seq<Word>)
    requires WellFormed(cs)
    ensures var at, size := SampleOffset(cs, w), cs[4].length;
            |Laid(bytes, cs, w, false)| == Max(|bytes|, if size % 2 == 0 then at else at + size + 1)
  {
    hide Overwrite, PreBytes, Header, Pad;
    var pre, size := PreBytes(cs, w, |cs|), cs[4].length;
    var once := Overwrite(bytes, 0, pre);
    var headed := Overwrite(once, |pre|, Header(DATA_ID, size));
    OverwriteLength(bytes, 0, pre);
    OverwriteLength(once, |pre|, Header(DATA_ID, size));
    OverwriteLength(headed, |pre| + 8 + size, Pad(size));
  }

  /** Laying out the headers again over a file with samples behind `head`, which AddChunk does when
      the position is zero, and Close does always, keeps every recording if and only if there is
      none or the samples are to start where they do. */
  lemma RelayKeepsSamples(head: seq<Byte>, cs: seq<Chunk>, w: seq<Word>, closing: bool)
    requires WellFormed(cs)
    ensures RelayKeeps(head, cs, w, closing) <==> cs[4].length == 0 || SampleOffset(cs, w) == |head|
  {
    hide Laid, SampleOffset, RelayKeeps;
    if cs[4].length == 0 || SampleOffset(cs, w) == |head| {
      RelayInPlace(head, cs, w, closing);
    } else {
      RelayLoses(head, cs, w, closing);
    }
  }

  ghost predicate RelayKeeps(head: seq<Byte>, cs: seq<Chunk>, w: seq<Word>, closing: bool)
    requires WellFormed(cs)
  {
    forall samples: seq<Byte> | |samples| == cs[4].length ::
      Region(Laid(head + samples, cs, w, closing), SampleOffset(cs, w), cs[4].length) == samples
  }

  lemma RelayInPlace(head: seq<Byte>, cs: seq<Chunk>, w: seq<Word>, closing: bool)
    requires WellFormed(cs) && (cs[4].length == 0 || SampleOffset(cs, w) == |head|)
    ensures RelayKeeps(head, cs, w, closing)
  {
    hide Laid, PreBytes;
    var at, size := SampleOffset(cs, w), cs[4].length;
    forall samples: seq<Byte> | |samples| == size
      ensures Region(Laid(head + samples, cs, w, closing), at, size) == samples
    {
      if size == 0 {
        assert samples == [];
      } else {
        var laid := Laid(head + samples, cs, w, closing);
        LaidBetween(head + samples, cs, w, closing, at);
        forall i | 0 <= i < size
          ensures laid[at + i] == samples[i]
        {
          LaidBetween(head + samples, cs, w, closing, at + i);
        }
      }
    }
  }

  lemma RelayLoses(head: seq<Byte>, cs: seq<Chunk>, w: seq<Word>, closing: bool)
    requires WellFormed(cs) && cs[4].length != 0 && SampleOffset(cs, w) != |head|
    ensures !RelayKeeps(head, cs, w, closing)
  {
    hide Laid, PreBytes;
    var at, size := SampleOffset(cs, w), cs[4].length;
    var x: Byte := if at < |head| && head[at] == 1 then 0 else 1;
    var samples: seq<Byte> := seq(size, _ => x);
    var bytes := head + samples;
    var laid := Laid(bytes, cs, w, closing);
    if at < |head| {
      LaidBetween(bytes, cs, w, closing, at);
      assert laid[at] == head[at] != samples[0];
    } else {
      LaidBetween(bytes, cs, w, closing, at + size - 1);
      assert samples[size - 1] == 1;
    }
  }

  /** Data replaced in a chunk before closing: every recording survives if and only if there is
      none, the chunk goes after the samples, or its length on file is the same as before. */
  lemma ReplacedThenClosed(head: seq<Byte>, cs: seq<Chunk>, i: nat, c: Chunk, w: seq<Word>, frameBytes: nat)
    requires WellFormed(cs) && 5 <= i < |cs| && WellFormedChunk(c) && c.kind == cs[i].kind && cs[0].length % 2 == 0
    requires Fits(w) && 0 < frameBytes && |head| == SampleOffset(cs, w)
    ensures var ds := cs[i := c];
            && WellFormed(ds)
            && (RelayKeeps(head, FinalChunks(ds, w), FinalWords(ds, w, frameBytes), true)
                <==> cs[4].length == 0 || !BeforeSamples(c) || LengthOnFile(c, w) == LengthOnFile(cs[i], w))
  {
    hide RelayKeeps, PreBytes, FinalWords, LengthOnFile, TotalBytes;
    var ds := cs[i := c];
    ReplacedPre(cs, i, c, w, |cs|);
    FinalOffset(ds, w, frameBytes);
    RelayKeepsSamples(head, FinalChunks(ds, w), FinalWords(ds, w, frameBytes), true);
  }
}
