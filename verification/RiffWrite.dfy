/** The passes of WriteChunks over a file. */
module RiffWrite {
  import opened Bytes
  import opened ChunkIds
  import opened EnhancedFile
  import opened RiffLayout
  import S = SoundFile

  /** The samples object knows the format, and its byte count stays within a file offset. */
  predicate SamplesReady(s: S.SoundFileSamples)
    reads s
  {
    s.hasFormat && 0 < s.FrameBytes() && s.channels < TWO_32 && 0 < s.bufferFrames && s.totalbytes < TWO_63
  }

  /** Linking the samples to their place in the file counts them anew and resets the clip. */
  predicate SamplesReset(s: S.SoundFileSamples)
    reads s
  {
    && s.Valid() && 0 < s.FrameBytes() && s.totalsamples == s.totalbytes / s.FrameBytes()
    && s.clip == S.Clip(0, s.totalsamples, 0, s.channels)
  }

  /** A chunk of odd length is followed by one byte. */
  method WritePad(file: File, length: nat)
    modifies file
    ensures file.bytes == Overwrite(old(file.bytes), old(file.pos), Pad(length))
    ensures file.pos == old(file.pos) + PadLength(length)
  {
    if length % 2 != 0 {
      file.Write([0]);
      assert Pad(length) == [0];
    }
  }

  /** WriteChunk for every chunk but data; each of them has its data by then. */
  method WriteChunk(file: File, c: Chunk, w: seq<Word>)
    modifies file
    ensures file.bytes == Overwrite(old(file.bytes), old(file.pos), ChunkBytes(c, w))
    ensures file.pos == old(file.pos) + |ChunkBytes(c, w)|
  {
    if c.kind.WaveKind? {
      file.Write(Be32(c.id));
    } else if IsWritten(c, w) {
      var head, body := Header(WriteId(c), Length(c, w)), Payload(c, w);
      OverwriteTwice(file.bytes, file.pos, head, body);
      OverwriteTwice(file.bytes, file.pos, head + body, Pad(Length(c, w)));
      file.Write(head);
      file.Write(body);
      WritePad(file, Length(c, w));
    }
  }

  lemma DataById(cs: seq<Chunk>, i: nat)
    requires WellFormed(cs) && i < |cs|
    ensures cs[i].id == DATA_ID <==> cs[i].kind.DataKind?
  {
    assert WellFormedChunk(cs[i]);
  }

  /** The chunks ahead of the samples. */
  method WriteEarly(file: File, cs: seq<Chunk>, w: seq<Word>)
    requires WellFormed(cs)
    modifies file
    ensures file.bytes == Overwrite(old(file.bytes), old(file.pos), PreBytes(cs, w, |cs|))
    ensures file.pos == old(file.pos) + |PreBytes(cs, w, |cs|)|
  {
    hide ChunkBytes, Overwrite;
    ghost var was, at := file.bytes, file.pos;
    OverwriteTwice(was, at, [], []);
    for i := 0 to |cs|
      invariant file.bytes == Overwrite(was, at, PreBytes(cs, w, i)) && file.pos == at + |PreBytes(cs, w, i)|
    {
      OverwriteTwice(was, at, PreBytes(cs, w, i), Early(cs[i], w));
      OverwriteTwice(file.bytes, file.pos, [], []);
      DataById(cs, i);
      if cs[i].id != DATA_ID && BeforeSamples(cs[i]) {
        WriteChunk(file, cs[i], w);
      }
    }
  }

  /** The chunks after the samples. */
  method WriteLate(file: File, cs: seq<Chunk>, w: seq<Word>)
    requires WellFormed(cs)
    modifies file
    ensures file.bytes == Overwrite(old(file.bytes), old(file.pos), PostBytes(cs, w, |cs|))
    ensures file.pos == old(file.pos) + |PostBytes(cs, w, |cs|)|
  {
    hide ChunkBytes, Overwrite;
    ghost var was, at := file.bytes, file.pos;
    OverwriteTwice(was, at, [], []);
    for i := 0 to |cs|
      invariant file.bytes == Overwrite(was, at, PostBytes(cs, w, i)) && file.pos == at + |PostBytes(cs, w, i)|
    {
      OverwriteTwice(was, at, PostBytes(cs, w, i), Late(cs[i], w));
      OverwriteTwice(file.bytes, file.pos, [], []);
      DataById(cs, i);
      if cs[i].id != DATA_ID && !BeforeSamples(cs[i]) {
        WriteChunk(file, cs[i], w);
      }
    }
  }

  /** The data chunk: its header, then a step over the samples, then the padding. */
  method WriteData(file: File, samples: S.SoundFileSamples, length: nat)
    requires SamplesReady(samples) && samples.totalbytes == length
    requires file.pos + 8 + length < TWO_63
    modifies file, samples
    ensures file.bytes == Overwrite(Overwrite(old(file.bytes), old(file.pos), Header(DATA_ID, length)),
                                    old(file.pos) + 8 + length, Pad(length))
    ensures file.pos == old(file.pos) + 8 + length + PadLength(length)
    ensures samples.file == file && samples.filepos == old(file.pos) + 8 && !samples.readonly
    ensures SamplesReady(samples) && SamplesReset(samples)
    ensures samples.totalbytes == length && samples.channels == old(samples.channels)
    ensures samples.bytesPerSample == old(samples.bytesPerSample)
    ensures samples.samplepos == Min(old(samples.samplepos), samples.totalsamples)
  {
    file.Write(Header(DATA_ID, length));
    samples.SetFile(file, file.pos, length, false);
    var _ := file.Seek(file.pos + length);
    WritePad(file, length);
  }

  /** WriteChunks once every chunk has its data; `data` is where chunkmap finds the data chunk. */
  method WritePasses(file: File, samples: S.SoundFileSamples, cs: seq<Chunk>, w: seq<Word>, data: nat, closing: bool)
    requires WellFormed(cs) && data == 4 && SamplesReady(samples) && samples.totalbytes == cs[4].length
    requires SampleOffset(cs, w) + cs[4].length < TWO_63
    modifies file, samples
    ensures file.bytes == Laid(old(file.bytes), cs, w, closing)
    ensures !closing ==> file.pos == samples.filepos + samples.totalbytes + PadLength(samples.totalbytes)
    ensures samples.file == file && samples.filepos == SampleOffset(cs, w) && !samples.readonly
    ensures SamplesReady(samples) && SamplesReset(samples)
    ensures samples.totalbytes == cs[4].length && samples.channels == old(samples.channels)
    ensures samples.bytesPerSample == old(samples.bytesPerSample)
    ensures samples.samplepos == Min(old(samples.samplepos), samples.totalsamples)
  {
    hide Overwrite, Header, PreBytes, PostBytes, WellFormedChunk;
    var _ := file.Seek(0);
    WriteEarly(file, cs, w);
    WriteData(file, samples, cs[data].length);
    if closing {
      WriteLate(file, cs, w);
    }
  }
}
