/** Blocks of samples moved between a file and a caller's buffer. */
module SoundFile {
  import opened Bytes
  import opened Blocks
  import opened EnhancedFile

  /** One sample in file format, and the samples of one instant, one for each channel. */
  type Sample = seq<Byte>
  type Frame = seq<Sample>

  datatype Clip = Clip(start: nat, nsamples: nat, channel: nat, nchannels: nat)

  const ALL: nat := TWO_64 - 1

  /** What TransferSamples leaves in a destination frame: `n` channels replaced. */
  function Overlay(dst: Frame, dstChannel: nat, src: Frame, srcChannel: nat, n: nat): (r: Frame)
    ensures |r| == |dst|
  {
    if dstChannel + n <= |dst| && srcChannel + n <= |src|
    then dst[..dstChannel] + src[srcChannel..srcChannel + n] + dst[dstChannel + n..]
    else dst
  }

  /** `n` frames from position `p` on, when that many are stored. */
  function Part(stored: seq<Frame>, p: nat, n: nat): (r: seq<Frame>)
    ensures |r| == n || (r == [] && |stored| < p + n)
    ensures |r| == n && 0 < n ==> p + n <= |stored|
  {
    if p + n <= |stored| then stored[p..p + n] else []
  }

  lemma PartNone(stored: seq<Frame>, p: nat)
    ensures Part(stored, p, 0) == []
  {
  }

  lemma PartTwice(stored: seq<Frame>, p: nat, n: nat, got: seq<Frame>)
    requires |Part(stored, p, n)| == n && got != [] && got == Part(stored, p + n, |got|)
    ensures Part(stored, p, n + |got|) == Part(stored, p, n) + got
  {
  }

  /** The caller's buffer after frames `got` were delivered at `off`. */
  function Filled(dst: seq<Frame>, off: nat, dstChannel: nat, got: seq<Frame>, srcChannel: nat, n: nat): (r: seq<Frame>)
    ensures |r| == |dst|
  {
    seq(|dst|, i requires 0 <= i < |dst| =>
      if off <= i < off + |got| then Overlay(dst[i], dstChannel, got[i - off], srcChannel, n) else dst[i])
  }

  lemma FilledNone(dst: seq<Frame>, dstChannel: nat, srcChannel: nat, n: nat)
    ensures Filled(dst, 0, dstChannel, [], srcChannel, n) == dst
  {
  }

  /** Delivering in two blocks is delivering once. */
  lemma FilledTwice(dst: seq<Frame>, dstChannel: nat, xs: seq<Frame>, ys: seq<Frame>, srcChannel: nat, n: nat)
    ensures Filled(Filled(dst, 0, dstChannel, xs, srcChannel, n), |xs|, dstChannel, ys, srcChannel, n)
            == Filled(dst, 0, dstChannel, xs + ys, srcChannel, n)
  {
  }

  /** The channels that a read or write moves, after every clamp. */
  function Channels(clip: Clip, first: nat, n: nat, other: nat, nOther: nat): (r: nat)
    ensures r <= n && Min(first, clip.nchannels) + r <= clip.nchannels && Min(other, nOther) + r <= nOther
  {
    var n1 := Min(n, clip.nchannels - Min(first, clip.nchannels));
    Min(n1, nOther - Min(other, nOther))
  }

  /** Exactly as many channels as the request, the clip and the caller's frames allow. */
  lemma ChannelsMost(clip: Clip, first: nat, n: nat, other: nat, nOther: nat, k: nat)
    ensures k <= Channels(clip, first, n, other, nOther)
            <==> k == 0 || (k <= n && first + k <= clip.nchannels && other + k <= nOther)
  {
  }

  /** A frame of the caller after `n` channels, from channel `from` on, went to channels `to` on. */
  predicate FrameHeard(now: Frame, was: Frame, src: Frame, to: nat, from: nat, n: nat) {
    && |now| == |was| && from + n <= |src|
    && forall c | 0 <= c < |now| :: now[c] == if to <= c < to + n then src[from + (c - to)] else was[c]
  }

  /** The caller's buffer after `n` frames from frame `p` on were read into its start. */
  predicate Heard(now: seq<Frame>, was: seq<Frame>, stored: seq<Frame>, p: nat, n: nat, to: nat, from: nat, nch: nat) {
    && |now| == |was| && n <= |was| && (0 < n ==> p + n <= |stored|)
    && (forall i | 0 <= i < n :: FrameHeard(now[i], was[i], stored[p + i], to, from, nch))
    && (forall i | n <= i < |now| :: now[i] == was[i])
  }

  lemma OverlayHeard(was: Frame, src: Frame, to: nat, from: nat, n: nat)
    requires to + n <= |was| && from + n <= |src|
    ensures FrameHeard(Overlay(was, to, src, from, n), was, src, to, from, n)
  {
  }

  /** Every sample is where it was asked for, and nothing else is touched. */
  lemma FilledHeard(dst: seq<Frame>, to: nat, stored: seq<Frame>, p: nat, n: nat, from: nat, nch: nat)
    requires n <= |dst| && |Part(stored, p, n)| == n
    requires forall i | 0 <= i < |dst| :: to + nch <= |dst[i]|
    requires forall i | 0 <= i < |stored| :: from + nch <= |stored[i]|
    ensures Heard(Filled(dst, 0, to, Part(stored, p, n), from, nch), dst, stored, p, n, to, from, nch)
  {
    hide FrameHeard, Overlay;
    forall i | 0 <= i < n
      ensures FrameHeard(Overlay(dst[i], to, stored[p + i], from, nch), dst[i], stored[p + i], to, from, nch)
    {
      OverlayHeard(dst[i], stored[p + i], to, from, nch);
    }
  }

  class SoundFileSamples {
    var file: File?
    var hasFormat: bool
    var channels: nat
    var bytesPerSample: nat
    var clip: Clip
    var filepos: nat
    var samplepos: nat
    var totalsamples: nat
    var totalbytes: nat
    var bufferFrames: nat
    var readonly: bool
    var inError: bool

    function FrameBytes(): nat
      reads this
    {
      channels * bytesPerSample
    }

    /** No unsigned subtraction on the clip can wrap. */
    predicate ClipOk()
      reads this
    {
      && clip.start + clip.nsamples <= totalsamples
      && clip.channel + clip.nchannels <= channels
    }

    /** The position lies inside the clip. */
    predicate PosOk()
      reads this
    {
      samplepos <= clip.nsamples
    }

    predicate Valid()
      reads this
    {
      hasFormat ==> ClipOk() && PosOk() && 0 < FrameBytes()
    }

    /** The frames that the file holds from the start of the sample data on. */
    function Stored(): (fs: seq<Frame>)
      requires file != null && hasFormat && Valid()
      reads this, file
      ensures forall i | 0 <= i < |fs| :: |fs[i]| == channels
    {
      Decode(file.bytes, filepos, channels, bytesPerSample)
    }

    constructor ()
      ensures Valid() && file == null && !hasFormat && !inError
      ensures samplepos == totalsamples == totalbytes == filepos == channels == 0
      ensures bufferFrames == 256
    {
      file, hasFormat, channels, bytesPerSample := null, false, 0, 0;
      clip, filepos, samplepos, totalsamples, totalbytes := Clip(0, 0, 0, 0), 0, 0, 0, 0;
      bufferFrames, readonly, inError := 256, true, false;
    }

    method SetClip(newClip: Clip)
      requires hasFormat && 0 < FrameBytes()
      modifies `clip, `samplepos
      ensures Valid()
      ensures clip.start == Min(newClip.start, totalsamples)
      ensures clip.nsamples == Min(newClip.nsamples, totalsamples - clip.start)
      ensures clip.channel == Min(newClip.channel, channels)
      ensures clip.nchannels == Min(newClip.nchannels, channels - clip.channel)
      ensures samplepos == Min(old(samplepos), clip.nsamples)
    {
      var start := Min(newClip.start, totalsamples);
      var channel := Min(newClip.channel, channels);
      clip := Clip(start, Min(newClip.nsamples, totalsamples - start),
                   channel, Min(newClip.nchannels, channels - channel));
      samplepos := Min(samplepos, clip.nsamples);
    }

    method UpdateData()
      requires hasFormat ==> 0 < FrameBytes()
      requires totalbytes < TWO_64 && channels < TWO_32
      modifies `totalsamples, `clip, `samplepos
      ensures Valid()
      ensures hasFormat ==>
                && totalsamples == totalbytes / FrameBytes()
                && clip == Clip(0, totalsamples, 0, channels)
                && samplepos == Min(old(samplepos), totalsamples)
      ensures !hasFormat ==> totalsamples == old(totalsamples) && clip == old(clip) && samplepos == old(samplepos)
    {
      if hasFormat {
        totalsamples := totalbytes / FrameBytes();
        Quotient(totalbytes, FrameBytes());
        SetClip(Clip(0, ALL, 0, TWO_32 - 1));
      }
    }

    method SetFormat(newChannels: nat, newBytesPerSample: nat)
      requires 0 < newChannels * newBytesPerSample && newChannels < TWO_32
      requires totalbytes < TWO_64
      modifies this
      ensures Valid() && hasFormat && channels == newChannels && bytesPerSample == newBytesPerSample
      ensures totalsamples == totalbytes / FrameBytes() && clip == Clip(0, totalsamples, 0, channels)
      ensures samplepos == Min(old(samplepos), totalsamples)
      ensures unchanged(`file, `filepos, `totalbytes, `bufferFrames, `readonly, `inError)
    {
      hasFormat, channels, bytesPerSample := true, newChannels, newBytesPerSample;
      UpdateData();
    }

    method SetFile(newFile: File, pos: nat, bytes: nat, newReadonly: bool)
      requires hasFormat ==> 0 < FrameBytes()
      requires bytes < TWO_64 && channels < TWO_32
      modifies this
      ensures Valid() && file == newFile && filepos == pos && totalbytes == bytes && readonly == newReadonly
      ensures hasFormat ==>
                && totalsamples == totalbytes / FrameBytes()
                && clip == Clip(0, totalsamples, 0, channels)
                && samplepos == Min(old(samplepos), totalsamples)
      ensures !hasFormat ==> samplepos == old(samplepos)
      ensures unchanged(`hasFormat, `channels, `bytesPerSample, `bufferFrames, `inError)
    {
      file, filepos, totalbytes, readonly := newFile, pos, bytes, newReadonly;
      UpdateData();
    }

    method SetSamplePosition(pos: nat)
      requires Valid()
      modifies `samplepos, `inError
      ensures samplepos == Min(pos, clip.nsamples) && !inError
      ensures Valid()
    {
      samplepos, inError := Min(pos, clip.nsamples), false;
    }

    method SetAbsoluteSamplePosition(pos: nat)
      requires Valid()
      modifies `samplepos, `inError
      ensures clip.start + samplepos == Max(clip.start, Min(pos, clip.start + clip.nsamples)) && !inError
      ensures Valid()
    {
      samplepos, inError := Max(clip.start, Min(pos, clip.start + clip.nsamples)) - clip.start, false;
    }

    /** The frames a read may still take from the clip. */
    function Wanted(frames: nat): nat
      requires PosOk()
      reads this
    {
      Min(frames, clip.nsamples - samplepos)
    }

    /** Reads at most `frames` frames into `dst`, whose frames have `ndst` samples each. */
    method ReadSamples(dst: array<Frame>, dstChannel: nat, ndst: nat, frames: nat, firstChannel: nat, nChannels: nat)
      returns (n: nat)
      requires Valid() && 0 < bufferFrames
      requires frames <= dst.Length && forall i | 0 <= i < dst.Length :: |dst[i]| == ndst
      requires hasFormat ==> filepos + totalsamples * FrameBytes() < TWO_63
      modifies `samplepos, `inError, dst, file
      ensures Valid() && samplepos == old(samplepos) + n
      ensures file != null ==> file.bytes == old(if file == null then [] else file.bytes)
      ensures file == null || !hasFormat ==> n == 0 && inError == old(inError) && dst[..] == old(dst[..])
      ensures file != null && hasFormat ==>
                var nch := Channels(clip, firstChannel, nChannels, dstChannel, ndst);
                && n == (if nch == 0 then old(Wanted(frames)) else Min(old(Wanted(frames)), Max(0, |Stored()| - old(samplepos))))
                && (inError <==> old(inError) || n < old(Wanted(frames)))
                && (nch == 0 ==> dst[..] == old(dst[..]))
                && (0 < nch ==>
                      && |Part(Stored(), old(samplepos), n)| == n
                      && dst[..] == Delivery(file.bytes, filepos, channels, bytesPerSample, old(samplepos), n, old(dst[..]),
                                             Min(dstChannel, ndst), clip.channel + Min(firstChannel, clip.nchannels), nch)
                      && Heard(dst[..], old(dst[..]), Stored(), old(samplepos), n,
                               Min(dstChannel, ndst), clip.channel + Min(firstChannel, clip.nchannels), nch))
    {
      hide Filled, Decode, Heard;
      n := 0;
      if file != null && hasFormat {
        var want := Wanted(frames);
        var nch := Channels(clip, firstChannel, nChannels, dstChannel, ndst);
        if 0 < nch {
          ghost var was, stored, p := dst[..], Stored(), samplepos;
          n := ReadBlocks(dst, Min(dstChannel, ndst), want, clip.channel + Min(firstChannel, clip.nchannels), nch);
          FilledHeard(was, Min(dstChannel, ndst), stored, p, n, clip.channel + Min(firstChannel, clip.nchannels), nch);
        } else {
          n := want;
          samplepos := samplepos + n;
        }
      }
    }

    /** The transfer loop: at most one buffer of frames at a time, for as long as reads succeed. */
    method ReadBlocks(dst: array<Frame>, dstChannel: nat, want: nat, srcChannel: nat, nch: nat) returns (n: nat)
      requires file != null && hasFormat && Valid() && 0 < bufferFrames
      requires want <= dst.Length && samplepos + want <= clip.nsamples
      requires filepos + totalsamples * FrameBytes() < TWO_63
      modifies `samplepos, `inError, dst, file
      ensures Valid() && file.bytes == old(file.bytes) && samplepos == old(samplepos) + n
      ensures n == Min(want, Max(0, |Stored()| - old(samplepos)))
      ensures inError <==> old(inError) || n < want
      ensures |Part(Stored(), old(samplepos), n)| == n
      ensures dst[..] == Filled(old(dst[..]), 0, dstChannel, Part(Stored(), old(samplepos), n), srcChannel, nch)
    {
      hide Overlay, Part, Decode, Filled;
      n := 0;
      ghost var was, stored, p := dst[..], Stored(), samplepos;
      PartNone(stored, p);
      FilledNone(was, dstChannel, srcChannel, nch);
      var frames := want;
      while 0 < frames
        invariant 0 <= frames && n + frames == want && samplepos == p + n && inError == old(inError)
        invariant file.bytes == old(file.bytes) && Valid()
        invariant |Part(stored, p, n)| == n
        invariant dst[..] == Filled(was, 0, dstChannel, Part(stored, p, n), srcChannel, nch)
      {
        var got := Fetch(Min(frames, bufferFrames));
        if got == [] {
          inError := true;
          break;
        }
        FilledTwice(was, dstChannel, Part(stored, p, n), got, srcChannel, nch);
        PartTwice(stored, p, n, got);
        Transfer(dst, n, dstChannel, got, srcChannel, nch);
        n, frames, samplepos := n + |got|, frames - |got|, samplepos + |got|;
      }
    }

    /** TransferSamples from the block just read: `nch` channels of each frame. */
    static method Transfer(dst: array<Frame>, off: nat, dstChannel: nat, got: seq<Frame>, srcChannel: nat, nch: nat)
      requires off + |got| <= dst.Length
      modifies dst
      ensures dst[..] == Filled(old(dst[..]), off, dstChannel, got, srcChannel, nch)
    {
      forall i | 0 <= i < |got| {
        dst[off + i] := Overlay(dst[off + i], dstChannel, got[i], srcChannel, nch);
      }
    }

    /** Seeks to the current position and reads up to `count` frames. */
    method Fetch(count: nat) returns (got: seq<Frame>)
      requires file != null && hasFormat && Valid()
      requires filepos + totalsamples * FrameBytes() < TWO_63
      modifies file
      ensures file.bytes == old(file.bytes)
      ensures |got| <= count && (got == [] <==> count == 0 || |Stored()| <= samplepos)
      ensures got == Part(Stored(), samplepos, |got|)
      ensures got != [] ==> file.pos == filepos + (samplepos + |got|) * FrameBytes()
    {
      var bpf := FrameBytes();
      MulMono(samplepos, totalsamples, bpf);
      var at := filepos + samplepos * bpf;
      var _ := file.Seek(at);
      var res, data := file.ReadItems(bpf, count);
      assert 0 < res ==> at + res * bpf <= |file.bytes| && data == file.bytes[at..at + res * bpf] by {
        if 0 < res { MulMono(1, res, bpf); }
      }
      BlocksEnd(file.bytes, filepos, bpf, samplepos);
      if 0 < res { BlocksSlice(file.bytes, filepos, bpf, samplepos, res); }
      got := Split(Cut(data, bpf, res), channels, bytesPerSample);
      assert (samplepos + res) * bpf == samplepos * bpf + res * bpf;
    }

    /** A file being recorded from its first frame on: position, clip, totals and the length of
        the file all agree on the number of frames written. */
    ghost predicate Recording()
      reads this, file
    {
      && file != null && hasFormat && !readonly && 0 < FrameBytes()
      && clip == Clip(0, totalsamples, 0, channels) && samplepos == totalsamples
      && totalbytes == totalsamples * FrameBytes()
      && |file.bytes| == file.pos == filepos + totalbytes
    }

    /** The recorded frames. */
    ghost function Recorded(): seq<Frame>
      reads this, file
    {
      if Recording() then Decode(file.bytes, filepos, channels, bytesPerSample) else []
    }

    /** Writes the frames of `src` at the file position. Either no channel is moved or all are. */
    method WriteSamples(src: seq<Frame>, srcChannel: nat, nsrc: nat, firstChannel: nat, nChannels: nat) returns (n: nat)
      requires hasFormat ==> ClipOk() && 0 < FrameBytes()
      requires 0 < bufferFrames
      requires forall i | 0 <= i < |src| :: |src[i]| == nsrc && AllOf(src[i], bytesPerSample)
      requires hasFormat ==> Channels(clip, firstChannel, nChannels, srcChannel, nsrc) in {0, channels}
      modifies this, file
      ensures unchanged(`file, `hasFormat, `channels, `bytesPerSample, `filepos, `bufferFrames, `readonly, `inError)
      ensures hasFormat ==> ClipOk()
      ensures file == null || !hasFormat || readonly ==>
                n == 0 && unchanged(this) && (file != null ==> unchanged(file))
      ensures file != null && hasFormat && !readonly ==>
                n == |src| && samplepos == old(samplepos) + n
      ensures file != null && hasFormat && !readonly && old(Channels(clip, firstChannel, nChannels, srcChannel, nsrc)) == 0 ==>
                && unchanged(file) && unchanged(`clip, `totalsamples, `totalbytes)
                && (PosOk() <==> old(samplepos) + |src| <= clip.nsamples)
      ensures file != null && hasFormat && !readonly && old(Channels(clip, firstChannel, nChannels, srcChannel, nsrc)) != 0 ==>
                var fs := Taken(src, Min(srcChannel, nsrc), channels);
                && file.bytes == Overwrite(old(if file == null then [] else file.bytes), old(if file == null then 0 else file.pos), Encode(fs))
                && file.pos == old(if file == null then 0 else file.pos) + |Encode(fs)|
                && totalsamples == (if src == [] then old(totalsamples) else Max(old(totalsamples), samplepos))
                && totalbytes == (if src == [] then old(totalbytes) else totalsamples * FrameBytes())
                && clip == old(clip).(nsamples := if src == [] then old(clip.nsamples) else Max(old(clip.nsamples), totalsamples - clip.start))
                && (clip.start == 0 && old(PosOk()) ==> PosOk())
    {
      n := 0;
      if file != null && hasFormat && !readonly {
        var nch := Channels(clip, firstChannel, nChannels, srcChannel, nsrc);
        if 0 < nch {
          n := WriteBlocks(Taken(src, Min(srcChannel, nsrc), channels));
        } else {
          n := |src|;
          samplepos := samplepos + n;
        }
      }
    }

    method WriteBlocks(fs: seq<Frame>) returns (n: nat)
      requires file != null && hasFormat && ClipOk() && 0 < FrameBytes() && 0 < bufferFrames
      requires forall i | 0 <= i < |fs| :: WholeFrame(fs[i], channels, bytesPerSample)
      modifies `samplepos, `totalsamples, `totalbytes, `clip, file
      ensures ClipOk() && n == |fs| && samplepos == old(samplepos) + n
      ensures file.bytes == Overwrite(old(file.bytes), old(file.pos), Encode(fs))
      ensures file.pos == old(file.pos) + |Encode(fs)|
      ensures totalsamples == if fs == [] then old(totalsamples) else Max(old(totalsamples), samplepos)
      ensures totalbytes == if fs == [] then old(totalbytes) else totalsamples * FrameBytes()
      ensures clip == old(clip).(nsamples := if fs == [] then old(clip.nsamples) else Max(old(clip.nsamples), totalsamples - clip.start))
    {
      hide Overwrite, Encode;
      OverwriteTwice(file.bytes, file.pos, [], []);
      EncodeNone();
      n := 0;
      while n < |fs|
        invariant 0 <= n <= |fs| && samplepos == old(samplepos) + n && ClipOk()
        invariant file.bytes == Overwrite(old(file.bytes), old(file.pos), Encode(fs[..n]))
        invariant file.pos == old(file.pos) + |Encode(fs[..n])|
        invariant totalsamples == if n == 0 then old(totalsamples) else Max(old(totalsamples), samplepos)
        invariant totalbytes == if n == 0 then old(totalbytes) else totalsamples * FrameBytes()
        invariant clip == old(clip).(nsamples := if n == 0 then old(clip.nsamples) else Max(old(clip.nsamples), totalsamples - clip.start))
      {
        var nframes := Min(|fs| - n, bufferFrames);
        ghost var done, block := fs[..n], fs[n..n + nframes];
        assert fs[..n + nframes] == done + block;
        EncodeAppend(done, block);
        OverwriteTwice(old(file.bytes), old(file.pos), Encode(done), Encode(block));
        WriteBlock(fs[n..n + nframes]);
        n := n + nframes;
      }
      assert fs[..n] == fs;
    }

    /** One buffer: convert, write, and account for it. */
    method WriteBlock(fs: seq<Frame>)
      requires file != null && ClipOk() && fs != []
      modifies `samplepos, `totalsamples, `totalbytes, `clip, file
      ensures ClipOk() && samplepos == old(samplepos) + |fs|
      ensures file.bytes == Overwrite(old(file.bytes), old(file.pos), Encode(fs))
      ensures file.pos == old(file.pos) + |Encode(fs)|
      ensures totalsamples == Max(old(totalsamples), samplepos)
      ensures totalbytes == totalsamples * FrameBytes()
      ensures clip == old(clip).(nsamples := Max(old(clip.nsamples), totalsamples - clip.start))
    {
      file.Write(Encode(fs));
      samplepos := samplepos + |fs|;
      totalsamples := Max(totalsamples, samplepos);
      clip := clip.(nsamples := Max(clip.nsamples, totalsamples - clip.start));
      totalbytes := totalsamples * FrameBytes();
    }
  }

  predicate WholeFrame(f: Frame, channels: nat, bytesPerSample: nat) {
    |f| == channels && AllOf(f, bytesPerSample)
  }

  /** The channels of the caller's frames that are written. */
  function Taken(src: seq<Frame>, srcChannel: nat, n: nat): (fs: seq<Frame>)
    ensures |fs| == |src|
  {
    seq(|src|, i requires 0 <= i < |src| =>
      if srcChannel + n <= |src[i]| then src[i][srcChannel..srcChannel + n] else [])
  }

  /** Sample `c` of a frame that is written is that of channel `srcChannel` plus `c`. */
  lemma TakenAt(src: seq<Frame>, srcChannel: nat, n: nat, i: nat, c: nat)
    requires i < |src| && srcChannel + n <= |src[i]| && c < n
    ensures |Taken(src, srcChannel, n)[i]| == n && Taken(src, srcChannel, n)[i][c] == src[i][srcChannel + c]
  {
  }

  function FrameStrings(fs: seq<Frame>): (bs: seq<seq<Byte>>)
    ensures |bs| == |fs|
  {
    seq(|fs|, i requires 0 <= i < |fs| => Glue(fs[i]))
  }

  /** The bytes of a run of frames. */
  function Encode(fs: seq<Frame>): seq<Byte> {
    Glue(FrameStrings(fs))
  }

  lemma EncodeNone()
    ensures Encode([]) == []
  {
  }

  lemma EncodeAppend(xs: seq<Frame>, ys: seq<Frame>)
    ensures Encode(xs + ys) == Encode(xs) + Encode(ys)
  {
    assert FrameStrings(xs + ys) == FrameStrings(xs) + FrameStrings(ys);
    GlueAppend(FrameStrings(xs), FrameStrings(ys));
  }

  lemma EncodeLength(fs: seq<Frame>, channels: nat, bytesPerSample: nat)
    requires forall i | 0 <= i < |fs| :: WholeFrame(fs[i], channels, bytesPerSample)
    ensures AllOf(FrameStrings(fs), channels * bytesPerSample)
    ensures |Encode(fs)| == |fs| * (channels * bytesPerSample)
  {
    var bs := FrameStrings(fs);
    forall i | 0 <= i < |bs|
      ensures |bs[i]| == channels * bytesPerSample
    {
      assert WholeFrame(fs[i], channels, bytesPerSample);
      GlueLength(fs[i], bytesPerSample);
    }
    GlueLength(bs, channels * bytesPerSample);
  }

  /** Frames written at the end of the data are read back after those already there. */
  lemma DecodeAppend(bytes: seq<Byte>, base: nat, channels: nat, bytesPerSample: nat, q: nat, fs: seq<Frame>)
    requires 0 < channels * bytesPerSample && |bytes| == base + q * (channels * bytesPerSample)
    requires forall i | 0 <= i < |fs| :: WholeFrame(fs[i], channels, bytesPerSample)
    ensures Decode(bytes + Encode(fs), base, channels, bytesPerSample) == Decode(bytes, base, channels, bytesPerSample) + fs
  {
    EncodeLength(fs, channels, bytesPerSample);
    BlocksAppend(bytes, base, channels * bytesPerSample, q, FrameStrings(fs));
    var split := Split(FrameStrings(fs), channels, bytesPerSample);
    forall k | 0 <= k < |fs|
      ensures split[k] == fs[k]
    {
      assert WholeFrame(fs[k], channels, bytesPerSample);
      CutGlue(fs[k], bytesPerSample);
    }
    assert split == fs;
  }

  /** Blocks of one frame, each cut into samples. */
  function Split(blocks: seq<seq<Byte>>, channels: nat, bytesPerSample: nat): (fs: seq<Frame>)
    requires AllOf(blocks, channels * bytesPerSample)
    ensures |fs| == |blocks| && forall i | 0 <= i < |fs| :: |fs[i]| == channels
  {
    seq(|blocks|, k requires 0 <= k < |blocks| => Cut(blocks[k], bytesPerSample, channels))
  }

  /** Every whole frame at or after `base`. */
  function Decode(bytes: seq<Byte>, base: nat, channels: nat, bytesPerSample: nat): (fs: seq<Frame>)
    requires 0 < channels * bytesPerSample
    ensures forall i | 0 <= i < |fs| :: |fs[i]| == channels
  {
    Split(BlocksFrom(bytes, base, channels * bytesPerSample), channels, bytesPerSample)
  }

  /** Byte `j` of the sample of channel `c` in frame `k`. */
  lemma DecodeAt(bytes: seq<Byte>, base: nat, channels: nat, bytesPerSample: nat, k: nat, c: nat, j: nat)
    requires 0 < channels * bytesPerSample && base + (k + 1) * (channels * bytesPerSample) <= |bytes|
    requires c < channels && j < bytesPerSample
    ensures k < |Decode(bytes, base, channels, bytesPerSample)|
    ensures var s := Decode(bytes, base, channels, bytesPerSample)[k][c];
            |s| == bytesPerSample && base + k * (channels * bytesPerSample) + c * bytesPerSample + j < |bytes|
            && s[j] == bytes[base + k * (channels * bytesPerSample) + c * bytesPerSample + j]
  {
    var m := channels * bytesPerSample;
    var blocks := BlocksFrom(bytes, base, m);
    MulStep(k, m);
    BlocksEnd(bytes, base, m, k);
    var block := blocks[k];
    assert block == Block(bytes[base..], m, k) == bytes[base..][k * m..k * m + m];
    MulMono(c + 1, channels, bytesPerSample);
    MulStep(c, bytesPerSample);
    assert Cut(block, bytesPerSample, channels)[c] == block[c * bytesPerSample..c * bytesPerSample + bytesPerSample];
    assert block[c * bytesPerSample + j] == bytes[base + k * m + c * bytesPerSample + j];
  }

  /** The caller's buffer after `n` frames from frame `p` of a file on were delivered into it. */
  function Delivery(bytes: seq<Byte>, base: nat, channels: nat, bytesPerSample: nat, p: nat, n: nat,
                    dst: seq<Frame>, dstChannel: nat, srcChannel: nat, nch: nat): (r: seq<Frame>)
    requires 0 < channels * bytesPerSample
    ensures |r| == |dst|
  {
    Filled(dst, 0, dstChannel, Part(Decode(bytes, base, channels, bytesPerSample), p, n), srcChannel, nch)
  }

  /** Zeros up to frame `k`, and ones from there on. */
  function Split01(base: nat, m: nat, total: nat, k: nat): (bytes: seq<Byte>)
    ensures |bytes| == base + total * m
  {
    seq(base + total * m, i => if i < base + k * m then 0 else 1)
  }

  lemma Split01At(base: nat, channels: nat, bytesPerSample: nat, total: nat, k: nat, i: nat, c: nat)
    requires 0 < channels * bytesPerSample && i < total && c < channels && 0 < bytesPerSample
    ensures var fs := Decode(Split01(base, channels * bytesPerSample, total, k), base, channels, bytesPerSample);
            i < |fs| && |fs[i][c]| == bytesPerSample && fs[i][c][0] == if i < k then 0 else 1
  {
    var m := channels * bytesPerSample;
    MulMono(i + 1, total, m);
    DecodeAt(Split01(base, m, total, k), base, channels, bytesPerSample, i, c, 0);
    MulStep(i, m);
    MulMono(c + 1, channels, bytesPerSample);
    MulStep(c, bytesPerSample);
    if i < k {
      MulMono(i + 1, k, m);
    } else {
      MulMono(k, i, m);
    }
  }

  lemma NothingFilled(dst: seq<Frame>, dstChannel: nat, got: seq<Frame>, srcChannel: nat)
    ensures Filled(dst, 0, dstChannel, got, srcChannel, 0) == dst
  {
    forall i | 0 <= i < |dst| && i < |got|
      ensures Overlay(dst[i], dstChannel, got[i], srcChannel, 0) == dst[i]
    {
      if dstChannel <= |dst[i]| && srcChannel <= |got[i]| {
        assert got[i][srcChannel..srcChannel + 0] == [];
        assert dst[i] == dst[i][..dstChannel] + [] + dst[i][dstChannel + 0..];
      }
    }
  }

  /** A first delivered sample that is that of the file. */
  lemma FilledFirst(dst: seq<Frame>, dstChannel: nat, got: seq<Frame>, srcChannel: nat, nch: nat)
    requires dst != [] && got != [] && 0 < nch && dstChannel + nch <= |dst[0]| && srcChannel + nch <= |got[0]|
    ensures var r := Filled(dst, 0, dstChannel, got, srcChannel, nch);
            |r[0]| == |dst[0]| && r[0][dstChannel] == got[0][srcChannel]
  {
  }

  /** Whatever the file holds, reading from frame `p` leaves what lies `start` frames further on. */
  ghost predicate ClipHeard(base: nat, channels: nat, bytesPerSample: nat, total: nat, start: nat, p: nat, n: nat,
                            dst: seq<Frame>, to: nat, from: nat, nch: nat)
    requires 0 < channels * bytesPerSample
  {
    forall bytes | base + total * (channels * bytesPerSample) <= |bytes| ::
      Delivery(bytes, base, channels, bytesPerSample, p, n, dst, to, from, nch)
      == Delivery(bytes, base, channels, bytesPerSample, start + p, n, dst, to, from, nch)
  }

  /** Reading takes frames from the start of the sample data, not from the start of the clip: in any
      format, and for any clip inside the file, it leaves in the caller's buffer what the clip has
      there, whatever the file holds, if and only if the clip starts at frame zero or nothing is
      moved. */
  lemma ReadIgnoresClipStart(base: nat, channels: nat, bytesPerSample: nat, total: nat, clip: Clip, p: nat, n: nat,
                             dst: seq<Frame>, dstChannel: nat, ndst: nat, first: nat, nChannels: nat)
    requires 0 < channels * bytesPerSample
    requires clip.start + clip.nsamples <= total && clip.channel + clip.nchannels <= channels && p + n <= clip.nsamples
    requires n <= |dst| && forall i | 0 <= i < |dst| :: |dst[i]| == ndst
    ensures var nch := Channels(clip, first, nChannels, dstChannel, ndst);
            ClipHeard(base, channels, bytesPerSample, total, clip.start, p, n, dst,
                      Min(dstChannel, ndst), clip.channel + Min(first, clip.nchannels), nch)
            <==> clip.start == 0 || n == 0 || nch == 0
  {
    hide ClipHeard, Channels;
    var nch, to, from := Channels(clip, first, nChannels, dstChannel, ndst), Min(dstChannel, ndst), clip.channel + Min(first, clip.nchannels);
    if clip.start == 0 || n == 0 || nch == 0 {
      ClipStartKept(base, channels, bytesPerSample, total, clip.start, p, n, dst, to, from, nch);
    } else {
      ClipStartLost(base, channels, bytesPerSample, total, clip.start, p, n, dst, to, from, nch);
    }
  }

  lemma ClipStartKept(base: nat, channels: nat, bytesPerSample: nat, total: nat, start: nat, p: nat, n: nat,
                      dst: seq<Frame>, to: nat, from: nat, nch: nat)
    requires 0 < channels * bytesPerSample && (start == 0 || n == 0 || nch == 0)
    ensures ClipHeard(base, channels, bytesPerSample, total, start, p, n, dst, to, from, nch)
  {
    hide Filled, Decode, Part;
    forall bytes | base + total * (channels * bytesPerSample) <= |bytes|
      ensures Delivery(bytes, base, channels, bytesPerSample, p, n, dst, to, from, nch)
              == Delivery(bytes, base, channels, bytesPerSample, start + p, n, dst, to, from, nch)
    {
      var fs := Decode(bytes, base, channels, bytesPerSample);
      if nch == 0 {
        NothingFilled(dst, to, Part(fs, p, n), from);
        NothingFilled(dst, to, Part(fs, start + p, n), from);
      } else if n == 0 {
        PartNone(fs, p);
        PartNone(fs, start + p);
      }
    }
  }

  lemma ClipStartLost(base: nat, channels: nat, bytesPerSample: nat, total: nat, start: nat, p: nat, n: nat,
                      dst: seq<Frame>, to: nat, from: nat, nch: nat)
    requires 0 < channels * bytesPerSample && 0 < start && 0 < n <= |dst| && start + p + n <= total
    requires 0 < nch && from + nch <= channels && to + nch <= |dst[0]|
    ensures !ClipHeard(base, channels, bytesPerSample, total, start, p, n, dst, to, from, nch)
  {
    hide Filled, Split01, Decode, Part, Delivery;
    assert 0 < bytesPerSample;
    var m := channels * bytesPerSample;
    var bytes := Split01(base, m, total, start + p);
    var fs := Decode(bytes, base, channels, bytesPerSample);
    Split01At(base, channels, bytesPerSample, total, start + p, total - 1, from);
    Split01At(base, channels, bytesPerSample, total, start + p, p, from);
    Split01At(base, channels, bytesPerSample, total, start + p, start + p, from);
    DeliveredFirst(bytes, base, channels, bytesPerSample, p, n, dst, to, from, nch);
    DeliveredFirst(bytes, base, channels, bytesPerSample, start + p, n, dst, to, from, nch);
  }

  /** The first sample that a read delivers. */
  lemma DeliveredFirst(bytes: seq<Byte>, base: nat, channels: nat, bytesPerSample: nat, p: nat, n: nat,
                       dst: seq<Frame>, to: nat, from: nat, nch: nat)
    requires 0 < channels * bytesPerSample && 0 < n <= |dst| && p + n <= |Decode(bytes, base, channels, bytesPerSample)|
    requires 0 < nch && from + nch <= channels && to + nch <= |dst[0]|
    ensures var r := Delivery(bytes, base, channels, bytesPerSample, p, n, dst, to, from, nch);
            |r[0]| == |dst[0]| && r[0][to] == Decode(bytes, base, channels, bytesPerSample)[p][from]
  {
    hide Filled, Decode;
    var fs := Decode(bytes, base, channels, bytesPerSample);
    FilledFirst(dst, to, Part(fs, p, n), from, nch);
  }
}
