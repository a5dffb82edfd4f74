/** The sound file behind a track of the player: the track is what reading the file shows. */
module PlayerFile {
  import opened Bytes
  import opened EnhancedFile
  import opened Player
  import S = SoundFile

  /** The numbers that the samples of a frame stand for. */
  function Values(f: S.Frame, value: S.Sample -> real): (r: Frame)
    ensures |r| == |f|
  {
    seq(|f|, i requires 0 <= i < |f| => value(f[i]))
  }

  function AllValues(fs: seq<S.Frame>, value: S.Sample -> real): (r: seq<Frame>)
    ensures |r| == |fs|
  {
    seq(|fs|, i requires 0 <= i < |fs| => Values(fs[i], value))
  }

  /** The channels of the clip in a frame of the file. */
  function ClipValues(f: S.Frame, clip: S.Clip, value: S.Sample -> real): Frame {
    if clip.channel + clip.nchannels <= |f| then Values(f[clip.channel..clip.channel + clip.nchannels], value) else []
  }

  function ClipFrames(stored: seq<S.Frame>, clip: S.Clip, value: S.Sample -> real): (fs: seq<Frame>)
    ensures |fs| == clip.nsamples
  {
    seq(clip.nsamples, k requires 0 <= k => if k < |stored| then ClipValues(stored[k], clip, value) else [])
  }

  function TrackOf(s: S.SoundFileSamples, value: S.Sample -> real): (t: Track)
    requires s.file != null && s.hasFormat && s.Valid()
    reads s, s.file
    ensures TrackOk(t)
  {
    var stored := s.Stored();
    Track(ClipFrames(stored, s.clip, value), s.clip.nchannels, Min(|stored|, s.clip.nsamples), s.samplepos, s.inError)
  }

  lemma ValuesOfParts(f: S.Frame, g: S.Frame, h: S.Frame, value: S.Sample -> real)
    ensures Values(f + g + h, value) == Values(f, value) + Values(g, value) + Values(h, value)
  {
  }

  lemma ValuesOfSlice(f: S.Frame, i: nat, value: S.Sample -> real)
    requires i <= |f|
    ensures Values(f[..i], value) == Values(f, value)[..i]
    ensures Values(f[i..], value) == Values(f, value)[i..]
  {
  }

  /** Copying the channels of the clip is mixing their values. */
  lemma OverlayIsMix(dst: S.Frame, src: S.Frame, clip: S.Clip, channel: nat, value: S.Sample -> real)
    requires clip.channel + clip.nchannels <= |src|
    ensures var nch := S.Channels(clip, 0, TWO_32 - 1, channel, |dst|);
            clip.nchannels < TWO_32 ==>
              Values(S.Overlay(dst, Min(channel, |dst|), src, clip.channel + Min(0, clip.nchannels), nch), value)
              == Mix(Values(dst, value), ClipValues(src, clip, value), channel)
  {
    hide Values, Mix;
    var nch, c := S.Channels(clip, 0, TWO_32 - 1, channel, |dst|), Min(channel, |dst|);
    if clip.nchannels < TWO_32 {
      var cut := src[clip.channel..clip.channel + clip.nchannels];
      assert src[clip.channel..clip.channel + nch] == cut[..nch];
      ValuesOfParts(dst[..c], cut[..nch], dst[c + nch..], value);
      ValuesOfSlice(dst, c, value);
      ValuesOfSlice(dst, c + nch, value);
      ValuesOfSlice(cut, nch, value);
      MixIs(Values(dst, value), Values(cut, value), channel, nch);
    }
  }

  lemma MixIs(buf: Frame, src: Frame, channel: nat, n: nat)
    requires n == Min(|src|, |buf| - Min(channel, |buf|))
    ensures var c := Min(channel, |buf|);
            Mix(buf, src, channel) == buf[..c] + src[..n] + buf[c + n..]
  {
  }

  /** The call that the player makes on a file: whatever the size of the file's buffer and however
      short its reads, the frames, the position and the error flag are those of the track. */
  method ReadTrack(s: S.SoundFileSamples, dst: array<S.Frame>, n: nat, win: Window, ghost value: S.Sample -> real)
    returns (k: nat)
    requires s.file != null && s.hasFormat && s.Valid() && 0 < s.bufferFrames && s.clip.nchannels < TWO_32
    requires n <= dst.Length && forall i | 0 <= i < dst.Length :: |dst[i]| == win.channels
    requires s.filepos + s.totalsamples * s.FrameBytes() < TWO_63
    modifies s`samplepos, s`inError, dst, s.file
    ensures s.Valid() && k <= dst.Length
    ensures TrackRead(old(TrackOf(s, value)), n, win, AllValues(old(dst[..]), value), k, TrackOf(s, value), AllValues(dst[..], value))
    ensures dst[k..] == old(dst[k..])
  {
    hide S.Overlay, S.Decode, Mix, ClipFrames, S.Channels, S.Filled, S.Part, S.Heard, Values;
    ghost var was, stored, clip, p := dst[..], s.Stored(), s.clip, s.samplepos;
    ChannelsMove(clip, win);
    k := s.ReadSamples(dst, win.channel, win.channels, n, 0, TWO_32 - 1);
    Delivered(was, dst[..], stored, p, k, clip, win, value);
  }

  /** What a read delivers, frame by frame. */
  lemma Delivered(was: seq<S.Frame>, now: seq<S.Frame>, stored: seq<S.Frame>, p: nat, k: nat, clip: S.Clip, win: Window,
                  value: S.Sample -> real)
    requires k <= |was| == |now| && p + k <= clip.nsamples && clip.nchannels < TWO_32
    requires forall i | 0 <= i < |was| :: |was[i]| == win.channels
    requires forall i | 0 <= i < |stored| :: clip.channel + clip.nchannels <= |stored[i]|
    requires var nch := S.Channels(clip, 0, TWO_32 - 1, win.channel, win.channels);
             && (nch == 0 ==> now == was)
             && (0 < nch ==>
                   && |S.Part(stored, p, k)| == k
                   && now == S.Filled(was, 0, Min(win.channel, win.channels), S.Part(stored, p, k),
                                      clip.channel + Min(0, clip.nchannels), nch))
    ensures forall i | 0 <= i < k :: Values(now[i], value) == Mix(Values(was[i], value), ClipFrames(stored, clip, value)[p + i], win.channel)
    ensures forall i | k <= i < |was| :: now[i] == was[i]
  {
    hide S.Overlay, Mix, ClipValues, S.Channels, S.Filled, Values;
    var nch, part := S.Channels(clip, 0, TWO_32 - 1, win.channel, win.channels), S.Part(stored, p, k);
    ChannelsMove(clip, win);
    forall i | 0 <= i < k
      ensures Values(now[i], value) == Mix(Values(was[i], value), ClipFrames(stored, clip, value)[p + i], win.channel)
    {
      if nch == 0 {
        NothingMixed(Values(was[i], value), stored, p + i, clip, win, value);
      } else {
        FilledAt(was, Min(win.channel, win.channels), part, clip.channel, nch, i);
        assert part[i] == stored[p + i];
        OverlayIsMix(was[i], stored[p + i], clip, win.channel, value);
      }
    }
    forall i | k <= i < |was|
      ensures now[i] == was[i]
    {
      if nch != 0 {
        FilledBeyond(was, Min(win.channel, win.channels), part, clip.channel, nch, i);
      }
    }
  }

  lemma ChannelsMove(clip: S.Clip, win: Window)
    requires clip.nchannels < TWO_32
    ensures 0 < S.Channels(clip, 0, TWO_32 - 1, win.channel, win.channels) <==> 0 < clip.nchannels && win.channel < win.channels
  {
  }

  lemma FilledAt(dst: seq<S.Frame>, dstChannel: nat, got: seq<S.Frame>, srcChannel: nat, n: nat, i: nat)
    requires i < |got| <= |dst|
    ensures S.Filled(dst, 0, dstChannel, got, srcChannel, n)[i] == S.Overlay(dst[i], dstChannel, got[i], srcChannel, n)
  {
  }

  lemma FilledBeyond(dst: seq<S.Frame>, dstChannel: nat, got: seq<S.Frame>, srcChannel: nat, n: nat, i: nat)
    requires |got| <= i < |dst|
    ensures S.Filled(dst, 0, dstChannel, got, srcChannel, n)[i] == dst[i]
  {
  }

  lemma NothingMixed(buf: Frame, stored: seq<S.Frame>, k: nat, clip: S.Clip, win: Window, value: S.Sample -> real)
    requires k < clip.nsamples && |buf| == win.channels && (clip.nchannels == 0 || win.channels <= win.channel)
    ensures Mix(buf, ClipFrames(stored, clip, value)[k], win.channel) == buf
  {
  }

  /** A sound file and a track that shows the same are read alike. */
  lemma ReadAlike(t: Track, n: nat, win: Window, was: seq<Frame>, k: nat, t1: Track, now: seq<Frame>,
                  k': nat, t1': Track, now': seq<Frame>)
    requires TrackRead(t, n, win, was, k, t1, now) && TrackRead(t, n, win, was, k', t1', now')
    ensures k == k' && t1 == t1' && now == now'
  {
    hide Mix, AfterRead, ReadCount;
    forall i | 0 <= i < |was| ensures now[i] == now'[i] {
      assert i < k ==> now[i] == Mix(was[i], t.frames[t.pos + i], win.channel) == now'[i];
    }
  }
}
