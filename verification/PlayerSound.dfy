/** What the frames of a read sound like, sample by sample. */
module PlayerSound {
  import opened Bytes
  import opened EnhancedFile
  import opened Player
  import opened PlayerRun
  import opened PlayerFacts
  import opened PlayerSeek
  import opened PlayerControls

  /** Channel `c` of a buffer frame once the channels of a file frame are put into it. */
  function Sample(buf: Frame, f: Frame, channel: nat, c: nat): real
    requires c < |buf|
  {
    if channel <= c < channel + |f| then f[c - channel] else buf[c]
  }

  /** Every sample is the gain times that of the buffer frame with the file frame in it. */
  predicate SoundsAs(out: Frame, gain: real, buf: Frame, f: Frame, channel: nat) {
    |out| == |buf| && forall c | 0 <= c < |out| :: out[c] == gain * Sample(buf, f, channel, c)
  }

  predicate Silent(f: Frame) { forall c | 0 <= c < |f| :: f[c] == 0.0 }

  lemma MixedScaled(buf: Frame, f: Frame, channel: nat, gain: real)
    ensures SoundsAs(Scale(Mix(buf, f, channel), gain), gain, buf, f, channel)
  {
    var m := Mix(buf, f, channel);
    forall c | 0 <= c < |buf|
      ensures m[c] == Sample(buf, f, channel, c)
    {
    }
  }

  lemma ZeroGain(out: Frame, buf: Frame, f: Frame, channel: nat)
    requires SoundsAs(out, 0.0, buf, f, channel)
    ensures Silent(out)
  {
  }

  // ---------------------------------------------------------------------------
  // Every read
  // ---------------------------------------------------------------------------

  /** A delivered frame and its gain: silence, or some frame of some file. */
  ghost predicate Heard1(list: seq<Track>, buf: Frame, win: Window, out: Frame, gain: real) {
    && (gain == 0.0 ==> Silent(out))
    && ((gain == 0.0 && |out| == win.channels) || exists i, j | 0 <= i < |list| && 0 <= j < |list[i].frames| ::
          SoundsAs(out, gain, buf, list[i].frames[j], win.channel))
  }

  ghost predicate AllHeard(list: seq<Track>, buf: seq<Frame>, win: Window, out: seq<Frame>, gains: seq<real>) {
    |out| == |gains| <= |buf| && forall k | 0 <= k < |out| :: Heard1(list, buf[k], win, out[k], gains[k])
  }

  lemma HeardSame(xs: seq<Track>, ys: seq<Track>, buf: Frame, win: Window, out: Frame, gain: real)
    requires SameFiles(xs, ys) && Heard1(xs, buf, win, out, gain)
    ensures Heard1(ys, buf, win, out, gain)
  {
    if !(gain == 0.0 && |out| == win.channels) {
      var i, j :| 0 <= i < |xs| && 0 <= j < |xs[i].frames| && SoundsAs(out, gain, buf, xs[i].frames[j], win.channel);
      assert SoundsAs(out, gain, buf, ys[i].frames[j], win.channel);
    }
  }

  lemma PassHeard(s: State, buf: seq<Frame>, win: Window, error: bool)
    requires Inv(s) && !AtEnd(s) && s.it < |s.list| && TrackOk(Current(s)) && buf != []
    ensures var p := LoopPass(s, buf, win, error);
            AllHeard(s.list, buf, win, p.out, p.gains)
  {
    hide LoopPass, Inv, Held, Next, Jump, Scale, Mix, SoundsAs, Silent, Gain;
    Cases(s);
    var p := LoopPass(s, buf, win, error);
    if Held(s) || (s.down == 0 && s.pause) {
      PassSilent(s, buf, win, error);
      SilenceIsSilent(win.channels);
    } else if s.down == 0 && s.jump {
      PassJumps(s, buf, win, error);
    } else {
      PassReads(s, buf, win, error);
      var s1 := Released(s);
      forall k | 0 <= k < |p.out|
        ensures Heard1(s.list, buf[k], win, p.out[k], p.gains[k])
      {
        var f := Current(s1).frames[Current(s1).pos + k];
        MixedScaled(buf[k], f, win.channel, Gain(s1, k));
        if Gain(s1, k) == 0.0 { ZeroGain(p.out[k], buf[k], f, win.channel); }
        assert s.list[s.it].frames[Current(s1).pos + k] == f;
      }
    }
  }

  lemma SilenceIsSilent(n: nat)
    ensures Silent(Silence(n))
  {
  }

  function GainsOf(marks: seq<Mark>): (gs: seq<real>)
    ensures |gs| == |marks|
  {
    seq(|marks|, k requires 0 <= k < |marks| => marks[k].gain)
  }

  lemma HeardJoin(xs: seq<Track>, ys: seq<Track>, buf: seq<Frame>, win: Window, p: Pass, out: seq<Frame>, marks: seq<Mark>, jumped: bool)
    requires AllHeard(xs, buf, win, p.out, p.gains) && SameFiles(xs, ys)
    requires |p.out| <= |buf| && AllHeard(ys, buf[|p.out|..], win, out, GainsOf(marks))
    ensures AllHeard(xs, buf, win, p.out + out, GainsOf(Marks(p.gains, jumped) + marks))
  {
    hide Heard1, SameFiles;
    var all, gains := p.out + out, GainsOf(Marks(p.gains, jumped) + marks);
    SameBack(xs, ys);
    forall k | 0 <= k < |all|
      ensures Heard1(xs, buf[k], win, all[k], gains[k])
    {
      if k < |p.out| {
        assert Heard1(xs, buf[k], win, p.out[k], p.gains[k]);
      } else {
        var j := k - |p.out|;
        assert Heard1(ys, buf[|p.out|..][j], win, out[j], GainsOf(marks)[j]);
        HeardSame(ys, xs, buf[k], win, all[k], gains[k]);
      }
    }
  }

  lemma SameBack(xs: seq<Track>, ys: seq<Track>)
    requires SameFiles(xs, ys)
    ensures SameFiles(ys, xs)
  {
  }

  /** Every frame that any read delivers is silence, or the channels of a frame of a file in the
      buffer's frame, each sample times the gain of its mark; at gain zero it is silent. */
  lemma {:induction false} PlaySounds(s: State, buf: seq<Frame>, win: Window, error: bool, jumped: bool)
    requires Inv(s) && (AtEnd(s) || Live(s))
    ensures var r := Play(s, buf, win, error, jumped);
            AllHeard(s.list, buf, win, r.out, GainsOf(r.marks)) && SameFiles(s.list, r.s.list)
    decreases |buf|, s.jump, Rank(s, error)
  {
    hide Start, LoopPass, Inv, Live, Rank, Marks, TrackOk, AllHeard, SameFiles, GainsOf;
    if AtEnd(s) || buf == [] {
      HeardNone(s.list, buf, win);
      SameRefl(s.list);
    } else {
      PassGoesOn(s, buf, win, error);
      PassKeeps(s, buf, win, error);
      PassHeard(s, buf, win, error);
      var p := LoopPass(s, buf, win, error);
      if p.stop {
        HeardNone(p.s.list, buf[|p.out|..], win);
        HeardJoin(s.list, p.s.list, buf, win, p, [], [], jumped);
        assert p.out + [] == p.out && Marks(p.gains, jumped) + [] == Marks(p.gains, jumped);
      } else {
        var later := if p.out == [] then jumped || p.jumped else false;
        PlaySounds(p.s, buf[|p.out|..], win, p.error, later);
        var rest := Play(p.s, buf[|p.out|..], win, p.error, later);
        HeardJoin(s.list, p.s.list, buf, win, p, rest.out, rest.marks, jumped);
        SameTrans(s.list, p.s.list, rest.s.list);
      }
    }
  }

  lemma HeardNone(list: seq<Track>, buf: seq<Frame>, win: Window)
    ensures AllHeard(list, buf, win, [], GainsOf([]))
  {
  }

  /** The same, read by read: a frame at gain zero is silent. */
  lemma ZeroIsSilent(s: State, buf: seq<Frame>, win: Window, k: nat)
    requires Inv(s) && (AtEnd(s) || Live(s)) && k < |Play(s, buf, win, false, false).out|
    ensures var r := Play(s, buf, win, false, false);
            r.marks[k].gain == 0.0 ==> Silent(r.out[k])
  {
    hide Start, Inv, Live, Play, SameFiles;
    PlaySounds(s, buf, win, false, false);
    var r := Play(s, buf, win, false, false);
    assert Heard1(s.list, buf[k], win, r.out[k], GainsOf(r.marks)[k]);
  }

  // ---------------------------------------------------------------------------
  // Streams and seeks
  // ---------------------------------------------------------------------------

  /** What a steady player delivers: the frames ahead, the first of them rising in equal steps to
      full level if a fade-in is under way. */
  lemma StreamSounds(s: State, buf: seq<Frame>, win: Window, k: nat)
    requires Inv(s) && (AtEnd(s) || Live(s)) && Faultless(s.list) && Steady(s)
    requires k < |Play(s, buf, win, false, false).out|
    ensures s.it < |s.list|
    ensures var out := Play(s, buf, win, false, false).out[k];
            && (k < s.up && 0 < s.fade ==>
                  SoundsAs(out, (s.fade - s.up + k) as real / s.fade as real, buf[k], Ahead(s, k), win.channel))
            && (s.up <= k || s.fade == 0 ==> SoundsAs(out, 1.0, buf[k], Ahead(s, k), win.channel))
  {
    hide Start, Inv, Live, Faultless, Play, Ahead, Scale, Mix, SoundsAs, Supply;
    PlaysStream(s, buf, win, false);
    assert Play(s, buf, win, false, false).out != [];
    CurrentOk(s);
    MixedScaled(buf[k], Ahead(s, k), win.channel, FadeIn(s, k));
    assert Play(s, buf, win, false, false).out[k] == Streamed(s, buf, win, k);
  }

  /** What is heard of a deferred seek that is performed: the frames ahead falling in equal steps to
      silence, then those ahead of the target rising in equal steps from silence to full level. */
  lemma SeekSounds(s: State, pos: nat, buf: seq<Frame>, win: Window, k: nat)
    requires Inv(s) && Faultless(s.list) && !s.pause && s.list != [] && s.autoplay && FadeFits(s) && s.fade < |buf|
    requires Inv(Requested(s, pos)) && (AtEnd(Requested(s, pos)) || Live(Requested(s, pos)))
    requires k < |Play(Requested(s, pos), buf, win, false, false).out|
    ensures s.it < |s.list| && (s.fade <= k ==> Landing(s, pos).it < |Landing(s, pos).list|)
    ensures var out := Play(Requested(s, pos), buf, win, false, false).out[k];
            && (k < s.fade ==>
                  SoundsAs(out, (s.fade - 1 - k) as real / s.fade as real, buf[k], Ahead(s, k), win.channel))
            && (s.fade <= k < 2 * s.fade ==>
                  SoundsAs(out, (k - s.fade) as real / s.fade as real, buf[k], Ahead(Landing(s, pos), k - s.fade), win.channel))
            && (2 * s.fade <= k ==> SoundsAs(out, 1.0, buf[k], Ahead(Landing(s, pos), k - s.fade), win.channel))
  {
    hide Start, Inv, Live, Faultless, Play, Ahead, Scale, Mix, SoundsAs, Supply, Jump;
    SeekPerformed(s, pos, buf, win);
    RequestedIs(s, pos);
    CurrentOk(s);
    var t, u := Requested(s, pos), Landing(s, pos);
    var out := Play(t, buf, win, false, false).out[k];
    if k < s.fade {
      MixedScaled(buf[k], Ahead(t, k), win.channel, Gain(t, k));
      assert out == Faded(t, buf, win, k);
      AheadRequested(s, pos, k);
    } else {
      var j := k - s.fade;
      JumpFade(s, Min(pos, s.length));
      StreamInside(u, Play(t, buf, win, false, false).out[s.fade..], |buf| - s.fade);
      assert out == AfterSeek(s, pos, buf[s.fade..], win, j);
      assert buf[s.fade..][j] == buf[k];
      MixedScaled(buf[k], Ahead(u, j), win.channel, FadeIn(u, j));
    }
  }

  lemma AheadRequested(s: State, pos: nat, k: nat)
    requires s.it < |s.list| && !s.pause
    ensures Requested(s, pos).it < |Requested(s, pos).list| && Ahead(Requested(s, pos), k) == Ahead(s, k)
  {
  }

  /** After a seek into a list that is not looping file by file, what lies ahead of the target is the
      joined list from the position asked for. */
  lemma AheadOfTarget(s: State, pos: nat, j: nat)
    requires Inv(s) && pos + j < s.length && !s.loopFile
    ensures var u, all := Landing(s, pos), Joined(s.list, |s.list|);
            u.it < |u.list| && |all| == s.length && Ahead(u, j) == all[pos + j]
  {
    hide Start, Joined, Jump;
    var u, all := Landing(s, pos), Joined(s.list, |s.list|);
    JumpKeeps(s, Min(pos, s.length));
    LandingIs(s, pos);
    JoinedSame(s.list, u.list, |s.list|);
    CyclicShift(all, pos + j);
  }

  // ---------------------------------------------------------------------------
  // Pausing and holding
  // ---------------------------------------------------------------------------

  predicate AllSilent(fs: seq<Frame>, channels: nat) { forall k | 0 <= k < |fs| :: |fs[k]| == channels && Silent(fs[k]) }

  /** A player that is held, or paused with its fade over, fills the buffer with silence and stays
      where it is; held means that it does not start files by itself, stands at the start of one and
      was not told to go on. */
  lemma SilenceHeard(s: State, buf: seq<Frame>, win: Window, jumped: bool)
    requires Inv(s) && !AtEnd(s) && Live(s) && s.it < |s.list| && buf != []
    requires (!s.autoplay && Current(s).pos == 0 && !s.jump && !s.release) || (s.pause && s.down == 0)
    ensures var r := Play(s, buf, win, false, jumped);
            |r.out| == |buf| && AllSilent(r.out, win.channels) && r.s.(release := s.release) == s && !AtEnd(r.s)
            && (r.s.release ==> s.release)
  {
    hide Start, Inv, Live, Play, LoopPass, Rank, Held, Silence, Silent;
    CurrentOk(s);
    PassGoesOn(s, buf, win, false);
    Cases(s);
    PassSilent(s, buf, win, false);
    var p := LoopPass(s, buf, win, false);
    PlayFilled(s, buf, win, jumped);
    SilenceIsSilent(win.channels);
    SilencesAre(|buf|, win.channels);
  }

  lemma SilencesAre(n: nat, channels: nat)
    ensures forall k | 0 <= k < n :: Silences(n, channels)[k] == Silence(channels)
  {
  }

  /** A pass that fills the buffer is the whole read. */
  lemma PlayFilled(s: State, buf: seq<Frame>, win: Window, jumped: bool)
    requires Inv(s) && !AtEnd(s) && Live(s) && buf != [] && s.it < |s.list| && TrackOk(Current(s))
    requires var p := LoopPass(s, buf, win, false); |p.out| == |buf| && !p.stop
    ensures var r, p := Play(s, buf, win, false, jumped), LoopPass(s, buf, win, false);
            r.s == p.s && r.out == p.out
  {
    hide Start, Inv, Live, LoopPass, Rank, TrackOk;
    PassGoesOn(s, buf, win, false);
    var p := LoopPass(s, buf, win, false);
    assert buf[|p.out|..] == [];
    PlayNothing(p.s, [], win, p.error, false);
  }

  /** Pausing fades down and then stays silent, at the place that the fade reached, until the pause
      ends; a pending seek waits. Ending it arms a fade-in. */
  lemma PauseSounds(s: State, buf: seq<Frame>, win: Window)
    requires Inv(s) && !AtEnd(s) && Live(Pause(s, true)) && Faultless(s.list) && Running(s) && !s.pause
    requires FadeFits(s) && s.fade < |buf|
    ensures Inv(Pause(s, true)) && s.it < |s.list|
    ensures var r := Play(Pause(s, true), buf, win, false, false);
            && |r.out| == |buf| && r.s.pause && r.s.jump == s.jump && !AtEnd(r.s)
            && (forall k | 0 <= k < s.fade ::
                  SoundsAs(r.out[k], (s.fade - 1 - k) as real / s.fade as real, buf[k], Ahead(s, k), win.channel))
            && AllSilent(r.out[s.fade..], win.channels)
            && Pause(r.s, false).up == s.fade && !Pause(r.s, false).pause
  {
    hide Start, Inv, Live, Faultless, Play, Ahead, SoundsAs, FadeHeard, AllSilent;
    CurrentOk(s);
    var t, a, b := Pause(s, true), buf[..s.fade], buf[s.fade..];
    PausedIs(s);
    FadesOut(t, a, win);
    PlaySplit(t, a, b, win, false);
    assert a + b == buf;
    var first := Play(t, a, win, false, false);
    PausedFade(s, a, win, first);
    var v := first.s;
    CurrentOk(v);
    SilenceHeard(v, b, win, false);
    var second := Play(v, b, win, false, false);
    forall k | 0 <= k < s.fade
      ensures SoundsAs((first.out + second.out)[k], (s.fade - 1 - k) as real / s.fade as real, buf[k], Ahead(s, k), win.channel)
    {
      FadedSound(s, a, win, first, k);
    }
    assert (first.out + second.out)[s.fade..] == second.out;
  }

  lemma PausedIs(s: State)
    requires Inv(s) && !s.pause && !AtEnd(s)
    ensures Pause(s, true) == s.(down := s.fade, pause := true) && Inv(Pause(s, true)) && Running(Pause(s, true)) == Running(s)
    ensures FadeFits(s) ==> Supply(Pause(s, true), s.fade) == s.fade
  {
  }

  lemma PausedFade(s: State, a: seq<Frame>, win: Window, first: Played)
    requires Inv(s) && !s.pause && !AtEnd(s) && FadeFits(s) && |a| == s.fade
    requires Inv(Pause(s, true)) && FadeHeard(Pause(s, true), a, win, first)
    ensures |first.out| == s.fade && !AtEnd(first.s) && first.s.pause && first.s.down == 0 && first.s.jump == s.jump
    ensures first.s.fade == s.fade
  {
    hide Start, Inv, Faultless, SameFiles;
    PausedIs(s);
  }

  lemma FadedSound(s: State, a: seq<Frame>, win: Window, first: Played, k: nat)
    requires Inv(Pause(s, true)) && FadeHeard(Pause(s, true), a, win, first) && s.it < |s.list| && !s.pause
    requires k < s.fade == |first.out|
    ensures SoundsAs(first.out[k], (s.fade - 1 - k) as real / s.fade as real, a[k], Ahead(s, k), win.channel)
  {
    hide Start, Inv, Scale, Mix, SoundsAs, FadedFrom, Supply;
    var t := Pause(s, true);
    MixedScaled(a[k], Ahead(t, k), win.channel, Gain(t, k));
    assert first.out[k] == Faded(t, a, win, k);
  }

  // ---------------------------------------------------------------------------
  // Starting one file
  // ---------------------------------------------------------------------------

  /** Nothing but a fade-in is under way, and the player may go on in its file: it starts files by
      itself, is inside one, or was told to go on. */
  predicate Playing(s: State) {
    && s.down == 0 && !s.pause && !s.jump && s.it < |s.list|
    && (s.autoplay || Current(s).pos != 0 || s.release)
  }

  /** The player after `k` frames of its file: having been told to go on counts once, at the start
      of a file. */
  ghost predicate WentOn(s: State, t: State, k: nat) {
    && t.it == s.it < |s.list| == |t.list| && SameFiles(s.list, t.list) && SameSettings(s, t)
    && Current(t).pos == Current(s).pos + k && t.up == Max(0, s.up - k)
    && t.down == 0 && !t.pause && !t.jump
    && (0 < k ==> t.release == (s.release && (s.autoplay || Current(s).pos != 0)))
  }

  lemma FilePass(s: State, a: seq<Frame>, win: Window)
    requires Inv(s) && Faultless(s.list) && Playing(s) && a != [] && Current(s).pos + |a| <= |Current(s).frames|
    ensures var p := LoopPass(s, a, win, false);
            && 0 < |p.out| <= |a| && WentOn(s, p.s, |p.out|) && Playing(p.s)
            && forall k | 0 <= k < |p.out| ::
                 SoundsAs(p.out[k], FadeIn(s, k), a[k], Current(s).frames[Current(s).pos + k], win.channel)
  {
    hide Start, Scale, Mix, SoundsAs, LoopPass, Next;
    CurrentOk(s);
    FaultlessAt(s.list, s.it);
    Cases(s);
    PassReads(s, a, win, false);
    var p, s1 := LoopPass(s, a, win, false), Released(s);
    forall k | 0 <= k < |p.out|
      ensures SoundsAs(p.out[k], FadeIn(s, k), a[k], Current(s).frames[Current(s).pos + k], win.channel)
    {
      MixedScaled(a[k], Current(s).frames[Current(s).pos + k], win.channel, Gain(s1, k));
    }
  }

  /** Reading no further than the end of the file: its frames are heard, whoever started it. */
  lemma {:induction false} WithinFile(s: State, a: seq<Frame>, win: Window, jumped: bool)
    requires Inv(s) && Faultless(s.list) && Filled(s.list) && Live(s) && Playing(s)
    requires Current(s).pos + |a| <= |Current(s).frames|
    ensures var r := Play(s, a, win, false, jumped);
            && |r.out| == |a| && WentOn(s, r.s, |a|)
            && forall k | 0 <= k < |a| ::
                 SoundsAs(r.out[k], FadeIn(s, k), a[k], Current(s).frames[Current(s).pos + k], win.channel)
    decreases |a|
  {
    hide Start, Inv, Faultless, Filled, Live, LoopPass, Rank, SoundsAs, SameFiles, FadeIn;
    if a == [] {
      SameRefl(s.list);
    } else {
      CurrentOk(s);
      PassGoesOn(s, a, win, false);
      StaysFaultless(s, a, win, false);
      FilePass(s, a, win);
      var p := LoopPass(s, a, win, false);
      var k, rest := |p.out|, a[|p.out|..];
      KeptFilled(s, p.s);
      SameFile(s.list, p.s.list, s.it);
      WithinFile(p.s, rest, win, false);
      var more := Play(p.s, rest, win, false, false);
      SameTrans(s.list, p.s.list, more.s.list);
      forall i | 0 <= i < |a|
        ensures SoundsAs((p.out + more.out)[i], FadeIn(s, i), a[i], Current(s).frames[Current(s).pos + i], win.channel)
      {
        if k <= i {
          assert a[i] == rest[i - k];
          FadeOn(s, p.s, k, i - k);
        }
      }
    }
  }

  lemma SameFile(xs: seq<Track>, ys: seq<Track>, i: nat)
    requires SameFiles(xs, ys) && i < |xs|
    ensures xs[i].frames == ys[i].frames
  {
  }

  lemma FadeOn(s: State, t: State, k: nat, i: nat)
    requires t.fade == s.fade && t.up == Max(0, s.up - k)
    ensures FadeIn(t, i) == FadeIn(s, k + i)
  {
  }

  /** A player that does not start files by itself waits in silence at the start of each; told to go
      on, it plays the one file to its end, and waits again. */
  lemma OneFileStarted(s: State, buf: seq<Frame>, win: Window)
    requires Inv(s) && Faultless(s.list) && Filled(s.list) && Live(s)
    requires !s.autoplay && s.down == 0 && !s.pause && !s.jump && s.it < |s.list| && Current(s).pos == 0
    requires s.release && |Current(s).frames| < |buf|
    ensures var (r, n) := (Play(s, buf, win, false, false), |Current(s).frames|);
            && n <= |r.out| && !r.s.release
            && (forall k | 0 <= k < n :: SoundsAs(r.out[k], FadeIn(s, k), buf[k], Current(s).frames[k], win.channel))
            && AllSilent(r.out[n..], win.channels)
            && (AtEnd(r.s) <==> s.it + 1 == |s.list| && !s.loopAll && !s.loopFile)
            && (if AtEnd(r.s) then |r.out| == n
                else |r.out| == |buf| && Current(r.s).pos == 0
                     && r.s.it == if s.loopFile then s.it else (s.it + 1) % |s.list|)
  {
    hide Start, Inv, Faultless, Filled, Live, Play, SoundsAs, SameFiles, FadeIn, AllSilent;
    var n := |Current(s).frames|;
    var a, b := buf[..n], buf[n..];
    assert a + b == buf;
    assert n != 0 by { FilledAt(s.list, s.it); }
    WithinFile(s, a, win, false);
    PlaySplit(s, a, b, win, false);
    var first := Play(s, a, win, false, false);
    KeptFilled(s, first.s);
    SameFile(s.list, first.s.list, s.it);
    FilledLive(first.s);
    WaitsNext(first.s, b, win);
    var second := Play(first.s, b, win, false, false);
    assert (first.out + second.out)[n..] == second.out;
  }

  /** At the end of a file a player that does not start the next one waits there. */
  lemma WaitsNext(s: State, b: seq<Frame>, win: Window)
    requires Inv(s) && Faultless(s.list) && Filled(s.list) && Live(s) && b != []
    requires !s.autoplay && s.down == 0 && !s.pause && !s.jump && !s.release && s.it < |s.list|
    requires Current(s).pos == |Current(s).frames| != 0
    ensures var r := Play(s, b, win, false, false);
            && !r.s.release && AllSilent(r.out, win.channels)
            && (AtEnd(r.s) <==> s.it + 1 == |s.list| && !s.loopAll && !s.loopFile)
            && (if AtEnd(r.s) then r.out == []
                else |r.out| == |b| && r.s.it < |r.s.list| == |s.list| && Current(r.s).pos == 0
                     && r.s.it == if s.loopFile then s.it else (s.it + 1) % |s.list|)
  {
    hide Start, Inv, Faultless, Filled, Live, LoopPass, Rank, AllSilent, SameFiles, Next;
    CurrentOk(s);
    PassGoesOn(s, b, win, false);
    PassKeeps(s, b, win, false);
    StaysFaultless(s, b, win, false);
    FaultlessAt(s.list, s.it);
    EndPass(s, b, win);
    var p := LoopPass(s, b, win, false);
    NextWaits(s);
    assert b[0..] == b;
    var rest := Play(p.s, b, win, false, false);
    assert [] + rest.out == rest.out;
    assert Play(s, b, win, false, false).s == rest.s && Play(s, b, win, false, false).out == rest.out;
    if AtEnd(p.s) {
      PlayNothing(p.s, b, win, false, false);
      NoneSilent(win.channels);
    } else {
      KeptFilled(s, p.s);
      FilledLive(p.s);
      SilenceHeard(p.s, b, win, false);
    }
  }

  lemma NoneSilent(channels: nat)
    ensures AllSilent([], channels)
  {
  }

  /** The pass that finds nothing left in the file. */
  lemma EndPass(s: State, b: seq<Frame>, win: Window)
    requires Inv(s) && !s.autoplay && s.down == 0 && !s.pause && !s.jump && !s.release && s.it < |s.list|
    requires Current(s).pos == |Current(s).frames| != 0 && Current(s).readable == |Current(s).frames| && !Current(s).inError
    ensures var p := LoopPass(s, b, win, false);
            p.out == [] && !p.stop && !p.error && !p.jumped && p.s == Next(s)
  {
    hide Start, Next, LoopPass, Heard;
    CurrentOk(s);
    Cases(s);
    PassReads(s, b, win, false);
    var k := ReadCount(Current(s), Asked(s, |b|), win);
    assert k == 0;
    assert Consumed(s, |b|, win).list == s.list;
  }

  lemma NextWaits(s: State)
    requires Inv(s) && s.it < |s.list|
    ensures var t := Next(s);
            && |t.list| == |s.list| && SameSettings(s, t) && SameFiles(s.list, t.list)
            && t.down == s.down && t.pause == s.pause && t.jump == s.jump && t.release == s.release
            && (AtEnd(t) <==> s.it + 1 == |s.list| && !s.loopAll && !s.loopFile)
            && (t.it < |t.list| ==> Current(t).pos == 0 && t.it == if s.loopFile then s.it else (s.it + 1) % |s.list|)
  {
    hide Start, Inv, Next, Seek, SameFiles;
    NextKeeps(s);
    NextIs(s);
    assert s.it + 1 < |s.list| ==> (s.it + 1) % |s.list| == s.it + 1;
  }

  lemma FilledAt(list: seq<Track>, i: nat)
    requires Filled(list) && i < |list|
    ensures list[i].frames != []
  {
  }

  // ---------------------------------------------------------------------------
  // Files that cannot be read to their end
  // ---------------------------------------------------------------------------

  /** Where a file cannot be read any further the next one is heard; if that cannot be read at all,
      the read breaks off there. */
  lemma NextAfterError(s: State, buf: seq<Frame>, win: Window)
    requires Inv(s) && Filled(s.list) && Live(s) && buf != [] && win.channel < win.channels
    requires s.autoplay && !s.loopFile && s.down == 0 && !s.pause && !s.jump && s.it + 1 < |s.list|
    requires Current(s).readable == Current(s).pos < |Current(s).frames| && 0 < Current(s).channels && 0 < s.list[s.it + 1].channels
    ensures var (r, next) := (Play(s, buf, win, false, false), s.list[s.it + 1]);
            && (next.readable == 0 ==> r.broke && r.out == [] && r.s.it == s.it + 1)
            && (0 < next.readable ==>
                  r.out != [] && next.frames != [] && SoundsAs(r.out[0], FadeIn(s, 0), buf[0], next.frames[0], win.channel))
  {
    hide Start, Inv, Live, LoopPass, Rank, SoundsAs, Filled;
    CurrentOk(s);
    PassGoesOn(s, buf, win, false);
    PassKeeps(s, buf, win, false);
    FailedPass(s, buf, win);
    var p := LoopPass(s, buf, win, false);
    var t := p.s;
    FilledAt(s.list, s.it + 1);
    CurrentOk(t);
    PassGoesOn(t, buf, win, true);
    PassAfterError(t, buf, win);
    var q := LoopPass(t, buf, win, true);
    assert buf[0..] == buf;
    var rest := Play(t, buf, win, true, false);
    assert [] + rest.out == rest.out;
    assert Play(s, buf, win, false, false).out == rest.out && Play(s, buf, win, false, false).broke == rest.broke;
    if 0 < s.list[s.it + 1].readable {
      assert rest.out[0] == q.out[0];
    }
  }

  lemma FailedPass(s: State, buf: seq<Frame>, win: Window)
    requires Inv(s) && buf != [] && win.channel < win.channels
    requires s.autoplay && !s.loopFile && s.down == 0 && !s.pause && !s.jump && s.it + 1 < |s.list|
    requires Current(s).readable == Current(s).pos < |Current(s).frames| && 0 < Current(s).channels
    ensures var p := LoopPass(s, buf, win, false);
            && p.out == [] && !p.stop && p.error && !p.jumped
            && p.s.it == s.it + 1 < |p.s.list| == |s.list| && SameSettings(s, p.s) && p.s.up == s.up
            && p.s.down == 0 && !p.s.pause && !p.s.jump
            && Current(p.s) == s.list[s.it + 1].(pos := 0, inError := false)
  {
    hide Start, LoopPass, Heard, Next;
    CurrentOk(s);
    Cases(s);
    PassReads(s, buf, win, false);
    NextIs(Consumed(Released(s), |buf|, win));
  }

  lemma PassAfterError(t: State, buf: seq<Frame>, win: Window)
    requires Inv(t) && buf != [] && win.channel < win.channels && t.it < |t.list| && TrackOk(Current(t))
    requires t.autoplay && t.down == 0 && !t.pause && !t.jump
    requires Current(t).pos == 0 && Current(t).frames != [] && 0 < Current(t).channels
    ensures var q := LoopPass(t, buf, win, true);
            && (Current(t).readable == 0 ==> q.stop && q.out == [] && q.s.it == t.it)
            && (0 < Current(t).readable ==>
                  q.out != [] && !q.stop && SoundsAs(q.out[0], FadeIn(t, 0), buf[0], Current(t).frames[0], win.channel))
  {
    hide Start, LoopPass, Next, Scale, Mix, SoundsAs;
    Cases(t);
    PassReads(t, buf, win, true);
    MixedScaled(buf[0], Current(t).frames[0], win.channel, Gain(Released(t), 0));
  }

  // ---------------------------------------------------------------------------
  // Whole sessions
  // ---------------------------------------------------------------------------

  /** The frames that one operation delivers. */
  function OutOf(s: State, op: Op): seq<Frame>
    requires Inv(s) && Filled(s.list)
  {
    if op.DoRead? then Play(s, op.buf, op.win, false, false).out else []
  }

  /** The frames that a run of operations delivers, beside its marks. */
  ghost function SessionOut(s: State, ops: seq<Op>): seq<Frame>
    requires Healthy(s) && forall i | 0 <= i < |ops| :: Playable(ops[i])
    decreases |ops|
  {
    if ops == [] then []
    else
      ApplyQuiet(s, ops[0], 0.0);
      OutOf(s, ops[0]) + SessionOut(Apply(s, ops[0]).0, ops[1..])
  }

  ghost predicate ZerosSilent(out: seq<Frame>, marks: seq<Mark>) {
    |out| == |marks| && forall k | 0 <= k < |out| :: marks[k].gain == 0.0 ==> Silent(out[k])
  }

  lemma OpSilent(s: State, op: Op)
    requires Healthy(s)
    ensures ZerosSilent(OutOf(s, op), Apply(s, op).1)
  {
    hide Play, Start, Live, SetPosition, SetIndex, Pause, Reset, Next, AddFile, Clear, Silent;
    if op.DoRead? {
      FilledLive(s);
      var r := Play(s, op.buf, op.win, false, false);
      forall k | 0 <= k < |r.out| && r.marks[k].gain == 0.0
        ensures Silent(r.out[k])
      {
        ZeroIsSilent(s, op.buf, op.win, k);
      }
    }
  }

  lemma {:induction false} SessionSilent(s: State, ops: seq<Op>)
    requires Healthy(s) && forall i | 0 <= i < |ops| :: Playable(ops[i])
    ensures ZerosSilent(SessionOut(s, ops), Session(s, ops).1)
    decreases |ops|
  {
    hide OutOf, Apply, Silent, Inv, Faultless, FadeOk, Start, Live;
    if ops != [] {
      ApplyQuiet(s, ops[0], 0.0) by { PoisedZero(s); }
      OpSilent(s, ops[0]);
      SessionSilent(Apply(s, ops[0]).0, ops[1..]);
    }
  }

  /** A jump just before frame `i` is made between two frames of zeros; `last` is the gain before
      the first frame. */
  ghost predicate ZeroAround(out: seq<Frame>, last: real, i: nat)
    requires i < |out|
  {
    Silent(out[i]) && (if i == 0 then last == 0.0 else Silent(out[i - 1]))
  }

  /** In every run of operations the frames before and after each deferred jump are zeros. */
  lemma JumpsAreZeros(s: State, ops: seq<Op>, last: real)
    requires Healthy(s) && Poised(s, last) && forall i | 0 <= i < |ops| :: Playable(ops[i])
    ensures var out, marks := SessionOut(s, ops), Session(s, ops).1;
            |out| == |marks| && forall i | 0 <= i < |marks| :: marks[i].jumped ==> ZeroAround(out, last, i)
  {
    hide SessionOut, Session, Silent, Healthy, Poised;
    JumpsAreSilent(s, ops, last);
    SessionSilent(s, ops);
    var out, marks := SessionOut(s, ops), Session(s, ops).1;
    forall i | 0 <= i < |marks| && marks[i].jumped
      ensures ZeroAround(out, last, i)
    {
      assert QuietAt(marks, last, i);
      assert marks[i].gain == 0.0;
      if i != 0 { assert marks[i - 1].gain == 0.0; }
    }
  }
}
