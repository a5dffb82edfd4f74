/** What is heard of a deferred seek, and of a fade whose length is changed under way. */
module PlayerSeek {
  import opened Bytes
  import opened EnhancedFile
  import opened Player
  import opened PlayerRun
  import opened PlayerFacts

  // ---------------------------------------------------------------------------
  // Fading down
  // ---------------------------------------------------------------------------

  /** Files are started as they come: the player does so by itself, or a seek is pending. */
  predicate Running(s: State) { s.autoplay || s.jump }

  /** Frame `k` of what a player that fades down delivers. */
  function Faded(s: State, buf: seq<Frame>, win: Window, k: nat): Frame
    requires k < |buf|
  {
    if s.it < |s.list| then Scale(Mix(buf[k], Ahead(s, k), win.channel), Gain(s, k)) else []
  }

  lemma FadeRead(s: State, buf: seq<Frame>, win: Window, k: nat)
    requires Inv(s) && !AtEnd(s) && Faultless(s.list) && Running(s) && buf != [] && |buf| <= s.down
    requires s.it < |s.list| && TrackOk(Current(s))
    requires k == ReadCount(Current(s), Asked(s, |buf|), win) && k != 0
    ensures var p := LoopPass(s, buf, win, false);
            && |p.out| == |p.gains| == k && p.s == Consumed(s, |buf|, win) && Inv(p.s) && Running(p.s) && !AtEnd(p.s) && !p.jumped
            && Supply(s, |buf|) == k + Supply(p.s, |buf| - k)
            && forall i | 0 <= i < k :: p.out[i] == Faded(s, buf, win, i) && p.gains[i] == Gain(s, i)
  {
    hide Start, Scale, Mix, Ahead, Next, Gain;
    FaultlessAt(s.list, s.it);
    ConsumedKeeps(s, |buf|, win);
    AheadRead(s, |buf|, win, 0);
    PositionBound(s);
    assert Released(s) == s;
    var p := LoopPass(s, buf, win, false);
    assert p == ReadPass(s, buf, win, false);
    forall i | 0 <= i < k
      ensures p.out[i] == Faded(s, buf, win, i)
    {
      AheadNow(s, i);
    }
  }

  lemma FadeRest(s: State, buf: seq<Frame>, win: Window, k: nat, j: nat)
    requires Inv(s) && !AtEnd(s) && s.it < |s.list| && TrackOk(Current(s)) && |buf| <= s.down
    requires k == ReadCount(Current(s), Asked(s, |buf|), win) && k + j < |buf|
    ensures var t := Consumed(s, |buf|, win);
            && t.it < |t.list| && Faded(t, buf[k..], win, j) == Faded(s, buf, win, k + j)
            && Gain(t, j) == Gain(s, k + j)
  {
    hide Start, Scale, Mix, Ahead;
    AheadRead(s, |buf|, win, j);
    assert buf[k..][j] == buf[k + j];
  }

  lemma FadeNext(s: State, buf: seq<Frame>, win: Window)
    requires Inv(s) && !AtEnd(s) && Faultless(s.list) && Running(s) && buf != [] && |buf| <= s.down
    requires s.it < |s.list| && TrackOk(Current(s)) && ReadCount(Current(s), Asked(s, |buf|), win) == 0
    ensures var p := LoopPass(s, buf, win, false);
            && p.out == [] && p.s == Next(s) && Running(p.s) && Inv(p.s) && Supply(s, |buf|) == Supply(p.s, |buf|)
            && !p.jumped
            && (!AtEnd(p.s) ==> p.s.it < |p.s.list| && forall k | 0 <= k < |buf| ::
                  Faded(s, buf, win, k) == Faded(p.s, buf, win, k) && Gain(p.s, k) == Gain(s, k))
  {
    hide Start, Scale, Mix, Ahead, Next, Consumed;
    FaultlessAt(s.list, s.it);
    SpentPass(s, |buf|, win);
    assert Consumed(s, |buf|, win) == s;
    assert Released(s) == s;
    NextIs(s);
    NextKeeps(s);
    PositionBound(s);
    forall k: nat ensures Next(s).it < |s.list| ==> Ahead(Next(s), k) == Ahead(s, k) {
      AheadNext(s, k);
    }
    AheadNext(s, 0);
  }

  /** What a fade-down leaves as it was: everything but the positions and the fade itself. */
  ghost predicate FadedFrom(s: State, t: State, n: nat) {
    && t.down == s.down - n && t.up == s.up && t.jump == s.jump && t.pause == s.pause && t.newPosition == s.newPosition
    && SameSettings(s, t) && SameFiles(s.list, t.list) && Faultless(t.list)
  }

  lemma FadedConsumed(s: State, n: nat, win: Window)
    requires Inv(s) && s.it < |s.list| && TrackOk(Current(s)) && Faultless(s.list) && 0 < s.down
    ensures FadedFrom(s, Consumed(s, n, win), ReadCount(Current(s), Asked(s, n), win))
  {
    hide Start, Faultless, AfterRead;
    ConsumedKeeps(s, n, win);
    FaultlessRead(s, n, win);
  }

  lemma FadedNext(s: State)
    requires Inv(s) && Faultless(s.list)
    ensures FadedFrom(s, Next(s), 0)
  {
    hide Start, Faultless, Next, Inv, SameFiles;
    NextKeeps(s);
    NextFade(s);
    FaultlessOps(s, 0);
  }

  lemma FadedTrans(s: State, t: State, u: State, m: nat, n: nat)
    requires FadedFrom(s, t, m) && FadedFrom(t, u, n)
    ensures FadedFrom(s, u, m + n)
  {
    hide Faultless;
  }

  lemma FadedRefl(s: State)
    requires Faultless(s.list)
    ensures FadedFrom(s, s, 0)
  {
    hide Faultless;
  }

  /** What a read delivers that is no longer than the fade-down: the frames ahead with falling
      gains; it falls short only at the end of a list that does not loop. */
  ghost predicate FadeHeard(s: State, buf: seq<Frame>, win: Window, r: Played)
    requires Inv(s)
  {
    && |r.out| == |r.marks| == Supply(s, |buf|) <= |buf| && FadedFrom(s, r.s, |r.out|)
    && (AtEnd(r.s) <==> AtEnd(s) || |r.out| < |buf|)
    && (r.out != [] ==> s.it < |s.list|)
    && forall k | 0 <= k < |r.out| :: r.out[k] == Faded(s, buf, win, k) && r.marks[k].gain == Gain(s, k)
  }

  lemma HeardAfterNext(s: State, buf: seq<Frame>, win: Window, rest: Played)
    requires Inv(s) && !AtEnd(s) && Faultless(s.list) && Running(s) && buf != [] && |buf| <= s.down
    requires s.it < |s.list| && TrackOk(Current(s)) && ReadCount(Current(s), Asked(s, |buf|), win) == 0
    requires Inv(Next(s)) && FadeHeard(Next(s), buf, win, rest)
    ensures FadeHeard(s, buf, win, rest)
  {
    hide Start, LoopPass, Inv, Faultless, TrackOk, Faded, Supply, Next, Consumed, Asked, ReadCount, Gain, FadedFrom;
    FadeNext(s, buf, win);
    FadedNext(s);
    FadedTrans(s, Next(s), rest.s, 0, |rest.out|);
    if AtEnd(Next(s)) {
      NoSupply(Next(s), |buf|);
    }
  }

  lemma HeardAfterRead(s: State, buf: seq<Frame>, win: Window, k: nat, rest: Played)
    requires Inv(s) && !AtEnd(s) && Faultless(s.list) && Running(s) && buf != [] && |buf| <= s.down
    requires s.it < |s.list| && TrackOk(Current(s)) && 0 < k == ReadCount(Current(s), Asked(s, |buf|), win) <= |buf|
    requires Inv(Consumed(s, |buf|, win)) && FadeHeard(Consumed(s, |buf|, win), buf[k..], win, rest)
    ensures var p := LoopPass(s, buf, win, false);
            FadeHeard(s, buf, win, Played(rest.s, p.out + rest.out, Marks(p.gains, false) + rest.marks, rest.broke))
  {
    hide Start, LoopPass, Inv, Faultless, TrackOk, Faded, Supply, Consumed, Asked, ReadCount, Gain, FadedFrom;
    FadeRead(s, buf, win, k);
    FadedConsumed(s, |buf|, win);
    FadedTrans(s, Consumed(s, |buf|, win), rest.s, k, |rest.out|);
    var p := LoopPass(s, buf, win, false);
    var out, marks := p.out + rest.out, Marks(p.gains, false) + rest.marks;
    forall i | 0 <= i < |out|
      ensures out[i] == Faded(s, buf, win, i) && marks[i].gain == Gain(s, i)
    {
      if k <= i {
        FadeRest(s, buf, win, k, i - k);
        assert out[i] == rest.out[i - k] && marks[i] == rest.marks[i - k];
      }
    }
  }

  /** While it fades down, the player delivers one stream and jumps nowhere. */
  lemma {:induction false} FadesOut(s: State, buf: seq<Frame>, win: Window)
    requires Inv(s) && (AtEnd(s) || Live(s)) && Faultless(s.list) && Running(s) && |buf| <= s.down
    ensures FadeHeard(s, buf, win, Play(s, buf, win, false, false))
    decreases |buf|, s.jump, Rank(s, false)
  {
    hide Start, LoopPass, Inv, Live, Rank, Faultless, Play, TrackOk, Next, Consumed, Asked, ReadCount, FadeHeard, Marks, FadedFrom, Running;
    if AtEnd(s) || buf == [] {
      PlayNothing(s, buf, win, false, false);
      HeardNothing(s, buf, win);
    } else {
      PlayStep(s, buf, win, false);
      PassGoesOn(s, buf, win, false);
      var p := LoopPass(s, buf, win, false);
      var k := ReadCount(Current(s), Asked(s, |buf|), win);
      if k == 0 {
        FadeNext(s, buf, win);
        FadedNext(s);
        FadedDown(s, p.s, 0);
        assert buf[0..] == buf;
        FadesOut(p.s, buf, win);
        var rest := Play(p.s, buf, win, false, false);
        HeardAfterNext(s, buf, win, rest);
        NoMarks(p.gains, rest);
      } else {
        FadeRead(s, buf, win, k);
        FadedConsumed(s, |buf|, win);
        FadedDown(s, p.s, k);
        FadesOut(p.s, buf[k..], win);
        HeardAfterRead(s, buf, win, k, Play(p.s, buf[k..], win, false, false));
      }
    }
  }

  lemma NoMarks(gains: seq<real>, rest: Played)
    requires gains == []
    ensures Played(rest.s, [] + rest.out, Marks(gains, false) + rest.marks, rest.broke) == rest
  {
  }

  lemma HeardNothing(s: State, buf: seq<Frame>, win: Window)
    requires Inv(s) && Faultless(s.list) && (AtEnd(s) || buf == [])
    ensures FadeHeard(s, buf, win, Played(s, [], [], false))
  {
    hide Inv, Faultless, Supply, FadedFrom;
    NoSupply(s, |buf|);
    FadedRefl(s);
  }

  lemma FadedDown(s: State, t: State, n: nat)
    requires FadedFrom(s, t, n)
    ensures t.down == s.down - n && Running(t) == Running(s) && Faultless(t.list)
  {
  }

  // ---------------------------------------------------------------------------
  // A deferred seek
  // ---------------------------------------------------------------------------

  /** The player once a deferred seek was accepted. */
  function Requested(s: State, pos: nat): State { SetPosition(s, pos, false).0 }

  /** The player after the fade-down and the jump; only the read positions of other files are not
      those of the player that was fading. */
  function Landing(s: State, pos: nat): State {
    Jump(s, Min(pos, s.length)).0.(newPosition := Min(pos, s.length), down := 0, jump := false, up := s.fade)
  }

  /** Where a seek leaves a player: at the position asked for if that is in the list, at the end if
      it is not, or at the last frame if the list loops. */
  predicate Targeted(s: State, pos: nat, t: State) {
    && (pos < s.length ==> Position(t) == pos)
    && (s.length <= pos && !s.loopAll ==> Position(t) == s.length && AtEnd(t))
    && (s.length <= pos && s.loopAll && 0 < s.length ==> Position(t) == s.length - 1)
    && (s.length == 0 ==> Position(t) == 0 && AtEnd(t))
  }

  lemma JumpTargets(s: State, pos: nat)
    requires Inv(s)
    ensures Targeted(s, pos, Jump(s, pos).0)
  {
    hide Start, Jump;
    JumpKeeps(s, pos);
  }

  /** The fade-down fits before the end of the list, or nothing ends. */
  predicate FadeFits(s: State) {
    !AtEnd(s) && (s.loopAll || s.loopFile || s.fade <= s.length - Position(s))
  }

  lemma {:induction false} LocateSame(xs: seq<Track>, ys: seq<Track>, i: nat, pos: nat)
    requires i <= |xs| == |ys| && forall k | 0 <= k < |xs| :: xs[k].frames == ys[k].frames
    ensures Locate(xs, i, pos) == Locate(ys, i, pos)
    decreases |xs| - i
  {
    hide Start;
    if i < |xs| {
      StartSame(xs, ys, i + 1);
      LocateSame(xs, ys, i + 1, pos);
    }
  }

  /** Two players of the same files land at the same frame, with the same frames ahead. */
  ghost predicate SameAhead(s: State, t: State) {
    && s.it == t.it && |s.list| == |t.list| && s.up == t.up && s.fade == t.fade
    && Inv(s) && Inv(t) && (forall n: nat :: Supply(s, n) == Supply(t, n))
    && (s.it < |s.list| ==> forall k: nat :: Ahead(s, k) == Ahead(t, k))
  }

  lemma LandsAlike(s: State, v: State, pos: nat)
    requires Inv(s) && Inv(v) && SameFiles(s.list, v.list) && SameSettings(s, v)
    ensures SameAhead(Landing(s, pos), Landing(v, pos))
  {
    hide Start, Seek, Joined, Cyclic, Locate;
    var p := Min(pos, s.length);
    var x, y := Jump(s, p).0, Jump(v, p).0;
    LocateSame(s.list, v.list, 0, Clamp(s, p));
    StartSame(s.list, v.list, x.it);
    JumpKeeps(s, p);
    JumpKeeps(v, p);
    SameTrans(v.list, y.list, y.list);
    JoinedSame(x.list, y.list, |x.list|);
    var a, b := Landing(s, pos), Landing(v, pos);
    assert Inv(a) && Inv(b);
    assert Position(a) == Position(b) && a.fileStart == b.fileStart;
  }

  /** Reading makes no jump of its own. */
  lemma {:induction false} NeverJumps(s: State, buf: seq<Frame>, win: Window, jumped: bool)
    requires Inv(s) && (AtEnd(s) || Live(s)) && Faultless(s.list) && !s.jump
    ensures !Play(s, buf, win, false, jumped).s.jump
    decreases |buf|, Rank(s, false)
  {
    hide Start, LoopPass, Inv, Live, Rank, Faultless, Play, TrackOk;
    if AtEnd(s) || buf == [] {
      PlayNothing(s, buf, win, false, jumped);
    } else {
      PlayStep(s, buf, win, jumped);
      PassGoesOn(s, buf, win, false);
      var p := LoopPass(s, buf, win, false);
      PassJump(s, buf, win);
      NeverJumps(p.s, buf[|p.out|..], win, if p.out == [] then jumped || p.jumped else false);
    }
  }

  lemma PassJump(s: State, buf: seq<Frame>, win: Window)
    requires s.it < |s.list| && TrackOk(Current(s)) && !s.jump
    ensures !LoopPass(s, buf, win, false).s.jump && !LoopPass(s, buf, win, false).jumped
  {
    hide Next, Heard, Gains;
    NextFade(Consumed(Released(s), |buf|, win));
  }

  lemma JumpPass(v: State, buf: seq<Frame>, win: Window)
    requires v.it < |v.list| && TrackOk(Current(v)) && v.down == 0 && v.jump && !v.pause && v.newPosition <= v.length
    ensures var p := LoopPass(v, buf, win, false);
            p.out == [] && p.gains == [] && p.jumped && !p.stop && !p.error && p.s == Landing(v, v.newPosition)
  {
    JumpFade(v, v.newPosition);
  }

  /** What a faded player goes on to deliver: the jump, and what lies ahead of its target. */
  lemma Lands(v: State, buf: seq<Frame>, win: Window)
    requires Inv(v) && !AtEnd(v) && Live(v) && Faultless(v.list) && buf != []
    requires v.down == 0 && v.jump && !v.pause && v.newPosition <= v.length
    ensures var r, u := Play(v, buf, win, false, false), Landing(v, v.newPosition);
            && Inv(u) && !r.s.jump
            && (v.autoplay ==> |r.out| == Supply(u, |buf|) && (r.out != [] ==> u.it < |u.list|)
                               && forall k | 0 <= k < |r.out| :: r.out[k] == Streamed(u, buf, win, k))
  {
    hide Start, LoopPass, Inv, Live, Rank, Faultless, Play, TrackOk, Streamed, Supply, Marks, Jump;
    PlayStep(v, buf, win, false);
    PassGoesOn(v, buf, win, false);
    JumpPass(v, buf, win);
    JumpFade(v, v.newPosition);
    JumpKeeps(v, v.newPosition);
    var u := LoopPass(v, buf, win, false).s;
    assert buf[0..] == buf;
    NeverJumps(u, buf, win, true);
    var rest := Play(u, buf, win, false, true);
    assert [] + rest.out == rest.out;
    if v.autoplay {
      PlaysStream(u, buf, win, true);
      StreamInside(u, rest.out, |buf|);
    }
  }

  lemma StreamInside(s: State, out: seq<Frame>, n: nat)
    requires Inv(s) && |out| == Supply(s, n)
    ensures out != [] ==> s.it < |s.list|
  {
  }

  lemma RequestedIs(s: State, pos: nat)
    requires Inv(s) && !s.pause && s.list != []
    ensures var t := Requested(s, pos);
            && t == s.(down := s.fade, newPosition := Min(pos, s.length), jump := true)
            && Inv(t) && Running(t) && AtEnd(t) == AtEnd(s)
            && (FadeFits(s) <==> !AtEnd(t) && Supply(t, s.fade) == s.fade)
  {
    hide Start;
    if !AtEnd(s) {
      PositionBound(s);
    }
  }

  /** Frame `k` of what follows a seek that was performed. */
  function AfterSeek(s: State, pos: nat, buf: seq<Frame>, win: Window, k: nat): Frame
    requires k < |buf|
  {
    var u := Landing(s, pos);
    if u.it < |u.list| then Streamed(u, buf, win, k) else []
  }

  /** What the fade-down leaves of the request. */
  lemma FadeLeaves(s: State, pos: nat, a: seq<Frame>, win: Window, first: Played)
    requires Inv(s) && !s.pause && s.list != [] && |a| == s.fade
    requires Inv(Requested(s, pos)) && FadeHeard(Requested(s, pos), a, win, first)
    ensures var v := first.s;
            && (FadeFits(s) <==> !AtEnd(v)) && (FadeFits(s) ==> |first.out| == s.fade)
            && |first.out| == Supply(Requested(s, pos), s.fade) <= s.fade
            && v.jump && !v.pause && v.newPosition == Min(pos, s.length) && v.autoplay == s.autoplay
            && (!AtEnd(v) ==> v.down == 0) && v.length == s.length
            && SameFiles(s.list, v.list) && SameSettings(s, v) && Faultless(v.list)
  {
    hide Start, Faultless, Inv;
    RequestedIs(s, pos);
  }

  lemma FadeSounds(t: State, a: seq<Frame>, buf: seq<Frame>, win: Window, first: Played)
    requires Inv(t) && FadeHeard(t, a, win, first) && a <= buf
    ensures first.out != [] ==> t.it < |t.list|
    ensures forall k | 0 <= k < |first.out| :: first.out[k] == Faded(t, buf, win, k)
  {
    hide Inv, Supply, Ahead, Gain, FadedFrom;
    forall k | 0 <= k < |first.out|
      ensures first.out[k] == Faded(t, buf, win, k)
    {
      assert a[k] == buf[k] && first.out[k] == Faded(t, a, win, k);
    }
  }

  lemma SupplySame(s: State, t: State, n: nat)
    requires Inv(s) && Inv(t) && s.list == t.list && s.it == t.it && SameSettings(s, t)
    ensures Supply(s, n) == Supply(t, n)
  {
  }

  lemma LandingAgain(v: State, pos: nat)
    requires v.newPosition == Min(pos, v.length)
    ensures Landing(v, v.newPosition) == Landing(v, pos)
  {
  }

  lemma StreamedAlike(u: State, w: State, buf: seq<Frame>, win: Window, k: nat)
    requires SameAhead(u, w) && w.it < |w.list| && k < |buf|
    ensures u.it < |u.list| && Streamed(u, buf, win, k) == Streamed(w, buf, win, k)
  {
    hide Inv, Ahead, Supply;
  }

  /** A read longer than the fade. */
  lemma SeekLands(s: State, pos: nat, buf: seq<Frame>, win: Window)
    requires Inv(s) && Faultless(s.list) && !s.pause && s.list != [] && s.fade < |buf|
    requires var t := Requested(s, pos); AtEnd(t) || Live(t)
    ensures var r := Play(Requested(s, pos), buf, win, false, false);
            && (!r.s.jump <==> FadeFits(s))
            && (forall k | 0 <= k < |r.out| && k < s.fade :: r.out[k] == Faded(Requested(s, pos), buf, win, k))
    ensures var r := Play(Requested(s, pos), buf, win, false, false);
            !FadeFits(s) ==> AtEnd(r.s) && |r.out| == Supply(s, s.fade)
    ensures var r, u := Play(Requested(s, pos), buf, win, false, false), Landing(s, pos);
            FadeFits(s) ==>
              && Inv(u) && Targeted(s, pos, u) && s.fade <= |r.out|
              && (s.autoplay ==> |r.out| == s.fade + Supply(u, |buf| - s.fade)
                                 && forall k | s.fade <= k < |r.out| ::
                                      r.out[k] == AfterSeek(s, pos, buf[s.fade..], win, k - s.fade))
  {
    hide Start, Inv, Live, Faultless, Play, TrackOk, Faded, Landing, FadeHeard, AfterSeek, FadeFits, Supply, Requested;
    var t, a, b := Requested(s, pos), buf[..s.fade], buf[s.fade..];
    RequestedIs(s, pos);
    FadesOut(t, a, win);
    PlaySplit(t, a, b, win, false);
    assert a + b == buf;
    var first := Play(t, a, win, false, false);
    var v := first.s;
    FadeLeaves(s, pos, a, win, first);
    FadeSounds(t, a, buf, win, first);
    if AtEnd(v) {
      PlayNothing(v, b, win, false, false);
      assert first.out + [] == first.out;
      SupplySame(s, t, s.fade);
    } else {
      LandsAt(s, v, pos, b, win);
      var second := Play(v, b, win, false, false);
      if s.autoplay {
        forall k | s.fade <= k < |first.out + second.out|
          ensures (first.out + second.out)[k] == AfterSeek(s, pos, b, win, k - s.fade)
        {
          assert (first.out + second.out)[k] == second.out[k - s.fade];
        }
      }
    }
  }

  /** The rest of the read, from the faded player on. */
  lemma LandsAt(s: State, v: State, pos: nat, b: seq<Frame>, win: Window)
    requires Inv(s) && Inv(v) && !AtEnd(v) && Live(v) && Faultless(v.list) && b != []
    requires SameFiles(s.list, v.list) && SameSettings(s, v)
    requires v.down == 0 && v.jump && !v.pause && v.newPosition == Min(pos, v.length)
    ensures var r, u := Play(v, b, win, false, false), Landing(s, pos);
            && Inv(u) && Targeted(s, pos, u) && !r.s.jump
            && (s.autoplay ==> |r.out| == Supply(u, |b|) && forall k | 0 <= k < |r.out| :: r.out[k] == AfterSeek(s, pos, b, win, k))
  {
    hide Start, Inv, Live, Faultless, Play, Streamed, Supply, Landing, SameFiles;
    Lands(v, b, win);
    LandsAlike(s, v, pos);
    LandingAgain(v, pos);
    LandingIs(s, pos);
    var r := Play(v, b, win, false, false);
    if s.autoplay {
      forall k | 0 <= k < |r.out|
        ensures r.out[k] == AfterSeek(s, pos, b, win, k)
      {
        StreamedAlike(Landing(s, pos), Landing(v, pos), b, win, k);
      }
    }
  }

  lemma LandingIs(s: State, pos: nat)
    requires Inv(s)
    ensures Inv(Landing(s, pos)) && Targeted(s, pos, Landing(s, pos))
  {
    hide Start, Jump;
    JumpKeeps(s, Min(pos, s.length));
    JumpTargets(s, Min(pos, s.length));
  }

  /** A deferred seek is performed by a read if and only if the read is longer than the fade and
      the fade-down fits before the end of the list, or the list or the file loops. If so the fade
      is heard in full, and then, when files start by themselves, the stream from the position
      asked for, limited to the list. If not, at most the fade is heard. */
  lemma SeekPerformed(s: State, pos: nat, buf: seq<Frame>, win: Window)
    requires Inv(s) && Faultless(s.list) && !s.pause && s.list != []
    requires var t := Requested(s, pos); AtEnd(t) || Live(t)
    ensures var r := Play(Requested(s, pos), buf, win, false, false);
            && (!r.s.jump <==> FadeFits(s) && s.fade < |buf|)
            && (r.s.jump ==> |r.out| == Supply(s, Min(s.fade, |buf|)))
            && (forall k | 0 <= k < |r.out| && k < s.fade :: r.out[k] == Faded(Requested(s, pos), buf, win, k))
    ensures var r, u := Play(Requested(s, pos), buf, win, false, false), Landing(s, pos);
            !r.s.jump ==>
              && Inv(u) && Targeted(s, pos, u) && s.fade <= |r.out|
              && (s.autoplay ==> |r.out| == s.fade + Supply(u, |buf| - s.fade)
                                 && forall k | s.fade <= k < |r.out| ::
                                      r.out[k] == AfterSeek(s, pos, buf[s.fade..], win, k - s.fade))
  {
    hide Start, Inv, Live, Faultless, Play, Jump, FadeHeard, Faded, AfterSeek, FadeFits, Supply;
    if s.fade < |buf| {
      SeekLands(s, pos, buf, win);
    } else {
      var t := Requested(s, pos);
      RequestedIs(s, pos);
      FadesOut(t, buf, win);
      var r := Play(t, buf, win, false, false);
      StillFading(s, pos, buf, win, r);
      FadeSounds(t, buf, buf, win, r);
    }
  }

  lemma StillFading(s: State, pos: nat, buf: seq<Frame>, win: Window, r: Played)
    requires Inv(s) && !s.pause && s.list != [] && Inv(Requested(s, pos)) && FadeHeard(Requested(s, pos), buf, win, r)
    ensures r.s.jump && |r.out| == Supply(s, |buf|)
  {
    hide Start, Inv;
    RequestedIs(s, pos);
    SupplySame(s, Requested(s, pos), |buf|);
  }

  /** The same for any run of reads. */
  lemma SeekPerformedByReads(s: State, pos: nat, bufs: seq<seq<Frame>>, win: Window)
    requires Inv(s) && Faultless(s.list) && !s.pause && s.list != []
    requires var t := Requested(s, pos); Inv(t) && (AtEnd(t) || Live(t))
    ensures !PlayAll(Requested(s, pos), bufs, win).0.jump <==> FadeFits(s) && s.fade < |Concat(bufs)|
  {
    hide Start, Inv, Live, Faultless, Play, Jump, PlayAll;
    RequestedIs(s, pos);
    ReadsAreOne(Requested(s, pos), bufs, win);
    SeekPerformed(s, pos, Concat(bufs), win);
  }

  // ---------------------------------------------------------------------------
  // A change of the fade length
  // ---------------------------------------------------------------------------

  /** The gain of a fade: from silence up to, but not at, full level. */
  predicate Proper(gain: real) { 0.0 <= gain < 1.0 }

  lemma Quotients(a: int, b: int)
    requires 0 < b
    ensures Proper(a as real / b as real) <==> 0 <= a < b
  {
    var q := a as real / b as real;
    assert q * b as real == a as real;
    if a < 0 {
      assert q < 0.0;
    } else if b <= a {
      assert (q - 1.0) * b as real == (a - b) as real;
      assert q >= 1.0;
    } else {
      assert (1.0 - q) * b as real == (b - a) as real;
      assert q >= 0.0 && q < 1.0;
    }
  }

  /** A fade goes on with proper gains under another fade length if and only if it has no more
      frames to go than the new length has. */
  lemma FadeLength(s: State, n: nat)
    requires 0 < n
    ensures 0 < s.down ==>
              ((forall i | 0 <= i < s.down :: Proper(Gain(s.(fade := n), i))) <==> s.down <= n)
    ensures s.down == 0 && 0 < s.up ==>
              ((forall i | 0 <= i < s.up :: Proper(Gain(s.(fade := n), i))) <==> s.up <= n)
  {
    var t := s.(fade := n);
    if 0 < s.down {
      forall i: nat | i < s.down ensures Proper(Gain(t, i)) <==> s.down - 1 - i < n {
        Quotients(s.down - 1 - i, n);
      }
      assert Proper(Gain(t, 0)) <==> s.down - 1 < n;
    } else {
      forall i: nat | i < s.up ensures Proper(Gain(t, i)) <==> 0 <= n - s.up + i {
        Quotients(n - s.up + i, n);
      }
      assert s.up != 0 ==> (Proper(Gain(t, 0)) <==> 0 <= n - s.up);
    }
  }

  /** What is left of a fade-down after its length changed is heard as falling gains of the new
      length, and these are proper if and only if the fade has no more frames to go than that. */
  lemma ChangedFadeDown(s: State, n: nat, buf: seq<Frame>, win: Window)
    requires Inv(s) && !AtEnd(s) && Faultless(s.list) && Running(s) && 0 < n && |buf| <= s.down
    requires Live(s.(fade := n))
    ensures var t := s.(fade := n);
            var r := Play(t, buf, win, false, false);
            && s.it < |s.list|
            && (forall k | 0 <= k < |r.out| :: r.out[k] == Scale(Mix(buf[k], Ahead(s, k), win.channel), Gain(t, k)))
            && (r.out != [] ==> ((forall k | 0 <= k < |r.out| :: Proper(Gain(t, k))) <==> s.down <= n))
  {
    hide Inv, Faultless, Live, Play, Gain, FadedFrom, Supply;
    var t := s.(fade := n);
    NewFadeInv(s, n);
    CurrentOk(s);
    FadesOut(t, buf, win);
    FadeLength(s, n);
    var r := Play(t, buf, win, false, false);
    FadeSounds(t, buf, buf, win, r);
    AheadKept(s, n);
    if r.out != [] && Proper(Gain(t, 0)) {
      FirstDown(s, n);
    }
  }

  lemma NewFadeInv(s: State, n: nat)
    requires Inv(s)
    ensures Inv(s.(fade := n))
  {
  }

  lemma AheadKept(s: State, n: nat)
    requires s.it < |s.list|
    ensures forall k: nat :: Ahead(s.(fade := n), k) == Ahead(s, k)
  {
  }

  lemma FirstDown(s: State, n: nat)
    requires 0 < n && 0 < s.down && Proper(Gain(s.(fade := n), 0))
    ensures s.down <= n
  {
    Quotients(s.down - 1, n);
  }

  /** The same for a fade-in of a steady player. */
  lemma ChangedFadeIn(s: State, n: nat, buf: seq<Frame>, win: Window)
    requires Inv(s) && !AtEnd(s) && Faultless(s.list) && Steady(s) && 0 < n && |buf| <= s.up
    requires Live(s.(fade := n))
    ensures var t := s.(fade := n);
            var r := Play(t, buf, win, false, false);
            && s.it < |s.list|
            && (forall k | 0 <= k < |r.out| :: r.out[k] == Scale(Mix(buf[k], Ahead(s, k), win.channel), Gain(t, k)))
            && (r.out != [] ==> ((forall k | 0 <= k < |r.out| :: Proper(Gain(t, k))) <==> s.up <= n))
  {
    hide Inv, Faultless, Live, Play, Supply;
    var t := s.(fade := n);
    NewFadeInv(s, n);
    CurrentOk(s);
    PlaysStream(t, buf, win, false);
    FadeLength(s, n);
    AheadKept(s, n);
    var r := Play(t, buf, win, false, false);
    if r.out != [] && Proper(Gain(t, 0)) {
      Quotients(n - s.up, n);
    }
  }

  /** Not only at the end of the list: with five frames in it, three of them ahead, and a fade of a
      hundred, a seek to the start is accepted and never performed, however much is read. */
  lemma SeekLostInFade(t: Track, buf: seq<Frame>, win: Window)
    requires |t.frames| == 5 == t.readable && t.pos == 2 && !t.inError
    ensures var s := State([t], 0, 0, 5, 0, 100, 0, 0, true, false, false, false, false, false);
            && Inv(s) && !AtEnd(s) && Live(Requested(s, 0)) && SetPosition(s, 0, false).1
            && var r := Play(Requested(s, 0), buf, win, false, false);
               r.s.jump && |r.out| == Min(3, |buf|)
  {
    hide Play;
    var s := State([t], 0, 0, 5, 0, 100, 0, 0, true, false, false, false, false, false);
    StartZero([t]);
    StartNext([t], 0);
    SeekPerformed(s, 0, buf, win);
  }
}
