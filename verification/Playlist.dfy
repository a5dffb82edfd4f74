/** The playlist object: its fields are moved about by loops, and each method is what the player's
    step function says. */
module Playlist {
  import opened Bytes
  import opened EnhancedFile
  import opened Player
  import opened PlayerRun
  import F = PlayerFacts
  import K = PlayerSeek
  import C = PlayerControls
  import H = PlayerSound

  class Playlist {
    var list: seq<Track>
    var it: nat
    var fileStart: nat
    var length: nat
    var newPosition: nat
    var fadeSamples: nat
    var fadeDown: nat
    var fadeUp: nat
    var autoplay: bool
    var loopAll: bool
    var loopFile: bool
    var pause: bool
    var releasePlayback: bool
    var positionChange: bool

    function View(): State
      reads this
    {
      State(list, it, fileStart, length, newPosition, fadeSamples, fadeDown, fadeUp,
            autoplay, loopAll, loopFile, pause, releasePlayback, positionChange)
    }

    lemma Here()
      ensures View().list == list && View().it == it
    {
    }

    lemma Fields()
      ensures var s := View();
              && s.list == list && s.it == it && s.autoplay == autoplay && s.release == releasePlayback
              && s.pause == pause && s.jump == positionChange && s.newPosition == newPosition
              && s.fade == fadeSamples && s.down == fadeDown && s.up == fadeUp
    {
    }

    constructor ()
      ensures Inv(View()) && FadeOk(View())
      ensures View() == State([], 0, 0, 0, newPosition, 100, 0, 0, true, false, false, false, false, false)
    {
      list, it, fileStart, length, newPosition := [], 0, 0, 0, 0;
      fadeSamples, fadeDown, fadeUp := 100, 0, 0;
      autoplay, loopAll, loopFile := true, false, false;
      pause, releasePlayback, positionChange := false, false, false;
    }

    // -------------------------------------------------------------------------
    // The list
    // -------------------------------------------------------------------------

    /** SetSamplePosition() of the current file. */
    method SeekFile(pos: nat)
      requires it < |list|
      modifies this`list
      ensures list == Seek(old(list), it, pos)
    {
      var t := list[it];
      list := list[it := t.(pos := Min(pos, |t.frames|), inError := false)];
    }

    method Reset()
      modifies this
      ensures View() == Player.Reset(old(View()))
    {
      fileStart := 0;
      fadeDown := 0;
      fadeUp := fadeSamples;
      positionChange := false;
      pause := false;
      releasePlayback := false;
      it := 0;
      if it != |list| {
        SeekFile(0);
      }
    }

    method AddFile(t: Track)
      requires Inv(View()) && TrackOk(t)
      modifies this
      ensures View() == Player.AddFile(old(View()), t) && Inv(View()) && C.AtStart(View())
      ensures F.Joined(list, |list|) == F.Joined(old(list), |old(list)|) + t.frames
    {
      hide Player.AddFile, Start, F.Joined, Inv;
      C.AddedLast(View(), t);
      AddFileIs(View(), t);
      list := list + [t];
      length := length + |t.frames|;
      Reset();
    }

    method Clear()
      modifies this
      ensures View() == Player.Clear(old(View())) && Inv(View())
    {
      while list != []
        invariant View() == old(View()).(list := list)
      {
        list := list[..|list| - 1];
      }
      length := 0;
      Reset();
    }

    method UpdatePlaylistLength()
      modifies this`length
      ensures length == Total(list)
    {
      length := 0;
      for i := 0 to |list|
        invariant length == Start(list, i)
      {
        length := length + |list[i].frames|;
      }
    }

    method Next()
      requires it <= |list|
      modifies this
      ensures View() == Player.Next(old(View()))
    {
      if it != |list| {
        if !loopFile {
          fileStart := fileStart + |list[it].frames|;
          it := it + 1;
          if it == |list| && loopAll {
            it := 0;
            fileStart := 0;
          }
        }
        if it != |list| {
          SeekFile(0);
        }
      }
    }

    // -------------------------------------------------------------------------
    // Positions
    // -------------------------------------------------------------------------

    method GetPlaybackPosition() returns (pos: nat)
      ensures pos == Position(View())
    {
      pos := fileStart;
      if it < |list| { pos := pos + list[it].pos; }
    }

    /** The two loops of SetPlaybackPositionEx: back, then forward. Where they end does not depend
        on where they start. */
    method Walk(pos: nat)
      requires it <= |list| && fileStart == Start(list, it)
      modifies `it, `fileStart
      ensures it == Locate(list, 0, pos) && fileStart == Start(list, it)
    {
      hide Start, Locate;
      while it != 0 && pos < fileStart
        invariant it <= |list| && fileStart == Start(list, it)
        decreases it
      {
        it := it - 1;
        StartNext(list, it);
        fileStart := fileStart - |list[it].frames|;
      }
      while it != |list| && pos >= fileStart + |list[it].frames|
        invariant it <= |list| && fileStart == Start(list, it) && (it == 0 || fileStart <= pos)
        decreases |list| - it
      {
        StartNext(list, it);
        fileStart := fileStart + |list[it].frames|;
        it := it + 1;
      }
      LocateIs(list, it, pos);
    }

    method SetPlaybackPositionEx(newPos: nat) returns (ok: bool)
      requires Inv(View())
      modifies this
      ensures (View(), ok) == Jump(old(View()), newPos) && Inv(View())
      ensures C.Reached(old(View()), newPos, View(), ok)
    {
      hide Start, Inv, Seek, Jump, Locate, K.Targeted;
      ghost var was := View();
      var pos := Min(newPos, if loopAll then Max(0, length - 1) else length);
      InvStart(was);
      JumpIs(was, newPos);
      C.JumpLands(was, newPos);
      Walk(pos);
      InFile(list, it, pos);
      SeekNowhere(list, it, Max(0, pos - fileStart));
      ok := false;
      if it != |list| && fileStart <= pos < fileStart + |list[it].frames| {
        SeekFile(pos - fileStart);
        ok := true;
      }
    }

    method SetPlaybackPosition(newPos: nat, force: bool) returns (ok: bool)
      requires Inv(View())
      modifies this
      ensures (View(), ok) == SetPosition(old(View()), newPos, force) && Inv(View())
      ensures list != [] && (force || pause) ==> C.Reached(old(View()), newPos, View(), ok)
    {
      hide Jump, C.Reached, Inv, SetPosition;
      ghost var was := View();
      C.SetPositionIs(was, newPos, force);
      ok := false;
      var pos := Min(newPos, length);
      if list != [] {
        if force || pause {
          fadeDown := 0;
          positionChange := false;
          assert View() == was.(down := 0, jump := false);
          ok := SetPlaybackPositionEx(pos);
          ghost var t := View();
          if ok {
            fadeUp := fadeSamples;
          }
          assert View() == if ok then t.(up := t.fade) else t;
        } else {
          fadeDown := fadeSamples;
          newPosition := pos;
          positionChange := true;
          ok := true;
        }
      }
    }

    method SetPlaybackIndex(newIndex: nat, fromStart: bool, force: bool) returns (ok: bool)
      requires Inv(View())
      modifies this
      ensures (View(), ok) == SetIndex(old(View()), newIndex, fromStart, force) && Inv(View())
      ensures list != [] ==> C.IndexReached(old(View()), newIndex, fromStart, force, View(), ok)
    {
      hide SetPosition, SetIndex, Inv, C.IndexReached, C.Reached;
      C.SetIndexIs(View(), newIndex, fromStart, force);
      ok := false;
      if list != [] {
        var pos := 0;
        var index := Min(newIndex, |list| - 1);
        for i := 0 to index
          invariant pos == Start(list, i)
        {
          pos := pos + |list[i].frames|;
        }
        if !fromStart && it != |list| {
          pos := Min(pos + list[it].pos, length);
        }
        ok := SetPlaybackPosition(pos, force);
        releasePlayback := true;
      }
    }

    // -------------------------------------------------------------------------
    // Settings
    // -------------------------------------------------------------------------

    method PauseAudio(enable: bool)
      modifies this
      ensures View() == Player.Pause(old(View()), enable)
    {
      if enable != pause {
        if pause {
          fadeUp := fadeSamples;
        } else {
          fadeDown := fadeSamples;
        }
        pause := enable;
      }
    }

    method ReleasePlayback()
      modifies this`releasePlayback
      ensures View() == old(View()).(release := true)
    {
      releasePlayback := true;
    }

    /** The fade length may be changed at any time; a fade under way then keeps proper gains if
        and only if it has no more frames to go than the new length has. */
    method SetFadeSamples(n: nat)
      modifies this`fadeSamples
      ensures View() == old(View()).(fade := n)
      ensures 0 < n && 0 < fadeDown ==>
                ((forall i | 0 <= i < fadeDown :: K.Proper(Gain(View(), i))) <==> fadeDown <= n)
      ensures 0 < n && fadeDown == 0 && 0 < fadeUp ==>
                ((forall i | 0 <= i < fadeUp :: K.Proper(Gain(View(), i))) <==> fadeUp <= n)
    {
      hide Gain, K.Proper;
      ghost var s := View();
      fadeSamples := n;
      if 0 < n {
        K.FadeLength(s, n);
      }
    }

    method EnableLoop(enable: bool)
      modifies this`loopAll
      ensures View() == old(View()).(loopAll := enable)
    {
      loopAll := enable;
    }

    method EnableLoopFile(enable: bool)
      modifies this`loopFile
      ensures View() == old(View()).(loopFile := enable)
    {
      loopFile := enable;
    }

    method EnableAutoPlay(enable: bool)
      modifies this`autoplay
      ensures View() == old(View()).(autoplay := enable)
    {
      autoplay := enable;
    }

    // -------------------------------------------------------------------------
    // Reading
    // -------------------------------------------------------------------------

    /** Copies the channels of the file's next frames into the buffer from `base` on. */
    static method Copy(dst: array<Frame>, base: nat, t: Track, n: nat, win: Window)
      requires base + n <= dst.Length && t.pos + n <= |t.frames|
      modifies dst
      ensures dst[..] == Patched(old(dst[..]), base, Mixed(old(dst[base..base + n]), t, win))
    {
      hide Mix;
      ghost var was := dst[..];
      for i := 0 to n
        invariant forall j | 0 <= j < dst.Length && !(base <= j < base + i) :: dst[j] == was[j]
        invariant forall j | base <= j < base + i :: dst[j] == Mix(was[j], t.frames[t.pos + j - base], win.channel)
      {
        dst[base + i] := Mix(dst[base + i], t.frames[t.pos + i], win.channel);
      }
      assert dst[base..base + n] == Mixed(was[base..base + n], t, win);
    }

    /** ReadSamples() of the current file. */
    method ReadFile(dst: array<Frame>, base: nat, n: nat, win: Window) returns (nread: nat)
      requires it < |list| && TrackOk(list[it]) && base + n <= dst.Length
      modifies this`list, dst
      ensures nread == ReadCount(old(list)[it], n, win) && old(list)[it].pos + nread <= |old(list)[it].frames|
      ensures list == old(list)[it := AfterRead(old(list)[it], n, win)]
      ensures TrackRead(old(list)[it], n, win, old(dst[base..]), nread, list[it], dst[base..])
      ensures dst[..] == Patched(old(dst[..]), base, Mixed(old(dst[base..base + nread]), old(list)[it], win))
    {
      hide Mixed, Patched, ReadCount, AfterRead, TrackRead, Mix;
      var t := list[it];
      AfterReadIs(t, n, win);
      nread := ReadCount(t, n, win);
      CopyReads(t, n, win, dst[..], base);
      Copy(dst, base, t, nread, win);
      list := list[it := AfterRead(t, n, win)];
    }

    /** Multiplies the channels of a buffer frame. */
    static method Fade(f: Frame, mul: real) returns (r: Frame)
      ensures r == Scale(f, mul)
    {
      r := f;
      for j := 0 to |f|
        invariant |r| == |f|
        invariant forall i | 0 <= i < j :: r[i] == f[i] * mul
        invariant forall i | j <= i < |f| :: r[i] == f[i]
      {
        r := r[j := r[j] * mul];
      }
      assert forall i | 0 <= i < |f| :: r[i] == Scale(f, mul)[i];
    }

    /** The loop that fades down what was read. */
    method FadeDown(dst: array<Frame>, base: nat, n: nat)
      requires base + n <= dst.Length && n <= fadeDown && 0 < fadeSamples
      modifies `fadeDown, dst
      ensures fadeDown == old(fadeDown) - n
      ensures dst[..] == Patched(old(dst[..]), base, Scaled(old(dst[base..base + n]), old(View())))
    {
      hide Scale;
      ghost var was := dst[..];
      ghost var s := View();
      for i := 0 to n
        invariant fadeDown == s.down - i
        invariant forall j | 0 <= j < dst.Length && !(base <= j < base + i) :: dst[j] == was[j]
        invariant forall j | base <= j < base + i :: dst[j] == Scale(was[j], Gain(s, j - base))
      {
        var mul := (fadeDown - 1) as real / fadeSamples as real;
        assert mul == Gain(s, i);
        dst[base + i] := Fade(dst[base + i], mul);
        fadeDown := fadeDown - 1;
      }
      assert dst[base..base + n] == Scaled(was[base..base + n], s);
    }

    /** The loop that fades up what was read. */
    method FadeUp(dst: array<Frame>, base: nat, n: nat)
      requires base + n <= dst.Length && n <= fadeUp && fadeDown == 0 && 0 < fadeSamples
      modifies `fadeUp, dst
      ensures fadeUp == old(fadeUp) - n
      ensures dst[..] == Patched(old(dst[..]), base, Scaled(old(dst[base..base + n]), old(View())))
    {
      hide Scale;
      ghost var was := dst[..];
      ghost var s := View();
      for i := 0 to n
        invariant fadeUp == s.up - i
        invariant forall j | 0 <= j < dst.Length && !(base <= j < base + i) :: dst[j] == was[j]
        invariant forall j | base <= j < base + i :: dst[j] == Scale(was[j], Gain(s, j - base))
      {
        var mul := (fadeSamples - fadeUp) as real / fadeSamples as real;
        assert i < n ==> mul == Gain(s, i);
        dst[base + i] := Fade(dst[base + i], mul);
        fadeUp := fadeUp - 1;
      }
      assert dst[base..base + n] == Scaled(was[base..base + n], s);
    }

    /** Fills with silence. */
    static method Fill(dst: array<Frame>, base: nat, n: nat, channels: nat)
      requires base + n <= dst.Length
      modifies dst
      ensures dst[..] == Patched(old(dst[..]), base, Silences(n, channels))
    {
      ghost var was := dst[..];
      for i := 0 to n
        invariant forall j | 0 <= j < dst.Length && !(base <= j < base + i) :: dst[j] == was[j]
        invariant forall j | base <= j < base + i :: dst[j] == Silence(channels)
      {
        dst[base + i] := Silence(channels);
      }
      assert dst[base..base + n] == Silences(n, channels);
    }

    /** Reads from the current file with the fade that is under way. */
    method ReadFaded(dst: array<Frame>, base: nat, frames: nat, win: Window) returns (nread: nat)
      requires it < |list| && TrackOk(list[it]) && base + frames <= dst.Length
      requires fadeSamples == 0 ==> fadeDown == 0 && fadeUp == 0
      modifies this, dst
      ensures nread == ReadCount(Current(old(View())), Asked(old(View()), frames), win) <= frames
      ensures View() == Consumed(old(View()), frames, win)
      ensures Current(old(View())).pos + nread <= |Current(old(View())).frames|
      ensures dst[..] == Patched(old(dst[..]), base, Heard(old(View()), old(dst[base..base + frames]), win, nread))
    {
      hide Heard, Scaled, Patched, Mixed, ReadCount, AfterRead, TrackOk;
      ghost var s, was := View(), dst[..];
      var asked := if fadeDown != 0 then Min(frames, fadeDown) else if fadeUp != 0 then Min(frames, fadeUp) else frames;
      nread := ReadFile(dst, base, asked, win);
      ghost var mixed := Mixed(was[base..base + nread], Current(s), win);
      HeardIs(s, was[base..base + frames], win, nread);
      HeadOf(was, base, frames, nread);
      PatchSlice(was, base, mixed);
      PatchTwice(was, base, mixed, Scaled(mixed, s));
      SameGains(mixed, s, View());
      if fadeDown != 0 {
        FadeDown(dst, base, nread);
      } else if fadeUp != 0 {
        FadeUp(dst, base, nread);
      } else {
        FullGain(mixed, s);
      }
    }

    /** A release is used up when it was what let the playback go on. */
    method ClearRelease(unneeded: bool)
      modifies `releasePlayback
      ensures View() == old(View()).(release := old(releasePlayback) && unneeded)
    {
      releasePlayback := releasePlayback && unneeded;
    }

    /** The deferred jump, made once the audio is faded down. */
    method Land()
      requires Inv(View())
      modifies this
      ensures View() == Jump(old(View()), old(newPosition)).0.(jump := false, up := fadeSamples)
      ensures fadeSamples == old(fadeSamples)
    {
      hide Inv, Jump;
      JumpFade(View(), newPosition);
      var ok := SetPlaybackPositionEx(newPosition);
      positionChange := false;
      fadeUp := fadeSamples;
    }

    /** The end of the loop body: on to the next file if nothing came, or a break if this is the
        second error in a row. */
    method Settle(nread: nat, error: bool) returns (newError: bool, stop: bool)
      requires it < |list|
      modifies this
      ensures stop == (nread == 0 && error && Current(old(View())).inError)
      ensures newError == (stop || Current(old(View())).inError)
      ensures View() == if nread == 0 && !stop then Player.Next(old(View())) else old(View())
    {
      hide Player.Next;
      newError, stop := list[it].inError, false;
      if nread == 0 {
        if error && newError {
          stop := true;
          return;
        }
        Next();
      }
    }

    /** The body of the read loop: `nread` frames are delivered into the buffer from `base` on. */
    method Step(dst: array<Frame>, base: nat, frames: nat, win: Window, error: bool)
      returns (nread: nat, newError: bool, stop: bool, jumped: bool)
      requires Inv(View()) && it != |list| && base + frames <= dst.Length && 0 < frames
      requires fadeSamples == 0 ==> fadeDown == 0 && fadeUp == 0
      modifies this, dst
      ensures old(it) < |old(list)| && TrackOk(old(list)[old(it)])
      ensures var p := LoopPass(old(View()), old(dst[base..base + frames]), win, error);
              && View() == p.s && nread == |p.out| <= frames && stop == p.stop && jumped == p.jumped
              && newError == p.error
              && dst[..] == Patched(old(dst[..]), base, p.out)
    {
      hide Inv, Patched, Heard, Gains, Player.Next, Jump, TrackOk, Consumed, LoopPass, ReadCount, Asked, Silences;
      hide Held, Reads, Released, View;
      Fields();
      ghost var s, was := View(), dst[..];
      ghost var buf := was[base..base + frames];
      CurrentOk(s);
      Cases(s);
      newError, stop, jumped := error, false, false;
      var playAllowed := autoplay || list[it].pos != 0 || positionChange;
      if !playAllowed && !releasePlayback {
        PassSilent(s, buf, win, error);
        nread := frames;
        Fill(dst, base, nread, win.channels);
      } else {
        ClearRelease(playAllowed || pause);
        Fields();
        if fadeDown == 0 && pause {
          PassSilent(s, buf, win, error);
          nread := frames;
          Fill(dst, base, nread, win.channels);
        } else if fadeDown == 0 && positionChange {
          InvReleased(s);
          PassJumps(s, buf, win, error);
          PatchNone(was, base);
          nread := 0;
          jumped := true;
          Land();
          return;
        } else {
          PassReads(s, buf, win, error);
          ConsumedIt(View(), frames, win);
          nread := ReadFaded(dst, base, frames, win);
        }
      }
      Here();
      newError, stop := Settle(nread, error);
    }

    /** Frames are delivered from the start of the buffer until it is full, the list ends or the
        files fail; what is delivered and where it leaves the player is what Play says. */
    method ReadSamples(dst: array<Frame>, frames: nat, win: Window) returns (nframes: nat)
      requires Inv(View()) && (AtEnd(View()) || Live(View())) && frames <= dst.Length
      requires fadeSamples == 0 ==> fadeDown == 0 && fadeUp == 0
      modifies this, dst
      ensures var r := Play(old(View()), old(dst[..frames]), win, false, false);
              && View() == r.s && nframes == |r.out| <= frames
              && dst[..nframes] == r.out && dst[nframes..] == old(dst[nframes..])
              && forall k | 0 <= k < nframes :: r.marks[k].gain == 0.0 ==> H.Silent(dst[k])
      ensures fadeSamples == 0 ==> fadeDown == 0 && fadeUp == 0
    {
      hide Inv, Live, Patched, LoopPass, Play, Rank, View, Onward;
      Fields();
      nframes := 0;
      var error := false;
      ghost var jumped, broke := false, false;
      ghost var s, was, out: seq<Frame> := View(), dst[..], [];
      ghost var all := Play(s, was[..frames], win, false, false);
      PatchNone(was, 0);
      Begins(s, was, frames, win);
      while it != |list| && nframes < frames
        invariant it <= |list| && |out| == nframes <= frames && dst[..] == Patched(was, 0, out)
        invariant fadeSamples == 0 ==> fadeDown == 0 && fadeUp == 0
        invariant View().it == it && View().list == list && View().jump == positionChange
        invariant Onward(all, View(), was, out, frames, win, error, jumped)
        decreases frames - nframes, positionChange, Rank(View(), error)
      {
        Fields();
        ghost var s0 := View();
        Advances(all, s0, was, out, frames, win, error, jumped);
        ghost var p := LoopPass(s0, was[nframes..frames], win, error);
        PatchRest(was, out, frames);
        var nread, newError, stop, jump := Step(dst, nframes, frames - nframes, win, error);
        Fields();
        PatchNext(was, out, p.out);
        out := out + p.out;
        nframes := nframes + nread;
        jumped := if p.out == [] then jumped || p.jumped else false;
        if stop {
          broke := true;
          break;
        }
        error := newError;
      }
      if !broke {
        Ends(all, View(), was, out, frames, win, error, jumped);
      }
      Delivered(s, was, frames, win, dst[..]);
    }
  }

  /** The fade length is changed during a fade-down, and the rest of the fade is read: the frames
      left in the buffer have the gains of the new length, and these are proper if and only if the
      fade had no more frames to go than that. */
  method ReadChangedFade(p: Playlist, n: nat, dst: array<Frame>, frames: nat, win: Window) returns (nframes: nat)
    requires Inv(p.View()) && !AtEnd(p.View()) && Live(p.View()) && Faultless(p.list) && K.Running(p.View())
    requires 0 < n && frames <= dst.Length && frames <= p.fadeDown
    modifies p, dst
    ensures nframes <= frames && old(p.it) < |old(p.list)|
    ensures forall k | 0 <= k < nframes ::
              dst[k] == Scale(Mix(old(dst[k]), F.Ahead(old(p.View()), k), win.channel), Gain(old(p.View()).(fade := n), k))
    ensures 0 < nframes ==>
              ((forall k | 0 <= k < nframes :: K.Proper(Gain(old(p.View()).(fade := n), k))) <==> old(p.fadeDown) <= n)
  {
    hide Inv, Faultless, Play, Gain, Mix, Scale, F.Ahead, K.Proper;
    ghost var s, was := p.View(), dst[..];
    K.NewFadeInv(s, n);
    K.ChangedFadeDown(s, n, was[..frames], win);
    p.SetFadeSamples(n);
    nframes := p.ReadSamples(dst, frames, win);
    ghost var out := Play(s.(fade := n), was[..frames], win, false, false).out;
    forall k | 0 <= k < nframes
      ensures dst[k] == Scale(Mix(was[k], F.Ahead(s, k), win.channel), Gain(s.(fade := n), k))
    {
      assert dst[k] == dst[..nframes][k] == out[k];
    }
  }

  /** A player that was given an empty file and told to loop is one whose read loop never ends. */
  method StuckPlayer(t: Track) returns (p: Playlist)
    requires t.frames == [] && t.readable == 0 && t.pos == 0 && !t.inError
    ensures fresh(p) && Inv(p.View()) && Faultless(p.list) && Stuck(p.View())
  {
    p := new Playlist();
    p.AddFile(t);
    p.EnableLoop(true);
  }

  /** What is played in all is what was delivered so far and what is played from here. */
  ghost predicate Onward(all: Played, s: State, was: seq<Frame>, out: seq<Frame>, frames: nat, win: Window,
                         error: bool, jumped: bool)
  {
    && |out| <= frames <= |was| && Inv(s) && (AtEnd(s) || Live(s))
    && var rest := Play(s, was[|out|..frames], win, error, jumped);
       all.s == rest.s && all.out == out + rest.out
  }

  lemma Begins(s: State, was: seq<Frame>, frames: nat, win: Window)
    requires Inv(s) && (AtEnd(s) || Live(s)) && frames <= |was|
    ensures s.it <= |s.list| && Onward(Play(s, was[..frames], win, false, false), s, was, [], frames, win, false, false)
  {
    hide Live, Play;
    assert was[..frames] == was[0..frames];
    var all := Play(s, was[..frames], win, false, false);
    assert [] + all.out == all.out;
  }

  lemma Advances(all: Played, s: State, was: seq<Frame>, out: seq<Frame>, frames: nat, win: Window,
                 error: bool, jumped: bool)
    requires Onward(all, s, was, out, frames, win, error, jumped) && s.it != |s.list| && |out| < frames
    ensures Inv(s) && s.it < |s.list| && TrackOk(Current(s)) && |out| <= frames <= |was|
    ensures var p := LoopPass(s, was[|out|..frames], win, error);
            && |out| + |p.out| <= frames && (FadeOk(s) ==> FadeOk(p.s)) && p.s.fade == s.fade
            && (p.stop ==> all.s == p.s && all.out == out + p.out)
            && (p.jumped ==> p.out == [] && s.jump && !p.s.jump)
            && (p.out == [] && !p.stop && !p.jumped ==> p.s.jump == s.jump && p.s.it <= |p.s.list| && Rank(p.s, p.error) < Rank(s, error))
    ensures var p := LoopPass(s, was[|out|..frames], win, error);
            !p.stop ==>
              && p.s.it <= |p.s.list|
              && Onward(all, p.s, was, out + p.out, frames, win, p.error, if p.out == [] then jumped || p.jumped else false)
  {
    hide Live, Play, LoopPass, TrackOk, Rank;
    var buf := was[|out|..frames];
    PlayUnfolds(s, buf, win, error, jumped);
    PassKeeps(s, buf, win, error);
    var p := LoopPass(s, buf, win, error);
    assert was[|out + p.out|..frames] == buf[|p.out|..];
    if !p.stop {
      var rest := Play(p.s, buf[|p.out|..], win, p.error, if p.out == [] then jumped || p.jumped else false);
      assert out + (p.out + rest.out) == out + p.out + rest.out;
    }
  }

  /** The buffer after a read: the delivered frames, and the rest as it was. */
  lemma Delivered(s: State, was: seq<Frame>, frames: nat, win: Window, now: seq<Frame>)
    requires Inv(s) && (AtEnd(s) || Live(s)) && frames <= |was|
    requires now == Patched(was, 0, Play(s, was[..frames], win, false, false).out)
    ensures var r := Play(s, was[..frames], win, false, false);
            && |r.out| <= frames && now[..|r.out|] == r.out && now[|r.out|..] == was[|r.out|..]
            && forall k | 0 <= k < |r.out| :: r.marks[k].gain == 0.0 ==> H.Silent(now[k])
  {
    hide Inv, Live, Play, H.Silent;
    var r := Play(s, was[..frames], win, false, false);
    forall k | 0 <= k < |r.out| && r.marks[k].gain == 0.0
      ensures H.Silent(now[k])
    {
      H.ZeroIsSilent(s, was[..frames], win, k);
      assert now[k] == r.out[k];
    }
  }

  lemma Ends(all: Played, s: State, was: seq<Frame>, out: seq<Frame>, frames: nat, win: Window, error: bool, jumped: bool)
    requires Onward(all, s, was, out, frames, win, error, jumped) && (s.it == |s.list| || |out| == frames)
    ensures all.s == s && all.out == out
  {
    hide Live, Play, Inv;
    F.PlayNothing(s, was[|out|..frames], win, error, jumped);
  }

  /** A buffer with `out` written over it from `base` on. */
  function Patched(buf: seq<Frame>, base: nat, out: seq<Frame>): (r: seq<Frame>)
    requires base + |out| <= |buf|
    ensures |r| == |buf|
  {
    buf[..base] + out + buf[base + |out|..]
  }

  /** Copying into a part of the buffer is a read of the track into it. */
  lemma CopyReads(t: Track, n: nat, win: Window, buf: seq<Frame>, base: nat)
    requires TrackOk(t) && base + n <= |buf|
    ensures var k := ReadCount(t, n, win);
            && t.pos + k <= |t.frames|
            && TrackRead(t, n, win, buf[base..], k, AfterRead(t, n, win),
                         Patched(buf, base, Mixed(buf[base..base + k], t, win))[base..])
  {
    hide Mix;
  }

  lemma HeadOf(buf: seq<Frame>, base: nat, n: nat, k: nat)
    requires base + n <= |buf| && k <= n
    ensures buf[base..base + n][..k] == buf[base..base + k]
  {
  }

  lemma PatchSlice(buf: seq<Frame>, base: nat, out: seq<Frame>)
    requires base + |out| <= |buf|
    ensures Patched(buf, base, out)[base..base + |out|] == out
  {
  }

  lemma PatchTwice(buf: seq<Frame>, base: nat, first: seq<Frame>, second: seq<Frame>)
    requires base + |first| <= |buf| && |second| == |first|
    ensures Patched(Patched(buf, base, first), base, second) == Patched(buf, base, second)
  {
  }

  lemma PatchNone(buf: seq<Frame>, base: nat)
    ensures base <= |buf| ==> Patched(buf, base, []) == buf
  {
  }

  lemma PatchRest(buf: seq<Frame>, out: seq<Frame>, n: nat)
    requires |out| <= n <= |buf|
    ensures Patched(buf, 0, out)[|out|..n] == buf[|out|..n]
  {
  }

  lemma PatchNext(buf: seq<Frame>, first: seq<Frame>, second: seq<Frame>)
    requires |first| + |second| <= |buf|
    ensures Patched(Patched(buf, 0, first), |first|, second) == Patched(buf, 0, first + second)
  {
  }

  lemma ConsumedIt(s: State, n: nat, win: Window)
    requires s.it < |s.list| && TrackOk(Current(s))
    ensures var t := Consumed(s, n, win);
            t.it == s.it && |t.list| == |s.list|
  {
  }

  lemma PlayUnfolds(s: State, buf: seq<Frame>, win: Window, error: bool, jumped: bool)
    requires Inv(s) && !AtEnd(s) && Live(s) && buf != []
    ensures s.it < |s.list| && TrackOk(Current(s))
    ensures var p := LoopPass(s, buf, win, error);
            && Inv(p.s) && (AtEnd(p.s) || Live(p.s)) && p.s.it <= |p.s.list| && |p.out| == |p.gains| <= |buf|
            && (p.jumped ==> p.out == [] && s.jump && !p.s.jump)
            && (p.out == [] && !p.stop && !p.jumped ==> p.s.jump == s.jump && Rank(p.s, p.error) < Rank(s, error))
            && var r := Play(s, buf, win, error, jumped);
               if p.stop then r.s == p.s && r.out == p.out
               else
                 var rest := Play(p.s, buf[|p.out|..], win, p.error, if p.out == [] then jumped || p.jumped else false);
                 r.s == rest.s && r.out == p.out + rest.out
  {
    hide Start, LoopPass, Inv, Live, Rank, Marks, TrackOk;
    PassGoesOn(s, buf, win, error);
  }

  /** Buffer frames with the frames at the file's position copied into them. */
  function Mixed(buf: seq<Frame>, t: Track, win: Window): (r: seq<Frame>)
    requires t.pos + |buf| <= |t.frames|
    ensures |r| == |buf|
  {
    seq(|buf|, i requires 0 <= i < |buf| => Mix(buf[i], t.frames[t.pos + i], win.channel))
  }

  /** Frames with the gains of a fade applied. */
  function Scaled(fs: seq<Frame>, s: State): (r: seq<Frame>)
    ensures |r| == |fs|
  {
    seq(|fs|, i requires 0 <= i < |fs| => Scale(fs[i], Gain(s, i)))
  }

  lemma HeardIs(s: State, buf: seq<Frame>, win: Window, k: nat)
    requires s.it < |s.list| && k <= |buf| && Current(s).pos + k <= |Current(s).frames|
    ensures Heard(s, buf, win, k) == Scaled(Mixed(buf[..k], Current(s), win), s)
  {
    hide Mix, Scale, Gain;
  }

  lemma SameGains(fs: seq<Frame>, s: State, t: State)
    requires s.fade == t.fade && s.down == t.down && s.up == t.up
    ensures Scaled(fs, s) == Scaled(fs, t)
  {
    assert forall i: nat :: Gain(s, i) == Gain(t, i);
  }

  lemma FullGain(fs: seq<Frame>, s: State)
    requires s.down == 0 && s.up == 0
    ensures Scaled(fs, s) == fs
  {
    forall i | 0 <= i < |fs| ensures Scale(fs[i], 1.0) == fs[i] {
      forall j | 0 <= j < |fs[i]| ensures Scale(fs[i], 1.0)[j] == fs[i][j] {}
    }
  }

  lemma AddFileIs(s: State, t: Track)
    ensures Player.AddFile(s, t) == Player.Reset(s.(list := s.list + [t], length := s.length + |t.frames|))
  {
  }

  lemma AfterReadIs(t: Track, n: nat, win: Window)
    requires TrackOk(t)
    ensures t.pos + ReadCount(t, n, win) <= |t.frames|
  {
  }

  lemma InvStart(s: State)
    requires Inv(s)
    ensures s.it <= |s.list| && s.fileStart == Start(s.list, s.it)
  {
  }

  /** The place where the walk ends is the one that Locate finds. */
  lemma LocateIs(list: seq<Track>, i: nat, pos: nat)
    requires i <= |list| && (i == 0 || Start(list, i) <= pos)
    requires i < |list| ==> pos < Start(list, i) + |list[i].frames|
    ensures i == Locate(list, 0, pos)
  {
    hide Start, Locate;
    if i < |list| {
      StartNext(list, i);
      LocateUnique(list, pos, i);
    } else if i != 0 {
      LocateUnique(list, pos, 0);
    } else {
      LocateEmpty(list, pos);
    }
  }

  lemma InFile(list: seq<Track>, i: nat, pos: nat)
    requires i == Locate(list, 0, pos)
    ensures i < |list| ==> Start(list, i) <= pos < Start(list, i) + |list[i].frames|
  {
    hide Locate;
    LocateFinds(list, 0, pos);
    StartZero(list);
    if i < |list| {
      StartNext(list, i);
    }
  }

  lemma LocateEmpty(list: seq<Track>, pos: nat)
    ensures list == [] ==> Locate(list, 0, pos) == 0
  {
  }

  lemma JumpIs(s: State, pos: nat)
    requires Inv(s)
    ensures Inv(Jump(s, pos).0)
    ensures var p := Clamp(s, pos);
            var i := Locate(s.list, 0, p);
            Jump(s, pos) == (s.(it := i, fileStart := Start(s.list, i), list := Seek(s.list, i, Max(0, p - Start(s.list, i)))), i < |s.list|)
  {
    hide Inv, Start, Seek, Locate;
    JumpKeeps(s, pos);
  }

  lemma SeekNowhere(list: seq<Track>, i: nat, pos: nat)
    ensures |list| <= i ==> Seek(list, i, pos) == list
  {
  }
}
