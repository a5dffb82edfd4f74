/** Where each control takes the player, said without the player's own functions. */
module PlayerControls {
  import opened Bytes
  import opened EnhancedFile
  import opened Player
  import opened PlayerRun
  import opened PlayerFacts
  import opened PlayerSeek

  // ---------------------------------------------------------------------------
  // Seeking
  // ---------------------------------------------------------------------------

  /** The frame that stands at the position is that of the joined files. */
  predicate StandsAt(s: State, files: seq<Frame>) {
    s.it < |s.list| && Current(s).pos < |Current(s).frames| && Position(s) < |files|
    && Current(s).frames[Current(s).pos] == files[Position(s)]
  }

  /** A seek inside the list goes to the position asked for; one beyond it goes to the end, and
      fails, or to the last frame when the list loops. Only the file that is reached is moved. */
  lemma JumpLands(s: State, pos: nat)
    requires Inv(s)
    ensures var (t, ok) := Jump(s, pos);
            && Inv(t) && Targeted(s, pos, t)
            && (ok <==> pos < s.length || (s.loopAll && 0 < s.length))
            && (ok ==> StandsAt(t, Joined(s.list, |s.list|)) && !Current(t).inError)
            && (!ok ==> AtEnd(t) && t.list == s.list)
            && |t.list| == |s.list| && forall k | 0 <= k < |t.list| && k != t.it :: t.list[k] == s.list[k]
  {
    hide Start, Joined, Targeted;
    var (t, ok) := Jump(s, pos);
    JumpKeeps(s, pos);
    JumpTargets(s, pos);
    if ok {
      JoinedAt(t.list, |t.list|, t.it, Current(t).pos);
      JoinedSame(s.list, t.list, |s.list|);
      StartGrows(t.list, t.it, |t.list|);
    }
  }

  /** The file and the read position of a successful seek. */
  lemma JumpFile(s: State, pos: nat, i: nat)
    requires Inv(s) && i < |s.list| && Start(s.list, i) <= pos < Start(s.list, i) + |s.list[i].frames|
    ensures var (t, ok) := Jump(s, pos);
            ok && t.it == i && Current(t).pos == pos - Start(s.list, i) && t.fileStart == Start(s.list, i)
  {
    hide Start;
    StartNext(s.list, i);
    LocateUnique(s.list, pos, i);
    StartGrows(s.list, i + 1, |s.list|);
    SeekKeeps(s.list, i, pos - Start(s.list, i));
  }

  /** The outcome of a seek that is performed at once. */
  predicate Reached(s: State, pos: nat, t: State, ok: bool) {
    Targeted(s, pos, t) && (ok <==> pos < s.length || (s.loopAll && 0 < s.length))
  }

  /** A forced seek, or one while paused, is performed at once: any fade-down and any pending seek
      are over, and the player is at the target with a fade-in ahead if it could go there. */
  lemma ForcedSeek(s: State, pos: nat, force: bool)
    requires Inv(s) && s.list != [] && (force || s.pause)
    ensures var (t, ok) := SetPosition(s, pos, force);
            && Inv(t) && Reached(s, pos, t, ok) && t.down == 0 && !t.jump && t.pause == s.pause && SameSettings(s, t)
            && (ok ==> StandsAt(t, Joined(s.list, |s.list|)) && t.up == s.fade)
  {
    hide Start, Jump, Joined;
    var s1 := s.(down := 0, jump := false);
    JumpLands(s1, Min(pos, s.length));
    JumpFade(s1, Min(pos, s.length));
    JumpKeeps(s1, Min(pos, s.length));
  }

  /** The steps of SetPlaybackPosition(), each keeping the invariant. */
  lemma SetPositionIs(s: State, pos: nat, force: bool)
    requires Inv(s)
    ensures s.list == [] ==> SetPosition(s, pos, force) == (s, false)
    ensures Inv(s.(down := 0, jump := false))
    ensures s.list != [] && (force || s.pause) ==>
              var (t, ok) := Jump(s.(down := 0, jump := false), Min(pos, s.length));
              SetPosition(s, pos, force) == (if ok then t.(up := t.fade) else t, ok)
    ensures s.list != [] && !force && !s.pause ==>
              SetPosition(s, pos, force) == (s.(down := s.fade, newPosition := Min(pos, s.length), jump := true), true)
    ensures Inv(SetPosition(s, pos, force).0) && (s.list == [] ==> s.it == 0)
    ensures var (t, ok) := SetPosition(s, pos, force);
            s.list != [] && (force || s.pause) ==> Reached(s, pos, t, ok)
  {
    hide Start, Jump, Joined, Reached;
    if s.list != [] && (force || s.pause) {
      ForcedSeek(s, pos, force);
    }
    JumpKeeps(s.(down := 0, jump := false), Min(pos, s.length));
  }

  // ---------------------------------------------------------------------------
  // Choosing a file
  // ---------------------------------------------------------------------------

  /** The file that an index stands for: the last one if there are fewer. */
  function Chosen(s: State, index: nat): (i: nat)
    requires s.list != []
    ensures i < |s.list|
  {
    if index < |s.list| then index else |s.list| - 1
  }

  /** The position that an index asks for: the start of the file, or as far into it, perhaps beyond
      it, as the current file is played. */
  function AskedFor(s: State, index: nat, fromStart: bool): nat
    requires s.list != []
  {
    var before := |Joined(s.list, Chosen(s, index))|;
    if fromStart || |s.list| <= s.it then before
    else Min(before + Current(s).pos, |Joined(s.list, |s.list|)|)
  }

  /** Where a request for a file takes the player: it is a seek to the position asked for, at once or
      deferred, and releases a held player; at once and from the start it is at the first frame of
      the file. */
  predicate IndexReached(s: State, index: nat, fromStart: bool, force: bool, t: State, ok: bool)
    requires s.list != []
  {
    var pos := AskedFor(s, index, fromStart);
    && t.release
    && (force || s.pause ==>
          Reached(s, pos, t, ok) && t.down == 0 && !t.jump)
    && ((force || s.pause) && (fromStart || AtEnd(s)) && s.list[Chosen(s, index)].frames != [] ==>
          ok && t.it == Chosen(s, index) && t.it < |t.list| && Current(t).pos == 0 && t.up == s.fade)
    && (!force && !s.pause ==> ok && t == Requested(s.(release := true), pos))
  }

  /** The request limits nothing beyond the seek. */
  lemma AskedForIs(s: State, index: nat, fromStart: bool)
    requires Inv(s) && s.list != []
    ensures var start := Start(s.list, Chosen(s, index));
            AskedFor(s, index, fromStart)
            == if !fromStart && s.it < |s.list| then Min(start + Current(s).pos, s.length) else start
  {
    hide Start;
  }

  lemma IndexLands(s: State, index: nat, fromStart: bool, force: bool)
    requires Inv(s) && s.list != []
    ensures var (t, ok) := SetIndex(s, index, fromStart, force);
            IndexReached(s, index, fromStart, force, t, ok) && Inv(t)
  {
    hide Inv, Start, SetPosition, Joined, AskedFor, Reached, Requested;
    var pos := AskedFor(s, index, fromStart);
    AskedForIs(s, index, fromStart);
    SetPositionIs(s, pos, force);
    var (t, ok) := SetPosition(s, pos, force);
    InvReleased(t);
    if force || s.pause {
      AtOnce(s, pos, force);
      if (fromStart || AtEnd(s)) && s.list[Chosen(s, index)].frames != [] {
        FirstFrame(s, Chosen(s, index), force);
      }
    } else {
      DeferredReleased(s, pos, force);
    }
  }

  lemma InvReleased(s: State)
    requires Inv(s)
    ensures Inv(s.(release := true))
  {
  }

  lemma AtOnce(s: State, pos: nat, force: bool)
    requires Inv(s) && s.list != [] && (force || s.pause)
    ensures var (t, ok) := SetPosition(s, pos, force);
            Reached(s, pos, t.(release := true), ok) && t.down == 0 && !t.jump
  {
    hide Start, SetPosition, Targeted, Joined, Inv;
    ForcedSeek(s, pos, force);
    TargetedReleased(s, pos, SetPosition(s, pos, force).0);
  }

  lemma TargetedReleased(s: State, pos: nat, t: State)
    requires Targeted(s, pos, t)
    ensures Targeted(s, pos, t.(release := true))
  {
  }

  lemma DeferredReleased(s: State, pos: nat, force: bool)
    requires s.list != [] && !s.pause && !force
    ensures var (t, ok) := SetPosition(s, pos, force);
            ok && t.(release := true) == Requested(s.(release := true), pos)
  {
    hide Start, Jump;
  }

  /** Seeking at once to where a file starts. */
  lemma FirstFrame(s: State, i: nat, force: bool)
    requires Inv(s) && s.list != [] && (force || s.pause) && i < |s.list| && s.list[i].frames != []
    ensures var (t, ok) := SetPosition(s, Start(s.list, i), force);
            ok && t.it == i && t.it < |t.list| && Current(t).pos == 0 && t.up == s.fade
  {
    hide Start, Jump;
    var pos := Start(s.list, i);
    StartGrows(s.list, i + 1, |s.list|);
    StartNext(s.list, i);
    SetPositionIs(s, pos, force);
    JumpFile(s.(down := 0, jump := false), pos, i);
    JumpKeeps(s.(down := 0, jump := false), pos);
    JumpFade(s.(down := 0, jump := false), pos);
  }

  lemma SetIndexIs(s: State, index: nat, fromStart: bool, force: bool)
    requires Inv(s)
    ensures s.list == [] ==> SetIndex(s, index, fromStart, force) == (s, false)
    ensures s.list != [] ==>
              var start := Start(s.list, Min(index, |s.list| - 1));
              var pos := if !fromStart && s.it < |s.list| then Min(start + Current(s).pos, s.length) else start;
              var (t, ok) := SetPosition(s, pos, force);
              SetIndex(s, index, fromStart, force) == (t.(release := true), ok)
              && IndexReached(s, index, fromStart, force, t.(release := true), ok)
    ensures Inv(SetIndex(s, index, fromStart, force).0) && s.it <= |s.list|
  {
    hide SetPosition, Start, IndexReached;
    if s.list != [] {
      IndexLands(s, index, fromStart, force);
    }
  }

  // ---------------------------------------------------------------------------
  // Adding files, starting over
  // ---------------------------------------------------------------------------

  /** The player stands at the first frame of the list, with a fade-in ahead and no request left. */
  predicate AtStart(s: State) {
    && s.it == 0 && Position(s) == 0 && s.down == 0 && s.up == s.fade
    && !s.jump && !s.pause && !s.release
    && (s.list != [] ==> Current(s).pos == 0 && !Current(s).inError)
  }

  lemma ResetStarts(s: State)
    requires Inv(s)
    ensures Inv(Reset(s)) && AtStart(Reset(s)) && SameFiles(s.list, Reset(s).list) && SameSettings(s, Reset(s))
    ensures forall k | 0 < k < |s.list| :: Reset(s).list[k] == s.list[k]
  {
    ResetKeeps(s);
  }

  /** A file that is added is heard after those added before, and the player starts over. */
  lemma AddedLast(s: State, t: Track)
    requires Inv(s) && TrackOk(t)
    ensures var r := AddFile(s, t);
            && Inv(r) && AtStart(r) && |r.list| == |s.list| + 1 && r.length == s.length + |t.frames|
            && Joined(r.list, |r.list|) == Joined(s.list, |s.list|) + t.frames
            && r.fade == s.fade && r.autoplay == s.autoplay && r.loopAll == s.loopAll && r.loopFile == s.loopFile
  {
    hide Start;
    var r := AddFile(s, t);
    AddFileKeeps(s, t);
    JoinedSame(r.list, s.list + [t], |s.list| + 1);
    JoinedPrefix(s.list, t, |s.list|);
  }

  lemma {:induction false} JoinedPrefix(list: seq<Track>, t: Track, i: nat)
    requires i <= |list|
    ensures Joined(list + [t], i) == Joined(list, i)
  {
    if i != 0 {
      JoinedPrefix(list, t, i - 1);
    }
  }

  lemma ClearedOut(s: State)
    ensures Inv(Clear(s)) && AtStart(Clear(s)) && Clear(s).list == [] && Clear(s).length == 0
  {
  }

  /** What a player started over has ahead: the list from its first frame, or its first file. */
  lemma AheadOfStart(s: State, k: nat)
    requires Inv(s) && AtStart(s) && s.list != []
    ensures s.loopFile && k < |s.list[0].frames| ==> Ahead(s, k) == s.list[0].frames[k]
    ensures !s.loopFile && k < |Joined(s.list, |s.list|)| ==> Ahead(s, k) == Joined(s.list, |s.list|)[k]
  {
    CyclicShift(s.list[0].frames, k);
    CyclicShift(Joined(s.list, |s.list|), k);
  }
}
