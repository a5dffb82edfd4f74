/** The read loop of the player: when it ends, and what it has then delivered. */
module PlayerRun {
  import opened Bytes
  import opened EnhancedFile
  import opened Player

  // ---------------------------------------------------------------------------
  // Positions and files
  // ---------------------------------------------------------------------------

  lemma {:induction false} StartGrows(list: seq<Track>, i: nat, j: nat)
    requires i <= j <= |list|
    ensures Start(list, i) <= Start(list, j)
    ensures i < j ==> Start(list, i) + |list[i].frames| <= Start(list, j)
  {
    if i < j {
      StartGrows(list, i, j - 1);
    }
  }

  /** Positions do not depend on where each file stands. */
  lemma {:induction false} StartSame(xs: seq<Track>, ys: seq<Track>, i: nat)
    requires i <= |xs| == |ys| && forall k | 0 <= k < |xs| :: xs[k].frames == ys[k].frames
    ensures Start(xs, i) == Start(ys, i)
  {
    if i != 0 {
      StartSame(xs, ys, i - 1);
    }
  }

  lemma {:induction false} LocateFinds(list: seq<Track>, i: nat, pos: nat)
    requires i <= |list|
    requires i == 0 || Start(list, i) <= pos
    ensures var j := Locate(list, i, pos);
            && (j == 0 || Start(list, j) <= pos)
            && (j < |list| ==> pos < Start(list, j + 1))
    decreases |list| - i
  {
    if !(i == |list| || pos < Start(list, i + 1)) {
      LocateFinds(list, i + 1, pos);
    }
  }

  /** A position lies in exactly one file, and no file has it exactly when it is the total or more. */
  lemma LocateUnique(list: seq<Track>, pos: nat, i: nat)
    requires i < |list|
    ensures Start(list, i) <= pos < Start(list, i + 1) <==> i == Locate(list, 0, pos)
    ensures Locate(list, 0, pos) == |list| <==> Total(list) <= pos
  {
    LocateFinds(list, 0, pos);
    var j := Locate(list, 0, pos);
    if j < |list| { StartGrows(list, j + 1, |list|); }
    if i < j { StartGrows(list, i + 1, j); }
    if j < i { StartGrows(list, j + 1, i); }
  }

  lemma SeekKeeps(list: seq<Track>, i: nat, pos: nat)
    requires forall k | 0 <= k < |list| :: TrackOk(list[k])
    ensures var r := Seek(list, i, pos);
            && (forall k | 0 <= k < |r| :: TrackOk(r[k]) && r[k].frames == list[k].frames && r[k].readable == list[k].readable
                  && (k != i ==> r[k] == list[k]))
            && (i < |list| ==> r[i].pos == Min(pos, |list[i].frames|) && !r[i].inError)
  {
  }

  // ---------------------------------------------------------------------------
  // What every operation keeps
  // ---------------------------------------------------------------------------

  /** The same files, at other positions perhaps. */
  ghost predicate SameFiles(xs: seq<Track>, ys: seq<Track>) {
    |xs| == |ys| && forall k | 0 <= k < |xs| :: xs[k].frames == ys[k].frames && xs[k].readable == ys[k].readable
  }

  /** The settings that only the caller changes. */
  predicate SameSettings(s: State, t: State) {
    s.autoplay == t.autoplay && s.loopAll == t.loopAll && s.loopFile == t.loopFile && s.fade == t.fade && s.length == t.length
  }

  lemma InvFrom(s: State, t: State)
    requires Inv(s) && SameFiles(s.list, t.list) && s.length == t.length
    requires t.it <= |t.list| && t.fileStart == Start(s.list, t.it)
    requires forall i | 0 <= i < |t.list| :: TrackOk(t.list[i])
    ensures Inv(t)
  {
    StartSame(s.list, t.list, t.it);
    StartSame(s.list, t.list, |t.list|);
  }

  /** The file that Next goes to. */
  function NextIndex(s: State): nat {
    if s.loopFile then s.it else if s.it + 1 == |s.list| && s.loopAll then 0 else s.it + 1
  }

  lemma NextIs(s: State)
    requires s.it < |s.list|
    ensures var t, i := Next(s), NextIndex(s);
            && i <= |s.list| && t.it == i && t.list == Seek(s.list, i, 0)
            && t.fileStart == (if s.loopFile then s.fileStart else if i == 0 then 0 else s.fileStart + |Current(s).frames|)
            && t.down == s.down && t.up == s.up && t.jump == s.jump && t.pause == s.pause && t.release == s.release
            && SameSettings(s, t)
  {
  }

  lemma NextKeeps(s: State)
    requires Inv(s)
    ensures Inv(Next(s)) && SameFiles(s.list, Next(s).list) && SameSettings(s, Next(s))
    ensures Next(s).it < |s.list| ==> Current(Next(s)).pos == 0 && !Current(Next(s)).inError
  {
    hide Start, Next, Seek;
    var t := Next(s);
    if !AtEnd(s) {
      NextIs(s);
      StartNext(s.list, s.it);
      SeekKeeps(s.list, NextIndex(s), 0);
      InvFrom(s, t);
    } else {
      NextAtEnd(s);
    }
  }

  lemma NextAtEnd(s: State)
    requires AtEnd(s)
    ensures Next(s) == s
  {
  }

  lemma StartZero(list: seq<Track>)
    ensures Start(list, 0) == 0
  {
  }

  lemma StartNext(list: seq<Track>, i: nat)
    requires i < |list|
    ensures Start(list, 0) == 0 && Start(list, i + 1) == Start(list, i) + |list[i].frames|
  {
  }

  /** Wherever it starts from, a jump ends at the file that holds the limited position, and the
      position reported afterwards is that position; it fails exactly at the end. */
  lemma JumpKeeps(s: State, pos: nat)
    requires Inv(s)
    ensures var (t, ok) := Jump(s, pos);
            && Inv(t) && SameFiles(s.list, t.list) && SameSettings(s, t)
            && Position(t) == Clamp(s, pos)
            && ok == (t.it < |t.list|) == (Clamp(s, pos) < s.length)
            && (ok ==> Current(t).pos < |Current(t).frames| && !Current(t).inError)
  {
    hide Start;
    var p := Clamp(s, pos);
    var i := Locate(s.list, 0, p);
    LocateFinds(s.list, 0, p);
    StartGrows(s.list, i, |s.list|);
    SeekKeeps(s.list, i, Max(0, p - Start(s.list, i)));
    InvFrom(s, Jump(s, pos).0);
    if i < |s.list| {
      StartNext(s.list, i);
      StartGrows(s.list, i + 1, |s.list|);
    }
    StartZero(s.list);
  }

  lemma ConsumedKeeps(s: State, n: nat, win: Window)
    requires Inv(s) && s.it < |s.list|
    ensures var t := Consumed(s, n, win);
            Inv(t) && SameFiles(s.list, t.list) && SameSettings(s, t) && t.it == s.it
  {
    hide Start;
    assert TrackOk(Current(s));
    InvFrom(s, Consumed(s, n, win));
  }

  ghost predicate Kept(s: State, buf: seq<Frame>, p: Pass) {
    && Inv(p.s) && SameFiles(s.list, p.s.list) && SameSettings(s, p.s)
    && |p.out| == |p.gains| <= |buf|
    && (FadeOk(s) ==> FadeOk(p.s))
  }

  lemma ReadPassKeeps(s: State, buf: seq<Frame>, win: Window, error: bool)
    requires Inv(s) && !AtEnd(s)
    ensures Kept(s, buf, ReadPass(s, buf, win, error))
  {
    hide Next, Start, Heard, Consumed, SameFiles, Inv;
    CurrentOk(s);
    var s1 := Consumed(s, |buf|, win);
    ConsumedKeeps(s, |buf|, win);
    ConsumedFade(s, |buf|, win);
    NextKeeps(s1);
    NextFade(s1);
    SameTrans(s.list, s1.list, Next(s1).list);
  }

  lemma CurrentOk(s: State)
    requires Inv(s) && !AtEnd(s)
    ensures s.it < |s.list| && TrackOk(Current(s))
  {
  }

  /** The state in which a pass that is not held goes on. */
  function Released(s: State): State
    requires s.it < |s.list|
  {
    s.(release := s.release && (Allowed(s) || s.pause))
  }

  /** The cases of a pass. */
  lemma Cases(s: State)
    requires s.it < |s.list|
    ensures Held(s) <==> !(s.autoplay || Current(s).pos != 0 || s.jump) && !s.release
    ensures Reads(s) <==> 0 < s.down || (!s.pause && !s.jump)
    ensures Released(s) == s.(release := s.release && (s.autoplay || Current(s).pos != 0 || s.jump || s.pause))
  {
  }

  lemma PassSilent(s: State, buf: seq<Frame>, win: Window, error: bool)
    requires s.it < |s.list| && TrackOk(Current(s)) && (Held(s) || (s.down == 0 && s.pause))
    ensures var p := LoopPass(s, buf, win, error);
            && p.s == (if Held(s) then s else Released(s)) && p.out == Silences(|buf|, win.channels) && p.gains == seq(|buf|, _ => 0.0)
            && p.error == Current(s).inError && !p.stop && !p.jumped
  {
    hide TrackOk, Silences;
  }

  lemma PassJumps(s: State, buf: seq<Frame>, win: Window, error: bool)
    requires s.it < |s.list| && TrackOk(Current(s)) && !Held(s) && s.down == 0 && !s.pause && s.jump
    ensures var p := LoopPass(s, buf, win, error);
            && p.s == Jump(Released(s), s.newPosition).0.(jump := false, up := s.fade)
            && p.out == [] && p.gains == [] && p.error == error && !p.stop && p.jumped
  {
    hide Jump, TrackOk;
  }

  lemma PassReads(s: State, buf: seq<Frame>, win: Window, error: bool)
    requires s.it < |s.list| && TrackOk(Current(s)) && !Held(s) && (0 < s.down || (!s.pause && !s.jump))
    ensures var p, s1 := LoopPass(s, buf, win, error), Released(s);
            var k, s2 := ReadCount(Current(s1), Asked(s1, |buf|), win), Consumed(s1, |buf|, win);
            && s2.it == s.it < |s2.list| && k <= |buf| && Current(s1).pos + k <= |Current(s1).frames|
            && p.out == Heard(s1, buf, win, k) && p.gains == Gains(s1, k) && !p.jumped
            && p.stop == (k == 0 && error && Current(s2).inError)
            && p.error == (p.stop || Current(s2).inError)
            && p.s == if k == 0 && !p.stop then Next(s2) else s2
  {
    hide Next;
  }

  lemma InvReleased(s: State)
    requires Inv(s) && !AtEnd(s)
    ensures s.it < |s.list| && Inv(Released(s))
  {
  }

  /** One pass keeps the start offset right and the files and settings as they are. */
  lemma PassKeeps(s: State, buf: seq<Frame>, win: Window, error: bool)
    requires Inv(s) && !AtEnd(s)
    ensures Kept(s, buf, LoopPass(s, buf, win, error))
  {
    hide Jump, ReadPass, Start, SameFiles;
    var s1 := Released(s);
    SameRefl(s.list);
    CurrentOk(s);
    if !Held(s) {
      if Reads(s1) {
        ReadPassKeeps(s1, buf, win, error);
      } else {
        JumpKeeps(s1, s1.newPosition);
        JumpFade(s1, s1.newPosition);
      }
    }
  }

  lemma SameRefl(xs: seq<Track>)
    ensures SameFiles(xs, xs)
  {
  }

  lemma SameTrans(xs: seq<Track>, ys: seq<Track>, zs: seq<Track>)
    requires SameFiles(xs, ys) && SameFiles(ys, zs)
    ensures SameFiles(xs, zs)
  {
  }

  lemma ConsumedFade(s: State, n: nat, win: Window)
    requires s.it < |s.list| && TrackOk(Current(s))
    ensures FadeOk(s) ==> FadeOk(Consumed(s, n, win))
  {
  }

  lemma NextFade(s: State)
    ensures var t := Next(s);
            && t.down == s.down && t.up == s.up && t.fade == s.fade
            && t.jump == s.jump && t.pause == s.pause && t.release == s.release && t.newPosition == s.newPosition
  {
  }

  lemma JumpFade(s: State, pos: nat)
    ensures var t := Jump(s, pos).0;
            && t.down == s.down && t.up == s.up && t.fade == s.fade
            && t.jump == s.jump && t.pause == s.pause && t.release == s.release && t.newPosition == s.newPosition
  {
  }

  // ---------------------------------------------------------------------------
  // Termination
  // ---------------------------------------------------------------------------

  predicate Filled(list: seq<Track>) { forall i | 0 <= i < |list| :: list[i].frames != [] }
  predicate Empty(list: seq<Track>) { forall i | 0 <= i < |list| :: list[i].frames == [] }
  predicate Faultless(list: seq<Track>) {
    forall i | 0 <= i < |list| :: list[i].readable == |list[i].frames| && !list[i].inError
  }

  /** Looping goes around without a frame to play. */
  predicate Starved(s: State)
    requires s.it < |s.list|
  {
    if s.loopFile then Current(s).frames == [] else s.loopAll && Empty(s.list)
  }

  /** The player goes on starting files by itself. */
  predicate Driven(s: State) { s.autoplay || s.jump || (s.release && s.pause) }

  /** The read loop never ends from here. */
  predicate Stuck(s: State) { s.it < |s.list| && Reads(s) && Driven(s) && Starved(s) }

  /** The read loop ends: no file is empty, or no file has faults and the player is not stuck. */
  predicate Live(s: State) { Filled(s.list) || (Faultless(s.list) && !Stuck(s)) }

  /** The first file that is not empty. */
  function FirstFilled(list: seq<Track>, i: nat): (f: nat)
    requires i <= |list|
    ensures i <= f <= |list|
    ensures f < |list| ==> list[f].frames != []
    ensures forall k | i <= k < f :: list[k].frames == []
    decreases |list| - i
  {
    if i == |list| || list[i].frames != [] then i else FirstFilled(list, i + 1)
  }

  function Spent(t: Track): nat { if t.pos == |t.frames| then 1 else 0 }

  /** How many passes in a row can still pass without a frame, a jump or a break. */
  function Rank(s: State, error: bool): nat
    requires s.it <= |s.list|
  {
    if AtEnd(s) then 0
    else if Filled(s.list) then (if Spent(Current(s)) == 1 then 3 else if error then 1 else 2)
    else if Starved(s) then (if s.release then 2 else 1)
    else if s.loopFile then 1 + Spent(Current(s))
    else if !s.loopAll then 1 + |s.list| - s.it
    else
      var f := FirstFilled(s.list, 0);
      if s.it < f || (s.it == f && Spent(Current(s)) == 0) then 1 + Max(0, f - s.it) else 1 + Max(0, |s.list| - s.it) + f
  }

  /** A read of nothing leaves everything but the error flag. */
  lemma SpentPass(s: State, n: nat, win: Window)
    requires s.it < |s.list| && TrackOk(Current(s)) && 0 < n
    requires ReadCount(Current(s), Asked(s, n), win) == 0
    ensures var t := Current(s);
            && Consumed(s, n, win) == s.(list := s.list[s.it := t.(inError := t.inError || t.pos < |t.frames|)])
            && (t.readable == |t.frames| ==> t.pos == |t.frames|)
  {
  }

  lemma RankFilled(s: State, s2: State, error: bool)
    requires s.it < |s.list| && Filled(s.list) && TrackOk(Current(s))
    requires s2.list == s.list[s.it := Current(s).(inError := Current(s).inError || Current(s).pos < |Current(s).frames|)]
    requires s2.it == s.it && s2.loopFile == s.loopFile && s2.loopAll == s.loopAll
    requires !(error && Current(s2).inError)
    ensures var p := Next(s2);
            p.it <= |p.list| && Rank(p, Current(s2).inError) < Rank(s, error)
  {
    hide Seek, Filled, Next, NextIndex;
    var p, i := Next(s2), NextIndex(s2);
    NextIs(s2);
    SeekSame(s2.list, i);
    FilledSame(s.list, p.list);
    FilledAt(s.list, s.it);
    if i < |s.list| { FilledAt(p.list, i); }
  }

  lemma FilledAt(list: seq<Track>, i: nat)
    requires Filled(list) && i < |list|
    ensures list[i].frames != []
  {
  }

  lemma FilledSame(xs: seq<Track>, ys: seq<Track>)
    requires |xs| == |ys| && forall k | 0 <= k < |xs| :: xs[k].frames == ys[k].frames
    ensures Filled(xs) == Filled(ys)
  {
    if Filled(xs) {
      assert forall k | 0 <= k < |ys| :: xs[k].frames != [];
    }
    if Filled(ys) {
      assert forall k | 0 <= k < |xs| :: ys[k].frames != [];
    }
  }

  lemma RankFaultless(s: State, error: bool)
    requires s.it < |s.list| && Faultless(s.list) && !Filled(s.list) && TrackOk(Current(s))
    requires Current(s).pos == |Current(s).frames| && Reads(s) && !Held(s) && !Stuck(s)
    ensures var p := Next(Released(s));
            p.it <= |p.list| && Rank(p, false) < Rank(s, error)
  {
    hide Seek, Next, Faultless, FirstFilled;
    var s1 := Released(s);
    var p, i := Next(s1), NextIndex(s1);
    NextIs(s1);
    SeekSame(s.list, i);
    FilledSame(s.list, p.list);
    EmptySame(s.list, p.list);
    FirstFilledSame(s.list, p.list, 0);
    if s.loopAll && !s.loopFile && !Empty(s.list) {
      SomeFilled(s.list);
    }
  }

  lemma SomeFilled(list: seq<Track>)
    requires !Empty(list)
    ensures FirstFilled(list, 0) < |list| && list[FirstFilled(list, 0)].frames != []
  {
    var k :| 0 <= k < |list| && list[k].frames != [];
  }

  lemma SeekSame(list: seq<Track>, i: nat)
    ensures var r := Seek(list, i, 0);
            (forall k | 0 <= k < |list| :: r[k].frames == list[k].frames) && (i < |list| ==> r[i].pos == 0)
  {
  }

  lemma EmptySame(xs: seq<Track>, ys: seq<Track>)
    requires |xs| == |ys| && forall k | 0 <= k < |xs| :: xs[k].frames == ys[k].frames
    ensures Empty(xs) == Empty(ys)
  {
    if Empty(xs) {
      assert forall k | 0 <= k < |ys| :: xs[k].frames == [];
    }
    if Empty(ys) {
      assert forall k | 0 <= k < |xs| :: ys[k].frames == [];
    }
  }

  lemma {:induction false} FirstFilledSame(xs: seq<Track>, ys: seq<Track>, i: nat)
    requires i <= |xs| == |ys| && forall k | 0 <= k < |xs| :: xs[k].frames == ys[k].frames
    ensures FirstFilled(xs, i) == FirstFilled(ys, i)
    decreases |xs| - i
  {
    if i < |xs| && xs[i].frames == [] {
      FirstFilledSame(xs, ys, i + 1);
    }
  }

  /** A pass that delivers nothing, does not jump and does not break off moves to the next file,
      and cannot do so for ever. */
  lemma EmptyPass(s: State, buf: seq<Frame>, win: Window, error: bool)
    requires Inv(s) && !AtEnd(s) && Live(s) && buf != []
    ensures var p := LoopPass(s, buf, win, error);
            p.out == [] && !p.stop && !p.jumped ==>
              p.s.jump == s.jump && p.s.it <= |p.s.list| && Rank(p.s, p.error) < Rank(s, error)
  {
    hide Start, Heard, Gains, Inv, Next, Rank, Jump, Stuck, LoopPass, TrackOk, Consumed, Starved, Filled, Faultless, Held, Reads, Asked, ReadCount;
    CurrentOk(s);
    Cases(s);
    var p := LoopPass(s, buf, win, error);
    if Held(s) || (s.down == 0 && s.pause) {
      PassSilent(s, buf, win, error);
    } else if s.down == 0 && s.jump {
      PassJumps(s, buf, win, error);
    } else {
      PassReads(s, buf, win, error);
      if p.out == [] && !p.stop {
        var s2 := Consumed(Released(s), |buf|, win);
        EmptyRead(s, |buf|, win);
        NextFade(s2);
        if Filled(s.list) {
          RankFilled(s, s2, error);
        } else {
          FaultlessCurrent(s);
          RankFaultless(s, error);
        }
      }
    }
  }

  /** A read of nothing by a pass that is not held. */
  lemma EmptyRead(s: State, n: nat, win: Window)
    requires s.it < |s.list| && TrackOk(Current(s)) && 0 < n
    requires ReadCount(Current(s), Asked(Released(s), n), win) == 0
    ensures var s2, t := Consumed(Released(s), n, win), Current(s);
            && s2.list == s.list[s.it := t.(inError := t.inError || t.pos < |t.frames|)]
            && s2.it == s.it && s2.loopFile == s.loopFile && s2.loopAll == s.loopAll && s2.jump == s.jump
            && Current(s2).inError == (t.inError || t.pos < |t.frames|)
    ensures Current(s).readable == |Current(s).frames| && !Current(s).inError ==>
              Consumed(Released(s), n, win) == Released(s) && Current(s).pos == |Current(s).frames|
  {
    SpentPass(Released(s), n, win);
  }

  lemma FaultlessCurrent(s: State)
    ensures s.it < |s.list| && Faultless(s.list) ==> Current(s).readable == |Current(s).frames| && !Current(s).inError
  {
  }

  lemma FaultlessRead(s: State, n: nat, win: Window)
    requires s.it < |s.list| && Faultless(s.list) && TrackOk(Current(s))
    ensures Faultless(Consumed(s, n, win).list)
  {
  }

  lemma FaultlessSeek(list: seq<Track>, i: nat, pos: nat)
    requires Faultless(list)
    ensures Faultless(Seek(list, i, pos))
  {
  }

  lemma StaysFaultless(s: State, buf: seq<Frame>, win: Window, error: bool)
    requires Inv(s) && !AtEnd(s) && Faultless(s.list)
    ensures var p := LoopPass(s, buf, win, error);
            Faultless(p.s.list) && !p.stop && (!error ==> !p.error)
  {
    hide Start, Heard, Gains, Inv, Seek, Faultless, AfterRead, Next, NextIndex;
    CurrentOk(s);
    var s1 := Released(s);
    FaultlessAt(s.list, s.it);
    FaultlessRead(s1, |buf|, win);
    var s2 := Consumed(s1, |buf|, win);
    FaultlessAt(s2.list, s.it);
    NextIs(s2);
    FaultlessSeek(s2.list, NextIndex(s2), 0);
    var p := Clamp(s1, s1.newPosition);
    var j := Locate(s.list, 0, p);
    FaultlessSeek(s.list, j, Max(0, p - Start(s.list, j)));
  }

  lemma FaultlessAt(list: seq<Track>, i: nat)
    requires Faultless(list) && i < |list|
    ensures list[i].readable == |list[i].frames| && !list[i].inError
  {
  }

  lemma StaysFree(s: State, buf: seq<Frame>, win: Window, error: bool)
    requires Inv(s) && !AtEnd(s) && Faultless(s.list) && !Stuck(s) && buf != []
    ensures var p := LoopPass(s, buf, win, error);
            AtEnd(p.s) || !Stuck(p.s)
  {
    hide Start, Heard, Gains, Inv, Jump, Next, Consumed;
    CurrentOk(s);
    var s1 := Released(s);
    if !Held(s) && Reads(s1) {
      var k := ReadCount(Current(s1), Asked(s1, |buf|), win);
      var s2 := Consumed(s1, |buf|, win);
      if k == 0 {
        SpentPass(s1, |buf|, win);
        assert s2 == s1;
        FreeNext(s);
      } else {
        FreeRead(s1, |buf|, win);
      }
    } else if !Held(s) && !s1.pause {
      JumpKeeps(s1, s1.newPosition);
      var t := Jump(s1, s1.newPosition).0;
      assert t.it < |t.list| ==> Current(t).frames != [];
    }
  }

  lemma FreeRead(s: State, n: nat, win: Window)
    requires s.it < |s.list| && TrackOk(Current(s)) && Faultless(s.list)
    requires ReadCount(Current(s), Asked(s, n), win) != 0
    ensures !Starved(s) && !Stuck(Consumed(s, n, win))
  {
    hide Faultless, AfterRead;
    FaultlessAt(s.list, s.it);
    var t := Consumed(s, n, win);
    assert Current(s).frames != [] && Current(t).frames == Current(s).frames;
    assert t.list[s.it].frames != [];
  }

  lemma FreeNext(s: State)
    requires Inv(s) && !AtEnd(s) && !Stuck(s)
    ensures var t := Next(Released(s));
            AtEnd(t) || !Stuck(t)
  {
    hide Start, Inv, Next, Seek;
    CurrentOk(s);
    var s1 := Released(s);
    NextIs(s1);
    SeekSame(s.list, NextIndex(s1));
    EmptySame(s.list, Next(s1).list);
  }

  /** The loop goes on as long as it is live. */
  lemma StaysLive(s: State, buf: seq<Frame>, win: Window, error: bool)
    requires Inv(s) && !AtEnd(s) && Live(s) && buf != []
    ensures var p := LoopPass(s, buf, win, error);
            AtEnd(p.s) || Live(p.s)
    ensures Faultless(s.list) ==> Faultless(LoopPass(s, buf, win, error).s.list)
  {
    hide Start, Heard, Inv, Rank;
    hide LoopPass, Stuck, Faultless;
    PassKeeps(s, buf, win, error);
    if Faultless(s.list) {
      StaysFaultless(s, buf, win, error);
    }
    if !Filled(s.list) {
      StaysFree(s, buf, win, error);
    }
  }

  // ---------------------------------------------------------------------------
  // The whole loop
  // ---------------------------------------------------------------------------

  /** A delivered frame: its gain, and whether a deferred jump came just before it. */
  datatype Mark = Mark(gain: real, jumped: bool)

  function Marks(gains: seq<real>, jumped: bool): (ms: seq<Mark>)
    ensures |ms| == |gains|
  {
    seq(|gains|, i requires 0 <= i < |gains| => Mark(gains[i], jumped && i == 0))
  }

  /** The result of a read: the new state, the frames and their marks, and whether the loop
      broke off on an error. */
  datatype Played = Played(s: State, out: seq<Frame>, marks: seq<Mark>, broke: bool)

  /** What the recursion below needs to know about a pass. */
  lemma PassGoesOn(s: State, buf: seq<Frame>, win: Window, error: bool)
    requires Inv(s) && !AtEnd(s) && Live(s) && buf != []
    ensures s.it < |s.list| && TrackOk(Current(s))
    ensures var p := LoopPass(s, buf, win, error);
            && Inv(p.s) && (AtEnd(p.s) || Live(p.s)) && p.s.it <= |p.s.list| && |p.out| == |p.gains| <= |buf|
            && (p.jumped ==> p.out == [] && s.jump && !p.s.jump)
            && (p.out == [] && !p.stop && !p.jumped ==> p.s.jump == s.jump && Rank(p.s, p.error) < Rank(s, error))
  {
    hide Start, Live, Rank, LoopPass, TrackOk;
    CurrentOk(s);
    PassKeeps(s, buf, win, error);
    StaysLive(s, buf, win, error);
    EmptyPass(s, buf, win, error);
    PassDecreases(s, buf, win, error);
  }

  /** ReadSamples(): passes until the buffer is full, the list ends or the loop breaks off. */
  function Play(s: State, buf: seq<Frame>, win: Window, error: bool, jumped: bool): (r: Played)
    requires Inv(s) && (AtEnd(s) || Live(s))
    ensures Inv(r.s) && (AtEnd(r.s) || Live(r.s)) && |r.out| == |r.marks| <= |buf|
    ensures |r.out| < |buf| ==> AtEnd(r.s) || r.broke
    decreases |buf|, s.jump, Rank(s, error)
  {
    if AtEnd(s) || buf == [] then Played(s, [], [], false)
    else
      PassGoesOn(s, buf, win, error);
      var p := LoopPass(s, buf, win, error);
      if p.stop then Played(p.s, p.out, Marks(p.gains, jumped), true)
      else
        var rest := Play(p.s, buf[|p.out|..], win, p.error, if p.out == [] then jumped || p.jumped else false);
        Played(rest.s, p.out + rest.out, Marks(p.gains, jumped) + rest.marks, rest.broke)
  }

  lemma PassDecreases(s: State, buf: seq<Frame>, win: Window, error: bool)
    requires Inv(s) && !AtEnd(s) && Live(s) && buf != []
    ensures var p := LoopPass(s, buf, win, error);
            p.jumped ==> p.out == [] && s.jump && !p.s.jump
  {
    hide Start, Heard, Gains, Inv, Jump, Next, Consumed;
    CurrentOk(s);
  }
}
