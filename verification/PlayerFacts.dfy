/** What a listener and a caller can rely on. */
module PlayerFacts {
  import opened Bytes
  import opened EnhancedFile
  import opened Player
  import opened PlayerRun
  import M = Blocks

  // ---------------------------------------------------------------------------
  // When the loop does not end
  // ---------------------------------------------------------------------------

  /** A stuck player stays stuck: the pass delivers nothing and does not break off. */
  lemma StuckPass(s: State, buf: seq<Frame>, win: Window)
    requires Inv(s) && Faultless(s.list) && Stuck(s) && buf != []
    ensures var p := LoopPass(s, buf, win, false);
            && p.out == [] && !p.stop && !p.error && Inv(p.s) && Faultless(p.s.list) && Stuck(p.s)
  {
    hide Start, Heard, Gains, Inv, Next, Consumed, Faultless;
    CurrentOk(s);
    PassKeeps(s, buf, win, false);
    StaysFaultless(s, buf, win, false);
    FaultlessAt(s.list, s.it);
    var s1 := Released(s);
    assert Current(s1).frames == [];
    SpentPass(s1, |buf|, win);
    assert Consumed(s1, |buf|, win) == s1;
    NextIs(s1);
    SeekSame(s.list, NextIndex(s1));
    EmptySame(s.list, Next(s1).list);
  }

  /** The player after `n` passes over the same buffer. */
  function Passes(s: State, buf: seq<Frame>, win: Window, n: nat): State
    requires Inv(s) && Faultless(s.list) && Stuck(s) && buf != []
    decreases n
  {
    if n == 0 then s
    else
      StuckPass(s, buf, win);
      CurrentOk(s);
      Passes(LoopPass(s, buf, win, false).s, buf, win, n - 1)
  }

  /** Without faulty files the read loop runs for ever from exactly the stuck states: here no
      number of passes ends it or delivers a frame; everywhere else Play is its result. */
  lemma {:induction false} StuckForEver(s: State, buf: seq<Frame>, win: Window, n: nat)
    requires Inv(s) && Faultless(s.list) && Stuck(s) && buf != []
    ensures Stuck(Passes(s, buf, win, n)) && !AtEnd(Passes(s, buf, win, n))
    ensures Inv(Passes(s, buf, win, n)) && Faultless(Passes(s, buf, win, n).list)
    ensures LoopPass(Passes(s, buf, win, n), buf, win, false).out == []
    ensures !LoopPass(Passes(s, buf, win, n), buf, win, false).stop
    decreases n
  {
    hide LoopPass, Start, Faultless, Inv;
    StuckPass(s, buf, win);
    CurrentOk(s);
    if n != 0 {
      StuckForEver(LoopPass(s, buf, win, false).s, buf, win, n - 1);
    }
  }

  // ---------------------------------------------------------------------------
  // Splitting a read
  // ---------------------------------------------------------------------------

  lemma ReadShort(s: State, a: seq<Frame>, b: seq<Frame>, win: Window)
    requires s.it < |s.list| && TrackOk(Current(s)) && Faultless(s.list)
    requires |ReadPass(s, a, win, false).out| < |a|
    ensures ReadPass(s, a + b, win, false) == ReadPass(s, a, win, false)
  {
    hide Next;
    FaultlessAt(s.list, s.it);
    var k := ReadCount(Current(s), Asked(s, |a|), win);
    assert ReadCount(Current(s), Asked(s, |a + b|), win) == k;
    assert Consumed(s, |a + b|, win) == Consumed(s, |a|, win);
    assert k != 0 ==> Heard(s, a + b, win, k) == Heard(s, a, win, k);
  }

  /** A pass that falls short of its buffer would fall short of a longer one just so. */
  lemma PassShort(s: State, a: seq<Frame>, b: seq<Frame>, win: Window)
    requires Inv(s) && !AtEnd(s) && Faultless(s.list)
    requires s.it < |s.list| && TrackOk(Current(s)) && |LoopPass(s, a, win, false).out| < |a|
    ensures LoopPass(s, a + b, win, false) == LoopPass(s, a, win, false)
  {
    hide Start, ReadPass, Jump, Inv;
    if Reads(Released(s)) && !Held(s) {
      ReadShort(Released(s), a, b, win);
    }
  }

  /** What the rest of a longer pass looks like from where a shorter one stopped. */
  ghost predicate Resumes(p: Pass, q: Pass, r: Pass) {
    && |q.out| == |q.gains| && |p.out| == |p.gains| && |r.out| == |r.gains|
    && p.out == q.out + r.out && p.gains == q.gains + r.gains && p.s == r.s
    && !p.stop && !q.stop && !r.stop && !p.error && !q.error && !r.error && !p.jumped && !q.jumped && !r.jumped
  }

  /** Reading on from where a full read stopped: the counts, the fades and the states add up. */
  lemma ReadOn(s: State, m: nat, n: nat, win: Window)
    requires s.it < |s.list| && TrackOk(Current(s)) && Faultless(s.list) && 0 < m
    requires m == ReadCount(Current(s), Asked(s, m), win) < ReadCount(Current(s), Asked(s, m + n), win)
    ensures var t, k := Consumed(s, m, win), ReadCount(Current(s), Asked(s, m + n), win);
            && t.it == s.it < |t.list| && TrackOk(Current(t)) && Reads(t) == Reads(s)
            && Current(t).pos == Current(s).pos + m && Current(t).frames == Current(s).frames
            && ReadCount(Current(t), Asked(t, n), win) == k - m
            && Consumed(s, m + n, win) == Consumed(t, n, win)
            && !Current(t).inError && !Current(Consumed(t, n, win)).inError
            && forall i: nat | i < k - m :: Gain(t, i) == Gain(s, m + i)
  {
    FaultlessAt(s.list, s.it);
  }

  lemma HeardOn(s: State, t: State, a: seq<Frame>, b: seq<Frame>, win: Window, k: nat)
    requires s.it < |s.list| && t.it < |t.list| && Current(t).frames == Current(s).frames
    requires Current(t).pos == Current(s).pos + |a| && |a| < k <= |a + b|
    requires Current(s).pos + k <= |Current(s).frames|
    requires forall i: nat | i < k - |a| :: Gain(t, i) == Gain(s, |a| + i)
    ensures Heard(s, a + b, win, k) == Heard(s, a, win, |a|) + Heard(t, b, win, k - |a|)
    ensures Gains(s, k) == Gains(s, |a|) + Gains(t, k - |a|)
  {
    hide Mix, Scale, Gain;
    forall i | 0 <= i < k
      ensures Heard(s, a + b, win, k)[i] == (Heard(s, a, win, |a|) + Heard(t, b, win, k - |a|))[i]
      ensures Gains(s, k)[i] == (Gains(s, |a|) + Gains(t, k - |a|))[i]
    {
      if |a| <= i {
        assert (a + b)[i] == b[i - |a|];
        assert Gain(t, i - |a|) == Gain(s, |a| + (i - |a|));
      }
    }
  }

  lemma ReadSame(s: State, a: seq<Frame>, b: seq<Frame>, win: Window)
    requires s.it < |s.list| && TrackOk(Current(s))
    requires |a| == ReadCount(Current(s), Asked(s, |a|), win) == ReadCount(Current(s), Asked(s, |a + b|), win)
    requires Faultless(s.list)
    ensures Heard(s, a + b, win, |a|) == Heard(s, a, win, |a|)
    ensures Consumed(s, |a + b|, win) == Consumed(s, |a|, win)
  {
    hide Mix, Scale, Gain, Faultless;
    FaultlessAt(s.list, s.it);
  }

  /** A read that delivers: the pass, with its parts named. */
  lemma ReadsOut(s: State, buf: seq<Frame>, win: Window)
    requires s.it < |s.list| && TrackOk(Current(s)) && Faultless(s.list)
    ensures var p, k := ReadPass(s, buf, win, false), ReadCount(Current(s), Asked(s, |buf|), win);
            && |p.out| == |p.gains| == k <= |buf| && Current(s).pos + k <= |Current(s).frames|
            && (k != 0 ==> p == Pass(Consumed(s, |buf|, win), Heard(s, buf, win, k), Gains(s, k), false, false, false))
  {
    hide Next, Heard, Gains, Faultless;
    FaultlessAt(s.list, s.it);
  }

  lemma ConsumedMore(s: State, n: nat, win: Window)
    requires s.it < |s.list| && TrackOk(Current(s))
    ensures var t := Consumed(s, n, win);
            && t.it == s.it < |t.list| && TrackOk(Current(t))
            && Current(t).pos == Current(s).pos + ReadCount(Current(s), Asked(s, n), win)
  {
  }

  lemma ReadLong(s: State, a: seq<Frame>, b: seq<Frame>, win: Window)
    requires s.it < |s.list| && TrackOk(Current(s)) && Faultless(s.list) && a != []
    requires |ReadPass(s, a, win, false).out| == |a|
    ensures var p, q := ReadPass(s, a + b, win, false), ReadPass(s, a, win, false);
            && q.s.it == s.it < |q.s.list| && TrackOk(Current(q.s)) && Current(q.s).pos == Current(s).pos + |a|
            && (|p.out| == |a| ==> p == q)
            && (|p.out| != |a| ==> Resumes(p, q, ReadPass(q.s, b, win, false)) && Reads(q.s) == Reads(s))
  {
    hide ReadPass, Heard, Gains, Faultless, Consumed, Asked, ReadCount, TrackOk, Reads;
    var t := Consumed(s, |a|, win);
    var k := ReadCount(Current(s), Asked(s, |a + b|), win);
    ReadsOut(s, a, win);
    ReadsOut(s, a + b, win);
    ConsumedMore(s, |a|, win);
    if k == |a| {
      ReadSame(s, a, b, win);
    } else {
      MoreAsked(s, |a|, |a + b|, win);
      ReadOn(s, |a|, |b|, win);
      HeardOn(s, t, a, b, win, k);
      KeepsFaultless(s, |a|, win);
      ReadsOut(t, b, win);
    }
  }

  lemma KeepsFaultless(s: State, n: nat, win: Window)
    requires s.it < |s.list| && TrackOk(Current(s)) && Faultless(s.list)
    ensures Faultless(Consumed(s, n, win).list)
  {
    FaultlessRead(s, n, win);
  }

  lemma MoreAsked(s: State, m: nat, n: nat, win: Window)
    requires s.it < |s.list| && m <= n && m == ReadCount(Current(s), Asked(s, m), win)
    ensures m <= ReadCount(Current(s), Asked(s, n), win)
  {
  }

  /** A pass that fills its buffer stops in the middle of a longer one. */
  lemma PassLong(s: State, a: seq<Frame>, b: seq<Frame>, win: Window)
    requires Inv(s) && !AtEnd(s) && Faultless(s.list) && a != []
    requires s.it < |s.list| && TrackOk(Current(s)) && |LoopPass(s, a, win, false).out| == |a|
    ensures var p, q := LoopPass(s, a + b, win, false), LoopPass(s, a, win, false);
            && q.s.it < |q.s.list| && TrackOk(Current(q.s))
            && (|p.out| == |a| ==> p == q)
            && (|p.out| != |a| ==> Resumes(p, q, LoopPass(q.s, b, win, false)))
  {
    hide Start, ReadPass, Jump, Inv, Faultless;
    FaultlessAt(s.list, s.it);
    assert |a| != 0;
    var s1 := Released(s);
    if Held(s) {
      assert a + b == a || b != [];
    } else if Reads(s1) {
      ReadLong(s1, a, b, win);
      var q := ReadPass(s1, a, win, false);
      LongState(s1, a, win);
    }
  }

  lemma LongState(s: State, a: seq<Frame>, win: Window)
    requires s.it < |s.list| && TrackOk(Current(s)) && |ReadPass(s, a, win, false).out| == |a| && a != []
    ensures var t := ReadPass(s, a, win, false).s;
            && t.autoplay == s.autoplay && t.jump == s.jump && t.pause == s.pause && t.release == s.release
  {
  }

  lemma PlayStep(s: State, buf: seq<Frame>, win: Window, jumped: bool)
    requires Inv(s) && !AtEnd(s) && Live(s) && Faultless(s.list) && buf != []
    ensures s.it < |s.list| && TrackOk(Current(s))
    ensures var p := LoopPass(s, buf, win, false);
            && !p.stop && !p.error && Inv(p.s) && (AtEnd(p.s) || Live(p.s)) && Faultless(p.s.list)
            && |p.out| == |p.gains| <= |buf|
            && var rest := Play(p.s, buf[|p.out|..], win, false, if p.out == [] then jumped || p.jumped else false);
               Play(s, buf, win, false, jumped)
               == Played(rest.s, p.out + rest.out, Marks(p.gains, jumped) + rest.marks, rest.broke)
  {
    hide Start, LoopPass, Inv, Live, Rank, Faultless, Marks, TrackOk;
    PassGoesOn(s, buf, win, false);
    StaysFaultless(s, buf, win, false);
  }

  lemma PlayNothing(s: State, buf: seq<Frame>, win: Window, error: bool, jumped: bool)
    requires Inv(s) && (AtEnd(s) || Live(s)) && (AtEnd(s) || buf == [])
    ensures Play(s, buf, win, error, jumped) == Played(s, [], [], false)
  {
  }

  lemma MarksSplit(xs: seq<real>, ys: seq<real>, jumped: bool)
    requires xs != []
    ensures Marks(xs + ys, jumped) == Marks(xs, jumped) + Marks(ys, false)
  {
  }

  lemma SplitLong(s: State, a: seq<Frame>, b: seq<Frame>, win: Window, jumped: bool)
    requires Inv(s) && !AtEnd(s) && Live(s) && Faultless(s.list) && a != []
    requires s.it < |s.list| && TrackOk(Current(s)) && |LoopPass(s, a, win, false).out| == |a|
    ensures var first := Play(s, a, win, false, jumped);
            && Faultless(first.s.list) && !first.broke
            && var second := Play(first.s, b, win, false, false);
               Play(s, a + b, win, false, jumped)
               == Played(second.s, first.out + second.out, first.marks + second.marks, second.broke)
  {
    hide Start, LoopPass, Inv, Live, Rank, Faultless, Marks, Play, TrackOk;
    PlayStep(s, a, win, jumped);
    PlayStep(s, a + b, win, jumped);
    PassLong(s, a, b, win);
    var p, q := LoopPass(s, a + b, win, false), LoopPass(s, a, win, false);
    var first := Play(s, a, win, false, jumped);
    assert a[|q.out|..] == [];
    PlayNothing(q.s, [], win, false, false);
    assert first == Played(q.s, q.out + [], Marks(q.gains, jumped) + [], false);
    assert |q.out| != 0 && |q.gains| != 0;
    if |p.out| == |a| {
      assert (a + b)[|p.out|..] == b;
    } else {
      var r := LoopPass(q.s, b, win, false);
      assert b != [];
      PlayStep(q.s, b, win, false);
      assert (a + b)[|p.out|..] == b[|r.out|..];
      MarksSplit(q.gains, r.gains, jumped);
      var rest := Play(r.s, b[|r.out|..], win, false, false);
      assert q.out + r.out + rest.out == q.out + (r.out + rest.out);
    }
  }

  /** Reading in two parts is reading once: same frames, same final state, in every state of a
      player without faulty files, whatever fade, pause, hold or jump is under way. */
  lemma {:induction false} PlaySplit(s: State, a: seq<Frame>, b: seq<Frame>, win: Window, jumped: bool)
    requires Inv(s) && (AtEnd(s) || Live(s)) && Faultless(s.list) && (a != [] || !jumped)
    ensures var first := Play(s, a, win, false, jumped);
            && Faultless(first.s.list) && !first.broke
            && var second := Play(first.s, b, win, false, false);
               Play(s, a + b, win, false, jumped)
               == Played(second.s, first.out + second.out, first.marks + second.marks, second.broke)
    decreases |a|, s.jump, Rank(s, false)
  {
    hide Start, LoopPass, Inv, Live, Rank, Faultless, Marks, Play, TrackOk;
    if AtEnd(s) || a == [] {
      PlayNothing(s, a, win, false, jumped);
      assert a == [] ==> a + b == b;
      if AtEnd(s) {
        PlayNothing(s, a + b, win, false, jumped);
        PlayNothing(s, b, win, false, false);
      }
    } else {
      PlayStep(s, a, win, jumped);
      PlayStep(s, a + b, win, jumped);
      PassGoesOn(s, a, win, false);
      var q := LoopPass(s, a, win, false);
      if |q.out| < |a| {
        PassShort(s, a, b, win);
        assert (a + b)[|q.out|..] == a[|q.out|..] + b;
        PlaySplit(q.s, a[|q.out|..], b, win, if q.out == [] then jumped || q.jumped else false);
      } else {
        SplitLong(s, a, b, win, jumped);
      }
    }
  }

  // ---------------------------------------------------------------------------
  // One long stream
  // ---------------------------------------------------------------------------

  /** The first `i` files, joined. */
  function Joined(list: seq<Track>, i: nat): (fs: seq<Frame>)
    requires i <= |list|
    ensures |fs| == Start(list, i)
  {
    if i == 0 then [] else Joined(list, i - 1) + list[i - 1].frames
  }

  lemma {:induction false} JoinedAt(list: seq<Track>, n: nat, i: nat, k: nat)
    requires i < n <= |list| && k < |list[i].frames|
    ensures Start(list, i) + k < Start(list, n)
    ensures Joined(list, n)[Start(list, i) + k] == list[i].frames[k]
  {
    StartGrows(list, i, n);
    if i < n - 1 {
      JoinedAt(list, n - 1, i, k);
      StartGrows(list, i, n - 1);
    }
  }

  lemma {:induction false} JoinedSame(xs: seq<Track>, ys: seq<Track>, i: nat)
    requires i <= |xs| == |ys| && forall k | 0 <= k < |xs| :: xs[k].frames == ys[k].frames
    ensures Joined(xs, i) == Joined(ys, i)
  {
    if i != 0 {
      JoinedSame(xs, ys, i - 1);
    }
  }

  /** Element `i` of a sequence repeated for ever. */
  function Cyclic(fs: seq<Frame>, i: nat): Frame { if fs == [] then [] else fs[i % |fs|] }

  lemma CyclicShift(fs: seq<Frame>, i: nat)
    ensures Cyclic(fs, |fs| + i) == Cyclic(fs, i)
    ensures i < |fs| ==> Cyclic(fs, i) == fs[i]
  {
    if fs != [] {
      Shift(i, |fs|);
    }
  }

  lemma Shift(i: nat, n: nat)
    requires 0 < n
    ensures (n + i) % n == i % n
  {
    var q, r := i / n, i % n;
    assert i == q * n + r;
    assert n + i == (q + 1) * n + r;
    Remainder(n + i, n, q + 1, r);
  }

  lemma Remainder(a: nat, n: nat, q: nat, r: nat)
    requires 0 < n && a == q * n + r && r < n
    ensures a % n == r
  {
    var q' := a / n;
    assert a == q' * n + a % n;
    Sized(q, q', n, r, a % n);
  }

  lemma Sized(q: nat, q': nat, n: nat, r: nat, r': nat)
    requires q * n + r == q' * n + r' && r < n && r' < n
    ensures q == q'
  {
    if q < q' {
      M.MulMono(q + 1, q', n);
    } else if q' < q {
      M.MulMono(q' + 1, q, n);
    }
  }

  /** The frame `k` frames ahead of the position: of the current file over and over, of the
      whole list over and over, or of the list to its end. */
  function Ahead(s: State, k: nat): Frame
    requires s.it < |s.list|
  {
    var all := Joined(s.list, |s.list|);
    if s.loopFile then Cyclic(Current(s).frames, Current(s).pos + k)
    else if s.loopAll then Cyclic(all, Position(s) + k)
    else if Position(s) + k < |all| then all[Position(s) + k]
    else []
  }

  /** Nothing but a fade-in is under way. */
  predicate Steady(s: State) {
    s.autoplay && !s.pause && !s.jump && s.down == 0
  }

  function FadeIn(s: State, k: nat): real {
    if s.fade == 0 || s.up <= k then 1.0 else (s.fade - s.up + k) as real / s.fade as real
  }

  lemma AheadNow(s: State, k: nat)
    requires Inv(s) && s.it < |s.list| && Current(s).pos + k < |Current(s).frames|
    ensures Ahead(s, k) == Current(s).frames[Current(s).pos + k]
  {
    var all := Joined(s.list, |s.list|);
    CyclicShift(Current(s).frames, Current(s).pos + k);
    JoinedAt(s.list, |s.list|, s.it, Current(s).pos + k);
    CyclicShift(all, Position(s) + k);
  }

  lemma AheadRead(s: State, n: nat, win: Window, j: nat)
    requires Inv(s) && s.it < |s.list| && TrackOk(Current(s))
    ensures var k := ReadCount(Current(s), Asked(s, n), win);
            var t := Consumed(s, n, win);
            t.it < |t.list| && Position(t) == Position(s) + k && Ahead(t, j) == Ahead(s, k + j)
  {
    hide Start, Joined, Cyclic, Asked;
    var t := Consumed(s, n, win);
    JoinedSame(s.list, t.list, |s.list|);
  }

  /** Going on to the next file changes nothing ahead. */
  lemma AheadNext(s: State, j: nat)
    requires Inv(s) && s.it < |s.list| && Current(s).pos == |Current(s).frames|
    ensures var t := Next(s);
            t.it < |t.list| ==> Ahead(t, j) == Ahead(s, j)
                                && (!s.loopFile && !s.loopAll ==> Position(t) == Position(s))
    ensures var t := Next(s);
            t.it >= |t.list| ==> !s.loopFile && !s.loopAll && Position(s) == s.length
  {
    hide Next, Seek, Joined, Cyclic, Start, SameFiles;
    var t := Next(s);
    NextIs(s);
    NextKeeps(s);
    SeekSame(s.list, NextIndex(s));
    StartNext(s.list, s.it);
    JoinedSame(s.list, t.list, |s.list|);
    CyclicShift(Current(s).frames, j);
    CyclicShift(Joined(s.list, |s.list|), j);
  }

  /** How many of `n` frames a steady player still has to give. */
  function Supply(s: State, n: nat): nat
    requires Inv(s)
  {
    if AtEnd(s) then 0 else if s.loopFile || s.loopAll then n else Min(n, Max(0, s.length - Position(s)))
  }

  /** Frame `k` of what a steady player delivers. */
  function Streamed(s: State, buf: seq<Frame>, win: Window, k: nat): Frame
    requires s.it < |s.list| && k < |buf|
  {
    Scale(Mix(buf[k], Ahead(s, k), win.channel), FadeIn(s, k))
  }

  lemma SteadyRead(s: State, buf: seq<Frame>, win: Window, k: nat)
    requires Inv(s) && !AtEnd(s) && Faultless(s.list) && Steady(s) && buf != []
    requires s.it < |s.list| && TrackOk(Current(s))
    requires k == ReadCount(Current(s), Asked(s, |buf|), win) && k != 0
    ensures LoopPass(s, buf, win, false) == ReadPass(s, buf, win, false)
    ensures var p := LoopPass(s, buf, win, false);
            && |p.out| == k && p.s == Consumed(s, |buf|, win) && Inv(p.s) && Steady(p.s) && !AtEnd(p.s) && !p.jumped
            && Supply(s, |buf|) == k + Supply(p.s, |buf| - k)
            && forall i | 0 <= i < k :: p.out[i] == Streamed(s, buf, win, i)
  {
    hide Start, Scale, Mix, Ahead, Next;
    FaultlessAt(s.list, s.it);
    ConsumedKeeps(s, |buf|, win);
    AheadRead(s, |buf|, win, 0);
    PositionBound(s);
    var p := LoopPass(s, buf, win, false);
    forall i | 0 <= i < k
      ensures p.out[i] == Streamed(s, buf, win, i)
    {
      AheadNow(s, i);
    }
  }

  lemma PositionBound(s: State)
    requires Inv(s) && !AtEnd(s)
    ensures s.it < |s.list| && TrackOk(Current(s)) && s.fileStart + |Current(s).frames| <= s.length
  {
    StartGrows(s.list, s.it, |s.list|);
  }

  lemma SteadyRest(s: State, buf: seq<Frame>, win: Window, k: nat, j: nat)
    requires Inv(s) && !AtEnd(s) && Steady(s) && s.it < |s.list| && TrackOk(Current(s))
    requires k == ReadCount(Current(s), Asked(s, |buf|), win) && k + j < |buf|
    ensures var t := Consumed(s, |buf|, win);
            t.it < |t.list| && Streamed(t, buf[k..], win, j) == Streamed(s, buf, win, k + j)
  {
    hide Start, Scale, Mix, Ahead;
    AheadRead(s, |buf|, win, j);
    assert buf[k..][j] == buf[k + j];
  }

  lemma SteadyNext(s: State, buf: seq<Frame>, win: Window)
    requires Inv(s) && !AtEnd(s) && Faultless(s.list) && Steady(s) && buf != []
    requires s.it < |s.list| && TrackOk(Current(s)) && ReadCount(Current(s), Asked(s, |buf|), win) == 0
    ensures var p := LoopPass(s, buf, win, false);
            && p.out == [] && p.s == Next(s) && Steady(p.s) && Inv(p.s) && Supply(s, |buf|) == Supply(p.s, |buf|)
            && !p.jumped
            && (!AtEnd(p.s) ==> p.s.it < |p.s.list| && forall k | 0 <= k < |buf| :: Streamed(s, buf, win, k) == Streamed(p.s, buf, win, k))
  {
    hide Start, Scale, Mix, Ahead, Next, Consumed;
    FaultlessAt(s.list, s.it);
    SpentPass(s, |buf|, win);
    assert Consumed(s, |buf|, win) == s;
    assert Released(s) == s;
    NextIs(s);
    NextKeeps(s);
    PositionBound(s);
    forall k: nat ensures Next(s).it < |s.list| ==> Ahead(Next(s), k) == Ahead(s, k) {
      AheadNext(s, k);
    }
    AheadNext(s, 0);
  }

  /** A steady player is one long stream: frame `k` of a read is the frame `k` ahead of the
      position, with the gain of the fade-in, and only the end of a list that does not loop cuts
      it short. */
  lemma {:induction false} PlaysStream(s: State, buf: seq<Frame>, win: Window, jumped: bool)
    requires Inv(s) && (AtEnd(s) || Live(s)) && Faultless(s.list) && Steady(s)
    ensures var r := Play(s, buf, win, false, jumped);
            && |r.out| == Supply(s, |buf|) && Steady(r.s) && (r.out != [] ==> !AtEnd(s))
            && forall k | 0 <= k < |r.out| :: s.it < |s.list| && r.out[k] == Streamed(s, buf, win, k)
    decreases |buf|, s.jump, Rank(s, false)
  {
    hide Start, LoopPass, Inv, Live, Rank, Faultless, Marks, Play, TrackOk, Streamed, Supply, Next, Consumed, Asked, ReadCount;
    if AtEnd(s) || buf == [] {
      PlayNothing(s, buf, win, false, jumped);
      NoSupply(s, |buf|);
    } else {
      PlayStep(s, buf, win, jumped);
      PassGoesOn(s, buf, win, false);
      var p := LoopPass(s, buf, win, false);
      var k := ReadCount(Current(s), Asked(s, |buf|), win);
      var r := Play(s, buf, win, false, jumped);
      if k == 0 {
        SteadyNext(s, buf, win);
        assert buf[0..] == buf;
        PlaysStream(p.s, buf, win, jumped || p.jumped);
      } else {
        SteadyRead(s, buf, win, k);
        PlaysStream(p.s, buf[k..], win, false);
        forall i | 0 <= i < |r.out|
          ensures r.out[i] == Streamed(s, buf, win, i)
        {
          if k <= i { SteadyRest(s, buf, win, k, i - k); }
        }
      }
    }
  }

  /** A run of reads, and all the frames they deliver. */
  function PlayAll(s: State, bufs: seq<seq<Frame>>, win: Window): (State, seq<Frame>)
    requires Inv(s) && (AtEnd(s) || Live(s))
    decreases |bufs|
  {
    if bufs == [] then (s, [])
    else
      var first := Play(s, bufs[0], win, false, false);
      var (t, rest) := PlayAll(first.s, bufs[1..], win);
      (t, first.out + rest)
  }

  function Concat(bufs: seq<seq<Frame>>): seq<Frame> {
    if bufs == [] then [] else bufs[0] + Concat(bufs[1..])
  }

  /** However a buffer is cut into reads, they deliver what one read would, and end where it would. */
  lemma {:induction false} ReadsAreOne(s: State, bufs: seq<seq<Frame>>, win: Window)
    requires Inv(s) && (AtEnd(s) || Live(s)) && Faultless(s.list)
    ensures PlayAll(s, bufs, win)
            == (Play(s, Concat(bufs), win, false, false).s, Play(s, Concat(bufs), win, false, false).out)
    decreases |bufs|
  {
    hide Inv, Live, Faultless, Play, AtEnd;
    if bufs == [] {
      PlayNothing(s, [], win, false, false);
    } else {
      PlaySplit(s, bufs[0], Concat(bufs[1..]), win, false);
      ReadsAreOne(Play(s, bufs[0], win, false, false).s, bufs[1..], win);
    }
  }

  /** Over any run of reads a steady player is one long stream. */
  lemma ReadsAreStream(s: State, bufs: seq<seq<Frame>>, win: Window)
    requires Inv(s) && (AtEnd(s) || Live(s)) && Faultless(s.list) && Steady(s)
    ensures var buf, out := Concat(bufs), PlayAll(s, bufs, win).1;
            && |out| == Supply(s, |buf|) <= |buf| && (out != [] ==> s.it < |s.list|)
            && forall k | 0 <= k < |out| :: out[k] == Streamed(s, buf, win, k)
  {
    hide Live, Faultless, Play, Steady, Streamed, PlayAll, Supply;
    ReadsAreOne(s, bufs, win);
    PlaysStream(s, Concat(bufs), win, false);
  }

  lemma NoSupply(s: State, n: nat)
    requires Inv(s) && (AtEnd(s) || n == 0)
    ensures Supply(s, n) == 0
  {
  }

  // ---------------------------------------------------------------------------
  // Silent jumps
  // ---------------------------------------------------------------------------

  /** The gain lies between silence and full level, and a jump has silence on both sides. */
  predicate QuietAt(ms: seq<Mark>, last: real, i: nat)
    requires i < |ms|
  {
    && 0.0 <= ms[i].gain <= 1.0
    && (ms[i].jumped ==> ms[i].gain == 0.0 && (if i == 0 then last else ms[i - 1].gain) == 0.0)
  }

  predicate Quiet(ms: seq<Mark>, last: real) {
    forall i | 0 <= i < |ms| :: QuietAt(ms, last, i)
  }

  function LastGain(ms: seq<Mark>, last: real): real { if ms == [] then last else ms[|ms| - 1].gain }

  lemma QuietAppend(xs: seq<Mark>, ys: seq<Mark>, last: real)
    requires Quiet(xs, last) && Quiet(ys, LastGain(xs, last))
    ensures Quiet(xs + ys, last) && LastGain(xs + ys, last) == LastGain(ys, LastGain(xs, last))
  {
    forall i | 0 <= i < |xs + ys|
      ensures QuietAt(xs + ys, last, i)
    {
      if |xs| <= i {
        assert QuietAt(ys, LastGain(xs, last), i - |xs|);
      } else {
        assert QuietAt(xs, last, i);
      }
    }
  }

  /** A jump is pending with its fade over: then the last frame was silent. */
  predicate Poised(s: State, last: real) { s.jump && s.down == 0 ==> last == 0.0 }

  /** Just after a jump: a fade-in from silence starts at a frame that is there. */
  predicate Landed(s: State) {
    s.down == 0 && !s.pause && !s.jump && s.up == s.fade
    && (s.it < |s.list| ==> Current(s).pos < |Current(s).frames|)
  }

  lemma GainRange(s: State, i: nat, k: nat, win: Window, n: nat)
    requires FadeOk(s) && 0 < s.fade && s.it < |s.list| && k == ReadCount(Current(s), Asked(s, n), win) && i < k
    ensures 0.0 <= Gain(s, i) <= 1.0
    ensures 0 < s.down || 0 < s.up ==> Gain(s, i) < 1.0
    ensures s.down == 0 && s.up == s.fade && i == 0 ==> Gain(s, i) == 0.0
    ensures 0 < s.down && s.down == k && i == k - 1 ==> Gain(s, i) == 0.0
  {
    Ratio(s.down - 1 - i, s.fade);
    Ratio(s.fade - s.up + i, s.fade);
  }

  lemma Ratio(a: int, b: int)
    requires 0 < b
    ensures 0 <= a < b ==> 0.0 <= a as real / b as real < 1.0
    ensures a == 0 ==> a as real / b as real == 0.0
  {
    if 0 <= a < b {
      assert a as real < b as real;
    }
  }

  /** What a pass keeps quiet: `last` is the gain heard before it. */
  ghost predicate Calm(fade: nat, p: Pass, jumped: bool, last: real) {
    && |p.out| == |p.gains| && FadeOk(p.s) && p.s.fade == fade
    && Quiet(Marks(p.gains, jumped), last)
    && Poised(p.s, LastGain(Marks(p.gains, jumped), last))
    && (p.out == [] && (jumped || p.jumped) ==> Landed(p.s) && last == 0.0)
  }

  lemma QuietJump(s: State, buf: seq<Frame>, win: Window, jumped: bool, last: real)
    requires Inv(s) && !AtEnd(s) && FadeOk(s) && Poised(s, last) && (jumped ==> Landed(s) && last == 0.0)
    requires s.it < |s.list| && TrackOk(Current(s)) && !Held(s) && s.down == 0 && !s.pause && s.jump
    ensures Calm(s.fade, LoopPass(s, buf, win, false), jumped, last)
  {
    hide Start, LoopPass, Inv, TrackOk, Held, Jump, SameFiles;
    PassJumps(s, buf, win, false);
    Cases(s);
    InvReleased(s);
    JumpFade(Released(s), s.newPosition);
    JumpKeeps(Released(s), s.newPosition);
  }

  lemma QuietSilence(s: State, buf: seq<Frame>, win: Window, jumped: bool, last: real)
    requires !AtEnd(s) && FadeOk(s) && buf != [] && Poised(s, last) && (jumped ==> last == 0.0)
    requires s.it < |s.list| && TrackOk(Current(s)) && (Held(s) || (s.down == 0 && s.pause))
    ensures Calm(s.fade, LoopPass(s, buf, win, false), jumped, last)
  {
    hide LoopPass, TrackOk, Held;
    PassSilent(s, buf, win, false);
    Cases(s);
  }

  lemma QuietRead(s: State, buf: seq<Frame>, win: Window, jumped: bool, last: real)
    requires !AtEnd(s) && Faultless(s.list) && buf != [] && FadeOk(s) && 0 < s.fade
    requires Poised(s, last) && (jumped ==> Landed(s) && last == 0.0)
    requires s.it < |s.list| && TrackOk(Current(s)) && !Held(s) && (0 < s.down || (!s.pause && !s.jump))
    ensures Calm(s.fade, LoopPass(s, buf, win, false), jumped, last)
  {
    hide LoopPass, Next, Heard, Gain, Faultless, Held, AfterRead;
    FaultlessAt(s.list, s.it);
    PassReads(s, buf, win, false);
    Cases(s);
    var s1 := Released(s);
    var k := ReadCount(Current(s1), Asked(s1, |buf|), win);
    forall i | 0 <= i < k
      ensures 0.0 <= Gain(s1, i) <= 1.0
      ensures s1.down == 0 && s1.up == s1.fade && i == 0 ==> Gain(s1, i) == 0.0
      ensures 0 < s1.down && s1.down == k && i == k - 1 ==> Gain(s1, i) == 0.0
    {
      GainRange(s1, i, k, win, |buf|);
    }
    NextFade(Consumed(s1, |buf|, win));
  }

  /** A pass keeps a pending jump waiting until the fade is over, and its gains quiet. */
  lemma PassQuiet(s: State, buf: seq<Frame>, win: Window, jumped: bool, last: real)
    requires Inv(s) && !AtEnd(s) && Live(s) && Faultless(s.list) && buf != [] && FadeOk(s) && 0 < s.fade
    requires Poised(s, last) && (jumped ==> Landed(s) && last == 0.0)
    requires s.it < |s.list| && TrackOk(Current(s))
    ensures Calm(s.fade, LoopPass(s, buf, win, false), jumped, last)
  {
    hide LoopPass, Calm, Held, Faultless, Inv, Live, Start;
    if Held(s) || (s.down == 0 && s.pause) {
      QuietSilence(s, buf, win, jumped, last);
    } else if s.down == 0 && s.jump {
      QuietJump(s, buf, win, jumped, last);
    } else {
      QuietRead(s, buf, win, jumped, last);
    }
  }

  /** Throughout a read every jump is silent on both sides. */
  lemma {:induction false} PlayQuiet(s: State, buf: seq<Frame>, win: Window, jumped: bool, last: real)
    requires Inv(s) && (AtEnd(s) || Live(s)) && Faultless(s.list) && FadeOk(s) && 0 < s.fade
    requires Poised(s, last) && (jumped ==> Landed(s) && last == 0.0)
    ensures var r := Play(s, buf, win, false, jumped);
            && Quiet(r.marks, last) && Poised(r.s, LastGain(r.marks, last))
            && FadeOk(r.s) && r.s.fade == s.fade && Faultless(r.s.list) && SameFiles(s.list, r.s.list)
    decreases |buf|, s.jump, Rank(s, false)
  {
    hide Start, LoopPass, Inv, Live, Rank, Faultless, Marks, Play, TrackOk, Quiet, LastGain, Landed, FadeOk, SameFiles, Poised;
    if AtEnd(s) || buf == [] {
      PlayNothing(s, buf, win, false, jumped);
      QuietNone(last);
      SameRefl(s.list);
    } else {
      PlayStep(s, buf, win, jumped);
      PassGoesOn(s, buf, win, false);
      PassQuiet(s, buf, win, jumped, last);
      PassKeeps(s, buf, win, false);
      var p := LoopPass(s, buf, win, false);
      var ms := Marks(p.gains, jumped);
      QuietNone(last);
      assert p.out == [] ==> ms == [];
      PlayQuiet(p.s, buf[|p.out|..], win, if p.out == [] then jumped || p.jumped else false, LastGain(ms, last));
      var rest := Play(p.s, buf[|p.out|..], win, false, if p.out == [] then jumped || p.jumped else false);
      QuietAppend(ms, rest.marks, last);
      SameTrans(s.list, p.s.list, rest.s.list);
    }
  }

  lemma QuietNone(last: real)
    ensures Quiet([], last) && LastGain([], last) == last
  {
  }

  // ---------------------------------------------------------------------------
  // Whole sessions
  // ---------------------------------------------------------------------------

  /** What a caller may do; the fade length is set before. */
  datatype Op =
    | DoRead(buf: seq<Frame>, win: Window)
    | DoSeek(pos: nat, force: bool)
    | DoIndex(index: nat, fromStart: bool, force: bool)
    | DoPause(enable: bool)
    | DoRelease
    | DoReset
    | DoNext
    | DoAutoplay(on: bool)
    | DoLoopAll(on: bool)
    | DoLoopFile(on: bool)
    | DoAddFile(t: Track)
    | DoClear

  /** A file that is added has frames, all of which can be read. */
  predicate Playable(op: Op) {
    op.DoAddFile? ==> TrackOk(op.t) && op.t.frames != [] && op.t.readable == |op.t.frames| && !op.t.inError
  }

  /** A player whose files all have frames and can all be read. */
  ghost predicate Healthy(s: State) {
    Inv(s) && FadeOk(s) && 0 < s.fade && Filled(s.list) && Faultless(s.list)
  }

  function Apply(s: State, op: Op): (State, seq<Mark>)
    requires Inv(s) && Filled(s.list)
  {
    match op
    case DoRead(buf, win) => var r := Play(s, buf, win, false, false); (r.s, r.marks)
    case DoSeek(pos, force) => (SetPosition(s, pos, force).0, [])
    case DoIndex(index, fromStart, force) => (SetIndex(s, index, fromStart, force).0, [])
    case DoPause(enable) => (Pause(s, enable), [])
    case DoRelease => (s.(release := true), [])
    case DoReset => (Reset(s), [])
    case DoNext => (Next(s), [])
    case DoAutoplay(on) => (s.(autoplay := on), [])
    case DoLoopAll(on) => (s.(loopAll := on), [])
    case DoLoopFile(on) => (s.(loopFile := on), [])
    case DoAddFile(t) => (AddFile(s, t), [])
    case DoClear => (Clear(s), [])
  }

  lemma ResetKeeps(s: State)
    requires Inv(s)
    ensures Inv(Reset(s)) && SameFiles(s.list, Reset(s).list) && SameSettings(s, Reset(s))
  {
    hide Start;
    SeekKeeps(s.list, 0, 0);
    StartZero(s.list);
    InvFrom(s, Reset(s));
  }

  /** A file can be added in any state. */
  lemma AddFileKeeps(s: State, t: Track)
    requires Inv(s) && TrackOk(t)
    ensures Inv(AddFile(s, t))
  {
    var list := s.list + [t];
    StartOfPrefix(s.list, t, s.it);
    StartOfPrefix(s.list, t, |s.list|);
    ResetKeeps(s.(list := list, length := s.length + |t.frames|));
  }

  lemma {:induction false} StartOfPrefix(list: seq<Track>, t: Track, i: nat)
    requires i <= |list|
    ensures Start(list + [t], i) == Start(list, i)
  {
    if i != 0 {
      StartOfPrefix(list, t, i - 1);
    }
  }

  lemma {:induction false} StartOfChanged(list: seq<Track>, i: nat, t: Track, j: nat)
    requires i < |list| && j <= |list|
    ensures Start(list[i := t], j) == Start(list, j) + if i < j then |t.frames| - |list[i].frames| else 0
  {
    if j != 0 {
      StartOfChanged(list, i, t, j - 1);
    }
  }

  /** A file that changed its length: summing up the lengths again is all it takes if and only if
      the file is not before the current one, or kept its length after all. */
  lemma LengthUpdate(s: State, i: nat, t: Track)
    requires Inv(s) && i < |s.list| && TrackOk(t)
    ensures var list := s.list[i := t];
            Inv(s.(list := list, length := Total(list))) <==> s.it <= i || |t.frames| == |s.list[i].frames|
  {
    StartOfChanged(s.list, i, t, s.it);
  }

  lemma FaultlessOps(s: State, pos: nat)
    requires Inv(s) && Faultless(s.list)
    ensures Faultless(Next(s).list) && Faultless(Reset(s).list) && Faultless(Jump(s, pos).0.list)
  {
    hide Start, Seek, Faultless;
    if !AtEnd(s) { NextIs(s); } else { NextAtEnd(s); }
    FaultlessSeek(s.list, NextIndex(s), 0);
    FaultlessSeek(s.list, 0, 0);
    var p := Clamp(s, pos);
    var i := Locate(s.list, 0, p);
    FaultlessSeek(s.list, i, Max(0, p - Start(s.list, i)));
  }

  /** A healthy, poised player after an operation that delivered nothing. */
  ghost predicate Sound(s: State, t: State, last: real) {
    Healthy(t) && t.fade == s.fade && Poised(t, last) && SameFiles(s.list, t.list)
  }

  lemma MovesSound(s: State, last: real)
    requires Healthy(s) && Poised(s, last)
    ensures Sound(s, Reset(s), last) && Sound(s, Next(s), last)
  {
    hide Start, Next, Filled, Faultless, Seek, SameFiles;
    ResetKeeps(s);
    NextKeeps(s);
    NextFade(s);
    FaultlessOps(s, 0);
    KeptFilled(s, Reset(s));
    KeptFilled(s, Next(s));
  }

  lemma IndexSound(s: State, index: nat, fromStart: bool, force: bool, last: real)
    requires Healthy(s) && Poised(s, last)
    ensures Sound(s, SetIndex(s, index, fromStart, force).0, last)
  {
    hide Start, SetPosition, Filled, Faultless, SameFiles;
    SameRefl(s.list);
    if s.list != [] {
      var start := Start(s.list, Min(index, |s.list| - 1));
      var pos := if !fromStart && s.it < |s.list| then Min(start + Current(s).pos, s.length) else start;
      SeekHealthy(s, pos, force, last);
    }
  }

  lemma SwitchSound(s: State, op: Op, last: real)
    requires Healthy(s) && Poised(s, last)
    requires op.DoPause? || op.DoRelease? || op.DoAutoplay? || op.DoLoopAll? || op.DoLoopFile?
    ensures Sound(s, Apply(s, op).0, last)
  {
    hide Start, Filled, Faultless;
  }

  /** A longer or an emptied list is as healthy. */
  lemma ListSound(s: State, op: Op, last: real)
    requires Healthy(s) && Playable(op) && (op.DoAddFile? || op.DoClear?)
    ensures var t := Apply(s, op).0;
            Healthy(t) && t.fade == s.fade && Poised(t, last)
  {
    hide Start, Seek, SameFiles;
    var list := if op.DoAddFile? then s.list + [op.t] else [];
    FaultlessSeek(list, 0, 0);
    SeekFilled(list);
    if op.DoAddFile? {
      AddFileKeeps(s, op.t);
    } else {
      ClearKeeps(s);
    }
  }

  lemma SeekFilled(list: seq<Track>)
    ensures Filled(list) ==> Filled(Seek(list, 0, 0))
  {
  }

  lemma ClearKeeps(s: State)
    ensures Inv(Clear(s))
  {
  }

  /** Every operation keeps the player healthy and poised, and what it delivers is quiet. */
  lemma ApplyQuiet(s: State, op: Op, last: real)
    requires Healthy(s) && Poised(s, last) && Playable(op)
    ensures var (t, ms) := Apply(s, op);
            && Healthy(t) && t.fade == s.fade && Quiet(ms, last) && Poised(t, LastGain(ms, last))
            && (!op.DoAddFile? && !op.DoClear? ==> SameFiles(s.list, t.list))
  {
    hide Start, Play, Next, Quiet, LastGain, Filled, Faultless, Reset, SameFiles, Live, Pause, SetPosition, SetIndex, Poised, FadeOk, AddFile, Clear;
    QuietNone(last);
    match op
    case DoRead(buf, win) =>
      FilledLive(s);
      PlayQuiet(s, buf, win, false, last);
      KeptFilled(s, Play(s, buf, win, false, false).s);
    case DoSeek(pos, force) =>
      SeekHealthy(s, pos, force, last);
    case DoIndex(index, fromStart, force) =>
      IndexSound(s, index, fromStart, force, last);
    case DoReset =>
      MovesSound(s, last);
    case DoNext =>
      MovesSound(s, last);
    case DoAddFile(_) =>
      ListSound(s, op, last);
    case DoClear =>
      ListSound(s, op, last);
    case _ =>
      SwitchSound(s, op, last);
  }

  lemma FilledLive(s: State)
    requires Filled(s.list)
    ensures Live(s)
  {
  }

  lemma KeptFilled(s: State, t: State)
    requires Filled(s.list) && SameFiles(s.list, t.list)
    ensures Filled(t.list)
  {
  }

  lemma SeekHealthy(s: State, pos: nat, force: bool, last: real)
    requires Healthy(s) && Poised(s, last)
    ensures var t := SetPosition(s, pos, force).0;
            && Healthy(t) && t.fade == s.fade && Poised(t, last) && SameFiles(s.list, t.list)
  {
    hide Start, Jump, SameFiles, Seek, Filled, Faultless;
    SameRefl(s.list);
    var s1 := s.(down := 0, jump := false);
    JumpKeeps(s1, Min(pos, s.length));
    JumpFade(s1, Min(pos, s.length));
    FaultlessOps(s1, Min(pos, s.length));
    KeptFilled(s, Jump(s1, Min(pos, s.length)).0);
  }

  /** The frames delivered by a run of operations. */
  ghost function Session(s: State, ops: seq<Op>): (r: (State, seq<Mark>))
    requires Healthy(s) && forall i | 0 <= i < |ops| :: Playable(ops[i])
    decreases |ops|
  {
    if ops == [] then (s, [])
    else
      ApplyQuiet(s, ops[0], 0.0);
      var (t, ms) := Apply(s, ops[0]);
      var (u, rest) := Session(t, ops[1..]);
      (u, ms + rest)
  }

  /** In every run of operations, each deferred jump is made in silence: the frame before it
      (`last` for the first) and the frame after it have gain zero. */
  lemma {:induction false} JumpsAreSilent(s: State, ops: seq<Op>, last: real)
    requires Healthy(s) && Poised(s, last) && forall i | 0 <= i < |ops| :: Playable(ops[i])
    ensures Healthy(Session(s, ops).0) && Quiet(Session(s, ops).1, last)
    decreases |ops|
  {
    hide Apply, Faultless, FadeOk, Start, Live, Quiet, LastGain, Poised;
    QuietNone(last);
    if ops != [] {
      ApplyQuiet(s, ops[0], last);
      ApplyQuiet(s, ops[0], 0.0) by { PoisedZero(s); }
      var (t, ms) := Apply(s, ops[0]);
      JumpsAreSilent(t, ops[1..], LastGain(ms, last));
      QuietAppend(ms, Session(t, ops[1..]).1, last);
    }
  }

  lemma PoisedZero(s: State)
    ensures Poised(s, 0.0)
  {
  }
}
