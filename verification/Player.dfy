/** The playlist player as a state and the steps it takes. */
module Player {
  import opened Bytes
  import opened EnhancedFile

  /** The samples of one instant in the caller's buffer or in a file. */
  type Frame = seq<real>

  /** A file of the playlist as the player sees it: its clip, how much of that can be read
      (less than all of it in a truncated file), the read position and the error flag. */
  datatype Track = Track(frames: seq<Frame>, channels: nat, readable: nat, pos: nat, inError: bool)

  /** The channels that the caller asks for: where they go, and how many a buffer frame has. */
  datatype Window = Window(channel: nat, channels: nat)

  datatype State = State(
    list: seq<Track>, it: nat, fileStart: nat, length: nat, newPosition: nat,
    fade: nat, down: nat, up: nat,
    autoplay: bool, loopAll: bool, loopFile: bool, pause: bool, release: bool, jump: bool)

  predicate TrackOk(t: Track) { t.pos <= |t.frames| && t.readable <= |t.frames| }

  /** The sum of the lengths of the first `i` files. */
  function Start(list: seq<Track>, i: nat): nat
    requires i <= |list|
  {
    if i == 0 then 0 else Start(list, i - 1) + |list[i - 1].frames|
  }

  function Total(list: seq<Track>): nat { Start(list, |list|) }

  predicate AtEnd(s: State) { s.it == |s.list| }

  function Current(s: State): Track
    requires s.it < |s.list|
  {
    s.list[s.it]
  }

  /** What every operation keeps: the start offset is that of the current file. */
  predicate Inv(s: State) {
    && s.it <= |s.list| && s.fileStart == Start(s.list, s.it) && s.length == Total(s.list)
    && forall i | 0 <= i < |s.list| :: TrackOk(s.list[i])
  }

  /** The counters stay within the fade length, which is when gains are proper. */
  predicate FadeOk(s: State) { s.down <= s.fade && s.up <= s.fade }

  // ---------------------------------------------------------------------------
  // Reading one file
  // ---------------------------------------------------------------------------

  /** Whether a read moves any sample; if not, it only advances. */
  predicate Moves(t: Track, win: Window) { 0 < t.channels && win.channel < win.channels }

  function ReadCount(t: Track, n: nat, win: Window): (k: nat)
    ensures k <= n
  {
    Min(n, Max(0, (if Moves(t, win) then t.readable else |t.frames|) - t.pos))
  }

  function AfterRead(t: Track, n: nat, win: Window): (r: Track)
    requires TrackOk(t)
    ensures TrackOk(r) && r.frames == t.frames && r.readable == t.readable && r.channels == t.channels
  {
    var k := ReadCount(t, n, win);
    t.(pos := t.pos + k, inError := t.inError || k < Min(n, |t.frames| - t.pos))
  }

  /** A buffer frame after the channels of a file frame were copied into it. */
  function Mix(buf: Frame, src: Frame, channel: nat): (r: Frame)
    ensures |r| == |buf|
  {
    if |buf| <= channel then buf
    else if |src| <= |buf| - channel then buf[..channel] + src + buf[channel + |src|..]
    else buf[..channel] + src[..|buf| - channel]
  }

  /** One read of a file by the player: how many frames, the file afterwards, and the buffer before
      and after. Sound files and the tracks of the playlist are both read like this. */
  ghost predicate TrackRead(t: Track, n: nat, win: Window, was: seq<Frame>, k: nat, t1: Track, now: seq<Frame>) {
    && TrackOk(t) && k == ReadCount(t, n, win) && t1 == AfterRead(t, n, win)
    && k <= |was| == |now| && t.pos + k <= |t.frames|
    && (forall i | 0 <= i < k :: now[i] == Mix(was[i], t.frames[t.pos + i], win.channel))
    && (forall i | k <= i < |was| :: now[i] == was[i])
  }

  function Scale(f: Frame, gain: real): (r: Frame)
    ensures |r| == |f|
  {
    seq(|f|, i requires 0 <= i < |f| => f[i] * gain)
  }

  function Silence(n: nat): (f: Frame)
    ensures |f| == n
  {
    seq(n, _ => 0.0)
  }

  function Silences(n: nat, channels: nat): (fs: seq<Frame>)
    ensures |fs| == n
  {
    seq(n, _ => Silence(channels))
  }

  // ---------------------------------------------------------------------------
  // Moving between files
  // ---------------------------------------------------------------------------

  /** SetSamplePosition on file `i`. */
  function Seek(list: seq<Track>, i: nat, pos: nat): (r: seq<Track>)
    ensures |r| == |list|
  {
    if i < |list| then list[i := list[i].(pos := Min(pos, |list[i].frames|), inError := false)] else list
  }

  /** Next(). */
  function Next(s: State): State
  {
    if AtEnd(s) || |s.list| < s.it then s
    else
      var moved :=
        if s.loopFile then s
        else if s.it + 1 == |s.list| && s.loopAll then s.(it := 0, fileStart := 0)
        else s.(it := s.it + 1, fileStart := s.fileStart + |Current(s).frames|);
      moved.(list := Seek(moved.list, moved.it, 0))
  }

  /** The first file at or after `i` that ends after `pos`, or the end of the list. */
  function Locate(list: seq<Track>, i: nat, pos: nat): (j: nat)
    requires i <= |list|
    ensures i <= j <= |list|
    decreases |list| - i
  {
    if i == |list| || pos < Start(list, i + 1) then i else Locate(list, i + 1, pos)
  }

  /** The position a seek is limited to: inside the list when it loops. */
  function Clamp(s: State, pos: nat): nat {
    Min(pos, if s.loopAll then Max(0, s.length - 1) else s.length)
  }

  /** SetPlaybackPositionEx(): wherever the player is, it goes to the file at the position. */
  function Jump(s: State, pos: nat): (State, bool) {
    var p := Clamp(s, pos);
    var i := Locate(s.list, 0, p);
    (s.(it := i, fileStart := Start(s.list, i), list := Seek(s.list, i, Max(0, p - Start(s.list, i)))), i < |s.list|)
  }

  /** GetPlaybackPosition(). */
  function Position(s: State): nat {
    s.fileStart + if s.it < |s.list| then Current(s).pos else 0
  }

  // ---------------------------------------------------------------------------
  // The controls
  // ---------------------------------------------------------------------------

  /** Reset(). */
  function Reset(s: State): State {
    s.(fileStart := 0, down := 0, up := s.fade, jump := false, pause := false, release := false,
       it := 0, list := Seek(s.list, 0, 0))
  }

  /** AddFile(). */
  function AddFile(s: State, t: Track): State {
    Reset(s.(list := s.list + [t], length := s.length + |t.frames|))
  }

  /** Clear(). */
  function Clear(s: State): State { Reset(s.(list := [], length := 0)) }

  /** SetPlaybackPosition(): at once when forced or paused, else after a fade. */
  function SetPosition(s: State, pos: nat, force: bool): (State, bool) {
    var p := Min(pos, s.length);
    if s.list == [] then (s, false)
    else if force || s.pause then
      var (s1, ok) := Jump(s.(down := 0, jump := false), p);
      (if ok then s1.(up := s1.fade) else s1, ok)
    else (s.(down := s.fade, newPosition := p, jump := true), true)
  }

  /** SetPlaybackIndex(). */
  function SetIndex(s: State, index: nat, fromStart: bool, force: bool): (State, bool) {
    if s.list == [] then (s, false)
    else
      var start := Start(s.list, Min(index, |s.list| - 1));
      var pos := if !fromStart && s.it < |s.list| then Min(start + Current(s).pos, s.length) else start;
      var (s1, ok) := SetPosition(s, pos, force);
      (s1.(release := true), ok)
  }

  /** PauseAudio(). */
  function Pause(s: State, enable: bool): State {
    if enable == s.pause then s
    else if s.pause then s.(up := s.fade, pause := enable)
    else s.(down := s.fade, pause := enable)
  }

  // ---------------------------------------------------------------------------
  // One pass through the read loop
  // ---------------------------------------------------------------------------

  /** What one pass does: new state, frames delivered with their gains, whether the loop breaks
      off, the error flag it remembers, and whether it was a jump. */
  datatype Pass = Pass(s: State, out: seq<Frame>, gains: seq<real>, stop: bool, error: bool, jumped: bool)

  /** Playback of the current file may start. */
  predicate Allowed(s: State)
    requires s.it < |s.list|
  {
    s.autoplay || Current(s).pos != 0 || s.jump
  }

  /** The file is kept waiting for a release. */
  predicate Held(s: State)
    requires s.it < |s.list|
  {
    !Allowed(s) && !s.release
  }

  /** The pass reads from the file rather than filling with silence or jumping. */
  predicate Reads(s: State) { 0 < s.down || (!s.pause && !s.jump) }

  function Gain(s: State, i: nat): real {
    if s.fade == 0 then 1.0
    else if 0 < s.down then (s.down - 1 - i) as real / s.fade as real
    else if 0 < s.up then (s.fade - s.up + i) as real / s.fade as real
    else 1.0
  }

  /** How many frames one pass asks the file for. */
  function Asked(s: State, n: nat): nat {
    if 0 < s.down then Min(n, s.down) else if 0 < s.up then Min(n, s.up) else n
  }

  function Heard(s: State, buf: seq<Frame>, win: Window, k: nat): (out: seq<Frame>)
    requires s.it < |s.list| && k <= |buf| && Current(s).pos + k <= |Current(s).frames|
    ensures |out| == k
  {
    seq(k, i requires 0 <= i < k => Scale(Mix(buf[i], Current(s).frames[Current(s).pos + i], win.channel), Gain(s, i)))
  }

  function Gains(s: State, k: nat): (gs: seq<real>)
    ensures |gs| == k
  {
    seq(k, i requires 0 <= i < k => Gain(s, i))
  }

  /** The state after `k` frames were read: position, error flag and the running fade. */
  function Consumed(s: State, n: nat, win: Window): State
    requires s.it < |s.list| && TrackOk(Current(s))
  {
    var k := ReadCount(Current(s), Asked(s, n), win);
    s.(list := s.list[s.it := AfterRead(Current(s), Asked(s, n), win)],
       down := if 0 < s.down then s.down - k else s.down,
       up := if s.down == 0 && 0 < s.up then s.up - k else s.up)
  }

  /** A pass that reads: silence means the end of the file, or an error. */
  function ReadPass(s: State, buf: seq<Frame>, win: Window, error: bool): Pass
    requires s.it < |s.list| && TrackOk(Current(s))
  {
    var k := ReadCount(Current(s), Asked(s, |buf|), win);
    var s1 := Consumed(s, |buf|, win);
    var newError := Current(s1).inError;
    if k != 0 then Pass(s1, Heard(s, buf, win, k), Gains(s, k), false, newError, false)
    else if error && newError then Pass(s1, [], [], true, error, false)
    else Pass(Next(s1), [], [], false, newError, false)
  }

  function SilentPass(s: State, buf: seq<Frame>, win: Window): Pass
    requires s.it < |s.list|
  {
    Pass(s, Silences(|buf|, win.channels), seq(|buf|, _ => 0.0), false, Current(s).inError, false)
  }

  function LoopPass(s: State, buf: seq<Frame>, win: Window, error: bool): Pass
    requires s.it < |s.list| && TrackOk(Current(s))
  {
    if Held(s) then SilentPass(s, buf, win)
    else
      var s1 := s.(release := s.release && (Allowed(s) || s.pause));
      if Reads(s1) then ReadPass(s1, buf, win, error)
      else if s1.pause then SilentPass(s1, buf, win)
      else Pass(Jump(s1, s1.newPosition).0.(jump := false, up := s1.fade), [], [], false, error, true)
  }
}
