/** Which sizes the ds64 chunk holds once Close has looked at every chunk. */
module Slots {
  import opened Bytes
  import opened ChunkIds
  import opened Ds64
  import opened RiffLayout
  import B = Blocks

  /** A chunk whose length needs a table entry. */
  predicate Oversize(c: Chunk) { c.kind.UserKind? && MAX_SIZE <= c.length }

  /** How many of the first `k` chunks need one. */
  function Oversized(cs: seq<Chunk>, k: nat): nat
    requires k <= |cs|
  {
    if k == 0 then 0 else Oversized(cs, k - 1) + if Oversize(cs[k - 1]) then 1 else 0
  }

  /** The table after the first `k` chunks, as a map bounded by its `n` entries. */
  function NotedMap(cs: seq<Chunk>, n: nat, k: nat): map<Word, nat>
    requires k <= |cs|
  {
    if k == 0 then map[]
    else if Oversize(cs[k - 1]) then Put(NotedMap(cs, n, k - 1), n, cs[k - 1].id, cs[k - 1].length).0
    else NotedMap(cs, n, k - 1)
  }

  /** A list whose sizes ds64 can express: nothing beyond 64 bits, identifiers of extra chunks
      distinct and not zero, and a ds64 chunk that does not need an entry of its own. */
  predicate Plain(cs: seq<Chunk>, n: Word) {
    && WellFormed(cs) && cs[0].id == RIFF_ID && cs[3].length == 16
    && (forall i | 0 <= i < |cs| :: cs[i].length < TWO_64)
    && (forall i | 5 <= i < |cs| :: cs[i].id != 0)
    && (forall i, j | 5 <= i < j < |cs| :: cs[i].id != cs[j].id)
    && 28 + 12 * n < MAX_SIZE
  }

  /** One step of the accounting on the table and on the header words. */
  lemma NotedStep(c: Chunk, w: seq<Word>, m: map<Word, nat>, frameBytes: nat)
    requires Fits(w) && Holds(Entries(w), m) && 0 < frameBytes && WellFormedChunk(c)
    requires Length(c, w) < TWO_64 && (c.kind.UserKind? ==> c.id != 0)
    requires c.kind.RiffKind? ==> c.id == RIFF_ID
    requires c.kind.Ds64Kind? || c.kind.FmtKind? ==> Length(c, w) < MAX_SIZE
    ensures var r := Noted(c, w, frameBytes);
            && Holds(Entries(r), if Oversize(c) then Put(m, Count(w), c.id, c.length).0 else m)
            && (c.kind.DataKind? ==> DataSize(r) == c.length && SampleCount(r) == c.length / frameBytes)
            && (!c.kind.DataKind? ==> DataSize(r) == DataSize(w) && SampleCount(r) == SampleCount(w))
  {
    hide Holds, Place, Entries;
    var length := Length(c, w);
    if c.kind.UserKind? {
      if MAX_SIZE <= length {
        SetSizePuts(w, m, c.id, length);
        var r := SetSize(w, c.id, length).0;
        assert forall k | 0 <= k < 7 :: r[k] == r[..7][k] == w[..7][k] == w[k];
      }
    } else if c.kind.DataKind? {
      var w1 := SetPair(w, 2, length);
      B.Quotient(length, frameBytes);
      PairKeepsTable(w, 2, length);
      PairKeepsTable(w1, 4, length / frameBytes);
      PairHolds(w, 2, length);
      PairHolds(w1, 4, length / frameBytes);
    } else if c.kind.RiffKind? {
      PairKeepsTable(w, 0, length);
    }
  }

  lemma {:induction false} AllNotedHolds(cs: seq<Chunk>, n: Word, frameBytes: nat, k: nat)
    requires Plain(cs, n) && 0 < frameBytes && k <= |cs|
    ensures var w := AllNoted(cs, Blank(n), frameBytes, k);
            && Holds(Entries(w), NotedMap(cs, n, k))
            && (4 < k ==> DataSize(w) == cs[4].length && SampleCount(w) == cs[4].length / frameBytes)
  {
    hide Holds, Noted, Entries;
    if k == 0 {
      BlankHoldsNothing(n);
    } else {
      AllNotedHolds(cs, n, frameBytes, k - 1);
      assert WellFormedChunk(cs[k - 1]);
      NotedStep(cs[k - 1], AllNoted(cs, Blank(n), frameBytes, k - 1), NotedMap(cs, n, k - 1), frameBytes);
    }
  }

  ghost predicate Seen(cs: seq<Chunk>, k: nat, id: Word)
    requires k <= |cs|
  {
    exists i :: 0 <= i < k && cs[i].id == id && Oversize(cs[i])
  }

  lemma {:induction false} OnlySeen(cs: seq<Chunk>, n: Word, k: nat)
    requires k <= |cs|
    ensures forall id | id in NotedMap(cs, n, k) :: Seen(cs, k, id)
  {
    if k != 0 {
      OnlySeen(cs, n, k - 1);
      forall id | id in NotedMap(cs, n, k)
        ensures Seen(cs, k, id)
      {
        if id in NotedMap(cs, n, k - 1) {
          var i :| 0 <= i < k - 1 && cs[i].id == id && Oversize(cs[i]);
        } else {
          assert cs[k - 1].id == id && Oversize(cs[k - 1]);
        }
      }
    }
  }

  lemma NewId(cs: seq<Chunk>, n: Word, k: nat)
    requires Plain(cs, n) && k < |cs| && Oversize(cs[k])
    ensures cs[k].id !in NotedMap(cs, n, k)
  {
    hide NotedMap;
    OnlySeen(cs, n, k);
    assert forall i | 0 <= i < k && Oversize(cs[i]) :: cs[i].id != cs[k].id;
    assert !Seen(cs, k, cs[k].id);
  }

  lemma {:induction false} TableFill(cs: seq<Chunk>, n: Word, k: nat)
    requires Plain(cs, n) && k <= |cs|
    ensures |NotedMap(cs, n, k)| == Min(n, Oversized(cs, k))
  {
    hide Plain;
    if k != 0 {
      TableFill(cs, n, k - 1);
      if Oversize(cs[k - 1]) {
        NewId(cs, n, k - 1);
      }
    }
  }

  /** With distinct identifiers the first `n` oversized chunks get the entries, in list order. */
  lemma {:induction false} FirstComeFirstServed(cs: seq<Chunk>, n: Word, k: nat, i: nat)
    requires Plain(cs, n) && i < k <= |cs| && Oversize(cs[i])
    ensures cs[i].id in NotedMap(cs, n, k) <==> Oversized(cs, i + 1) <= n
    ensures cs[i].id in NotedMap(cs, n, k) ==> NotedMap(cs, n, k)[cs[i].id] == cs[i].length
  {
    TableFill(cs, n, k - 1);
    if i == k - 1 {
      NewId(cs, n, i);
    } else {
      FirstComeFirstServed(cs, n, k - 1, i);
      assert Oversize(cs[k - 1]) ==> cs[k - 1].id != cs[i].id;
    }
  }
}
