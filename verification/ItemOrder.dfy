/** Which chunk of the file a chunk of the list becomes. */
module ItemOrder {
  import opened Bytes
  import opened ChunkIds
  import opened Ds64
  import opened RiffLayout
  import opened RoundTrip

  /** The chunks of a finished list can be told apart by their identifiers. */
  predicate Apart(cs: seq<Chunk>) {
    WellFormed(cs) && forall i, j | 5 <= i < j < |cs| :: cs[i].id != cs[j].id
  }

  /** The place among the chunks after WAVE: the early ones in list order, data, the late ones in
      list order. */
  function Index(cs: seq<Chunk>, w: seq<Word>, i: nat): nat
    requires 2 <= i < |cs|
  {
    if cs[i].kind.DataKind? then |EarlyItems(cs, w, |cs|)|
    else if BeforeSamples(cs[i]) then |EarlyItems(cs, w, i)|
    else |EarlyItems(cs, w, |cs|)| + 1 + |LateItems(cs, w, i)|
  }

  lemma {:induction false} EarlyAt(cs: seq<Chunk>, w: seq<Word>, i: nat, n: nat)
    requires 2 <= i < n <= |cs| && EarlyOf(cs[i], w) != []
    ensures var k := |EarlyItems(cs, w, i)|;
            && k < |EarlyItems(cs, w, n)|
            && EarlyItems(cs, w, n)[k] == Item(WriteId(cs[i]), Payload(cs[i], w))
  {
    if i < n - 1 {
      EarlyAt(cs, w, i, n - 1);
    }
  }

  lemma {:induction false} LateAt(cs: seq<Chunk>, w: seq<Word>, i: nat, n: nat)
    requires 2 <= i < n <= |cs| && LateOf(cs[i], w) != []
    ensures var k := |LateItems(cs, w, i)|;
            && k < |LateItems(cs, w, n)|
            && LateItems(cs, w, n)[k] == Item(WriteId(cs[i]), Payload(cs[i], w))
  {
    if i < n - 1 {
      LateAt(cs, w, i, n - 1);
    }
  }

  /** A written chunk stands at its place, with its identifier and its data. */
  lemma ItemAt(cs: seq<Chunk>, w: seq<Word>, samples: seq<Byte>, i: nat)
    requires WellFormed(cs) && 2 <= i < |cs| && IsWritten(cs[i], w)
    ensures var k, items := Index(cs, w, i), FileItems(cs, w, samples);
            && k < |items|
            && items[k] == if i == 4 then Item(DATA_ID, samples) else Item(WriteId(cs[i]), Payload(cs[i], w))
  {
    hide Payload, WriteId, EarlyItems, LateItems, IsWritten;
    if i == 4 {
    } else if BeforeSamples(cs[i]) {
      EarlyAt(cs, w, i, |cs|);
    } else {
      LateAt(cs, w, i, |cs|);
    }
  }

  /** Chunks on the same side of the samples keep the order of the list, and the samples are
      between the two sides. */
  lemma InOrder(cs: seq<Chunk>, w: seq<Word>, i: nat, j: nat)
    requires WellFormed(cs) && 2 <= i < j < |cs| && IsWritten(cs[i], w) && IsWritten(cs[j], w) && i != 4 && j != 4
    ensures Index(cs, w, i) < Index(cs, w, j) <==> BeforeSamples(cs[i]) || !BeforeSamples(cs[j])
    ensures Index(cs, w, i) != Index(cs, w, j)
  {
    hide IsWritten, EarlyItems, LateItems;
    Sides(cs, w, i);
    Sides(cs, w, j);
    if BeforeSamples(cs[i]) && BeforeSamples(cs[j]) {
      EarlyAt(cs, w, i, j);
    } else if !BeforeSamples(cs[i]) && !BeforeSamples(cs[j]) {
      LateAt(cs, w, i, j);
    }
  }

  lemma Sides(cs: seq<Chunk>, w: seq<Word>, i: nat)
    requires WellFormed(cs) && 2 <= i < |cs| && IsWritten(cs[i], w) && i != 4
    ensures Index(cs, w, i) < Index(cs, w, 4) <==> BeforeSamples(cs[i])
    ensures Index(cs, w, i) != Index(cs, w, 4)
  {
    hide EarlyItems, LateItems;
    if BeforeSamples(cs[i]) {
      EarlyAt(cs, w, i, |cs|);
    }
  }

  /** The chunk of the list that early item `j` is. */
  lemma {:induction false} EarlyFrom(cs: seq<Chunk>, w: seq<Word>, n: nat, j: nat) returns (i: nat)
    requires 2 <= n <= |cs| && j < |EarlyItems(cs, w, n)|
    ensures 2 <= i < n && EarlyOf(cs[i], w) != [] && j == |EarlyItems(cs, w, i)|
    ensures EarlyItems(cs, w, n)[j].id == WriteId(cs[i])
  {
    if j < |EarlyItems(cs, w, n - 1)| {
      i := EarlyFrom(cs, w, n - 1, j);
    } else {
      i := n - 1;
    }
  }

  lemma {:induction false} LateFrom(cs: seq<Chunk>, w: seq<Word>, n: nat, j: nat) returns (i: nat)
    requires 2 <= n <= |cs| && j < |LateItems(cs, w, n)|
    ensures 2 <= i < n && LateOf(cs[i], w) != [] && j == |LateItems(cs, w, i)|
    ensures LateItems(cs, w, n)[j].id == WriteId(cs[i])
  {
    if j < |LateItems(cs, w, n - 1)| {
      i := LateFrom(cs, w, n - 1, j);
    } else {
      i := n - 1;
    }
  }

  /** Every chunk of the file is a written chunk of the list, at its place. */
  lemma ItemFrom(cs: seq<Chunk>, w: seq<Word>, samples: seq<Byte>, j: nat) returns (i: nat)
    requires WellFormed(cs) && j < |FileItems(cs, w, samples)|
    ensures 2 <= i < |cs| && IsWritten(cs[i], w) && j == Index(cs, w, i)
    ensures FileItems(cs, w, samples)[j].id == if i == 4 then DATA_ID else WriteId(cs[i])
  {
    hide Payload, WriteId, EarlyItems, LateItems, WellFormedChunk;
    var early, late := EarlyItems(cs, w, |cs|), LateItems(cs, w, |cs|);
    if j < |early| {
      i := EarlyFrom(cs, w, |cs|, j);
    } else if j == |early| {
      i := 4;
    } else {
      i := LateFrom(cs, w, |cs|, j - |early| - 1);
      assert FileItems(cs, w, samples)[j] == late[j - |early| - 1];
    }
  }

  /** No later chunk of the file has the identifier of a chunk of the list. */
  lemma NoneLater(cs: seq<Chunk>, w: seq<Word>, samples: seq<Byte>, i: nat, j: nat)
    requires Apart(cs) && 3 <= i < |cs| && IsWritten(cs[i], w)
    requires Index(cs, w, i) < j < |FileItems(cs, w, samples)|
    ensures FileItems(cs, w, samples)[j].id != cs[i].id
  {
    hide Index, FileItems, IsWritten;
    var k := ItemFrom(cs, w, samples, j);
    assert WellFormedChunk(cs[i]) && WellFormedChunk(cs[k]);
    if k == 2 {
      FirstPlace(cs, w);
    }
  }

  lemma FirstPlace(cs: seq<Chunk>, w: seq<Word>)
    requires WellFormed(cs)
    ensures Index(cs, w, 2) == 0
  {
  }
}
