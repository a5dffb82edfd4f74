/** The ds64 chunk object, whose data is allocated, searched and changed in place. */
module Ds64Chunk {
  import opened Bytes
  import opened ChunkIds
  import opened Ds64

  class Chunk {
    var data: array?<Word>   // null until the chunk is created or read
    var tableCount: Word     // entries to allocate

    /** The data, or nothing when none is allocated. */
    function Words(): seq<Word>
      reads this, data
    {
      if data == null then [] else data[..]
    }

    ghost predicate Valid()
      reads this, data
    {
      data != null ==> Fits(data[..])
    }

    constructor ()
      ensures Valid() && data == null && tableCount == 0
    {
      data, tableCount := null, 0;
    }

    method CreateWriteData()
      requires Valid()
      modifies this`data
      ensures Valid() && data != null
      ensures old(data) != null ==> data == old(data) && Words() == old(Words())
      ensures old(data) == null ==> fresh(data) && Words() == Blank(tableCount)
    {
      if data == null {
        var block := new Word[7 + 3 * tableCount](_ => 0);
        block[6] := tableCount;
        data := block;
      }
    }

    /** Reallocates when data exists, else only records the number of entries. */
    method SetTableCount(count: Word)
      requires Valid()
      modifies this
      ensures Valid() && tableCount == count
      ensures old(data) == null ==> data == null
      ensures old(data) != null && count == old(Count(Words())) ==> data == old(data) && Words() == old(Words())
      ensures old(data) != null && count != old(Count(Words())) ==>
                data != null && fresh(data) && Words() == Resize(old(Words()), count)
    {
      if data != null && count != data[6] {
        var was := data;
        var newData := new Word[7 + 3 * count](_ => 0);
        var k: nat := 0;
        while k < was.Length && k < newData.Length
          invariant 0 <= k <= was.Length && k <= newData.Length
          invariant forall i | 0 <= i < newData.Length :: newData[i] == if i < k then was[i] else 0
        {
          newData[k] := was[k];
          k := k + 1;
        }
        newData[6] := count;
        data := newData;
        assert newData[..] == Resize(was[..], count);
      }
      tableCount := count;
    }

    method SetPairAt(k: nat, size: nat)
      requires data != null && k + 2 <= data.Length
      modifies data
      ensures Words() == SetPair(old(Words()), k, size)
    {
      data[k] := Low(size);
      data[k + 1] := High(size);
    }

    method SetRiffSize(size: nat)
      requires Valid()
      modifies data
      ensures Valid()
      ensures Words() == if data == null then [] else SetPair(old(Words()), 0, size)
    {
      if data != null { SetPairAt(0, size); }
    }

    method SetDataSize(size: nat)
      requires Valid()
      modifies data
      ensures Valid()
      ensures Words() == if data == null then [] else SetPair(old(Words()), 2, size)
    {
      if data != null { SetPairAt(2, size); }
    }

    method SetSampleCount(count: nat)
      requires Valid()
      modifies data
      ensures Valid()
      ensures Words() == if data == null then [] else SetPair(old(Words()), 4, count)
    {
      if data != null { SetPairAt(4, count); }
    }

    method SetChunkSize(id: Word, size: nat) returns (ok: bool)
      requires Valid()
      modifies data
      ensures Valid()
      ensures data == null ==> ok == (id == RIFF_ID || id == DATA_ID)
      ensures data != null ==> (Words(), ok) == SetSize(old(Words()), id, size)
    {
      if id == RIFF_ID {
        SetRiffSize(size);
        return true;
      }
      if id == DATA_ID {
        SetDataSize(size);
        return true;
      }
      ok := false;
      if data != null {
        var i := FindPlace(id);
        if i < data[6] {
          data[7 + 3 * i] := id;
          SetPairAt(8 + 3 * i, size);
          ok := true;
        }
      }
    }

    /** The search of SetChunkSize: one pass that also notes the first unused entry. */
    method FindPlace(id: Word) returns (i: nat)
      requires data != null && Fits(data[..])
      ensures i == Place(Entries(data[..]), id)
    {
      ghost var es := Entries(data[..]);
      var n: nat := data[6];
      var firstEmpty: nat := n;
      i := 0;
      while i < n && data[7 + 3 * i] != id
        invariant 0 <= i <= n
        invariant forall k | 0 <= k < i :: es[k].id != id
        invariant forall k | 0 <= k < i && k < firstEmpty :: es[k].id != 0
        invariant firstEmpty == n || (firstEmpty < i && es[firstEmpty].id == 0)
      {
        assert es[i].id == data[7 + 3 * i];
        if data[7 + 3 * i] == 0 && i < firstEmpty {
          firstEmpty := i;
        }
        i := i + 1;
      }
      assert i < n ==> es[i].id == data[7 + 3 * i];
      FindIs(es, id, i);
      if i == n {
        FindIs(es, 0, firstEmpty);
        i := firstEmpty;
      }
    }

    method GetChunkSize(id: Word, original: nat) returns (size: nat)
      requires Valid()
      ensures size == GetSize(Words(), id, original)
    {
      size := original;
      if size == MAX_SIZE {
        if id == RIFF_ID {
          size := RiffSize(Words());
        } else if id == DATA_ID {
          size := DataSize(Words());
        } else if data != null && data[6] != 0 {
          ghost var es := Entries(data[..]);
          var i: nat := 0;
          while i < data[6] && data[7 + 3 * i] != id
            invariant 0 <= i <= data[6]
            invariant forall k | 0 <= k < i :: es[k].id != id
          {
            assert es[i].id == data[7 + 3 * i];
            i := i + 1;
          }
          assert i < data[6] ==> es[i].id == id;
          FindIs(es, id, i);
          if i < data[6] {
            size := Join(data[8 + 3 * i], data[9 + 3 * i]);
          }
        }
      }
    }

    /** ByteSwapData on a big-endian host: the table is swapped while the entry count is in
        native order, before the header when writing and after it when reading. */
    method ByteSwapData(writing: bool)
      requires data != null && 7 <= data.Length
      requires 7 + 3 * (if writing then data[6] else Swap32(data[6])) <= data.Length
      modifies data
      ensures data[..] == SwapData(old(data[..]), writing)
    {
      hide Swap32;
      ghost var was := data[..];
      ghost var n := if writing then was[6] else Swap32(was[6]);
      if writing {
        SwapTable();
      }
      var k: nat := 0;
      while k < 7
        invariant 0 <= k <= 7
        invariant forall i | 0 <= i < 7 :: data[i] == if i < k then Swap32(was[i]) else was[i]
        invariant forall i | 7 <= i < data.Length :: data[i] == if writing && Swappable(i, n) then Swap32(was[i]) else was[i]
      {
        data[k] := Swap32(data[k]);
        k := k + 1;
      }
      if !writing {
        SwapTable();
      }
    }

    method SwapTable()
      requires data != null && Fits(data[..])
      modifies data
      ensures data[..] == SwappedTable(old(data[..]), old(data[6]))
    {
      ghost var was := data[..];
      var i: nat := 0;
      assert SwappedTable(was, 0) == was;
      while i < data[6]
        invariant 0 <= i <= data[6] == was[6]
        invariant data[..] == SwappedTable(was, i)
      {
        SwappedTableStep(was, i);
        data[8 + 3 * i] := Swap32(data[8 + 3 * i]);
        data[9 + 3 * i] := Swap32(data[9 + 3 * i]);
        i := i + 1;
      }
    }
  }

  /** The sizes of the first `n` table entries swapped. */
  function SwappedTable(w: seq<Word>, n: nat): (r: seq<Word>)
    ensures |r| == |w|
  {
    seq(|w|, k requires 0 <= k < |w| => if 7 <= k && Swappable(k, n) then Swap32(w[k]) else w[k])
  }

  lemma SwappedTableStep(w: seq<Word>, n: nat)
    requires 7 + 3 * (n + 1) <= |w|
    ensures SwappedTable(w, n)[8 + 3 * n] == w[8 + 3 * n] && SwappedTable(w, n)[9 + 3 * n] == w[9 + 3 * n]
    ensures SwappedTable(w, n + 1) == SwappedTable(w, n)[8 + 3 * n := Swap32(w[8 + 3 * n])][9 + 3 * n := Swap32(w[9 + 3 * n])]
  {
    hide Swap32;
  }

  lemma FindIs(es: seq<Entry>, id: Word, i: nat)
    requires i <= |es| && (i < |es| ==> es[i].id == id)
    requires forall k | 0 <= k < i :: es[k].id != id
    ensures Find(es, id) == i
  {
    var j := Find(es, id);
    assert !(j < i);
  }
}
