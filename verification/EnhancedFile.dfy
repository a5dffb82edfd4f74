/** A file as a byte string and a position: what fwrite, fread and fseek do to both. */
module EnhancedFile {
  import opened Bytes

  function Max(a: int, b: int): int { if a < b then b else a }

  /** Writing `data` at `pos` replaces what is there, and fills any gap past the end with zeros. */
  function Overwrite(bytes: seq<Byte>, pos: nat, data: seq<Byte>): (r: seq<Byte>)
  {
    if data == [] then bytes
    else seq(Max(|bytes|, pos + |data|), i requires 0 <= i => Written(bytes, pos, data, i))
  }

  function Written(bytes: seq<Byte>, pos: nat, data: seq<Byte>, i: nat): Byte {
    if pos <= i < pos + |data| then data[i - pos] else if i < |bytes| then bytes[i] else 0
  }

  lemma OverwriteAt(bytes: seq<Byte>, pos: nat, data: seq<Byte>, i: nat)
    requires data != []
    ensures |Overwrite(bytes, pos, data)| == Max(|bytes|, pos + |data|)
    ensures i < |Overwrite(bytes, pos, data)| ==> Overwrite(bytes, pos, data)[i] == Written(bytes, pos, data, i)
  {
  }

  lemma OverwriteJoin(bytes: seq<Byte>, pos: nat, x: seq<Byte>, y: seq<Byte>)
    requires x != [] && y != []
    ensures Overwrite(Overwrite(bytes, pos, x), pos + |x|, y) == Overwrite(bytes, pos, x + y)
  {
    hide Overwrite;
    var first := Overwrite(bytes, pos, x);
    var once, twice := Overwrite(bytes, pos, x + y), Overwrite(first, pos + |x|, y);
    OverwriteAt(bytes, pos, x, 0);
    OverwriteAt(bytes, pos, x + y, 0);
    OverwriteAt(first, pos + |x|, y, 0);
    forall i | 0 <= i < |once|
      ensures once[i] == twice[i]
    {
      OverwriteAt(bytes, pos, x, i);
      OverwriteAt(bytes, pos, x + y, i);
      OverwriteAt(first, pos + |x|, y, i);
    }
  }

  lemma OverwriteNone(bytes: seq<Byte>, pos: nat)
    ensures Overwrite(bytes, pos, []) == bytes
  {
  }

  /** Two consecutive writes are one write of both. */
  lemma OverwriteTwice(bytes: seq<Byte>, pos: nat, x: seq<Byte>, y: seq<Byte>)
    ensures Overwrite(Overwrite(bytes, pos, x), pos + |x|, y) == Overwrite(bytes, pos, x + y)
    ensures Overwrite(bytes, pos, []) == bytes
  {
    hide Overwrite;
    OverwriteNone(bytes, pos);
    if x == [] {
      assert x + y == y;
    } else if y == [] {
      assert x + y == x;
      OverwriteNone(Overwrite(bytes, pos, x), pos + |x|);
    } else {
      OverwriteJoin(bytes, pos, x, y);
    }
  }

  lemma OverwriteLength(bytes: seq<Byte>, pos: nat, data: seq<Byte>)
    ensures |Overwrite(bytes, pos, data)| == if data == [] then |bytes| else Max(|bytes|, pos + |data|)
  {
  }

  /** A byte outside of what is written stays, or is zero when it is new. */
  lemma OverwriteElsewhere(bytes: seq<Byte>, pos: nat, data: seq<Byte>, i: nat)
    requires !(pos <= i < pos + |data|)
    ensures var r := Overwrite(bytes, pos, data);
            && |bytes| <= |r| && (i < |bytes| ==> r[i] == bytes[i]) && (|bytes| <= i < |r| ==> r[i] == 0)
  {
  }

  lemma OverwriteHead(bytes: seq<Byte>, head: seq<Byte>)
    requires |head| <= |bytes|
    ensures Overwrite(bytes, 0, head) == head + bytes[|head|..]
  {
  }

  lemma OverwriteAll(bytes: seq<Byte>, head: seq<Byte>)
    requires |bytes| <= |head|
    ensures Overwrite(bytes, 0, head) == head
  {
  }

  lemma OverwriteEnd(bytes: seq<Byte>, tail: seq<Byte>)
    ensures Overwrite(bytes, |bytes|, tail) == bytes + tail
  {
  }

  class File {
    var bytes: seq<Byte>
    var pos: nat

    constructor ()
      ensures bytes == [] && pos == 0
    {
      bytes, pos := [], 0;
    }

    method Write(data: seq<Byte>)
      modifies this
      ensures bytes == Overwrite(old(bytes), old(pos), data)
      ensures pos == old(pos) + |data|
    {
      bytes := Overwrite(bytes, pos, data);
      pos := pos + |data|;
    }

    /** Seeking past the end is allowed; a position that does not fit off_t is not. */
    method Seek(target: nat) returns (ok: bool)
      modifies `pos
      ensures ok == (target < TWO_63)
      ensures pos == if ok then target else old(pos)
    {
      ok := target < TWO_63;
      if ok { pos := target; }
    }

    /** fread of one item: all of it, or nothing usable when the file ends first. */
    method Read(size: nat) returns (ok: bool, data: seq<Byte>)
      modifies `pos
      ensures ok == (old(pos) + size <= |bytes|)
      ensures ok ==> data == bytes[old(pos)..old(pos) + size] && pos == old(pos) + size
      ensures !ok ==> data == [] && old(pos) <= pos
    {
      ok, data := pos + size <= |bytes|, [];
      if ok {
        data := bytes[pos..pos + size];
        pos := pos + size;
      } else if pos < |bytes| {
        pos := |bytes|;
      }
    }

    /** fread of up to `count` items: any non-zero number of whole items that the file
        still holds, none only when it holds no whole item. */
    method ReadItems(size: nat, count: nat) returns (n: nat, data: seq<Byte>)
      requires 0 < size
      modifies `pos
      ensures n <= count && old(pos) + n * size <= Max(old(pos), |bytes|)
      ensures n == 0 <==> count == 0 || |bytes| < old(pos) + size
      ensures |data| == n * size
      ensures n > 0 ==> data == bytes[old(pos)..old(pos) + n * size] && pos == old(pos) + n * size
    {
      if count == 0 || |bytes| < pos + size {
        n, data := 0, [];
      } else {
        n :| 1 <= n <= count && pos + n * size <= |bytes| by { assert 1 <= 1 <= count && pos + 1 * size <= |bytes|; }
        data := bytes[pos..pos + n * size];
        pos := pos + n * size;
      }
    }
  }
}
