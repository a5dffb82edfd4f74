/** Fixed-width integers as they are stored in a RIFF file. */
module Bytes {
  type Byte = b: int | 0 <= b < 0x100
  type Word = w: int | 0 <= w < 0x1_0000_0000

  const TWO_32: int := 0x1_0000_0000
  const TWO_63: int := 0x8000_0000_0000_0000
  const TWO_64: int := 0x1_0000_0000_0000_0000

  /** The largest size a 32-bit header field can hold; it doubles as the escape value. */
  const MAX_SIZE: Word := 0xffff_ffff

  function Min(a: int, b: int): int { if a < b then a else b }

  function Le32(w: Word): (bs: seq<Byte>)
    ensures |bs| == 4
  {
    [w % 0x100, w / 0x100 % 0x100, w / 0x1_0000 % 0x100, w / 0x100_0000]
  }

  function Be32(w: Word): (bs: seq<Byte>)
    ensures |bs| == 4
  {
    [w / 0x100_0000, w / 0x1_0000 % 0x100, w / 0x100 % 0x100, w % 0x100]
  }

  function Le16(n: nat): (bs: seq<Byte>)
    requires n < 0x1_0000
    ensures |bs| == 2
  {
    [n % 0x100, n / 0x100]
  }

  function FromLe16(bs: seq<Byte>): (n: nat)
    requires |bs| == 2
    ensures n < 0x1_0000
  {
    var (b0: int, b1: int) := (bs[0], bs[1]);
    b0 + 0x100 * b1
  }

  lemma Le16RoundTrip(n: nat)
    requires n < 0x1_0000
    ensures FromLe16(Le16(n)) == n
  {
  }

  function FromLe32(bs: seq<Byte>): (w: Word)
    requires |bs| == 4
  {
    var (b0: int, b1: int, b2: int, b3: int) := (bs[0], bs[1], bs[2], bs[3]);
    b0 + 0x100 * b1 + 0x1_0000 * b2 + 0x100_0000 * b3
  }

  function FromBe32(bs: seq<Byte>): (w: Word)
    requires |bs| == 4
  {
    FromLe32([bs[3], bs[2], bs[1], bs[0]])
  }

  lemma Le32RoundTrip(w: Word)
    ensures FromLe32(Le32(w)) == w
  {
    assert w == w % 0x100 + 0x100 * (w / 0x100);
    assert w / 0x100 == w / 0x100 % 0x100 + 0x100 * (w / 0x1_0000);
    assert w / 0x1_0000 == w / 0x1_0000 % 0x100 + 0x100 * (w / 0x100_0000);
  }

  lemma Be32RoundTrip(w: Word)
    ensures FromBe32(Be32(w)) == w
  {
    Le32RoundTrip(w);
    assert [Be32(w)[3], Be32(w)[2], Be32(w)[1], Be32(w)[0]] == Le32(w);
  }

  lemma FromLe32RoundTrip(bs: seq<Byte>)
    requires |bs| == 4
    ensures Le32(FromLe32(bs)) == bs
  {
    var w: int := FromLe32(bs);
    var b1: int, b2: int, b3: int := bs[1], bs[2], bs[3];
    assert w / 0x100 == b1 + 0x100 * b2 + 0x1_0000 * b3;
    assert w / 0x1_0000 == b2 + 0x100 * b3;
    assert w / 0x100_0000 == b3;
  }

  lemma FromBe32RoundTrip(bs: seq<Byte>)
    requires |bs| == 4
    ensures Be32(FromBe32(bs)) == bs
  {
    var rev := [bs[3], bs[2], bs[1], bs[0]];
    FromLe32RoundTrip(rev);
    var w := FromLe32(rev);
    assert Be32(w) == [Le32(w)[3], Le32(w)[2], Le32(w)[1], Le32(w)[0]];
  }

  /** The number that bytes stand for, the first one the least significant. */
  function LeValue(bs: seq<Byte>): nat {
    if bs == [] then 0 else bs[0] + 0x100 * LeValue(bs[1..])
  }

  /** The number that bytes stand for, the first one the most significant. */
  function BeValue(bs: seq<Byte>): nat {
    if bs == [] then 0 else 0x100 * BeValue(bs[..|bs| - 1]) + bs[|bs| - 1]
  }

  lemma LeValues(bs: seq<Byte>)
    ensures |bs| == 2 ==> LeValue(bs) == FromLe16(bs)
    ensures |bs| == 4 ==> LeValue(bs) == FromLe32(bs)
  {
    if |bs| == 2 || |bs| == 4 {
      var tail := bs[2..];
      assert bs[1..][1..] == tail;
      assert |bs| == 4 ==> tail[1..][1..] == [];
      var (b0: int, b1: int) := (bs[0], bs[1]);
      var rest: int := LeValue(tail);
      assert LeValue(bs) == b0 + 0x100 * (b1 + 0x100 * rest);
      if |bs| == 4 {
        var (b2: int, b3: int) := (bs[2], bs[3]);
        assert rest == b2 + 0x100 * b3;
      }
    }
  }

  lemma BeValueIs(bs: seq<Byte>)
    requires |bs| == 4
    ensures BeValue(bs) == FromBe32(bs)
  {
    var (b0: int, b1: int, b2: int, b3: int) := (bs[0], bs[1], bs[2], bs[3]);
    assert bs[..3][..2] == bs[..2] && bs[..2][..1] == bs[..1] && bs[..1][..0] == [];
    assert BeValue(bs[..1]) == b0;
    assert BeValue(bs[..2]) == 0x100 * b0 + b1;
    assert BeValue(bs[..3]) == 0x100 * (0x100 * b0 + b1) + b2;
  }

  /** What is stored in four bytes, either way round, is the number itself. */
  lemma WordStored(w: Word)
    ensures LeValue(Le32(w)) == w && BeValue(Be32(w)) == w
  {
    LeValues(Le32(w));
    Le32RoundTrip(w);
    BeValueIs(Be32(w));
    Be32RoundTrip(w);
  }

  lemma HalfStored(n: nat)
    requires n < 0x1_0000
    ensures LeValue(Le16(n)) == n
  {
    LeValues(Le16(n));
    Le16RoundTrip(n);
  }

  /** The byte swap of the source's BYTESWAP_VAR on a 32-bit variable. */
  function Swap32(w: Word): Word { FromBe32(Le32(w)) }

  lemma Swap32Involution(w: Word)
    ensures Swap32(Swap32(w)) == w
    ensures Be32(Swap32(w)) == Le32(w)
  {
    var bs := Le32(w);
    FromBe32RoundTrip(bs);
    var s := Swap32(w);
    assert Be32(s) == bs;
    assert Le32(s) == [Be32(s)[3], Be32(s)[2], Be32(s)[1], Be32(s)[0]];
    assert [Le32(s)[3], Le32(s)[2], Le32(s)[1], Le32(s)[0]] == bs;
    Le32RoundTrip(w);
  }

  /** A 64-bit size is kept as two words; `as uint32_t` truncates, `>> 32` divides. */
  function Low(n: nat): Word { n % TWO_32 }
  function High(n: nat): Word { n / TWO_32 % TWO_32 }
  function Join(low: Word, high: Word): nat { low + high * TWO_32 }

  lemma SplitJoin(n: nat)
    requires n < TWO_64
    ensures Join(Low(n), High(n)) == n
  {
    assert n / TWO_32 < TWO_32;
  }

  function Zeros(n: nat): (bs: seq<Byte>)
    ensures |bs| == n
  {
    seq(n, _ => 0)
  }
}
