/** Cutting a byte string into blocks of equal size, and joining them again. */
module Blocks {
  import opened Bytes

  function Glue(xs: seq<seq<Byte>>): seq<Byte> {
    if xs == [] then [] else xs[0] + Glue(xs[1..])
  }

  predicate AllOf(xs: seq<seq<Byte>>, m: nat) {
    forall i | 0 <= i < |xs| :: |xs[i]| == m
  }

  lemma MulStep(k: nat, m: nat)
    ensures (k + 1) * m == k * m + m
  {
  }

  lemma MulMono(a: nat, b: nat, m: nat)
    requires a <= b
    ensures a * m <= b * m
  {
  }

  /** Block `k` of size `m`. */
  function Block(bs: seq<Byte>, m: nat, k: nat): (b: seq<Byte>)
    requires (k + 1) * m <= |bs|
    ensures |b| == m
  {
    MulStep(k, m);
    bs[k * m..k * m + m]
  }

  /** The first `n` blocks of size `m`. */
  function Cut(bs: seq<Byte>, m: nat, n: nat): (xs: seq<seq<Byte>>)
    requires n * m <= |bs|
    ensures |xs| == n && AllOf(xs, m)
  {
    seq(n, k requires 0 <= k < n => MulMono(k + 1, n, m); Block(bs, m, k))
  }

  lemma {:induction false} GlueLength(xs: seq<seq<Byte>>, m: nat)
    requires AllOf(xs, m)
    ensures |Glue(xs)| == |xs| * m
  {
    if xs != [] {
      GlueLength(xs[1..], m);
      MulStep(|xs| - 1, m);
    }
  }

  lemma {:induction false} GlueAppend(xs: seq<seq<Byte>>, ys: seq<seq<Byte>>)
    ensures Glue(xs + ys) == Glue(xs) + Glue(ys)
  {
    if xs == [] {
      assert xs + ys == ys;
    } else {
      assert (xs + ys)[1..] == xs[1..] + ys;
      GlueAppend(xs[1..], ys);
    }
  }

  lemma {:induction false} GlueBlock(xs: seq<seq<Byte>>, m: nat, k: nat)
    requires AllOf(xs, m) && k < |xs|
    ensures (k + 1) * m <= |Glue(xs)|
    ensures Block(Glue(xs), m, k) == xs[k]
  {
    GlueLength(xs, m);
    MulMono(k + 1, |xs|, m);
    assert xs == xs[..k] + ([xs[k]] + xs[k + 1..]);
    GlueAppend(xs[..k], [xs[k]] + xs[k + 1..]);
    GlueLength(xs[..k], m);
    assert Glue([xs[k]] + xs[k + 1..]) == xs[k] + Glue(xs[k + 1..]) by {
      assert ([xs[k]] + xs[k + 1..])[1..] == xs[k + 1..];
    }
  }

  /** Cutting undoes joining. */
  lemma CutGlue(xs: seq<seq<Byte>>, m: nat)
    requires AllOf(xs, m)
    ensures |xs| * m <= |Glue(xs)|
    ensures Cut(Glue(xs), m, |xs|) == xs
  {
    GlueLength(xs, m);
    forall k | 0 <= k < |xs|
      ensures Cut(Glue(xs), m, |xs|)[k] == xs[k]
    {
      GlueBlock(xs, m, k);
    }
  }

  lemma CutLast(bs: seq<Byte>, m: nat, n: nat)
    requires |bs| == (n + 1) * m
    ensures n * m <= |bs| && |bs[..n * m]| == n * m
    ensures Cut(bs, m, n + 1) == Cut(bs[..n * m], m, n) + [bs[n * m..]]
  {
    MulStep(n, m);
    var all, most := Cut(bs, m, n + 1), Cut(bs[..n * m], m, n);
    forall k | 0 <= k < n
      ensures all[k] == most[k]
    {
      MulMono(k + 1, n, m);
      MulStep(k, m);
    }
    assert all[n] == bs[n * m..];
  }

  /** Joining undoes cutting. */
  lemma {:induction false} GlueCut(bs: seq<Byte>, m: nat, n: nat)
    requires |bs| == n * m
    ensures Glue(Cut(bs, m, n)) == bs
  {
    if n != 0 {
      CutLast(bs, m, n - 1);
      var head, tail := bs[..(n - 1) * m], bs[(n - 1) * m..];
      GlueCut(head, m, n - 1);
      GlueAppend(Cut(head, m, n - 1), [tail]);
      GlueOne(tail);
    }
  }

  lemma GlueOne(x: seq<Byte>)
    ensures Glue([x]) == x
  {
    assert Glue([x][1..]) == [];
  }

  lemma Quotient(a: nat, m: nat)
    requires 0 < m
    ensures 0 <= a / m <= a && a / m * m <= a < a / m * m + m
  {
    assert a == a / m * m + a % m;
    if a < a / m {
      MulMono(a + 1, a / m, m);
      assert (a + 1) * m == a * m + m;
      assert a * m >= a by { MulMono(1, m, a); }
    }
  }

  lemma QuotientIs(a: nat, m: nat, q: nat)
    requires 0 < m && a == q * m
    ensures a / m == q
  {
    Quotient(a, m);
    if a / m < q { MulMono(a / m + 1, q, m); MulStep(a / m, m); }
    if q < a / m { MulMono(q + 1, a / m, m); MulStep(q, m); }
  }

  /** Every whole block at or after `base`. */
  function BlocksFrom(bytes: seq<Byte>, base: nat, m: nat): (xs: seq<seq<Byte>>)
    requires 0 < m
    ensures AllOf(xs, m)
  {
    if |bytes| < base then []
    else
      Quotient(|bytes| - base, m);
      Cut(bytes[base..], m, (|bytes| - base) / m)
  }

  lemma BlocksOf(bytes: seq<Byte>, base: nat, m: nat, xs: seq<seq<Byte>>)
    requires 0 < m && base <= |bytes| && bytes[base..] == Glue(xs) && AllOf(xs, m)
    ensures BlocksFrom(bytes, base, m) == xs
  {
    GlueLength(xs, m);
    QuotientIs(|bytes| - base, m, |xs|);
    CutGlue(xs, m);
  }

  /** Blocks written after whole blocks are found after them. */
  lemma BlocksAppend(bytes: seq<Byte>, base: nat, m: nat, q: nat, ys: seq<seq<Byte>>)
    requires 0 < m && |bytes| == base + q * m && AllOf(ys, m)
    ensures BlocksFrom(bytes + Glue(ys), base, m) == BlocksFrom(bytes, base, m) + ys
  {
    var rest, more := bytes[base..], Glue(ys);
    var xs := Cut(rest, m, q);
    assert Glue(xs) == rest by { GlueCut(rest, m, q); }
    assert BlocksFrom(bytes, base, m) == xs by { BlocksOf(bytes, base, m, xs); }
    assert Glue(xs + ys) == rest + more by { GlueAppend(xs, ys); }
    assert (bytes + more)[base..] == rest + more;
    BlocksOf(bytes + more, base, m, xs + ys);
  }

  /** Block `i` of a slice of whole blocks. */
  lemma BlocksSliceAt(bytes: seq<Byte>, base: nat, m: nat, p: nat, n: nat, i: nat)
    requires 0 < m && i < n && base + p * m + n * m <= |bytes|
    ensures p + i < |BlocksFrom(bytes, base, m)|
    ensures Cut(bytes[base + p * m..base + p * m + n * m], m, n)[i] == BlocksFrom(bytes, base, m)[p + i]
  {
    var q := |BlocksFrom(bytes, base, m)|;
    BlockShift(bytes, base, m, p, n, i);
    Quotient(|bytes| - base, m);
    if q <= p + i { MulStep(q, m); MulMono(q + 1, p + i + 1, m); }
  }

  /** There is no block at `p` exactly when the bytes end before it does. */
  lemma BlocksEnd(bytes: seq<Byte>, base: nat, m: nat, p: nat)
    requires 0 < m
    ensures |BlocksFrom(bytes, base, m)| <= p <==> |bytes| < base + p * m + m
  {
    if base <= |bytes| {
      var q := |BlocksFrom(bytes, base, m)|;
      Quotient(|bytes| - base, m);
      if q <= p { MulMono(q, p, m); } else { MulStep(p, m); MulMono(p + 1, q, m); }
    }
  }

  /** A slice of whole blocks is that slice of the blocks. */
  lemma BlocksSlice(bytes: seq<Byte>, base: nat, m: nat, p: nat, n: nat)
    requires 0 < m && base + p * m + n * m <= |bytes| && 0 < n
    ensures p + n <= |BlocksFrom(bytes, base, m)|
    ensures Cut(bytes[base + p * m..base + p * m + n * m], m, n) == BlocksFrom(bytes, base, m)[p..p + n]
  {
    hide BlocksFrom, Block;
    var xs, got := BlocksFrom(bytes, base, m), Cut(bytes[base + p * m..base + p * m + n * m], m, n);
    BlocksSliceAt(bytes, base, m, p, n, n - 1);
    forall i | 0 <= i < n
      ensures got[i] == xs[p + i]
    {
      BlocksSliceAt(bytes, base, m, p, n, i);
    }
  }

  lemma SliceSlice(bytes: seq<Byte>, base: nat, from: nat, length: nat, at: nat, n: nat)
    requires base + from + length <= |bytes| && at + n <= length
    ensures bytes[base + from..base + from + length][at..at + n] == bytes[base..][from + at..from + at + n]
  {
    var slice, rest := bytes[base + from..base + from + length], bytes[base..];
    var x, y := slice[at..at + n], rest[from + at..from + at + n];
    forall i | 0 <= i < n
      ensures x[i] == y[i]
    {
      assert slice[at + i] == bytes[base + from + at + i] == rest[from + at + i];
    }
  }

  /** Block `i` of a slice that starts at block `p` is block `p + i`. */
  lemma BlockShift(bytes: seq<Byte>, base: nat, m: nat, p: nat, n: nat, i: nat)
    requires i < n && base + p * m + n * m <= |bytes|
    ensures (i + 1) * m <= n * m && base + (p + i + 1) * m <= |bytes|
    ensures Block(bytes[base + p * m..base + p * m + n * m], m, i) == Block(bytes[base..], m, p + i)
  {
    MulMono(i + 1, n, m);
    assert (p + i + 1) * m == p * m + (i + 1) * m;
    assert (p + i) * m == p * m + i * m;
    MulStep(i, m);
    MulStep(p + i, m);
    SliceSlice(bytes, base, p * m, n * m, i * m, m);
  }
}
