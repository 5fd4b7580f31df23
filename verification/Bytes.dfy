/** Bytes, fixed-width little-endian integers, and in-place copies into a buffer. */
module Bytes {

  type byte = x: int | 0 <= x < 0x100
  type u16 = x: int | 0 <= x < 0x1_0000
  type u32 = x: int | 0 <= x < 0x1_0000_0000
  type u64 = x: int | 0 <= x < 0x1_0000_0000_0000_0000
  const U16_MAX: int := 0xFFFF
  const U64_MAX: int := 0xFFFF_FFFF_FFFF_FFFF

  type Bytes = seq<byte>

  function Zeros(n: nat): (z: Bytes)
    ensures |z| == n
  {
    seq(n, _ => 0)
  }

  type Bytes32 = b: Bytes | |b| == 32 witness Zeros(32)

  /** The values that fit in `n` bytes are those below Radix(n). */
  function Radix(n: nat): (p: nat)
    ensures p > 0
  {
    if n == 0 then 1 else 0x100 * Radix(n - 1)
  }

  /** The `n` low-order bytes of `v`, least significant first. */
  function LE(n: nat, v: nat): (b: Bytes)
    ensures |b| == n
  {
    if n == 0 then [] else [v % 0x100] + LE(n - 1, v / 0x100)
  }

  function FromLE(b: Bytes): nat {
    if b == [] then 0 else b[0] + 0x100 * FromLE(b[1..])
  }

  lemma {:induction false} FromLEOfLE(n: nat, v: nat)
    requires v < Radix(n)
    ensures FromLE(LE(n, v)) == v
  {
    if n > 0 {
      FromLEOfLE(n - 1, v / 0x100);
      assert LE(n, v)[1..] == LE(n - 1, v / 0x100);
    }
  }

  lemma {:induction false} LEOfFromLE(b: Bytes)
    ensures FromLE(b) < Radix(|b|) && LE(|b|, FromLE(b)) == b
  {
    if b != [] {
      LEOfFromLE(b[1..]);
      assert b == [b[0]] + b[1..];
      assert FromLE(b) / 0x100 == FromLE(b[1..]) && FromLE(b) % 0x100 == b[0];
    }
  }

  /** Byte `i` is the digit that counts 0x100 to the power `i`. */
  lemma {:induction false} LEAt(n: nat, v: nat, i: nat)
    requires i < n
    ensures LE(n, v)[i] == v / Radix(i) % 0x100
    decreases n
  {
    if i > 0 {
      LEAt(n - 1, v / 0x100, i - 1);
      DivTwice(v, Radix(i - 1));
    }
  }

  lemma DivTwice(v: nat, b: nat)
    requires b > 0
    ensures v / 0x100 / b == v / (0x100 * b)
  {
    var u := v / 0x100;
    var t := u / b * b;
    assert u == t + u % b;
    Regroup(u / b, b);
    Quotient(v, 0x100 * b, u / b, 0x100 * (u % b) + v % 0x100);
  }

  lemma Regroup(q: nat, b: nat)
    ensures q * (0x100 * b) == 0x100 * (q * b)
  {}

  lemma Quotient(v: nat, d: nat, q: nat, r: nat)
    requires v == q * d + r && r < d
    ensures v / d == q
  {
    if v / d < q { Apart(v / d, q, d); } else if v / d > q { Apart(q, v / d, d); }
  }

  lemma Apart(x: nat, y: nat, d: nat)
    requires x < y
    ensures x * d + d <= y * d
  {
    assert (x + 1) * d <= y * d;
  }

  lemma Widths()
    ensures Radix(1) == 0x100 && Radix(2) == 0x1_0000 && Radix(4) == 0x1_0000_0000
    ensures Radix(8) == 0x1_0000_0000_0000_0000
  {}

  /** Appending leaves earlier slices alone and becomes the last slice. */
  lemma Appended(a: Bytes, b: Bytes)
    ensures (a + b)[|a|..|a| + |b|] == b
    ensures forall i: nat, j: nat :: i <= j <= |a| ==> (a + b)[i..j] == a[i..j]
  {}

  lemma Assoc(a: Bytes, b: Bytes, c: Bytes)
    ensures a + b + c == a + (b + c)
  {}

  lemma Rejoined(b: Bytes, i: nat, j: nat, k: nat)
    requires i <= j <= k <= |b|
    ensures b[..i] + b[i..j] + b[j..k] == b[..k]
  {}

  lemma SliceSlice(b: Bytes, lo: nat, hi: nat, from: nat, to: nat)
    requires lo <= hi <= |b| && from <= to <= hi - lo
    ensures b[lo..hi][from..to] == b[lo + from..lo + to]
  {
    var inner, whole := b[lo..hi][from..to], b[lo + from..lo + to];
    assert |inner| == |whole| && forall i :: 0 <= i < |whole| ==> inner[i] == whole[i];
  }

  /** Overwrites `buf[o..o+|src|]` with `src`, as copy_from_slice and Buffer.copy do. */
  method CopyInto(buf: array<byte>, o: nat, src: Bytes)
    requires o + |src| <= buf.Length
    modifies buf
    ensures buf[..] == old(buf[..o]) + src + old(buf[o + |src|..])
    ensures buf[..o + |src|] == old(buf[..o]) + src && buf[o + |src|..] == old(buf[o + |src|..])
  {
    forall i | 0 <= i < |src| {
      buf[o + i] := src[i];
    }
  }

  /** Buffer.copy: whatever does not fit the target is cut off. */
  method Copy(buf: array<byte>, o: nat, src: Bytes, ghost writes: seq<Write>)
    requires o <= buf.Length && Written(buf[..], writes)
    modifies buf
    ensures Written(buf[..], writes + [Write(o, src)])
  {
    ghost var before := buf[..];
    var n := if o + |src| <= buf.Length then |src| else buf.Length - o;
    CopyInto(buf, o, src[..n]);
    WriteOne(before, writes, Write(o, src), buf[..]);
  }

  // ---- several copies into one buffer

  /** A copy: where it starts and what it holds. */
  datatype Write = Write(start: nat, bytes: Bytes)

  ghost predicate Overwritten(before: Bytes, w: Write, after: Bytes) {
    && |after| == |before|
    && forall p :: 0 <= p < |after| ==>
         after[p] == if w.start <= p < w.start + |w.bytes| then w.bytes[p - w.start] else before[p]
  }

  /** What a zeroed buffer holds at `p` after the writes: the last one to reach `p` decides. */
  function ByteAt(writes: seq<Write>, p: nat): byte {
    if writes == [] then 0 else
    var w := writes[|writes| - 1];
    if w.start <= p < w.start + |w.bytes| then w.bytes[p - w.start] else ByteAt(writes[..|writes| - 1], p)
  }

  ghost predicate Written(b: Bytes, writes: seq<Write>) { forall p :: 0 <= p < |b| ==> b[p] == ByteAt(writes, p) }

  lemma WriteOne(before: Bytes, writes: seq<Write>, w: Write, after: Bytes)
    requires Written(before, writes) && Overwritten(before, w, after)
    ensures Written(after, writes + [w])
  {
    assert (writes + [w])[..|writes|] == writes;
  }

  lemma WriteFirst(src: Bytes, rest: Bytes)
    requires forall p :: 0 <= p < |rest| ==> rest[p] == 0
    ensures Written(src + rest, [Write(0, src)])
  {
    assert [Write(0, src)][..0] == [];
  }

  /** Each write starts where the one before it ends; the last ends at `end`. */
  predicate Abut(writes: seq<Write>, end: nat) {
    if writes == [] then end == 0 else
    var w := writes[|writes| - 1];
    w.start + |w.bytes| == end && Abut(writes[..|writes| - 1], w.start)
  }

  function InOrder(writes: seq<Write>): Bytes {
    if writes == [] then [] else InOrder(writes[..|writes| - 1]) + writes[|writes| - 1].bytes
  }

  lemma AbutFirst(src: Bytes)
    ensures Abut([Write(0, src)], |src|) && InOrder([Write(0, src)]) == src
  {
    assert [Write(0, src)][..0] == [] && [] + src == src;
  }

  lemma AbutNext(writes: seq<Write>, w: Write)
    requires Abut(writes, w.start)
    ensures Abut(writes + [w], w.start + |w.bytes|) && InOrder(writes + [w]) == InOrder(writes) + w.bytes
  {
    assert (writes + [w])[..|writes|] == writes;
  }

  /** Of writes that abut none overwrites another: the buffer holds them one after another. */
  lemma {:induction false} WrittenInOrder(b: Bytes, writes: seq<Write>)
    requires Written(b, writes) && Abut(writes, |b|)
    ensures b == InOrder(writes)
    decreases |writes|
  {
    if writes != [] {
      var w, front := writes[|writes| - 1], writes[..|writes| - 1];
      assert forall p :: 0 <= p < w.start ==> b[..w.start][p] == ByteAt(front, p);
      WrittenInOrder(b[..w.start], front);
    }
  }
}
