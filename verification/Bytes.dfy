/** Bytes, big-endian integers, and the one relation the codec proofs rest on:
    `Holds(m, q, s)`, the memory `m` carries the bytes `s` from position `q` on. */
module Bytes {
  type byte = b: int | 0 <= b < 0x100
  type bytes = seq<byte>
  type u16 = n: int | 0 <= n < 0x1_0000
  type u32 = n: int | 0 <= n < 0x1_0000_0000

  datatype Option<+T> = None | Some(value: T)

  /** The cell `i` of a memory; a cell that was never written reads as zero. */
  function At(m: bytes, i: nat): byte {
    if i < |m| then m[i] else 0
  }

  /** The bytes of a C string literal. */
  function Ascii(s: string): (r: bytes)
    requires forall i :: 0 <= i < |s| ==> s[i] as int < 0x80
    ensures |r| == |s| && forall i :: 0 <= i < |s| ==> r[i] == s[i] as int
  {
    seq<byte>(|s|, (i: nat) requires i < |s| => s[i] as int)
  }

  /** `n` cells from `i` on, written or not. */
  function Slice(m: bytes, i: nat, n: nat): (r: bytes)
    ensures |r| == n
  {
    seq<byte>(n, (j: nat) => At(m, i + j))
  }

  function Short(v: u16): (r: bytes)
    ensures |r| == 2
  {
    [v / 0x100, v % 0x100]
  }

  function ShortOf(hi: byte, lo: byte): u16 {
    hi * 0x100 + lo
  }

  function Int4(v: u32): (r: bytes)
    ensures |r| == 4
  {
    var hi: u16, lo: u16 := v / 0x1_0000, v % 0x1_0000;
    [hi / 0x100, hi % 0x100, lo / 0x100, lo % 0x100]
  }

  function Int4Of(a: byte, b: byte, c: byte, d: byte): u32 {
    ShortOf(a, b) * 0x1_0000 + ShortOf(c, d)
  }

  lemma ShortBack(v: u16)
    ensures ShortOf(Short(v)[0], Short(v)[1]) == v
  {
  }

  lemma Int4Back(v: u32)
    ensures var r := Int4(v); Int4Of(r[0], r[1], r[2], r[3]) == v && (0x8000_0000 <= v <==> 0x80 <= r[0])
  {
  }

  /** `v | 0x80000000` and `v & 0x7fffffff` on 32-bit values. */
  function Set31(v: u32): u32 {
    if v < 0x8000_0000 then v + 0x8000_0000 else v
  }

  function Mask31(v: u32): u32 {
    if v < 0x8000_0000 then v else v - 0x8000_0000
  }

  function Flatten(parts: seq<bytes>): bytes {
    if parts == [] then [] else parts[0] + Flatten(parts[1..])
  }

  ghost predicate Holds(m: bytes, q: nat, s: bytes) {
    q + |s| <= |m| && m[q..q + |s|] == s
  }

  lemma HoldsAt(m: bytes, q: nat, s: bytes, i: nat)
    requires Holds(m, q, s) && i < |s|
    ensures At(m, q + i) == s[i]
  {
    assert m[q..q + |s|][i] == m[q + i];
  }

  lemma HoldsSplit(m: bytes, q: nat, a: bytes, b: bytes)
    ensures Holds(m, q, a + b) <==> Holds(m, q, a) && Holds(m, q + |a|, b)
  {
    var k := |a + b|;
    if q + k <= |m| {
      assert m[q..q + k] == m[q..q + |a|] + m[q + |a|..q + k];
      if m[q..q + k] == a + b {
        assert m[q..q + |a|] == (a + b)[..|a|] == a;
        assert m[q + |a|..q + k] == (a + b)[|a|..] == b;
      }
    }
  }

  lemma HoldsSlice(m: bytes, q: nat, s: bytes)
    requires Holds(m, q, s)
    ensures Slice(m, q, |s|) == s
  {
    forall j | 0 <= j < |s| ensures Slice(m, q, |s|)[j] == s[j] {
      HoldsAt(m, q, s, j);
    }
  }

  /** Two memories with the same cells in `[lo, hi)`. */
  ghost predicate Agree(m: bytes, w: bytes, lo: nat, hi: nat) {
    forall i: nat :: lo <= i < hi ==> At(m, i) == At(w, i)
  }

  lemma SliceAgree(m: bytes, w: bytes, lo: nat, hi: nat, i: nat, n: nat)
    requires Agree(m, w, lo, hi) && lo <= i && i + n <= hi
    ensures Slice(m, i, n) == Slice(w, i, n)
  {
  }
}
