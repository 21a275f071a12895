/**
 * Fixed-width integers and the byte-level primitives `server/lan.go` leans on:
 * `encoding/binary`'s little-endian `UintN`/`PutUintN`, `bytes.TrimRight` with
 * the cut set "\x00", Go's zeroed `make([]byte, n)` and the built-in `copy`.
 */
module Binary {

  newtype byte = x: int | 0 <= x < 0x100
  newtype u16 = x: int | 0 <= x < 0x1_0000
  newtype u32 = x: int | 0 <= x < 0x1_0000_0000
  newtype u64 = x: int | 0 <= x < 0x1_0000_0000_0000_0000
  newtype i64 = x: int | -0x8000_0000_0000_0000 <= x < 0x8000_0000_0000_0000

  /** The number of distinct values an n-byte field holds. */
  function Pow256(n: nat): (r: nat)
    ensures r >= 1
  {
    if n == 0 then 1 else 256 * Pow256(n - 1)
  }

  lemma FieldRanges()
    ensures Pow256(2) == 0x1_0000
    ensures Pow256(4) == 0x1_0000_0000
    ensures Pow256(8) == 0x1_0000_0000_0000_0000
  {
    assert Pow256(1) == 0x100;
    assert Pow256(2) == 0x1_0000;
    assert Pow256(3) == 0x100_0000;
    assert Pow256(4) == 0x1_0000_0000;
  }

  /** The unsigned value of a little-endian byte string (`binary.LittleEndian.UintN`). */
  function Uint(s: seq<byte>): (r: nat)
    ensures r < Pow256(|s|)
  {
    if s == [] then 0 else s[0] as nat + 256 * Uint(s[1..])
  }

  /** The width-byte little-endian encoding of v (`binary.LittleEndian.PutUintN`). */
  function LeBytes(width: nat, v: nat): (r: seq<byte>)
    requires v < Pow256(width)
    ensures |r| == width
  {
    if width == 0 then [] else [(v % 256) as byte] + LeBytes(width - 1, v / 256)
  }

  /** Reading back an encoded field gives the value that was written. */
  lemma {:induction false} UintOfLeBytes(width: nat, v: nat)
    requires v < Pow256(width)
    ensures Uint(LeBytes(width, v)) == v
  {
    if width > 0 {
      UintOfLeBytes(width - 1, v / 256);
      assert LeBytes(width, v)[1..] == LeBytes(width - 1, v / 256);
    }
  }

  /** A byte string is the encoding of the value it holds, so a field is determined by its value. */
  lemma {:induction false} LeBytesOfUint(s: seq<byte>)
    ensures LeBytes(|s|, Uint(s)) == s
  {
    if s != [] {
      LeBytesOfUint(s[1..]);
      var v := Uint(s);
      assert v % 256 == s[0] as nat && v / 256 == Uint(s[1..]);
    }
  }

  /** Two fields of the same width holding the same value are the same bytes. */
  lemma UintInjective(s: seq<byte>, t: seq<byte>)
    requires |s| == |t| && Uint(s) == Uint(t)
    ensures s == t
  {
    LeBytesOfUint(s);
    LeBytesOfUint(t);
  }

  /** Go's two's-complement conversion `uint64(x)` of a signed 64-bit value. */
  function Int64Bits(x: i64): (r: u64)
    ensures r as int == (x as int) % 0x1_0000_0000_0000_0000
    ensures x < 0 <==> r as int >= 0x8000_0000_0000_0000
  {
    if x < 0 then (x as int + 0x1_0000_0000_0000_0000) as u64 else x as int as u64
  }

  /** The contents of Go's `make([]byte, n)`. */
  function Zeros(n: nat): (r: seq<byte>)
    ensures |r| == n
    ensures forall i :: 0 <= i < n ==> r[i] == 0
  {
    seq(n, _ => 0)
  }

  /** `bytes.TrimRight(s, "\x00")`: s without its trailing zero bytes. */
  function TrimRightZeros(s: seq<byte>): (r: seq<byte>)
    ensures |r| <= |s| && r == s[..|r|]
    ensures r == [] || r[|r| - 1] != 0
    ensures s == r + Zeros(|s| - |r|)
  {
    if |s| > 0 && s[|s| - 1] == 0 then TrimRightZeros(s[..|s| - 1]) else s
  }

  /** Trimming is the only way to split s into a prefix that does not end in zero and a zero tail. */
  lemma {:induction false} TrimRightZerosUnique(s: seq<byte>, r: seq<byte>)
    requires r == [] || r[|r| - 1] != 0
    requires |r| <= |s| && s == r + Zeros(|s| - |r|)
    ensures r == TrimRightZeros(s)
  {
    if |r| < |s| {
      var s' := s[..|s| - 1];
      assert s' == r + Zeros(|s'| - |r|);
      TrimRightZerosUnique(s', r);
    }
  }

  /** `PutUintN(a[off:], v)`: writes the width-byte little-endian encoding of v at off. */
  method PutUint(a: array<byte>, off: nat, width: nat, v: nat)
    requires v < Pow256(width) && off + width <= a.Length
    modifies a
    ensures a[off..off + width] == LeBytes(width, v) && Uint(a[off..off + width]) == v
    ensures forall i :: 0 <= i < a.Length && !(off <= i < off + width) ==> a[i] == old(a[i])
  {
    var b := LeBytes(width, v);
    forall i | 0 <= i < width {
      a[off + i] := b[i];
    }
    assert a[off..off + width] == b;
    UintOfLeBytes(width, v);
  }

  /** `copy(a[lo:hi], b)`: copies as many bytes as both sides hold and returns that count. */
  method CopyInto(a: array<byte>, lo: nat, hi: nat, b: seq<byte>) returns (n: nat)
    requires lo <= hi <= a.Length
    modifies a
    ensures n == if |b| < hi - lo then |b| else hi - lo
    ensures a[lo..lo + n] == b[..n]
    ensures forall i :: 0 <= i < a.Length && !(lo <= i < lo + n) ==> a[i] == old(a[i])
  {
    n := if |b| < hi - lo then |b| else hi - lo;
    forall i | 0 <= i < n {
      a[lo + i] := b[i];
    }
  }
}
