/** Byte strings and the big-endian integers the wire formats are made of. */
module Bytes {
  type byte = x: int | 0 <= x < 256

  type bytes = seq<byte>

  const LIMIT16: nat := 0x1_0000
  const LIMIT32: nat := 0x1_0000_0000
  const LIMIT64: nat := 0x1_0000_0000_0000_0000

  type u16 = x: int | 0 <= x < LIMIT16
  type u32 = x: int | 0 <= x < LIMIT32
  type u64 = x: int | 0 <= x < LIMIT64

  /** The number of values k bytes can hold. */
  function Pow256(k: nat): (p: nat)
    ensures p > 0
  {
    if k == 0 then 1 else 256 * Pow256(k - 1)
  }

  lemma Pow256Widths()
    ensures Pow256(1) == 256
    ensures Pow256(2) == LIMIT16
    ensures Pow256(4) == LIMIT32
    ensures Pow256(8) == LIMIT64
  {
  }

  /** The low k bytes of x, most significant first. */
  function BigEndian(k: nat, x: nat): (s: bytes)
    ensures |s| == k
  {
    if k == 0 then [] else BigEndian(k - 1, x / 256) + [x % 256]
  }

  /** The number a byte string spells, most significant byte first. */
  function FromBigEndian(s: bytes): (x: nat)
    ensures x < Pow256(|s|)
  {
    if s == [] then 0
    else 256 * FromBigEndian(s[..|s| - 1]) + s[|s| - 1]
  }

  lemma {:induction false} DecodeEncode(k: nat, x: nat)
    requires x < Pow256(k)
    ensures FromBigEndian(BigEndian(k, x)) == x
  {
    if k == 0 {
    } else {
      DecodeEncode(k - 1, x / 256);
      var s := BigEndian(k, x);
      assert s[..k - 1] == BigEndian(k - 1, x / 256);
    }
  }

  lemma {:induction false} EncodeDecode(s: bytes)
    ensures BigEndian(|s|, FromBigEndian(s)) == s
  {
    if s == [] {
    } else {
      EncodeDecode(s[..|s| - 1]);
    }
  }

  /** Reading and writing a number that fits are inverse to each other at each width in use. */
  lemma FixedWidths(x: nat)
    ensures x < LIMIT16 ==> FromBigEndian(BigEndian(2, x)) == x
    ensures x < LIMIT32 ==> FromBigEndian(BigEndian(4, x)) == x
    ensures x < LIMIT64 ==> FromBigEndian(BigEndian(8, x)) == x
  {
    Pow256Widths();
    if x < LIMIT16 { DecodeEncode(2, x); }
    if x < LIMIT32 { DecodeEncode(4, x); }
    if x < LIMIT64 { DecodeEncode(8, x); }
  }

  lemma LastDigit(s: bytes, a: byte)
    ensures FromBigEndian(s + [a]) == 256 * FromBigEndian(s) + a
  {
    assert (s + [a])[..|s|] == s;
  }

  /** What the bytes of a number are worth, at the widths in use. */
  lemma BigEndianDigits(a: byte, b: byte, c: byte, d: byte, s: bytes)
    ensures FromBigEndian([a]) == a
    ensures FromBigEndian([a, b]) == 0x100 * a + b
    ensures FromBigEndian([a, b, c, d]) == 0x100_0000 * a + 0x1_0000 * b + 0x100 * c + d
    ensures FromBigEndian(s + [a, b, c, d]) == 0x1_0000_0000 * FromBigEndian(s) + FromBigEndian([a, b, c, d])
  {
    assert [a] == [] + [a] && [a, b] == [a] + [b] && [a, b, c] == [a, b] + [c] && [a, b, c, d] == [a, b, c] + [d];
    assert s + [a, b] == (s + [a]) + [b] && s + [a, b, c] == (s + [a, b]) + [c];
    assert s + [a, b, c, d] == (s + [a, b, c]) + [d];
    LastDigit([], a);
    LastDigit([a], b);
    LastDigit([a, b], c);
    LastDigit([a, b, c], d);
    LastDigit(s, a);
    LastDigit(s + [a], b);
    LastDigit(s + [a, b], c);
    LastDigit(s + [a, b, c], d);
    assert FromBigEndian([]) == 0;
    hide FromBigEndian;
  }

  lemma TwoBytes(x: nat)
    ensures BigEndian(2, x) == [x / 256 % 256, x % 256]
  {
  }

  lemma SmallNumber(n: byte)
    ensures BigEndian(4, n) == [0, 0, 0, n]
  {
    assert BigEndian(1, 0) == [0] && BigEndian(2, 0) == [0, 0] && BigEndian(3, 0) == [0, 0, 0];
  }

  // ---- lexicographic order on byte strings ----

  /** bytes.Compare(a, b) < 0. */
  predicate Less(a: bytes, b: bytes)
  {
    b != [] && (a == [] || a[0] < b[0] || (a[0] == b[0] && Less(a[1..], b[1..])))
  }

  /** a is a proper beginning of b, or smaller at the first byte where they differ. */
  ghost predicate FirstDifferenceIsLess(a: bytes, b: bytes, k: nat)
  {
    k <= |a| && k < |b| && a[..k] == b[..k] && (k < |a| ==> a[k] < b[k])
  }

  lemma {:induction false} LessIsLexicographic(a: bytes, b: bytes)
    ensures Less(a, b) <==> exists k: nat :: FirstDifferenceIsLess(a, b, k)
  {
    if b == [] {
    } else if a == [] {
      assert FirstDifferenceIsLess(a, b, 0);
    } else if a[0] != b[0] {
      assert a[0] < b[0] ==> FirstDifferenceIsLess(a, b, 0);
      forall k: nat | FirstDifferenceIsLess(a, b, k) ensures a[0] < b[0] {
        if k > 0 { assert a[..k][0] == b[..k][0]; }
      }
    } else {
      LessIsLexicographic(a[1..], b[1..]);
      forall k: nat | FirstDifferenceIsLess(a[1..], b[1..], k) ensures FirstDifferenceIsLess(a, b, k + 1) {
        assert a[..k + 1] == [a[0]] + a[1..][..k] && b[..k + 1] == [b[0]] + b[1..][..k];
      }
      forall k: nat | FirstDifferenceIsLess(a, b, k) ensures k > 0 && FirstDifferenceIsLess(a[1..], b[1..], k - 1) {
        assert a[1..][..k - 1] == a[..k][1..] && b[1..][..k - 1] == b[..k][1..];
      }
    }
  }

  lemma {:induction false} LessIsStrict(a: bytes, b: bytes)
    ensures !(Less(a, b) && Less(b, a)) && !Less(a, a)
  {
    if a != [] && b != [] { LessIsStrict(a[1..], b[1..]); }
    if a != [] { LessIsStrict(a[1..], a[1..]); }
  }

  lemma {:induction false} LessIsTotal(a: bytes, b: bytes)
    ensures Less(a, b) || a == b || Less(b, a)
  {
    if a != [] && b != [] {
      LessIsTotal(a[1..], b[1..]);
      if a[0] == b[0] && a[1..] == b[1..] {
        assert a == [a[0]] + a[1..] == b;
      }
    }
  }

  lemma {:induction false} LessIsTransitive(a: bytes, b: bytes, c: bytes)
    requires !Less(b, a) && !Less(c, b)
    ensures !Less(c, a)
  {
    if a != [] && b != [] && c != [] && a[0] == b[0] == c[0] { LessIsTransitive(a[1..], b[1..], c[1..]); }
  }

  /** copy(dst[at:], src) for a source that fits. */
  method Copy(dst: array<byte>, at: nat, src: bytes)
    requires at + |src| <= dst.Length
    modifies dst
    ensures dst[..] == old(dst[..at]) + src + old(dst[at + |src|..])
  {
    var i := 0;
    while i < |src|
      invariant 0 <= i <= |src|
      invariant dst[..] == old(dst[..at]) + src[..i] + old(dst[at + i..])
    {
      ghost var now := dst[..];
      dst[at + i] := src[i];
      assert dst[..] == now[at + i := src[i]];
      assert src[..i + 1] == src[..i] + [src[i]];
      i := i + 1;
    }
    assert src[..i] == src;
  }
}
