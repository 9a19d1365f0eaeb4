/** Unsigned machine words as numbers, with the bitwise operators given by their binary digits. */
module Words {
  import opened Bytes

  function Pow2(i: nat): (p: nat)
    ensures p > 0
  {
    if i == 0 then 1 else 2 * Pow2(i - 1)
  }

  /** Binary digit i of x, digit 0 the least significant. */
  predicate Bit(x: nat, i: nat)
  {
    if i == 0 then x % 2 == 1 else Bit(x / 2, i - 1)
  }

  function And(x: nat, y: nat): nat
  {
    if x == 0 || y == 0 then 0
    else 2 * And(x / 2, y / 2) + (if x % 2 == 1 && y % 2 == 1 then 1 else 0)
  }

  function Or(x: nat, y: nat): nat
  {
    if x == 0 then y else if y == 0 then x
    else 2 * Or(x / 2, y / 2) + (if x % 2 == 1 || y % 2 == 1 then 1 else 0)
  }

  function Xor(x: nat, y: nat): nat
  {
    if x == 0 then y else if y == 0 then x
    else 2 * Xor(x / 2, y / 2) + (if x % 2 != y % 2 then 1 else 0)
  }

  /** x << d on a 64-bit word; shifting by 64 or more leaves nothing. */
  function ShiftLeft64(x: u64, d: nat): u64
  {
    (x * Pow2(d)) % LIMIT64
  }

  lemma {:induction false} Pow2Sum(i: nat, j: nat)
    ensures Pow2(i + j) == Pow2(i) * Pow2(j)
  {
    if i == 0 {
    } else {
      Pow2Sum(i - 1, j);
    }
  }

  lemma Pow2At64()
    ensures Pow2(64) == LIMIT64
  {
    assert Pow2(8) == 256;
    hide Pow2;
    Pow2Sum(8, 8); Pow2Sum(16, 16); Pow2Sum(32, 32);
  }

  lemma {:induction false} Pow2Below(i: nat, j: nat)
    requires i < j
    ensures Pow2(i) < Pow2(j)
  {
    if i + 1 < j { Pow2Below(i, j - 1); }
  }

  lemma {:induction false} BitOfZero(i: nat)
    ensures !Bit(0, i)
  {
    if i > 0 { BitOfZero(i - 1); }
  }

  lemma {:induction false} BitOfPow2(j: nat, i: nat)
    ensures Bit(Pow2(j), i) <==> i == j
  {
    if j == 0 {
      if i > 0 { BitOfZero(i - 1); }
    } else if i == 0 {
    } else {
      BitOfPow2(j - 1, i - 1);
    }
  }

  lemma {:induction false} BitOfOr(x: nat, y: nat, i: nat)
    ensures Bit(Or(x, y), i) <==> Bit(x, i) || Bit(y, i)
  {
    if x == 0 || y == 0 {
      BitOfZero(i);
    } else if i == 0 {
    } else {
      BitOfOr(x / 2, y / 2, i - 1);
    }
  }

  lemma {:induction false} OrBelow(x: nat, y: nat, n: nat)
    requires x < Pow2(n) && y < Pow2(n)
    ensures Or(x, y) < Pow2(n)
  {
    if x == 0 || y == 0 {
    } else {
      OrBelow(x / 2, y / 2, n - 1);
    }
  }

  /** Masking with one digit tests that digit. */
  lemma {:induction false} AndTestsBit(x: nat, j: nat)
    ensures And(x, Pow2(j)) != 0 <==> Bit(x, j)
  {
    if x == 0 {
      BitOfZero(j);
    } else if j == 0 {
    } else {
      AndTestsBit(x / 2, j - 1);
    }
  }

  lemma {:induction false} BitOfShift(x: nat, d: nat, i: nat)
    ensures Bit(x * Pow2(d), i) <==> i >= d && Bit(x, i - d)
  {
    if d == 0 {
    } else {
      assert x * Pow2(d) == 2 * (x * Pow2(d - 1));
      if i > 0 { BitOfShift(x, d - 1, i - 1); }
    }
  }

  /** Digits below n are not affected by adding a multiple of 2^n. */
  lemma {:induction false} BitOfSum(q: nat, r: nat, n: nat, i: nat)
    requires i < n
    ensures Bit(q * Pow2(n) + r, i) <==> Bit(r, i)
  {
    var half := q * Pow2(n - 1);
    assert q * Pow2(n) == 2 * half;
    assert (2 * half + r) / 2 == half + r / 2;
    if i > 0 { BitOfSum(q, r / 2, n - 1, i - 1); }
  }

  /** What << does to the digits of a 64-bit word. */
  lemma BitOfShiftLeft64(x: u64, d: nat, i: nat)
    requires i < 64
    ensures Bit(ShiftLeft64(x, d), i) <==> i >= d && Bit(x, i - d)
  {
    Pow2At64();
    var y := x * Pow2(d);
    BitOfSum(y / LIMIT64, y % LIMIT64, 64, i);
    BitOfShift(x, d, i);
  }

  /** 1 << d is digit d alone, and nothing once d reaches the word size. */
  lemma OneShifted(d: nat)
    requires d <= 64
    ensures ShiftLeft64(1, d) == if d < 64 then Pow2(d) else 0
  {
    Pow2At64();
    if d < 64 { Pow2Below(d, 64); }
  }

  lemma {:induction false} BitOfXor(x: nat, y: nat, i: nat)
    ensures Bit(Xor(x, y), i) <==> Bit(x, i) != Bit(y, i)
  {
    if x == 0 || y == 0 {
      BitOfZero(i);
    } else if i == 0 {
    } else {
      BitOfXor(x / 2, y / 2, i - 1);
    }
  }

  lemma XorDouble(x: nat, a: nat, y: nat, b: nat)
    requires a < 2 && b < 2
    ensures Xor(2 * x + a, 2 * y + b) == 2 * Xor(x, y) + (if a != b then 1 else 0)
  {
    assert (2 * x + a) / 2 == x && (2 * y + b) / 2 == y;
    assert (2 * x + a) % 2 == a && (2 * y + b) % 2 == b;
  }

  /** Four binary digits at a time, most significant first. */
  lemma XorHexDigit(x: nat, a: (nat, nat, nat, nat), y: nat, b: (nat, nat, nat, nat))
    requires a.0 < 2 && a.1 < 2 && a.2 < 2 && a.3 < 2 && b.0 < 2 && b.1 < 2 && b.2 < 2 && b.3 < 2
    ensures Xor(16 * x + 8 * a.0 + 4 * a.1 + 2 * a.2 + a.3, 16 * y + 8 * b.0 + 4 * b.1 + 2 * b.2 + b.3) ==
              16 * Xor(x, y) + (if a.0 != b.0 then 8 else 0) + (if a.1 != b.1 then 4 else 0)
              + (if a.2 != b.2 then 2 else 0) + (if a.3 != b.3 then 1 else 0)
  {
    hide Xor;
    XorDouble(x, a.0, y, b.0);
    XorDouble(2 * x + a.0, a.1, 2 * y + b.0, b.1);
    XorDouble(4 * x + 2 * a.0 + a.1, a.2, 4 * y + 2 * b.0 + b.1, b.2);
    XorDouble(8 * x + 4 * a.0 + 2 * a.1 + a.2, a.3, 8 * y + 4 * b.0 + 2 * b.1 + b.2, b.3);
  }

  lemma {:induction false} XorSelf(x: nat)
    ensures Xor(x, x) == 0
  {
    if x > 0 { XorSelf(x / 2); }
  }

  /** A mask applied twice cancels. */
  lemma {:induction false} XorCancels(x: nat, mask: nat)
    ensures Xor(Xor(x, mask), mask) == x
  {
    if x == 0 {
      XorSelf(mask);
    } else if mask == 0 {
    } else {
      XorCancels(x / 2, mask / 2);
    }
  }

  lemma {:induction false} XorBelow(x: nat, y: nat, n: nat)
    requires x < Pow2(n) && y < Pow2(n)
    ensures Xor(x, y) < Pow2(n)
  {
    if x == 0 || y == 0 {
    } else {
      XorBelow(x / 2, y / 2, n - 1);
    }
  }
}
