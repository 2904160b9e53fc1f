/** Shifts, masks and bitwise-or of unsigned values. */
module Bits {
  newtype byte = x: int | 0 <= x < 0x100

  /** x << k. */
  function Shl(x: nat, k: nat): nat {
    if k == 0 then x else 2 * Shl(x, k - 1)
  }

  /** x >> k. */
  function Shr(x: nat, k: nat): nat {
    if k == 0 then x else Shr(x, k - 1) / 2
  }

  /** The last k bits of x. */
  function Low(x: nat, k: nat): nat {
    if k == 0 then 0 else 2 * Low(x / 2, k - 1) + x % 2
  }

  /** x | y. */
  function Or(x: nat, y: nat): nat {
    if x == 0 then y
    else if y == 0 then x
    else 2 * Or(x / 2, y / 2) + if x % 2 == 1 || y % 2 == 1 then 1 else 0
  }

  // ----- what the operations mean in arithmetic -----

  ghost function Pow2(k: nat): (p: nat)
    ensures p > 0
  {
    if k == 0 then 1 else 2 * Pow2(k - 1)
  }

  lemma {:induction false} QuotientIs(x: nat, d: nat, q: nat, r: nat)
    requires x == q * d + r && r < d
    ensures x / d == q && x % d == r
  {
    var q', r' := x / d, x % d;
    assert (q' - q) * d == r - r';
    Multiple(q' - q, d);
  }

  /** A multiple of d other than zero is no closer to zero than d. */
  lemma {:induction false} Multiple(e: int, d: nat)
    ensures e > 0 ==> e * d >= d
    ensures e < 0 ==> e * d + d <= 0
  {
  }

  /** Halving the quotient is dividing by twice the divisor. */
  lemma {:induction false} HalfQuotient(x: nat, d: nat)
    requires d > 0
    ensures x / d / 2 == x / (2 * d)
  {
    var q, r := x / d, x % d;
    assert x == q / 2 * (2 * d) + (q % 2 * d + r) by {
      assert q == 2 * (q / 2) + q % 2;
    }
    QuotientIs(x, 2 * d, q / 2, q % 2 * d + r);
  }

  /** The last bit below the remainder of the half is the remainder by twice the divisor. */
  lemma {:induction false} HalfRemainder(x: nat, d: nat)
    requires d > 0
    ensures 2 * (x / 2 % d) + x % 2 == x % (2 * d)
  {
    var q, r := x / 2 / d, x / 2 % d;
    assert x == 2 * (q * d + r) + x % 2;
    assert 2 * (q * d + r) == q * (2 * d) + 2 * r;
    QuotientIs(x, 2 * d, q, 2 * r + x % 2);
  }

  /** Shifting right divides by a power of two. */
  lemma {:induction false} ShrIs(x: nat, k: nat)
    ensures Shr(x, k) == x / Pow2(k)
    decreases k
  {
    if k > 0 {
      ShrIs(x, k - 1);
      HalfQuotient(x, Pow2(k - 1));
    }
  }

  /** Shifting left multiplies by a power of two. */
  lemma {:induction false} ShlIs(x: nat, k: nat)
    ensures Shl(x, k) == x * Pow2(k)
    decreases k
  {
    if k > 0 {
      ShlIs(x, k - 1);
      assert x * (2 * Pow2(k - 1)) == 2 * (x * Pow2(k - 1));
    }
  }

  /** The last bits are the remainder by a power of two. */
  lemma {:induction false} LowIs(x: nat, k: nat)
    ensures Low(x, k) == x % Pow2(k)
    decreases k
  {
    if k > 0 {
      LowIs(x / 2, k - 1);
      HalfRemainder(x, Pow2(k - 1));
    }
  }

  /** A bit of the result is set exactly if it is set in one of the two. */
  lemma {:induction false} OrBits(x: nat, y: nat, k: nat)
    ensures Shr(Or(x, y), k) % 2 == 1 <==> Shr(x, k) % 2 == 1 || Shr(y, k) % 2 == 1
    decreases k
  {
    if x == 0 || y == 0 {
      NoBits(k);
    } else if k > 0 {
      OrBits(x / 2, y / 2, k - 1);
      ShrHead(x, k);
      ShrHead(y, k);
      ShrHead(Or(x, y), k);
    }
  }

  lemma {:induction false} NoBits(k: nat)
    ensures Shr(0, k) == 0
    decreases k
  {
    if k > 0 {
      NoBits(k - 1);
    }
  }

  lemma {:induction false} ShrHead(x: nat, k: nat)
    requires k > 0
    ensures Shr(x, k) == Shr(x / 2, k - 1)
  {
    if k > 1 {
      ShrHead(x, k - 1);
    }
  }

  lemma {:induction false} ShrShr(x: nat, a: nat, b: nat)
    ensures Shr(Shr(x, a), b) == Shr(x, a + b)
    decreases b
  {
    if b > 0 {
      ShrShr(x, a, b - 1);
    }
  }

  lemma {:induction false} ShlShl(x: nat, a: nat, b: nat)
    ensures Shl(Shl(x, a), b) == Shl(x, a + b)
    decreases b
  {
    if b > 0 {
      ShlShl(x, a, b - 1);
    }
  }

  /** A value of k bits is its own last k bits. */
  lemma {:induction false} LowAll(x: nat, k: nat)
    requires Shr(x, k) == 0
    ensures Low(x, k) == x
    decreases k
  {
    if k > 0 {
      ShrHead(x, k);
      LowAll(x / 2, k - 1);
    }
  }

  /** Or of values that share no bits is their sum. */
  lemma {:induction false} OrIsSum(x: nat, y: nat, k: nat)
    requires Shr(y, k) == 0
    ensures Or(Shl(x, k), y) == Shl(x, k) + y
    decreases k
  {
    if k > 0 {
      ShrHead(y, k);
      OrIsSum(x, y / 2, k - 1);
    }
  }

  lemma {:induction false} OrShifted(x: nat, y: nat, k: nat)
    ensures Or(Shl(x, k), Shl(y, k)) == Shl(Or(x, y), k)
    decreases k
  {
    if k > 0 {
      OrShifted(x, y, k - 1);
    }
  }

  lemma {:induction false} EightBits(x: nat)
    ensures Shr(x, 8) == x / 0x100 && (x < 0x100 ==> Shr(x, 8) == 0)
    ensures Shl(x, 8) == 0x100 * x
  {
    assert Shr(x, 1) == x / 2;
    assert Shr(x, 2) == x / 4;
    assert Shr(x, 3) == x / 8;
    assert Shr(x, 4) == x / 16;
    assert Shr(x, 5) == x / 32;
    assert Shr(x, 6) == x / 64;
    assert Shr(x, 7) == x / 128;
    assert Shl(x, 1) == 2 * x;
    assert Shl(x, 2) == 4 * x;
    assert Shl(x, 3) == 8 * x;
    assert Shl(x, 4) == 16 * x;
    assert Shl(x, 5) == 32 * x;
    assert Shl(x, 6) == 64 * x;
    assert Shl(x, 7) == 128 * x;
  }

  lemma {:induction false} SixteenBits(x: nat)
    ensures x < 0x1_0000 ==> Shr(x, 16) == 0
    ensures Shl(x, 16) == 0x1_0000 * x
  {
    EightBits(x);
    EightBits(Shl(x, 8));
    ShlShl(x, 8, 8);
    EightBits(Shr(x, 8));
    ShrShr(x, 8, 8);
  }

  /** A byte shifted so that n bits are left has no others. */
  lemma {:induction false} TopBits(x: nat, n: nat)
    requires x < 0x100 && n <= 8
    ensures Low(Shr(x, 8 - n), n) == Shr(x, 8 - n)
  {
    EightBits(x);
    ShrShr(x, 8 - n, n);
    LowAll(Shr(x, 8 - n), n);
  }

  /** One more byte below x. */
  lemma {:induction false} PushByte(x: nat, y: nat, k: nat)
    requires y < 0x100
    ensures Or(Shl(x, 8 + k), Shl(y, k)) == Shl(Shl(x, 8) + y, k)
  {
    ShlShl(x, 8, k);
    OrShifted(Shl(x, 8), y, k);
    EightBits(y);
    OrIsSum(x, y, 8);
  }
}
