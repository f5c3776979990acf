/** Bit-level helpers: the firmware masks bytes and phase counters with `&`.
    `And` is bitwise AND on naturals, defined one bit at a time, and the lemmas
    below connect the masks the firmware uses to plain division and remainder. */
module Bits {

  /** 2 to the power k. */
  function Pow2(k: nat): (r: nat)
    ensures r >= 1
  {
    if k == 0 then 1 else 2 * Pow2(k - 1)
  }

  /** Bitwise AND of two non-negative integers (C's `&` on unsigned values). */
  function And(a: nat, b: nat): nat
  {
    if a == 0 || b == 0 then 0
    else 2 * And(a / 2, b / 2) + (if a % 2 == 1 && b % 2 == 1 then 1 else 0)
  }

  lemma Pow2Values()
    ensures Pow2(4) == 16 && Pow2(7) == 128 && Pow2(14) == 0x4000
  {
    assert Pow2(4) == 16;
    assert Pow2(7) == 128;
    assert Pow2(14) == 0x4000;
  }

  /** The remainder of a by d is the unique r with a == d * q + r and 0 <= r < d. */
  lemma ModUnique(a: nat, d: nat, q: nat, r: nat)
    requires d >= 1 && a == d * q + r && r < d
    ensures a % d == r && a / d == q
  {
    var q', r' := a / d, a % d;
    assert a == d * q' + r';
    assert d * (q - q') == r' - r;
    MulSmall(d, q - q');
  }

  /** A multiple of d strictly between -d and d is zero. */
  lemma MulSmall(d: int, x: int)
    requires d >= 1 && -d < d * x < d
    ensures x == 0
  {
    if x >= 1 {
      MulAtLeast(d, x);
      assert false;
    } else if x <= -1 {
      MulAtLeast(d, -x);
      assert false;
    }
  }

  lemma MulAtLeast(d: int, n: int)
    requires d >= 0 && n >= 1
    ensures d * n >= d
  {
  }

  /** Peeling the lowest bit off: a mod 2p is twice (a/2 mod p) plus the low bit. */
  lemma ModDouble(a: nat, p: nat)
    requires p >= 1
    ensures a % (2 * p) == 2 * ((a / 2) % p) + a % 2
  {
    var q := (a / 2) / p;
    var t := (a / 2) % p;
    assert a / 2 == p * q + t;
    assert a == (2 * p) * q + (2 * t + a % 2);
    ModUnique(a, 2 * p, q, 2 * t + a % 2);
  }

  /** Dividing by 2 and then by p is dividing by 2p. */
  lemma DivDouble(a: nat, p: nat)
    requires p >= 1
    ensures (a / 2) / p == a / (2 * p)
  {
    var q := (a / 2) / p;
    var t := (a / 2) % p;
    assert a / 2 == p * q + t;
    assert a == (2 * p) * q + (2 * t + a % 2);
    ModUnique(a, 2 * p, q, 2 * t + a % 2);
  }

  /** Masking with k low one-bits keeps the remainder modulo 2^k. */
  lemma {:induction false} AndLowMask(a: nat, k: nat)
    ensures And(a, Pow2(k) - 1) == a % Pow2(k)
  {
    if k == 0 {
    } else if a == 0 {
    } else {
      var m := Pow2(k) - 1;
      assert m % 2 == 1 && m / 2 == Pow2(k - 1) - 1;
      AndLowMask(a / 2, k - 1);
      assert And(a, m) == 2 * ((a / 2) % Pow2(k - 1)) + a % 2;
      ModDouble(a, Pow2(k - 1));
    }
  }

  /** Against an even mask the lowest bit of a never survives. */
  lemma AndEven(a: nat, h: nat)
    ensures And(a, 2 * h) == 2 * And(a / 2, h)
  {
    if a == 0 || h == 0 {
      assert And(a / 2, h) == 0 by {
        if a == 0 {
          assert a / 2 == 0;
        }
      }
    } else {
      assert (2 * h) / 2 == h && (2 * h) % 2 == 0;
    }
  }

  /** For a byte b, `b & 0x7F` is b mod 128. */
  lemma AndLow7(b: nat)
    ensures And(b, 0x7F) == b % 128
  {
    Pow2Values();
    AndLowMask(b, 7);
  }

  /** For a byte b, `b & 0x0F` is b mod 16. */
  lemma AndLow4(b: nat)
    ensures And(b, 0x0F) == b % 16
  {
    Pow2Values();
    AndLowMask(b, 4);
  }

  /** `x & 0x3FFF` is x mod 2^14. */
  lemma AndLow14(x: nat)
    ensures And(x, 0x3FFF) == x % 0x4000
  {
    Pow2Values();
    AndLowMask(x, 14);
  }

  /** Against a mask that is a multiple of 4, the two low bits of a never survive. */
  lemma AndTimes4(a: nat, c: nat)
    ensures And(a, 4 * c) == 4 * And(a / 4, c)
  {
    var c2, a2 := 2 * c, a / 2;
    AndEven(a, c2);
    AndEven(a2, c);
    assert a2 / 2 == a / 4;
  }

  /** Two divisions by 4 are one division by 16. */
  lemma QuarterTwice(a: nat)
    ensures a / 4 / 4 == a / 16
  {
  }

  /** Against a mask that is a multiple of 16, the low nibble of a never survives. */
  lemma AndTimes16(a: nat, c: nat)
    ensures And(a, 16 * c) == 16 * And(a / 16, c)
  {
    var c4, a4 := 4 * c, a / 4;
    AndTimes4(a, c4);
    AndTimes4(a4, c);
    QuarterTwice(a);
  }

  /** For a byte b, `b & 0xF0` clears the low nibble: it is 16 * (b / 16). */
  lemma AndHighNibble(b: nat)
    requires b < 0x100
    ensures And(b, 0xF0) == 16 * (b / 16)
  {
    var h := b / 16;
    AndTimes16(b, 0x0F);
    AndLow4(h);
    assert h < 16;
    assert h % 16 == h;
  }

  /** A logical right shift of a non-negative value by k bits, one halving at a time. */
  function ShiftRight(x: nat, k: nat): (r: nat)
    ensures r <= x
    ensures k == 0 ==> r == x
    ensures k >= 1 ==> 2 * r <= x
  {
    if k == 0 then x else ShiftRight(x / 2, k - 1)
  }

  /** Shifting is dividing by a power of two. */
  lemma {:induction false} ShiftRightIsDiv(x: nat, k: nat)
    ensures ShiftRight(x, k) == x / Pow2(k)
  {
    if k > 0 {
      ShiftRightIsDiv(x / 2, k - 1);
      DivDouble(x, Pow2(k - 1));
    }
  }

  /** Shifting further never gives more. */
  lemma {:induction false} ShiftRightAntitone(x: nat, i: nat, j: nat)
    requires i <= j
    ensures ShiftRight(x, j) <= ShiftRight(x, i)
  {
    if i > 0 {
      ShiftRightAntitone(x / 2, i - 1, j - 1);
    }
  }

  /** Powers of two grow with the exponent. */
  lemma {:induction false} Pow2Mono(i: nat, j: nat)
    requires i <= j
    ensures Pow2(i) <= Pow2(j)
    decreases j
  {
    if i < j {
      Pow2Mono(i, j - 1);
    }
  }

  /** Dividing by a larger divisor never gives a larger quotient. */
  lemma DivAntitone(a: nat, p: nat, q: nat)
    requires 1 <= p <= q
    ensures a / q <= a / p
  {
    var x := a / q;
    assert q * x <= a;
    MulMono(p, q, x);
    if x > a / p {
      assert a == p * (a / p) + a % p;
      MulMono(a / p + 1, x, p);
      assert false;
    }
  }

  /** Multiplication by a non-negative number is monotone. */
  lemma MulMono(p: nat, q: nat, x: nat)
    requires p <= q
    ensures p * x <= q * x && x * p <= x * q
  {
  }

  /** Division by a fixed positive divisor is monotone. */
  lemma DivMonotone(a: nat, b: nat, d: nat)
    requires a <= b && d >= 1
    ensures a / d <= b / d
  {
    var qa, qb := a / d, b / d;
    assert a == d * qa + a % d;
    assert b == d * qb + b % d;
    if qa > qb {
      MulMono(qb + 1, qa, d);
      assert false;
    }
  }

  /** Reducing the left addend first does not change the remainder of a sum. */
  lemma ModAddLeft(a: nat, b: nat, m: nat)
    requires m >= 1
    ensures (a % m + b) % m == (a + b) % m
  {
    var q, r := a / m, a % m;
    var q2, r2 := (r + b) / m, (r + b) % m;
    assert a == m * q + r;
    assert r + b == m * q2 + r2;
    assert a + b == m * (q + q2) + r2;
    ModUnique(a + b, m, q + q2, r2);
  }
}
