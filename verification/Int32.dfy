/** The 32-bit integer operators of ECMAScript, on mathematical integers. */
module Int32 {

  const TWO32: int := 0x1_0000_0000
  const TWO31: int := 0x8000_0000

  function Pow2(n: nat): (r: nat)
    ensures r > 0
  {
    if n == 0 then 1 else 2 * Pow2(n - 1)
  }

  function ToUint32(x: int): int {
    x % TWO32
  }

  function ToInt32(x: int): int {
    var u := x % TWO32;
    if u < TWO31 then u else u - TWO32
  }

  function AndBits(a: nat, b: nat, k: nat): nat {
    if k == 0 then 0 else (a % 2) * (b % 2) + 2 * AndBits(a / 2, b / 2, k - 1)
  }

  function OrBits(a: nat, b: nat, k: nat): nat {
    if k == 0 then 0 else (if a % 2 == 1 || b % 2 == 1 then 1 else 0) + 2 * OrBits(a / 2, b / 2, k - 1)
  }

  function AndWords(a: nat, b: nat): int {
    ToInt32(AndBits(a, b, 32))
  }

  function And(x: int, y: int): int {
    AndWords(ToUint32(x), ToUint32(y))
  }

  function Or(x: int, y: int): int {
    ToInt32(OrBits(ToUint32(x), ToUint32(y), 32))
  }

  /** Only the low five bits of the count matter. */
  function ShiftLeft(x: int, n: int): int {
    ToInt32(ToUint32(x) * Pow2(n % 32))
  }

  /** Copies the sign: rounds towards negative infinity. */
  function ShiftRight(x: int, n: int): int {
    ToInt32(x) / Pow2(n % 32)
  }

  // ----- laws -----

  lemma SmallWord(x: int)
    requires 0 <= x < TWO32
    ensures ToUint32(x) == x
  {
  }

  lemma AndSmall(x: nat, y: nat)
    requires x < TWO32 && y < TWO32
    ensures And(x, y) == AndWords(x, y)
  {
    SmallWord(x);
    SmallWord(y);
  }

  lemma {:induction false} PowAdd(m: nat, n: nat)
    ensures Pow2(m + n) == Pow2(m) * Pow2(n)
  {
    if m > 0 {
      PowAdd(m - 1, n);
      assert Pow2(m + n) == 2 * Pow2(m - 1 + n);
    }
  }

  lemma {:induction false} PowMono(m: nat, n: nat)
    requires m <= n
    ensures Pow2(m) <= Pow2(n)
  {
    if m < n { PowMono(m, n - 1); }
  }

  lemma Powers()
    ensures Pow2(2) == 4 && Pow2(4) == 16 && Pow2(6) == 64 && Pow2(8) == 256 && Pow2(16) == 0x1_0000 && Pow2(32) == TWO32
  {
    assert Pow2(3) == 8 && Pow2(4) == 16;
    assert Pow2(8) == 256 by { PowAdd(4, 4); }
    assert Pow2(16) == 0x1_0000 by { PowAdd(8, 8); }
    assert Pow2(32) == TWO32 by { PowAdd(16, 16); }
    assert Pow2(5) == 32 && Pow2(6) == 64;
  }

  /** Bits below m, from one operand, and bits from m up, from the other. */
  lemma {:induction false} OrJoins(high: nat, low: nat, m: nat, k: nat)
    requires m <= k && low < Pow2(m) && high * Pow2(m) < Pow2(k)
    ensures OrBits(high * Pow2(m), low, k) == high * Pow2(m) + low
    decreases k
  {
    if m == 0 {
      OrZero(high, k);
    } else {
      var p := Pow2(m - 1);
      var a := high * Pow2(m);
      assert a == 2 * (high * p);
      assert low / 2 < p;
      OrJoins(high, low / 2, m - 1, k - 1);
    }
  }

  lemma {:induction false} OrZero(a: nat, k: nat)
    requires a < Pow2(k)
    ensures OrBits(a, 0, k) == a
  {
    if k > 0 { OrZero(a / 2, k - 1); }
  }

  /** Masking with m ones keeps the low m bits. */
  lemma {:induction false} AndLow(a: nat, m: nat, k: nat)
    requires m <= k
    ensures AndBits(a, Pow2(m) - 1, k) == a % Pow2(m)
    decreases k
  {
    if m == 0 {
      AndZero(a, k);
    } else {
      var p := Pow2(m - 1);
      AndLow(a / 2, m - 1, k - 1);
      assert (2 * p - 1) % 2 == 1 && (2 * p - 1) / 2 == p - 1;
      HalfMod(a, p);
    }
  }

  lemma {:induction false} AndZero(a: nat, k: nat)
    ensures AndBits(a, 0, k) == 0
  {
    if k > 0 { AndZero(a / 2, k - 1); }
  }

  lemma HalfMod(a: nat, p: nat)
    requires p > 0
    ensures a % (2 * p) == a % 2 + 2 * ((a / 2) % p)
  {
    var q, r := (a / 2) / p, (a / 2) % p;
    assert a / 2 == p * q + r;
    assert a == (2 * p) * q + (2 * r + a % 2);
    DivModIs(a, 2 * p, q, 2 * r + a % 2);
  }

  lemma QuotientIsUnique(d: nat, x: int, y: nat, q: int, r: nat)
    requires y < d && r < d && d * x + y == d * q + r
    ensures x == q && y == r
  {
    if x > q {
      AtLeast(d, x - q);
    } else if q > x {
      AtLeast(d, q - x);
    }
  }

  lemma AtLeast(d: nat, n: nat)
    requires n > 0
    ensures d * n >= d
  {
    assert d * n == d * (n - 1) + d;
  }

  lemma DivModIs(a: int, d: nat, q: int, r: nat)
    requires d > 0 && r < d && a == d * q + r
    ensures a / d == q && a % d == r
  {
    QuotientIsUnique(d, a / d, a % d, q, r);
  }

  lemma AndEven(a: nat, b: nat, k: nat)
    requires k > 0
    ensures AndBits(a, 2 * b, k) == 2 * AndBits(a / 2, b, k - 1)
  {
    assert (2 * b) % 2 == 0 && (2 * b) / 2 == b;
  }

  lemma AndHighStep(a: nat, p: nat, q: nat, k: nat)
    requires 0 < p <= q && k > 0 && AndBits(a / 2, q - p, k - 1) == a / 2 - a / 2 % p
    ensures AndBits(a, 2 * q - 2 * p, k) == a - a % (2 * p)
  {
    AndEven(a, q - p, k);
    HalfMod(a, p);
  }

  lemma AndAll(a: nat, k: nat)
    requires a < Pow2(k)
    ensures AndBits(a, Pow2(k) - 1, k) == a
  {
    AndLow(a, k, k);
    DivModIs(a, Pow2(k), 0, a);
  }

  /** Masking with ones from bit m up to bit k clears the low m bits. */
  lemma {:induction false} AndHigh(a: nat, m: nat, k: nat, mask: nat)
    requires m <= k && a < Pow2(k) && mask == Pow2(k) - Pow2(m)
    ensures AndBits(a, mask, k) == a - a % Pow2(m)
    decreases k
  {
    if m == 0 {
      AndAll(a, k);
      DivModIs(a, 1, a, 0);
    } else {
      var p, q := Pow2(m - 1), Pow2(k - 1);
      PowMono(m - 1, k - 1);
      AndHigh(a / 2, m - 1, k - 1, q - p);
      AndHighStep(a, p, q, k);
      assert mask == 2 * q - 2 * p;
    }
  }

  // ----- remainders -----

  lemma ModOfMod(a: int, d: nat, e: nat)
    requires d > 0 && e > 0
    ensures d * e > 0 && a % (d * e) % d == a % d
  {
    AtLeast(d, e);
    var m := d * e;
    var q, r := a / m, a % m;
    assert a == m * q + r;
    assert m * q == d * (e * q) by { MulAssoc(d, e, q); }
    assert r == d * (r / d) + r % d;
    assert a == d * (e * q + r / d) + r % d;
    DivModIs(a, d, e * q + r / d, r % d);
  }

  lemma MulAssoc(a: int, b: int, c: int)
    ensures a * b * c == a * (b * c)
  {
  }

  /** The low part of a quotient is the quotient of the low part. */
  lemma DivOfMod(a: int, d: nat, e: nat)
    requires d > 0 && e > 0
    ensures d * e > 0 && a % (d * e) / d == a / d % e
  {
    AtLeast(d, e);
    var m := d * e;
    var q, r := a / m, a % m;
    MulAssoc(d, e, q);
    assert a == d * (e * q + r / d) + r % d;
    DivModIs(a, d, e * q + r / d, r % d);
    DivBound(r, d, e);
    DivModIs(a / d, e, q, r / d);
  }

  lemma DivBound(r: nat, d: nat, e: nat)
    requires d > 0 && e > 0 && r < d * e
    ensures r / d < e
  {
    assert r == d * (r / d) + r % d;
  }

  lemma ModAtMost(x: nat, p: nat)
    requires p > 0
    ensures 0 <= x % p <= x
  {
    assert x == p * (x / p) + x % p;
    MulPositive(p, x / p);
  }

  lemma MulPositive(a: nat, b: nat)
    ensures a * b >= 0
  {
  }

  lemma ToInt32Same(x: int)
    ensures ToInt32(x) % TWO32 == x % TWO32 && ToUint32(ToInt32(x)) == ToUint32(x)
  {
  }
}
