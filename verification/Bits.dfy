/** Fixed-width integers, their wrap-around, and the bitwise operators the source applies to them. */
module Bits {
  type Byte = x: int | 0 <= x < 256
  type U16 = x: int | 0 <= x < 0x1_0000
  type U32 = x: int | 0 <= x < 0x1_0000_0000

  const W16: int := 0x1_0000
  const W32: int := 0x1_0000_0000
  const W64: int := 0x1_0000_0000_0000_0000

  function Wrap16(x: int): U16 {
    x % W16
  }

  function Wrap32(x: int): U32 {
    x % W32
  }

  function Pow2(k: nat): nat {
    if k == 0 then 1 else 2 * Pow2(k - 1)
  }

  /** Bitwise "and" of two natural numbers. */
  function And(a: nat, b: nat): nat {
    if a == 0 || b == 0 then 0 else 2 * And(a / 2, b / 2) + (if a % 2 == 1 && b % 2 == 1 then 1 else 0)
  }

  lemma Pow2Positive(k: nat)
    ensures Pow2(k) > 0
  {
  }

  lemma MulAtLeast(k: int, m: int)
    requires k >= 1 && m > 0
    ensures k * m >= m
  {
    if k > 1 {
      assert k * m == (k - 1) * m + m;
      MulAtLeast(k - 1, m);
    }
  }

  /** Quotient and remainder are determined by the equation they satisfy. */
  lemma ModUnique(n: int, m: int, q: int, r: int)
    requires n == q * m + r && 0 <= r < m
    ensures n / m == q && n % m == r
  {
    var q', r' := n / m, n % m;
    var d := q - q';
    assert n == q' * m + r' && 0 <= r' < m;
    assert d * m == q * m - q' * m;
    if d >= 1 {
      MulAtLeast(d, m);
    } else if d <= -1 {
      assert (-d) * m == -(d * m);
      MulAtLeast(-d, m);
    }
  }

  lemma HalfMod(n: nat, m: nat)
    requires m > 0
    ensures n % (2 * m) == 2 * ((n / 2) % m) + n % 2
  {
    var q, r := (n / 2) / m, (n / 2) % m;
    assert n / 2 == q * m + r;
    assert q * (2 * m) == 2 * (q * m);
    ModUnique(n, 2 * m, q, 2 * r + n % 2);
  }

  lemma AndOddMask(n: nat, m: nat)
    requires m > 0
    ensures And(n, 2 * m - 1) == 2 * And(n / 2, m - 1) + n % 2
  {
    var mask := 2 * m - 1;
    assert mask / 2 == m - 1 && mask % 2 == 1;
  }

  /** Masking with the k low bits is the remainder by 2^k. */
  lemma {:induction false} AndLowMask(n: nat, k: nat)
    ensures Pow2(k) > 0 && And(n, Pow2(k) - 1) == n % Pow2(k)
  {
    Pow2Positive(k);
    if k > 0 {
      var m := Pow2(k - 1);
      Pow2Positive(k - 1);
      AndLowMask(n / 2, k - 1);
      AndOddMask(n, m);
      HalfMod(n, m);
      assert Pow2(k) == 2 * m;
    }
  }

  lemma AndHighMask(n: nat, k: nat)
    ensures Pow2(k) > 0 && And(n, 4 * (Pow2(k) - 1)) == 4 * ((n / 4) % Pow2(k))
  {
    Pow2Positive(k);
    var high := Pow2(k) - 1;
    AndDouble(n, 2 * high);
    AndDouble(n / 2, high);
    AndLowMask(n / 4, k);
  }

  /** Clearing the two low bits of a 64-bit word rounds down to a multiple of four. */
  lemma AndNotThree(n: nat)
    requires n < W64
    ensures And(n, W64 - 4) == n - n % 4
  {
    AndHighMask(n, 62);
    Pow2Of62();
  }

  lemma AndDouble(n: nat, m: nat)
    ensures And(n, 2 * m) == 2 * And(n / 2, m)
  {
  }

  lemma {:induction false} Pow2Add(a: nat, b: nat)
    ensures Pow2(a + b) == Pow2(a) * Pow2(b)
  {
    if a > 0 {
      Pow2Add(a - 1, b);
    }
  }

  lemma Pow2Of62()
    ensures Pow2(62) == W64 / 4
  {
    assert Pow2(8) == 256 && Pow2(7) == 128;
    Pow2Add(8, 8);
    Pow2Add(16, 8);
    Pow2Add(24, 7);
    Pow2Add(31, 31);
  }

  /** Truncating a 64-bit wrapped product to 32 bits is the same as wrapping it at 32 bits. */
  lemma Truncate64(x: nat)
    ensures Wrap32(x % W64) == Wrap32(x)
  {
    var q := x / W64;
    assert x == q * W64 + x % W64;
    AddMultiple(x % W64, q * W32, W32);
  }

  lemma AddMultiple(x: int, k: int, m: int)
    requires m > 0
    ensures (x + k * m) % m == x % m
  {
    ModUnique(x + k * m, m, x / m + k, x % m);
  }

  /** Congruence modulo 2^32, by its witness. */
  lemma SameWrap32(x: int, y: int, k: int)
    requires x - y == k * W32
    ensures Wrap32(x) == Wrap32(y)
  {
    AddMultiple(y, k, W32);
  }
}
