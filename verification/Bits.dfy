/** Bit operations on unsigned machine words, as mathematical naturals. */
module Bits {

  function Pow2(n: nat): (p: nat)
    ensures p >= 1
  {
    if n == 0 then 1 else 2 * Pow2(n - 1)
  }

  /** `a & b` */
  function And(a: nat, b: nat): nat {
    if a == 0 || b == 0 then 0
    else 2 * And(a / 2, b / 2) + if a % 2 == 1 && b % 2 == 1 then 1 else 0
  }

  /** `a ^ b` */
  function Xor(a: nat, b: nat): nat
    decreases a + b
  {
    if a == 0 && b == 0 then 0
    else 2 * Xor(a / 2, b / 2) + if a % 2 != b % 2 then 1 else 0
  }

  /** Number of bits needed to write x: the position of its highest set bit, plus one. */
  function BitLength(x: nat): nat {
    if x == 0 then 0 else 1 + BitLength(x / 2)
  }

  /** Leading zeros of x read as a w-bit word; w for x == 0. */
  function Clz(w: nat, x: nat): nat
    requires BitLength(x) <= w
  {
    w - BitLength(x)
  }

  lemma {:induction false} Pow2Monotone(m: nat, n: nat)
    requires m <= n
    ensures Pow2(m) <= Pow2(n)
  {
    if m < n {
      Pow2Monotone(m, n - 1);
    }
  }

  lemma {:induction false} Pow2Add(m: nat, n: nat)
    ensures Pow2(m + n) == Pow2(m) * Pow2(n)
  {
    if n > 0 {
      Pow2Add(m, n - 1);
    }
  }

  lemma MulSign(d: int, k: int)
    requires d > 0
    ensures k >= 1 ==> d * k >= d
    ensures k <= -1 ==> d * k <= -d
  {
    if k >= 1 {
      assert d * k == d + d * (k - 1);
    } else if k <= -1 {
      assert d * k == d * (k + 1) - d;
    }
  }

  lemma ModUnique(x: int, d: int, q: int, r: int)
    requires 0 <= r < d && x == d * q + r
    ensures x % d == r && x / d == q
  {
    var k := x / d - q;
    assert d * k == r - x % d;
    MulSign(d, k);
  }

  /** Adding a multiple of the modulus leaves the residue alone. */
  lemma ModShift(x: int, d: int, k: int)
    requires d > 0
    ensures (x + d * k) % d == x % d
  {
    ModUnique(x + d * k, d, x / d + k, x % d);
  }

  /** Reducing modulo a multiple of d first changes nothing modulo d. */
  lemma ModOfMod(x: int, d: int, k: int)
    requires d > 0 && k > 0
    ensures d * k > 0 && (x % (d * k)) % d == x % d
  {
    var m := d * k;
    assert m > 0;
    assert x == m * (x / m) + x % m;
    assert m * (x / m) == d * (k * (x / m));
    ModShift(x % m, d, k * (x / m));
  }

  /** Residues agree exactly when the difference is a multiple; close numbers with equal residues are equal. */
  lemma ModInjective(x: int, y: int, d: int)
    requires d > 0 && -d < x - y < d && x % d == y % d
    ensures x == y
  {
    var k := x / d - y / d;
    assert x - y == d * k;
    MulSign(d, k);
  }

  /** Doubling the modulus adds the low bit below the residue of the half. */
  lemma ModDouble(x: nat, p: nat, m: nat)
    requires p > 0 && m == 2 * p
    ensures x % m == 2 * ((x / 2) % p) + x % 2
  {
    var h := x / 2;
    assert h == p * (h / p) + h % p;
    ModUnique(x, m, h / p, 2 * (h % p) + x % 2);
  }

  lemma AndOdd(x: nat, b: nat, c: nat)
    requires c == 2 * b + 1
    ensures And(x, c) == 2 * And(x / 2, b) + x % 2
  {
    assert c / 2 == b && c % 2 == 1;
  }

  /** x modulo d by repeated subtraction: the residue without the arithmetic. */
  function Wrap(x: nat, d: nat): (r: nat)
    requires d > 0
    ensures r < d
  {
    if x < d then x else Wrap(x - d, d)
  }

  lemma {:induction false} WrapIsMod(x: nat, d: nat)
    requires d > 0
    ensures Wrap(x, d) == x % d
  {
    if x >= d {
      WrapIsMod(x - d, d);
      ModShift(x - d, d, 1);
    }
  }

  /** Masking with 2^k - 1 is reduction modulo 2^k. */
  lemma {:induction false} MaskIsMod(x: nat, k: nat)
    ensures And(x, Pow2(k) - 1) == x % Pow2(k)
  {
    if k > 0 {
      var p, m := Pow2(k - 1), Pow2(k);
      MaskIsMod(x / 2, k - 1);
      ModDouble(x, p, m);
      AndOdd(x, p - 1, m - 1);
    }
  }

  /** 2^(BitLength(x)-1) <= x < 2^BitLength(x). */
  lemma {:induction false} BitLengthBounds(x: nat)
    ensures x < Pow2(BitLength(x))
    ensures x > 0 ==> BitLength(x) > 0 && Pow2(BitLength(x) - 1) <= x
  {
    if x > 0 {
      BitLengthBounds(x / 2);
    }
  }

  lemma {:induction false} BitLengthAtMost(x: nat, w: nat)
    requires x < Pow2(w)
    ensures BitLength(x) <= w
  {
    if x > 0 {
      BitLengthAtMost(x / 2, w - 1);
    }
  }

  /** The length of a ^ b: one more than the position of the highest bit where a and b differ. */
  function Diff(a: nat, b: nat): nat {
    BitLength(Xor(a, b))
  }

  lemma {:induction false} DiffUnfold(a: nat, b: nat)
    ensures Xor(a, b) == 0 <==> a == b
    ensures Diff(a, b) == if a == b then 0 else 1 + Diff(a / 2, b / 2)
    ensures Diff(a, b) == 0 <==> a == b
    decreases a + b
  {
    if a != 0 || b != 0 {
      DiffUnfold(a / 2, b / 2);
      assert Xor(a, b) / 2 == Xor(a / 2, b / 2);
    }
  }

  lemma {:induction false} DiffAtMost(a: nat, b: nat, w: nat)
    requires a < Pow2(w) && b < Pow2(w)
    ensures Diff(a, b) <= w
    decreases w
  {
    DiffUnfold(a, b);
    if w > 0 && a != b {
      DiffAtMost(a / 2, b / 2, w - 1);
    }
  }

  /** Radix order: of two numbers above `base`, the one leaving it at the lower bit is the smaller. */
  lemma {:induction false} LowerDiffIsSmaller(base: nat, x: nat, y: nat)
    requires base < x && base < y && Diff(x, base) < Diff(y, base)
    ensures x < y
  {
    DiffUnfold(x, base);
    DiffUnfold(y, base);
    DiffUnfold(x / 2, base / 2);
    DiffUnfold(y / 2, base / 2);
    if base / 2 < x / 2 {
      LowerDiffIsSmaller(base / 2, x / 2, y / 2);
    }
  }

  /** Raising the base by less than a number's own bucket does not move the number. */
  lemma {:induction false} HigherDiffIsKept(base: nat, next: nat, x: nat)
    requires base < next && base < x && Diff(next, base) < Diff(x, base)
    ensures next < x && Diff(x, next) == Diff(x, base)
  {
    LowerDiffIsSmaller(base, next, x);
    DiffUnfold(next, base);
    DiffUnfold(x, base);
    DiffUnfold(x, next);
    DiffUnfold(x / 2, base / 2);
    if base / 2 < next / 2 {
      HigherDiffIsKept(base / 2, next / 2, x / 2);
    } else {
      assert base / 2 == next / 2;
    }
  }

  /** Raising the base inside a number's bucket brings the number strictly closer. */
  lemma {:induction false} SameDiffShrinks(base: nat, next: nat, x: nat)
    requires base < next <= x && Diff(next, base) == Diff(x, base)
    ensures Diff(x, next) < Diff(x, base)
  {
    DiffUnfold(next, base);
    DiffUnfold(x, base);
    DiffUnfold(x, next);
    DiffUnfold(next / 2, base / 2);
    DiffUnfold(x / 2, base / 2);
    if base / 2 < next / 2 {
      SameDiffShrinks(base / 2, next / 2, x / 2);
    }
  }
}
