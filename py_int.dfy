/**
 * Python's operators on its unbounded integers, as the LS-8 emulator uses them on
 * register contents: `&`, `|`, `^`, `~`, `<<`, `>>` and `%`.
 *
 * Python reads a negative integer as an infinite two's-complement bit string, so the
 * bitwise operators are defined here by recursion on halves (Dafny's `/` and `%` with a
 * positive divisor are floor division and a non-negative remainder, as Python's `>> 1`
 * and `& 1`). `Bit` is the independent reference: bit i of x is the parity of
 * floor(x / 2^i), and the lemmas show that each operator acts bit by bit.
 */
module PyInt {

  function Pow2(n: nat): (r: nat)
    ensures r >= 1
  {
    if n == 0 then 1 else 2 * Pow2(n - 1)
  }

  /**
   * Bit i of x in the two's-complement reading of x: the lowest bit of x halved i
   * times (BitIsQuotientParity: the parity of floor(x / 2^i)).
   */
  predicate Bit(x: int, i: nat)
    decreases i
  {
    if i == 0 then x % 2 == 1 else Bit(x / 2, i - 1)
  }

  /** Distance from the fixed points 0 and -1 of halving; the measure of the recursions below. */
  function Mag(x: int): nat {
    if x >= 0 then x else -x - 1
  }

  /** 0 and -1 are the integers whose bits are all equal to the sign bit. */
  predicate SignOnly(x: int) {
    x == 0 || x == -1
  }

  lemma HalfShrinks(x: int)
    ensures Mag(x / 2) <= Mag(x)
    ensures !SignOnly(x) ==> Mag(x / 2) < Mag(x)
  {
  }

  /** Python `x & y`. */
  function And(x: int, y: int): int
    decreases Mag(x) + Mag(y)
  {
    if SignOnly(x) && SignOnly(y) then
      (if x == -1 && y == -1 then -1 else 0)
    else
      HalfShrinks(x); HalfShrinks(y);
      2 * And(x / 2, y / 2) + (if x % 2 == 1 && y % 2 == 1 then 1 else 0)
  }

  /** Python `x | y`. */
  function Or(x: int, y: int): int
    decreases Mag(x) + Mag(y)
  {
    if SignOnly(x) && SignOnly(y) then
      (if x == -1 || y == -1 then -1 else 0)
    else
      HalfShrinks(x); HalfShrinks(y);
      2 * Or(x / 2, y / 2) + (if x % 2 == 1 || y % 2 == 1 then 1 else 0)
  }

  /** Python `x ^ y`. */
  function Xor(x: int, y: int): int
    decreases Mag(x) + Mag(y)
  {
    if SignOnly(x) && SignOnly(y) then
      (if x != y then -1 else 0)
    else
      HalfShrinks(x); HalfShrinks(y);
      2 * Xor(x / 2, y / 2) + (if x % 2 != y % 2 then 1 else 0)
  }

  /** Python `~x`. */
  function Invert(x: int): int {
    -x - 1
  }

  /**
   * Python `x * y`, by repeated addition. Defined by recursion so that unfolding it
   * never brings a product of two unknowns into a proof; MulIsProduct shows it is x * y.
   */
  function Mul(x: int, y: int): int
    decreases if y < 0 then -y else y
  {
    if y == 0 then 0
    else if y > 0 then Mul(x, y - 1) + x
    else Mul(x, y + 1) - x
  }

  /** Python `x << n` for a non-negative shift count: x doubled n times (ShlIsProduct: x * 2^n). */
  function Shl(x: int, n: nat): int
    decreases n
  {
    if n == 0 then x else 2 * Shl(x, n - 1)
  }

  /** Python `x >> n` for a non-negative shift count: x floor-halved n times (ShrIsDiv: floor(x / 2^n)). */
  function Shr(x: int, n: nat): int
    decreases n
  {
    if n == 0 then x else Shr(x / 2, n - 1)
  }

  /** The remainder of x by a positive b, by repeated subtraction or addition of b (NonNegModIsMod). */
  function NonNegMod(x: int, b: int): (r: int)
    requires b > 0
    ensures 0 <= r < b
    decreases if x < 0 then 1 else 0, if x < 0 then -x else x
  {
    if x < 0 then NonNegMod(x + b, b)
    else if x >= b then NonNegMod(x - b, b)
    else x
  }

  /**
   * Python `x % b`: the remainder takes the sign of the divisor, so for a negative
   * divisor it is the negated remainder of -x by -b. FloorModIsRemainder shows that
   * x - r is a multiple of b.
   */
  function FloorMod(x: int, b: int): (r: int)
    requires b != 0
    ensures b > 0 ==> 0 <= r < b
    ensures b < 0 ==> b < r <= 0
  {
    if b > 0 then NonNegMod(x, b) else -NonNegMod(-x, -b)
  }

  // ---------------------------------------------------------------------------
  // Arithmetic facts about floor division

  lemma MulNonneg(a: int, b: int)
    requires a >= 0 && b >= 0
    ensures a * b >= 0
  {
  }

  /** The only multiple of d strictly between -d and d is 0. */
  lemma ZeroMultiple(d: int, k: int)
    requires d > 0 && -d < d * k < d
    ensures k == 0
  {
    if k >= 1 {
      MulNonneg(d, k - 1);
    } else if k <= -1 {
      MulNonneg(d, -k - 1);
    }
  }

  /** Dafny's division is determined by quotient and remainder (0 <= r < |d|). */
  lemma DivUnique(x: int, d: int, q: int, r: int)
    requires d != 0 && x == d * q + r && 0 <= r < (if d > 0 then d else -d)
    ensures x / d == q && x % d == r
  {
    var q0, r0 := x / d, x % d;
    assert x == d * q0 + r0;
    if d > 0 {
      assert d * (q0 - q) == r - r0;
      ZeroMultiple(d, q0 - q);
    } else {
      assert (-d) * (q - q0) == r - r0;
      ZeroMultiple(-d, q - q0);
    }
  }

  /** Dividing by 2^(i+1) is halving, then dividing by 2^i. */
  lemma HalveThenDivide(x: int, i: nat)
    ensures x / Pow2(i + 1) == (x / 2) / Pow2(i)
  {
    var p := Pow2(i);
    var h := x / 2;
    var q := h / p;
    var r := h % p;
    assert x == 2 * p * q + (2 * r + x % 2);
    DivUnique(x, 2 * p, q, 2 * r + x % 2);
  }

  lemma {:induction false} BitIsQuotientParity(x: int, i: nat)
    ensures Bit(x, i) == ((x / Pow2(i)) % 2 == 1)
    decreases i
  {
    if i > 0 {
      HalveThenDivide(x, i - 1);
      BitIsQuotientParity(x / 2, i - 1);
    }
  }

  // ---------------------------------------------------------------------------
  // The recursive definitions are Python's arithmetic

  lemma {:induction false} MulIsProduct(x: int, y: int)
    ensures Mul(x, y) == x * y
    decreases if y < 0 then -y else y
  {
    if y > 0 {
      MulIsProduct(x, y - 1);
    } else if y < 0 {
      MulIsProduct(x, y + 1);
    }
  }

  lemma {:induction false} ShlIsProduct(x: int, n: nat)
    ensures Shl(x, n) == x * Pow2(n)
    decreases n
  {
    if n > 0 {
      ShlIsProduct(x, n - 1);
      assert x * Pow2(n) == 2 * (x * Pow2(n - 1));
    }
  }

  lemma {:induction false} ShrIsDiv(x: int, n: nat)
    ensures Shr(x, n) == x / Pow2(n)
    decreases n
  {
    if n > 0 {
      ShrIsDiv(x / 2, n - 1);
      HalveThenDivide(x, n - 1);
    }
  }

  /** A right shift of a non-negative number never makes it larger (nor negative). */
  lemma {:induction false} ShrOfNonneg(x: int, n: nat)
    requires x >= 0
    ensures 0 <= Shr(x, n) <= x
    decreases n
  {
    if n > 0 {
      ShrOfNonneg(x / 2, n - 1);
    }
  }

  /** Adding the divisor does not change the remainder. */
  lemma ModAddDivisor(x: int, b: int)
    requires b > 0
    ensures (x + b) % b == x % b
  {
    var q, r := x / b, x % b;
    assert x + b == b * (q + 1) + r;
    DivUnique(x + b, b, q + 1, r);
  }

  lemma {:induction false} NonNegModIsMod(x: int, b: int)
    requires b > 0
    ensures NonNegMod(x, b) == x % b
    decreases if x < 0 then 1 else 0, if x < 0 then -x else x
  {
    if x < 0 {
      NonNegModIsMod(x + b, b);
      ModAddDivisor(x, b);
    } else if x >= b {
      NonNegModIsMod(x - b, b);
      ModAddDivisor(x - b, b);
    } else {
      DivUnique(x, b, 0, x);
    }
  }

  /** A multiple of b leaves no remainder. */
  lemma MultipleHasNoRemainder(b: int, q: int)
    requires b != 0
    ensures (b * q) % b == 0
  {
    DivUnique(b * q, b, q, 0);
  }

  /** Python's remainder differs from x by a multiple of the divisor. */
  lemma FloorModIsRemainder(x: int, b: int)
    requires b != 0
    ensures (x - FloorMod(x, b)) % b == 0
  {
    if b > 0 {
      RemainderByPositive(x, b);
    } else {
      RemainderByNegative(x, b);
    }
  }

  lemma RemainderByPositive(x: int, b: int)
    requires b > 0
    ensures (x - FloorMod(x, b)) % b == 0
  {
    var q, r := x / b, x % b;
    NonNegModIsMod(x, b);
    assert x == b * q + r;
    assert x - FloorMod(x, b) == b * q;
    MultipleHasNoRemainder(b, q);
  }

  lemma RemainderByNegative(x: int, b: int)
    requires b < 0
    ensures (x - FloorMod(x, b)) % b == 0
  {
    var y, d := -x, -b;
    NonNegModIsMod(y, d);
    var q, r := y / d, y % d;
    assert FloorMod(x, b) == -r;
    NegatedProduct(b, q);
    assert x - FloorMod(x, b) == b * q;
    MultipleHasNoRemainder(b, q);
  }

  lemma NegatedProduct(b: int, q: int)
    ensures (-b) * q == -(b * q)
  {
  }

  // ---------------------------------------------------------------------------
  // The bitwise operators act bit by bit

  lemma AndHalves(x: int, y: int)
    ensures And(x, y) / 2 == And(x / 2, y / 2)
    ensures And(x, y) % 2 == (if x % 2 == 1 && y % 2 == 1 then 1 else 0)
  {
  }

  lemma {:induction false} AndBit(x: int, y: int, i: nat)
    ensures Bit(And(x, y), i) == (Bit(x, i) && Bit(y, i))
    decreases i
  {
    AndHalves(x, y);
    if i > 0 {
      AndBit(x / 2, y / 2, i - 1);
    }
  }

  lemma OrHalves(x: int, y: int)
    ensures Or(x, y) / 2 == Or(x / 2, y / 2)
    ensures Or(x, y) % 2 == (if x % 2 == 1 || y % 2 == 1 then 1 else 0)
  {
  }

  lemma {:induction false} OrBit(x: int, y: int, i: nat)
    ensures Bit(Or(x, y), i) == (Bit(x, i) || Bit(y, i))
    decreases i
  {
    OrHalves(x, y);
    if i > 0 {
      OrBit(x / 2, y / 2, i - 1);
    }
  }

  lemma XorHalves(x: int, y: int)
    ensures Xor(x, y) / 2 == Xor(x / 2, y / 2)
    ensures Xor(x, y) % 2 == (if x % 2 != y % 2 then 1 else 0)
  {
  }

  lemma {:induction false} XorBit(x: int, y: int, i: nat)
    ensures Bit(Xor(x, y), i) == (Bit(x, i) != Bit(y, i))
    decreases i
  {
    XorHalves(x, y);
    if i > 0 {
      XorBit(x / 2, y / 2, i - 1);
    }
  }

  /** `~x` flips every bit, which is why Python defines it as -x-1. */
  lemma {:induction false} InvertBit(x: int, i: nat)
    ensures Bit(Invert(x), i) == !Bit(x, i)
    decreases i
  {
    if i > 0 {
      assert Invert(x) / 2 == Invert(x / 2);
      InvertBit(x / 2, i - 1);
    }
  }

  /** Bit i + k of `x << k` is bit i of x, and the k low bits are clear. */
  lemma {:induction false} ShlBit(x: int, k: nat, i: nat)
    ensures Bit(Shl(x, k), i + k) == Bit(x, i)
    ensures i < k ==> !Bit(Shl(x, k), i)
    decreases k
  {
    if k > 0 {
      var z := Shl(x, k - 1);
      assert Shl(x, k) == 2 * z;
      ShlBit(x, k - 1, i);
      if 0 < i < k {
        ShlBit(x, k - 1, i - 1);
      }
    }
  }

  /** Bit i of `x >> k` is bit i + k of x. */
  lemma {:induction false} ShrBit(x: int, k: nat, i: nat)
    ensures Bit(Shr(x, k), i) == Bit(x, i + k)
    decreases k
  {
    if k > 0 {
      ShrBit(x / 2, k - 1, i);
    }
  }

  // ---------------------------------------------------------------------------
  // Masks

  lemma {:induction false} AndZero(x: int)
    ensures And(x, 0) == 0
    decreases Mag(x)
  {
    if !SignOnly(x) {
      HalfShrinks(x);
      AndZero(x / 2);
    }
  }

  /** The remainder by 2p is twice the remainder of the half by p, plus the low bit. */
  lemma ModOfDouble(x: int, p: int)
    requires p >= 1
    ensures x % (2 * p) == 2 * ((x / 2) % p) + x % 2
  {
    var q, r := (x / 2) / p, (x / 2) % p;
    assert x == 2 * p * q + (2 * r + x % 2);
    DivUnique(x, 2 * p, q, 2 * r + x % 2);
  }

  /** `x & (2^k - 1)` keeps the k low bits: it is x modulo 2^k, for every x, negative ones too. */
  lemma {:induction false} AndLowMask(x: int, k: nat)
    ensures And(x, Pow2(k) - 1) == x % Pow2(k)
    decreases k
  {
    if k == 0 {
      AndZero(x);
    } else {
      var p := Pow2(k - 1);
      assert Pow2(k) == 2 * p;
      AndLowMask(x / 2, k - 1);
      AndOddMask(x, p);
      ModOfDouble(x, p);
    }
  }

  /** With the odd mask 2p - 1, `&` keeps the low bit of x and masks the half with p - 1. */
  lemma AndOddMask(x: int, p: int)
    requires p >= 1
    ensures And(x, 2 * p - 1) == 2 * And(x / 2, p - 1) + x % 2
  {
    var m := 2 * p - 1;
    assert m / 2 == p - 1 && m % 2 == 1 && !SignOnly(m);
  }

  /** On operands of k bits, `&`, `|` and `^` give a result of k bits. */
  lemma {:induction false} BitwiseInWidth(x: int, y: int, k: nat)
    requires 0 <= x < Pow2(k) && 0 <= y < Pow2(k)
    ensures 0 <= And(x, y) < Pow2(k)
    ensures 0 <= Or(x, y) < Pow2(k)
    ensures 0 <= Xor(x, y) < Pow2(k)
  {
    if k > 0 && !(SignOnly(x) && SignOnly(y)) {
      BitwiseInWidth(x / 2, y / 2, k - 1);
    }
  }
}
