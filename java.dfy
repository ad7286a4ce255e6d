/** The value-level semantics of Java that the rental system relies on:
    32-bit `int` arithmetic with two's-complement wrap-around, and
    nullable references reduced to `Option`. */
module Java {

  /** `None` stands for Java's `null` (or for an exception-free "absent"). */
  datatype Option<+T> = None | Some(value: T)

  const INT_MIN: int := -0x8000_0000
  const INT_MAX: int := 0x7FFF_FFFF

  /** The values of a Java `int`. */
  type int32 = x: int | -0x8000_0000 <= x < 0x8000_0000

  /** The `int` that Java's arithmetic yields for the mathematical value `x`:
      the one value of the `int` range that differs from `x` by a multiple
      of 2^32. */
  function Wrap(x: int): (r: int32)
    ensures INT_MIN <= x <= INT_MAX ==> r == x
    decreases if x < INT_MIN then INT_MIN - x else if x > INT_MAX then x - INT_MAX else 0
  {
    if x < INT_MIN then Wrap(x + 0x1_0000_0000)
    else if x > INT_MAX then Wrap(x - 0x1_0000_0000)
    else x
  }

  /** Wrap-around does not see multiples of 2^32. */
  lemma WrapPeriodic(x: int)
    ensures Wrap(x + 0x1_0000_0000) == Wrap(x)
  {
    if x > INT_MAX {
      assert Wrap(x) == Wrap(x - 0x1_0000_0000);
    }
  }

  /** Adding after a wrap-around is adding before it: Java's `int`
      arithmetic can wrap at every step or once at the end. */
  lemma {:induction false} WrapShift(x: int, d: int)
    ensures Wrap(Wrap(x) + d) == Wrap(x + d)
    decreases if x < INT_MIN then INT_MIN - x else if x > INT_MAX then x - INT_MAX else 0
  {
    if x < INT_MIN {
      WrapShift(x + 0x1_0000_0000, d);
      WrapPeriodic(x + d);
    } else if x > INT_MAX {
      WrapShift(x - 0x1_0000_0000, d);
      WrapPeriodic(x - 0x1_0000_0000 + d);
    }
  }

  function Add(a: int32, b: int32): int32 { Wrap(a + b) }

  function Sub(a: int32, b: int32): int32 { Wrap(a - b) }

  function Mul(a: int32, b: int32): int32 { Wrap(a * b) }

  /** `Math.abs(int)`: the absolute value, except that `Math.abs(MIN_VALUE)` is `MIN_VALUE`. */
  function Abs(a: int32): (r: int32)
    ensures a != INT_MIN ==> r >= 0 && (r == a || r == -a)
    ensures a == INT_MIN ==> r == INT_MIN
  {
    if a < 0 then Wrap(-(a as int)) else a
  }

  /** The mathematical absolute value. */
  function MathAbs(a: int): nat { if a < 0 then -a else a }

  /** Java's `/` on `int`: the quotient is truncated toward zero, and
      `MIN_VALUE / -1` overflows back to `MIN_VALUE`. */
  function Div(a: int32, b: int32): (q: int32)
    requires b != 0
    ensures a >= 0 && b > 0 ==> q == a / b
    ensures !(a == INT_MIN && b == -1) ==>
              MathAbs(q) == MathAbs(a) / MathAbs(b) && (q != 0 ==> (q < 0 <==> (a < 0) != (b < 0)))
    ensures a == INT_MIN && b == -1 ==> q == INT_MIN
  {
    var t := Quotient(MathAbs(a), MathAbs(b));
    QuotientFits(a, b, t);
    if (a < 0) == (b < 0) then Wrap(t) else -(t as int)
  }

  /** The truncated quotient of two `int`s fits in an `int`, except for
      `MIN_VALUE / -1`, whose quotient 2^31 wraps around to `MIN_VALUE`. */
  lemma QuotientFits(a: int32, b: int32, t: nat)
    requires b != 0 && t == MathAbs(a) / MathAbs(b)
    ensures t <= 0x8000_0000
    ensures !(a == INT_MIN && b == -1) && (a < 0) == (b < 0) ==> t <= INT_MAX
    ensures a == INT_MIN && b == -1 ==> Wrap(t) == INT_MIN
  {
    if MathAbs(b) == 1 {
      DivideByOne(MathAbs(a));
    } else {
      HalfAtMost(MathAbs(a), MathAbs(b));
    }
    if a == INT_MIN && b == -1 {
      assert Wrap(t) == Wrap(t - 0x1_0000_0000);
    }
  }

  lemma DivideByOne(n: nat)
    ensures n / 1 == n
  {
  }

  /** A divisor of at least 2 at least halves the dividend. */
  lemma HalfAtMost(n: nat, d: nat)
    requires d >= 2
    ensures 2 * (n / d) <= n
  {
    var q := n / d;
    DivisionIdentity(n, d);
    assert d * q == (d - 2) * q + 2 * q;
    assert (d - 2) * q >= 0;
  }

  /** Division of naturals, which never exceeds the dividend. */
  function Quotient(n: nat, d: nat): (t: nat)
    requires d > 0
    ensures t <= n
  {
    DivisionIdentity(n, d);
    ProductAtLeast(d, n / d);
    n / d
  }

  lemma DivisionIdentity(n: nat, d: nat)
    requires d > 0
    ensures n == d * (n / d) + n % d
  {
  }

  lemma ProductAtLeast(d: nat, q: nat)
    requires d >= 1
    ensures d * q >= q
  {
    assert d * q == (d - 1) * q + q;
  }

  function Max(a: int, b: int): int { if a >= b then a else b }

  function Min(a: int, b: int): int { if a <= b then a else b }
}
