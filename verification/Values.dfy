/** Run-time values and the arithmetic on them, shared by the language and by the emitted code.

    An `int` is a signed 32-bit number that wraps around.  Floats are opaque: every operation
    on them is a parameter of the semantics (`FloatOps`), so each theorem holds for all of them. */
module Values {
  const TWO_32 := 0x1_0000_0000
  const TWO_31 := 0x8000_0000

  type I32 = n: int | -TWO_31 <= n < TWO_31

  datatype F32 = F32(bits: nat)

  /** What a `float` becomes when it is passed to printf. */
  datatype F64 = F64(bits: nat)

  datatype Val = BoolV(b: bool) | IntV(n: I32) | FloatV(f: F32)

  /** One line of output: `%d` or `%f`. */
  datatype Event = PrintInt(n: I32) | PrintDouble(d: F64)

  datatype FloatOps = FloatOps(
    add: (F32, F32) -> F32, sub: (F32, F32) -> F32, mul: (F32, F32) -> F32, div: (F32, F32) -> F32,
    eq: (F32, F32) -> bool, ne: (F32, F32) -> bool, gt: (F32, F32) -> bool,
    lt: (F32, F32) -> bool, ge: (F32, F32) -> bool, le: (F32, F32) -> bool,
    neg: F32 -> F32, ofInt: I32 -> F32, toInt: F32 -> I32, toBool: F32 -> bool, extend: F32 -> F64)

  /** Two's-complement wrap-around of a mathematical integer to 32 bits. */
  function Wrap32(x: int): (r: I32)
    ensures -TWO_31 <= x < TWO_31 ==> r == x
    ensures (r - x) % TWO_32 == 0
  {
    (x + TWO_31) % TWO_32 - TWO_31
  }

  /** The unsigned reading of a 32-bit pattern. */
  function Unsigned(x: I32): (r: nat)
    ensures r < TWO_32 && (r - x) % TWO_32 == 0
  {
    if x < 0 then x + TWO_32 else x
  }

  /** Division of the two bit patterns read as unsigned numbers. */
  function UnsignedDiv(a: I32, b: I32): I32
    requires b != 0
  {
    Wrap32(Unsigned(a) / Unsigned(b))
  }

  /** Wrapping around and reading as unsigned again gives back what fits into 32 bits. */
  lemma UnsignedOfWrap(n: nat)
    requires n < TWO_32
    ensures Unsigned(Wrap32(n)) == n
  {
  }

  /** The quotient, read as unsigned, is the one the division algorithm gives for the two operands
      read so: it goes into the dividend, and one more does not. */
  lemma DivisionLaw(a: I32, b: I32)
    requires b != 0
    ensures var q := Unsigned(UnsignedDiv(a, b));
      q * Unsigned(b) <= Unsigned(a) < q * Unsigned(b) + Unsigned(b)
  {
    hide UnsignedDiv, Unsigned;
    QuotientRead(a, b);
    QuotientLaw(Unsigned(a), Unsigned(b));
  }

  lemma QuotientRead(a: I32, b: I32)
    requires b != 0
    ensures Unsigned(b) > 0 && Unsigned(UnsignedDiv(a, b)) == Unsigned(a) / Unsigned(b)
  {
    hide Wrap32;
    QuotientFits(Unsigned(a), Unsigned(b));
    UnsignedOfWrap(Unsigned(a) / Unsigned(b));
  }

  lemma QuotientFits(x: nat, y: nat)
    requires 0 < y
    ensures 0 <= x / y <= x
  {
    QuotientLaw(x, y);
  }

  lemma QuotientLaw(x: nat, y: nat)
    requires 0 < y
    ensures x / y * y <= x < x / y * y + y && x / y <= x
  {
    assert x / y * y == x - x % y;
    QuotientSmaller(x / y, y, x);
  }

  lemma QuotientSmaller(q: nat, y: nat, x: nat)
    requires 0 < y && q * y <= x
    ensures q <= x
  {
    ProductBounds(y - 1, q);
    assert q * y == q + (y - 1) * q;
  }

  function Magnitude(x: int): nat {
    if x < 0 then -x else x
  }

  /** Division as a C programmer reads it: signed, truncated toward zero. */
  function SignedDiv(a: int, b: int): int
    requires b != 0
  {
    var q := Magnitude(a) / Magnitude(b);
    if (a < 0) == (b < 0) then q else -q
  }

  /** The operands on which the emitted division is the signed one. */
  predicate DivisionAgrees(a: int, b: int)
    requires b != 0
  {
    if a >= 0 then b > 0 || a + b < 0 else b == 1 || a == b
  }

  lemma ProductBounds(k: int, y: nat)
    ensures k >= 1 ==> k * y >= y
    ensures k <= -1 ==> k * y <= 0 - y
    ensures k >= 0 ==> k * y >= 0
  {
    if k >= 1 {
      assert k * y == y + (k - 1) * y;
    } else if k <= -1 {
      assert k * y == (k + 1) * y - y;
    }
  }

  lemma QuotientIs(x: nat, y: nat, q: nat)
    requires 0 < y && q * y <= x < q * y + y
    ensures x / y == q
  {
    assert (x / y - q) * y == x - x % y - q * y;
    ProductBounds(x / y - q, y);
  }

  lemma QuotientBelow(x: nat, y: nat)
    requires 2 <= y
    ensures 2 * (x / y) <= x
    ensures y <= x ==> 1 <= x / y
  {
    assert x / y * y == x - x % y;
    assert x / y * y == 2 * (x / y) + x / y * (y - 2);
    ProductBounds(x / y, y);
    ProductBounds(x / y, y - 2);
  }

  lemma PositiveOperands(a: I32, b: I32)
    requires a >= 0 && b > 0
    ensures UnsignedDiv(a, b) == SignedDiv(a, b)
  {
    assert Unsigned(a) == Magnitude(a) == a && Unsigned(b) == Magnitude(b) == b;
    if b == 1 { QuotientIs(a, 1, a); } else { QuotientBelow(a, b); }
  }

  lemma NegativeDividend(a: I32, b: I32)
    requires a < 0 && b > 0
    ensures UnsignedDiv(a, b) == SignedDiv(a, b) <==> b == 1
  {
    if b == 1 {
      QuotientIs(Unsigned(a), 1, Unsigned(a));
      QuotientIs(Magnitude(a), 1, Magnitude(a));
    } else {
      QuotientBelow(Unsigned(a), b);
    }
  }

  lemma NegativeDivisor(a: I32, b: I32)
    requires a >= 0 && b < 0
    ensures UnsignedDiv(a, b) == SignedDiv(a, b) <==> a + b < 0
  {
    QuotientIs(Unsigned(a), Unsigned(b), 0);
    if a + b < 0 {
      QuotientIs(Magnitude(a), Magnitude(b), 0);
    } else if b == -1 {
      QuotientIs(Magnitude(a), 1, a);
    } else {
      QuotientBelow(Magnitude(a), Magnitude(b));
    }
  }

  lemma NegativeOperands(a: I32, b: I32)
    requires a < 0 && b < 0
    ensures UnsignedDiv(a, b) == SignedDiv(a, b) <==> a == b
  {
    if a < b {
      QuotientIs(Unsigned(a), Unsigned(b), 0);
      if b == -1 {
        QuotientIs(Magnitude(a), 1, Magnitude(a));
      } else {
        QuotientBelow(Magnitude(a), Magnitude(b));
      }
    } else {
      QuotientIs(Unsigned(a), Unsigned(b), 1);
      QuotientIs(Magnitude(a), Magnitude(b), if a == b then 1 else 0);
    }
  }

  /** The code divides `int`s with an unsigned instruction.  That gives the signed quotient if and
      only if `DivisionAgrees`. */
  lemma UnsignedDivisionIsSignedExactlyWhen(a: I32, b: I32)
    requires b != 0
    ensures UnsignedDiv(a, b) == SignedDiv(a, b) <==> DivisionAgrees(a, b)
  {
    if a >= 0 && b > 0 {
      PositiveOperands(a, b);
    } else if a >= 0 {
      NegativeDivisor(a, b);
    } else if b > 0 {
      NegativeDividend(a, b);
    } else {
      NegativeOperands(a, b);
    }
  }

  /** So -6 / 2 is not -3. */
  lemma MinusSixByTwo()
    ensures SignedDiv(-6, 2) == -3 && UnsignedDiv(-6, 2) == 2147483645
  {
  }
}
