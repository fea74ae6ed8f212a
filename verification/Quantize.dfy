/** The affine INT8 conversions of one element: arithmetic over reals with the relative
    error bounds of binary64 and binary32. */
module Quantize {
  import opened Bf16

  // --- real values of bit patterns ---------------------------------------

  /** 2^-149, the smallest positive float32. */
  const UNIT: real := 1.0 / 713623846352979940529142984724747568191373312.0

  function SignedUnits(bits: Bits32): int {
    var units: int := Units(Magnitude(bits));
    if bits < SIGN then units else -units
  }

  function Value(bits: Bits32): real {
    SignedUnits(bits) as real * UNIT
  }

  function Abs(x: real): real { if x < 0.0 then -x else x }

  /** x is y up to a relative error of 1/n. */
  predicate Within(x: real, y: real, n: real) { Abs(x - y) * n <= Abs(y) }

  /** One correctly rounded binary64 operation on a result in the normal range. */
  predicate Rounded64(x: real, y: real) { Within(x, y, 9007199254740992.0) }

  /** One correctly rounded conversion to binary32 on a result in the normal range. */
  predicate Rounded32(x: real, y: real) { Within(x, y, 16777216.0) }

  /** math.RoundToEven. */
  function RoundEven(x: real): int {
    var f := x.Floor;
    var part := x - f as real;
    if part < 0.5 then f else if part > 0.5 then f + 1 else if f % 2 == 0 then f else f + 1
  }

  lemma RoundNear(x: real, d: int)
    requires Abs(x - d as real) < 0.5
    ensures RoundEven(x) == d
  {
    var f := x.Floor;
    assert f == d || f == d - 1;
  }

  function Clamp(x: int): (r: int)
    ensures -128 <= r <= 127
  {
    if x < -128 then -128 else if x > 127 then 127 else x
  }

  /** How far p is from x + zeroPoint. */
  function Distance(x: real, zeroPoint: int, p: int): real { Abs(x + zeroPoint as real - p as real) }

  /** q is the int8 nearest to x + zeroPoint; of two that are equally near, the one that stands for an even
      multiple of the scale. */
  ghost predicate Nearest(x: real, zeroPoint: int, q: int) {
    && -128 <= q <= 127
    && forall p :: -128 <= p <= 127 && p != q ==>
         || Distance(x, zeroPoint, q) < Distance(x, zeroPoint, p)
         || (Distance(x, zeroPoint, q) == Distance(x, zeroPoint, p) && (q - zeroPoint) % 2 == 0)
  }

  /** Of two that are equally near and both even, the first has a nearer neighbour. */
  lemma BetweenIsNearer(x: real, zeroPoint: int, q: int, p: int)
    requires q < p && Distance(x, zeroPoint, q) == Distance(x, zeroPoint, p) && (p - q) % 2 == 0
    ensures Distance(x, zeroPoint, q + 1) < Distance(x, zeroPoint, q)
  {
    assert x + zeroPoint as real - q as real == p as real - x - zeroPoint as real;
    assert (q + 1) as real == q as real + 1.0;
  }

  /** There is only one nearest. */
  lemma NearestUnique(x: real, zeroPoint: int, q: int, p: int)
    requires Nearest(x, zeroPoint, q) && Nearest(x, zeroPoint, p)
    ensures q == p
  {
    if q < p {
      BetweenIsNearer(x, zeroPoint, q, p);
    } else if p < q {
      BetweenIsNearer(x, zeroPoint, p, q);
    }
  }

  /** Rounding to even, adding the zero point and clamping finds it. */
  lemma RoundsAndClamps(x: real, zeroPoint: int)
    ensures Nearest(x, zeroPoint, Clamp(RoundEven(x) + zeroPoint))
  {
    var n, q := RoundEven(x), Clamp(RoundEven(x) + zeroPoint);
    assert n as real - 0.5 <= x <= n as real + 0.5;
    assert x == n as real + 0.5 || x == n as real - 0.5 ==> n % 2 == 0;
    assert (n + zeroPoint) as real == n as real + zeroPoint as real;
  }

  lemma WidenedUnits(bits: Bits32)
    requires IsFinite(bits)
    ensures var units: int := Units(ToBF16(bits) % 0x8000 * HALF);
            SignedUnits(FromBF16(ToBF16(bits))) == if bits < SIGN then units else -units
  {
    TrickOnMagnitude(bits);
    var h := ToBF16(bits);
    assert h == bits / SIGN * 0x8000 + h % 0x8000;
    assert FromBF16(h) == bits / SIGN * SIGN + h % 0x8000 * HALF;
    assert Magnitude(FromBF16(h)) == h % 0x8000 * HALF;
  }

  lemma ErrorInUnits(bits: Bits32)
    requires IsNormal(bits)
    ensures var a, b := SignedUnits(FromBF16(ToBF16(bits))), SignedUnits(bits);
            257 * (if a < b then b - a else a - b) <= if b < 0 then -b else b
  {
    RelativeError(bits);
    WidenedUnits(bits);
  }

  lemma UnitsWithin(a: int, b: int)
    requires 257 * (if a < b then b - a else a - b) <= if b < 0 then -b else b
    ensures Within(a as real, b as real, 257.0)
  {
  }

  lemma ScaleError(a: real, b: real, unit: real)
    requires unit > 0.0 && Within(a, b, 257.0)
    ensures Within(a * unit, b * unit, 257.0)
  {
    var x := Abs(a - b);
    assert Abs(a * unit - b * unit) == x * unit by {
      assert a * unit - b * unit == (a - b) * unit;
      AbsScale(a - b, unit);
    }
    assert Abs(b * unit) == Abs(b) * unit by {
      AbsScale(b, unit);
    }
    assert (x * unit) * 257.0 == (x * 257.0) * unit;
    ScaleOrder(x * 257.0, Abs(b), unit);
  }

  lemma ScaleOrder(x: real, y: real, k: real)
    requires k > 0.0 && x <= y
    ensures x * k <= y * k
  {
  }

  lemma AbsScale(x: real, k: real)
    requires k > 0.0
    ensures Abs(x * k) == Abs(x) * k
  {
  }

  /** Rounding a normal float32 to bfloat16 has relative error at most 1/257. */
  lemma Bf16Within(bits: Bits32)
    requires IsNormal(bits)
    ensures Within(Value(FromBF16(ToBF16(bits))), Value(bits), 257.0)
  {
    ErrorInUnits(bits);
    var a, b := SignedUnits(FromBF16(ToBF16(bits))), SignedUnits(bits);
    UnitsWithin(a, b);
    ScaleError(a as real, b as real, UNIT);
  }

  // --- one element, there and back ----------------------------------------

  lemma DivideBack(v: real, d: real, scale: real, n: real)
    requires scale > 0.0 && Within(v, d * scale, n)
    ensures Within(v / scale, d, n)
  {
    var q := v / scale;
    assert q * scale == v;
    assert (q - d) * scale == v - d * scale;
    AbsScale(q - d, scale);
    AbsScale(d, scale);
    CancelScale(Abs(q - d), n, Abs(d), scale);
  }

  lemma CancelScale(x: real, n: real, y: real, k: real)
    requires k > 0.0 && (x * k) * n <= y * k
    ensures x * n <= y
  {
    assert (x * k) * n == (x * n) * k;
    StrictScale(x * n, y, k);
  }

  lemma StrictScale(x: real, y: real, k: real)
    requires k > 0.0
    ensures x > y ==> x * k > y * k
  {
  }

  /** The float64 quotient of a value within 1/n of d * scale rounds to d. */
  lemma Recover(d: int, scale: real, v: real, quotient: real, n: real)
    requires (n == 8000000.0 && -255 <= d <= 255) || (n == 256.99 && -128 <= d <= 128)
    requires scale > 0.0 && Within(v, d as real * scale, n) && Rounded64(quotient, v / scale)
    ensures RoundEven(quotient) == d
  {
    DivideBack(v, d as real, scale, n);
    SmallError(quotient, v / scale, d as real, n);
    RoundNear(quotient, d);
  }

  lemma SmallError(x: real, y: real, d: real, n: real)
    requires (n == 8000000.0 && -255.0 <= d <= 255.0) || (n == 256.99 && -128.0 <= d <= 128.0)
    requires Rounded64(x, y) && Within(y, d, n)
    ensures Abs(x - d) < 0.5
  {
    if n == 256.99 {
      assert Abs(y - d) * 256.99 <= Abs(d);
    } else {
      assert Abs(y - d) * 8000000.0 <= Abs(d);
    }
  }

  /** Any float32 that dequantization may store for the difference d: the float64 product,
      rounded to float32, without leaving the normal range. */
  ghost predicate Stored(d: int, scale: real, bits: Bits32) {
    && scale > 0.0
    && (exists product: real :: Rounded64(product, d as real * scale) && Rounded32(Value(bits), product))
    && IsFinite(bits) && (d != 0 ==> IsNormal(bits))
  }

  lemma TwoRoundings(v: real, product: real, x: real)
    requires Rounded64(product, x) && Rounded32(v, product)
    ensures Within(v, x, 8000000.0)
  {
  }

  lemma ThreeRoundings(w: real, v: real, x: real)
    requires Within(w, v, 257.0) && Within(v, x, 8000000.0)
    ensures Within(w, x, 256.99)
  {
  }

  lemma StoredWithin(d: int, scale: real, bits: Bits32)
    requires Stored(d, scale, bits)
    ensures Within(Value(bits), d as real * scale, 8000000.0)
  {
    var product: real :| Rounded64(product, d as real * scale) && Rounded32(Value(bits), product);
    TwoRoundings(Value(bits), product, d as real * scale);
  }

  /** int8 -> float32 -> int8 is the identity. */
  lemma Float32RoundTrip(q: int, zeroPoint: int, scale: real, bits: Bits32, quotient: real)
    requires -128 <= q <= 127 && -128 <= zeroPoint <= 127
    requires Stored(q - zeroPoint, scale, bits) && Rounded64(quotient, Value(bits) / scale)
    ensures Clamp(RoundEven(quotient) + zeroPoint) == q
  {
    Float32Recover(q - zeroPoint, scale, bits, quotient);
  }

  lemma Float32Recover(d: int, scale: real, bits: Bits32, quotient: real)
    requires -255 <= d <= 255 && Stored(d, scale, bits) && Rounded64(quotient, Value(bits) / scale)
    ensures RoundEven(quotient) == d
  {
    StoredWithin(d, scale, bits);
    Recover(d, scale, Value(bits), quotient, 8000000.0);
  }

  /** What reading the bfloat16 back may divide to. */
  ghost predicate ReadBack16(scale: real, bits: Bits32, quotient: real)
    requires scale > 0.0
  {
    Rounded64(quotient, Value(FromBF16(ToBF16(bits))) / scale)
  }

  lemma Bf16Recover(d: int, scale: real, bits: Bits32, quotient: real)
    requires -128 <= d <= 128 && Stored(d, scale, bits) && ReadBack16(scale, bits, quotient)
    ensures RoundEven(quotient) == d
  {
    StoredWithin(d, scale, bits);
    var v, w := Value(bits), Value(FromBF16(ToBF16(bits)));
    if d == 0 {
      ZeroStored(bits);
      RoundNear(quotient, 0);
    } else {
      Bf16Within(bits);
      ThreeRoundings(w, v, d as real * scale);
      Recover(d, scale, w, quotient, 256.99);
    }
  }

  lemma ZeroStored(bits: Bits32)
    requires IsFinite(bits) && Value(bits) == 0.0
    ensures Value(FromBF16(ToBF16(bits))) == 0.0
  {
    assert SignedUnits(bits) == 0;
    UnitsMonotone(0, Magnitude(bits));
    WidenedUnits(bits);
    TrickOnMagnitude(bits);
    assert Magnitude(bits) == 0 && ToBF16(bits) % 0x8000 == 0;
  }

  /** int8 -> bfloat16 -> int8 is the identity while |q - zero point| <= 128. */
  lemma Bf16RoundTrip(q: int, zeroPoint: int, scale: real, bits: Bits32, quotient: real)
    requires -128 <= q <= 127 && -128 <= zeroPoint <= 127 && -128 <= q - zeroPoint <= 128
    requires Stored(q - zeroPoint, scale, bits) && ReadBack16(scale, bits, quotient)
    ensures Clamp(RoundEven(quotient) + zeroPoint) == q
  {
    Bf16Recover(q - zeroPoint, scale, bits, quotient);
  }

  lemma {:induction false} Pow2Add(a: nat, b: nat)
    ensures Pow2(a + b) == Pow2(a) * Pow2(b)
  {
    if b > 0 {
      Pow2Add(a, b - 1);
      assert a + b - 1 == a + (b - 1);
    }
  }

  lemma Pow2At126()
    ensures Pow2(126) == 85070591730234615865843651857942052864
  {
    Pow2Product(0, 3, 1, 8);
    Pow2Product(3, 3, 8, 8);
    Pow2Product(6, 6, 64, 64);
    Pow2Product(12, 12, 4096, 4096);
    Pow2Product(24, 6, 16777216, 64);
    Pow2Product(24, 24, 16777216, 16777216);
    Pow2Product(48, 48, 281474976710656, 281474976710656);
    Pow2Product(96, 30, 79228162514264337593543950336, 1073741824);
  }

  lemma Pow2Product(a: nat, b: nat, x: nat, y: nat)
    requires Pow2(a) == x && Pow2(b) == y
    ensures Pow2(a + b) == x * y
  {
    Pow2Add(a, b);
  }

  /** The pattern of 257/256 is half-way between 1 and its bfloat16 successor, and rounds to 1. */
  lemma TieToOne()
    ensures ToBF16(0x3f80_8000) == 0x3f80
    ensures Value(0x3f80_8000) == 257.0 / 256.0 && Value(FromBF16(0x3f80)) == 1.0
  {
    Pow2At126();
    assert Units(0x3f80_8000) == (SIGNIFICAND + 0x8000) * Pow2(126);
    assert Units(0x3f80_0000) == SIGNIFICAND * Pow2(126);
  }

  lemma TieToMinusOne()
    ensures ToBF16(0xbf80_8000) == 0xbf80
    ensures Value(0xbf80_8000) == -257.0 / 256.0 && Value(FromBF16(0xbf80)) == -1.0
  {
    Pow2At126();
    assert Units(0x3f80_8000) == (SIGNIFICAND + 0x8000) * Pow2(126);
    assert Units(0x3f80_0000) == SIGNIFICAND * Pow2(126);
  }

  /** The scale at which a difference d is stored as 257/256 (or its negative). */
  function TieScale(d: int): (scale: real)
    requires d != 0
    ensures scale > 0.0
  {
    257.0 / (256.0 * Abs(d as real))
  }

  /** The float32 half-way between one (or minus one) and its bfloat16 neighbour. */
  function TieBits(d: int): Bits32 { if d > 0 then 0x3f80_8000 else 0xbf80_8000 }

  /** Conversion of x to binary32: no finite float32 is nearer. */
  ghost predicate Nearest32(bits: Bits32, x: real) {
    IsFinite(bits) && forall b: Bits32 :: IsFinite(b) ==> Abs(Value(bits) - x) <= Abs(Value(b) - x)
  }

  function TieValue(d: int): real { if d > 0 then 257.0 / 256.0 else -257.0 / 256.0 }

  function SignOf(d: int): real { if d > 0 then 1.0 else -1.0 }

  /** 2^126, the float32 spacing at one in units of 2^-149, and how many of them the half-way value is. */
  const SPACING: int := 85070591730234615865843651857942052864
  const SPACINGS: int := 8421376

  /** What the half-way pattern stands for, and what its bfloat16 stands for. */
  lemma TieValues(d: int)
    ensures SignedUnits(TieBits(d)) == if d > 0 then SPACINGS * SPACING else -(SPACINGS * SPACING)
    ensures Value(TieBits(d)) == TieValue(d) && Value(FromBF16(ToBF16(TieBits(d)))) == SignOf(d)
    ensures IsNormal(TieBits(d))
  {
    Pow2At126();
    assert Units(0x3f80_8000) == (SIGNIFICAND + 0x8000) * Pow2(126);
    TieToOne();
    TieToMinusOne();
  }

  lemma TieUnitsApart(m: nat)
    ensures m < 0x3f80_8000 ==> Units(m) + SPACING <= SPACINGS * SPACING
    ensures m > 0x3f80_8000 ==> SPACINGS * SPACING + SPACING <= Units(m)
  {
    Pow2At126();
    assert Units(0x3f80_7fff) == (SIGNIFICAND + 0x7fff) * Pow2(126);
    assert Units(0x3f80_8001) == (SIGNIFICAND + 0x8001) * Pow2(126);
    if m < 0x3f80_8000 {
      UnitsMonotone(m, 0x3f80_7fff);
    } else if m > 0x3f80_8000 {
      UnitsMonotone(0x3f80_8001, m);
    }
  }

  /** No other float32 comes within 2^-23 of the half-way pattern. */
  lemma TieIsolated(d: int, b: Bits32)
    requires b != TieBits(d)
    ensures Abs(Value(b) - TieValue(d)) * 8388608.0 >= 1.0
  {
    TieValues(d);
    TieUnitsApart(Magnitude(b));
    OppositeTie(d, b);
    UnitsApart(SignedUnits(b), if d > 0 then SPACINGS * SPACING else -(SPACINGS * SPACING));
  }

  /** The pattern of that magnitude with the other sign is the other half-way pattern. */
  lemma OppositeTie(d: int, b: Bits32)
    requires b != TieBits(d)
    ensures Magnitude(b) == 0x3f80_8000 ==>
              SignedUnits(b) == if d > 0 then -(SPACINGS * SPACING) else SPACINGS * SPACING
  {
    if Magnitude(b) == 0x3f80_8000 {
      assert b == TieBits(if d > 0 then -1 else 1);
      TieValues(if d > 0 then -1 else 1);
    }
  }

  lemma UnitsApart(a: int, b: int)
    requires (if a < b then b - a else a - b) >= SPACING
    ensures Abs(a as real * UNIT - b as real * UNIT) * 8388608.0 >= 1.0
  {
    assert a as real * UNIT - b as real * UNIT == (a - b) as real * UNIT;
  }

  /** A product that close to the half-way value is stored as the half-way pattern, and only as that. */
  lemma StoredAsTie(d: int, product: real, bits: Bits32)
    requires Abs(TieValue(d) - product) * 1073741824.0 <= 1.0
    ensures Nearest32(bits, product) <==> bits == TieBits(d)
  {
    TieValues(d);
    forall b: Bits32 | b != TieBits(d) ensures Abs(Value(b) - product) > Abs(TieValue(d) - product) {
      TieIsolated(d, b);
      Farther(Value(b), TieValue(d), product);
    }
    assert Nearest32(bits, product) ==> Abs(Value(bits) - product) <= Abs(Value(TieBits(d)) - product);
  }

  lemma NearestToTie(d: int, product: real, bits: Bits32)
    requires Abs(TieValue(d) - product) * 1073741824.0 <= 1.0 && Nearest32(bits, product)
    ensures Value(bits) == TieValue(d) && Value(FromBF16(ToBF16(bits))) == SignOf(d) && IsNormal(bits)
  {
    StoredAsTie(d, product, bits);
    TieValues(d);
  }

  lemma SomeNearest(d: int, product: real) returns (bits: Bits32)
    requires Abs(TieValue(d) - product) * 1073741824.0 <= 1.0
    ensures Nearest32(bits, product)
  {
    bits := TieBits(d);
    StoredAsTie(d, product, bits);
  }

  lemma Farther(v: real, tie: real, product: real)
    requires Abs(v - tie) * 8388608.0 >= 1.0 && Abs(tie - product) * 1073741824.0 <= 1.0
    ensures Abs(v - product) > Abs(tie - product)
  {
  }

  /** A product that is off the half-way value by two roundings is still that close to it. */
  lemma ProductNearTie(tie: real, x: real, product: real)
    requires Abs(tie) == 257.0 / 256.0 && Abs(x - tie) * 9007199254740992.0 <= 257.0 / 256.0
    requires Rounded64(product, x)
    ensures Abs(tie - product) * 1073741824.0 <= 1.0 && Rounded32(tie, product)
  {
  }

  /** A quotient of that size rounds to another integer. */
  lemma QuotientMisses(d: int, inverse: real, quotient: real)
    requires (129 <= d <= 255 || -255 <= d <= -129) && inverse > 0.0 && inverse * 257.0 <= Abs(d as real) * 256.001
    requires Rounded64(quotient, if d > 0 then inverse else -inverse)
    ensures RoundEven(quotient) != d
  {
    assert Abs(quotient) < Abs(d as real) - 0.5;
  }

  /** The arithmetic of a scale that is the tie scale up to one rounding, for a difference of magnitude n:
      the product is near the half-way value, and the inverse of the scale near 256/257 of n. */
  lemma NearTie(n: real, tie: real, scale: real, x: real, inverse: real)
    requires 129.0 <= n <= 255.0 && tie == 257.0 / (256.0 * n) && Rounded64(scale, tie)
    requires x == n * scale && inverse * scale == 1.0
    ensures scale > 0.0 && Abs(x - 257.0 / 256.0) * 9007199254740992.0 <= 257.0 / 256.0
    ensures inverse > 0.0 && inverse * 257.0 <= n * 256.001
  {
    assert tie * (256.0 * n) == 257.0;
    assert tie * n == 257.0 / 256.0;
    assert (scale - tie) * n == x - 257.0 / 256.0;
    AbsScale(scale - tie, n);
    ScaleOrder(Abs(scale - tie) * 9007199254740992.0, tie, n);
    assert scale > 0.0;
    InverseBound(n, scale, x, inverse);
  }

  lemma InverseBound(n: real, scale: real, x: real, inverse: real)
    requires scale > 0.0 && x == n * scale && inverse * scale == 1.0 && x * 256.001 >= 257.0
    ensures inverse > 0.0 && inverse * 257.0 <= n * 256.001
  {
    assert x * inverse == n;
    ScaleOrder(257.0, x * 256.001, inverse);
  }

  /** The same for a difference of either sign. */
  lemma TieFacts(d: int, scale: real, x: real, product: real, inverse: real)
    requires 129 <= d <= 255 || -255 <= d <= -129
    requires Rounded64(scale, TieScale(d)) && x == d as real * scale && Rounded64(product, x) && inverse * scale == 1.0
    ensures scale > 0.0 && Abs(TieValue(d) - product) * 1073741824.0 <= 1.0 && Rounded32(TieValue(d), product)
    ensures inverse > 0.0 && inverse * 257.0 <= Abs(d as real) * 256.001
  {
    if d > 0 {
      NearTie(d as real, TieScale(d), scale, x, inverse);
    } else {
      assert -x == (-d as real) * scale;
      NearTie(-d as real, TieScale(d), scale, -x, inverse);
    }
    ProductNearTie(TieValue(d), x, product);
  }

  lemma SignedQuotient(d: int, scale: real, inverse: real)
    requires scale > 0.0 && inverse * scale == 1.0
    ensures SignOf(d) / scale == if d > 0 then inverse else -inverse
  {
    assert inverse == 1.0 / scale;
  }

  /** Past 128 the bfloat16 round trip fails: at the float64 nearest to the tie scale, whichever way the
      product and the quotient are rounded, what is read back is another integer. */
  lemma Bf16RoundTripFails(d: int, scale: real, product: real, bits: Bits32, quotient: real)
    requires 129 <= d <= 255 || -255 <= d <= -129
    requires Rounded64(scale, TieScale(d)) && Rounded64(product, d as real * scale) && Nearest32(bits, product)
    requires scale > 0.0 && ReadBack16(scale, bits, quotient)
    ensures Stored(d, scale, bits) && RoundEven(quotient) != d
  {
    var inverse := 1.0 / scale;
    assert inverse * scale == 1.0;
    TieFacts(d, scale, d as real * scale, product, inverse);
    NearestToTie(d, product, bits);
    assert Rounded64(product, d as real * scale) && Rounded32(Value(bits), product);
    SignedQuotient(d, scale, inverse);
    QuotientMisses(d, inverse, quotient);
  }

  /** A positive binary64 number in the normal range. */
  ghost predicate Binary64(x: real) {
    exists m: int, e: int :: -1022 <= e <= 1023 && IsBinary64(x, m, e)
  }

  /** x is m / 2^52 times 2^e, with 53 significant bits. */
  predicate IsBinary64(x: real, m: int, e: int) {
    && 4503599627370496 <= m < 9007199254740992
    && (if e >= 0 then x == m as real / 4503599627370496.0 * Pow2(e) as real
        else x * Pow2(-e) as real == m as real / 4503599627370496.0)
  }

  /** Every tie scale past 128 lies in one binade, and so has a float64 within one rounding. */
  lemma TieScale64(d: int) returns (scale: real)
    requires 129 <= d <= 255 || -255 <= d <= -129
    ensures Binary64(scale) && Rounded64(scale, TieScale(d))
  {
    var tie := TieScale(d);
    var m := RoundEven(tie * 1152921504606846976.0);
    TieRange(Abs(d as real), tie);
    scale := m as real / 1152921504606846976.0;
    assert Pow2(8) == 256;
    assert IsBinary64(scale, m, -8);
  }

  lemma TieRange(n: real, tie: real)
    requires 129.0 <= n <= 255.0 && tie == 257.0 / (256.0 * n)
    ensures 0.00390625 < tie && tie < 0.0078124
  {
    assert tie * (256.0 * n) == 257.0;
    if tie <= 0.00390625 {
      ScaleOrder(tie, 0.00390625, 256.0 * n);
    }
    if tie >= 0.0078124 {
      ScaleOrder(0.0078124, tie, 256.0 * n);
    }
  }

  /** For a given difference, the bfloat16 round trip recovers it at every float64 scale exactly
      when the difference is at most 128 in magnitude. */
  lemma Bf16RoundTripExactly(d: int)
    requires -255 <= d <= 255
    ensures (forall scale: real, bits: Bits32, quotient: real ::
               Binary64(scale) && Stored(d, scale, bits) && ReadBack16(scale, bits, quotient) ==>
                 RoundEven(quotient) == d)
            <==> -128 <= d <= 128
  {
    if -128 <= d <= 128 {
      forall scale: real, bits: Bits32, quotient: real
        | Binary64(scale) && Stored(d, scale, bits) && ReadBack16(scale, bits, quotient)
        ensures RoundEven(quotient) == d
      {
        Bf16Recover(d, scale, bits, quotient);
      }
    } else {
      var scale := TieScale64(d);
      var product := d as real * scale;
      TieFacts(d, scale, product, product, 1.0 / scale);
      var bits := SomeNearest(d, product);
      var quotient := Value(FromBF16(ToBF16(bits))) / scale;
      assert ReadBack16(scale, bits, quotient);
      Bf16RoundTripFails(d, scale, product, bits, quotient);
    }
  }
}
