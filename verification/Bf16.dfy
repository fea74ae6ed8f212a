/** float32 and bfloat16 bit patterns as natural numbers, and the rounding bit
    trick that turns one into the other. */
module Bf16 {

  const WORD: nat := 0x1_0000_0000      // 2^32
  const SIGN: nat := 0x8000_0000        // 2^31
  const HALF: nat := 0x1_0000           // 2^16
  const SIGNIFICAND: nat := 0x80_0000   // 2^23
  const INFINITY: nat := 0x7f80_0000
  const BF16_INFINITY: nat := 0x7f80

  type Bits32 = b: nat | b < WORD
  type Bits16 = b: nat | b < HALF

  function Pow2(n: nat): (p: nat)
    ensures p > 0
  {
    if n == 0 then 1 else 2 * Pow2(n - 1)
  }

  function Magnitude(bits: Bits32): (m: nat)
    ensures m < SIGN
  {
    bits % SIGN
  }

  predicate IsFinite(bits: Bits32) { Magnitude(bits) < INFINITY }
  predicate IsNormal(bits: Bits32) { SIGNIFICAND <= Magnitude(bits) < INFINITY }
  predicate IsNaN(bits: Bits32) { Magnitude(bits) > INFINITY }

  /** A pattern is finite unless its eight exponent bits are all ones, and then normal unless they are zeros. */
  lemma FiniteByExponent(bits: Bits32)
    ensures IsFinite(bits) <==> bits / 0x80_0000 % 256 != 255
    ensures IsNormal(bits) <==> bits / 0x80_0000 % 256 != 255 && bits / 0x80_0000 % 256 != 0
  {
  }

  /** The magnitude a finite pattern represents, in units of 2^-149. At and past the
      infinity pattern this is the value the next binade would have, which is what
      section 4.3.1 of IEEE 754-2019 rounds against to decide overflow. */
  function Units(m: nat): nat {
    if m < SIGNIFICAND then m
    else (SIGNIFICAND + m % SIGNIFICAND) * Pow2(m / SIGNIFICAND - 1)
  }

  /** The distance between neighbouring patterns at m. */
  function Spacing(m: nat): nat {
    if m < SIGNIFICAND then 1 else Pow2(m / SIGNIFICAND - 1)
  }

  /** float32ToBF16: add half an ulp less one, plus the lowest kept bit, in 32-bit
      arithmetic, and keep the upper half. */
  function ToBF16(bits: Bits32): Bits16 {
    (bits + 0x7fff + (bits / HALF) % 2) % WORD / HALF
  }

  /** bf16ToFloat32. */
  function FromBF16(half: Bits16): Bits32 {
    half * HALF
  }

  // --- the represented value is linear between bfloat16 neighbours -------

  lemma UnitsStep(m: nat)
    ensures Units(m + 1) == Units(m) + Spacing(m)
  {
    if m + 1 >= SIGNIFICAND {
      var e, f := m / SIGNIFICAND, m % SIGNIFICAND;
      if f + 1 < SIGNIFICAND {
        assert (m + 1) / SIGNIFICAND == e && (m + 1) % SIGNIFICAND == f + 1;
        if e > 0 {
          var p := Pow2(e - 1);
          assert (SIGNIFICAND + f + 1) * p == (SIGNIFICAND + f) * p + p;
        }
      } else {
        assert (m + 1) / SIGNIFICAND == e + 1 && (m + 1) % SIGNIFICAND == 0;
        if e > 0 {
          var p := Pow2(e - 1);
          assert SIGNIFICAND * (2 * p) == (SIGNIFICAND + f) * p + p;
        }
      }
    }
  }

  lemma {:induction false} UnitsMonotone(a: nat, b: nat)
    requires a <= b
    ensures Units(a) + (b - a) <= Units(b)
    decreases b - a
  {
    if a < b {
      UnitsMonotone(a, b - 1);
      UnitsStep(b - 1);
      assert Spacing(b - 1) >= 1;
    }
  }

  lemma {:induction false} ConstantSteps(f: nat -> nat, low: nat, r: nat, sp: nat)
    requires forall j :: low <= j < low + r ==> f(j + 1) == f(j) + sp
    ensures f(low + r) == f(low) + r * sp
  {
    if r > 0 {
      ConstantSteps(f, low, r - 1, sp);
      assert f(low + (r - 1) + 1) == f(low + (r - 1)) + sp;
      assert r * sp == (r - 1) * sp + sp;
    }
  }

  lemma UnitsLinear(low: nat, r: nat)
    requires low % HALF == 0 && r <= HALF
    ensures Units(low + r) == Units(low) + r * Spacing(low)
  {
    forall j | low <= j < low + r ensures Units(j + 1) == Units(j) + Spacing(low) {
      UnitsStep(j);
      SameBinade(low, j - low);
    }
    ConstantSteps(Units, low, r, Spacing(low));
  }

  lemma SameBinade(low: nat, r: nat)
    requires low % HALF == 0 && r < HALF
    ensures Spacing(low + r) == Spacing(low)
  {
    var k := low / HALF;
    assert low == k * HALF && SIGNIFICAND == 128 * HALF;
    assert (low + r) / SIGNIFICAND == low / SIGNIFICAND;
  }

  // --- round to nearest, ties to even ------------------------------------

  function Distance(a: nat, b: nat): nat { if a < b then b - a else a - b }

  /** h is the bfloat16 magnitude nearest to the value of m, and even when two are equally near. */
  ghost predicate NearestEven(m: nat, h: nat) {
    && h <= BF16_INFINITY
    && forall g: nat :: g <= BF16_INFINITY ==>
         var dh, dg := Distance(Units(h * HALF), Units(m)), Distance(Units(g * HALF), Units(m));
         dh <= dg && (dh == dg && g != h ==> h % 2 == 0)
  }

  /** Does the dropped half r round the kept part k up? */
  function Carry(k: nat, r: nat): (up: nat)
    ensures up <= 1
  {
    if r > 0x8000 || (r == 0x8000 && k % 2 == 1) then 1 else 0
  }

  /** The trick on any pattern, as sign, kept part and dropped half; the upper half wraps at 2^16. */
  lemma TrickSplit(bits: Bits32)
    ensures var m := Magnitude(bits);
            ToBF16(bits) == (bits / SIGN * 0x8000 + m / HALF + Carry(m / HALF, m % HALF)) % HALF
  {
    var s, m := bits / SIGN, Magnitude(bits);
    var k, r := m / HALF, m % HALF;
    var up := Carry(k, r);
    assert bits == s * SIGN + m && m == k * HALF + r && SIGN == 0x8000 * HALF;
    assert bits / HALF == s * 0x8000 + k;
    assert (bits / HALF) % 2 == k % 2;
    var sum := bits + 0x7fff + k % 2;
    var upper := s * 0x8000 + k + up;
    assert sum == upper * HALF + (r + 0x7fff + k % 2 - up * HALF);
    assert sum / HALF == upper;
    WrapHalf(sum, upper);
  }

  lemma WrapHalf(sum: nat, upper: nat)
    requires sum / HALF == upper && upper <= HALF
    ensures sum % WORD / HALF == upper % HALF
  {
    assert WORD == HALF * HALF;
  }

  /** What the bit trick computes on a finite pattern: the sign is kept, and the
      magnitude is rounded up exactly when the dropped half exceeds a half, or equals
      it and the kept part is odd. */
  lemma TrickOnMagnitude(bits: Bits32)
    requires IsFinite(bits)
    ensures ToBF16(bits) / 0x8000 == bits / SIGN
    ensures var m := Magnitude(bits);
            ToBF16(bits) % 0x8000 == m / HALF + Carry(m / HALF, m % HALF)
  {
    TrickSplit(bits);
  }

  /** How far the value of k * 2^16 + r is from the values of the bfloat16 patterns. */
  lemma GapAround(k: nat, r: nat, sp: nat, g: nat)
    requires r < HALF && sp == Spacing(k * HALF) && sp > 0
    ensures var d := Distance(Units(g * HALF), Units(k * HALF + r));
            && (g == k ==> d == r * sp)
            && (g == k + 1 ==> d == (HALF - r) * sp)
            && (g < k ==> d > r * sp)
            && (g > k + 1 ==> d > (HALF - r) * sp)
  {
    var low := k * HALF;
    assert low % HALF == 0;
    UnitsLinear(low, r);
    UnitsLinear(low, HALF);
    SplitHalf(r, sp);
    GapArithmetic(Units(low), Units(low + r), Units(low + HALF), Units(g * HALF), r * sp, (HALF - r) * sp);
    assert low + HALF == (k + 1) * HALF;
    if g < k {
      assert g * HALF < low;
      UnitsMonotone(g * HALF, low);
    } else if g > k + 1 {
      assert g * HALF > low + HALF;
      UnitsMonotone(low + HALF, g * HALF);
    }
  }

  /** below = r * sp and above = (2^16 - r) * sp are the gaps to the two neighbours. */
  lemma GapArithmetic(low: nat, mid: nat, high: nat, other: nat, below: nat, above: nat)
    requires mid == low + below && high == mid + above
    ensures var d := Distance(other, mid);
            && (other == low ==> d == below)
            && (other == high ==> d == above)
            && (other < low ==> d > below)
            && (other > high ==> d > above)
  {
  }

  lemma SplitHalf(r: nat, sp: nat)
    requires r < HALF
    ensures HALF * sp == r * sp + (HALF - r) * sp
    ensures (HALF - r) * sp >= 0
  {
  }

  /** The rounding decision is the nearest-even one: compare the two gaps. */
  lemma DecisionIsNearest(k: nat, r: nat, g: nat)
    requires r < HALF
    ensures var m := k * HALF + r;
            var h := k + Carry(k, r);
            var dh, dg := Distance(Units(h * HALF), Units(m)), Distance(Units(g * HALF), Units(m));
            dh <= dg && (dh == dg && g != h ==> h % 2 == 0)
  {
    var sp := Spacing(k * HALF);
    var h := k + Carry(k, r);
    GapAround(k, r, sp, g);
    GapAround(k, r, sp, h);
    Scale(r, HALF - r, sp);
    Scale(HALF - r, r, sp);
  }

  lemma Scale(a: nat, b: nat, c: nat)
    requires c > 0
    ensures a < b ==> a * c < b * c
    ensures a <= b ==> a * c <= b * c
  {
  }

  /** float32ToBF16 is round-to-nearest-even on every finite pattern: zeros,
      subnormals, carries into the exponent and overflow to infinity included. */
  lemma RoundsToNearestEven(bits: Bits32)
    requires IsFinite(bits)
    ensures ToBF16(bits) / 0x8000 == bits / SIGN
    ensures NearestEven(Magnitude(bits), ToBF16(bits) % 0x8000)
  {
    TrickOnMagnitude(bits);
    var m := Magnitude(bits);
    forall g: nat | g <= BF16_INFINITY
      ensures var h := ToBF16(bits) % 0x8000;
              var dh, dg := Distance(Units(h * HALF), Units(m)), Distance(Units(g * HALF), Units(m));
              dh <= dg && (dh == dg && g != h ==> h % 2 == 0)
    {
      DecisionIsNearest(m / HALF, m % HALF, g);
    }
  }

  /** Nearest-even has one answer, so the trick equals it. */
  lemma NearestEvenUnique(m: nat, a: nat, b: nat)
    requires NearestEven(m, a) && NearestEven(m, b)
    ensures a == b
  {
    var low, high := if a < b then a else b, if a < b then b else a;
    if low < high {
      var mid := low + 1;
      UnitsMonotone(low * HALF, mid * HALF);
      UnitsMonotone(mid * HALF, high * HALF);
      Between(Units(low * HALF), Units(mid * HALF), Units(high * HALF), Units(m));
    }
  }

  lemma Between(low: nat, mid: nat, high: nat, x: nat)
    requires low < mid <= high && Distance(low, x) == Distance(high, x)
    ensures mid < high ==> Distance(mid, x) < Distance(low, x)
  {
  }

  /** Widening and rounding back is the identity on every bfloat16 pattern. */
  lemma WidenThenRound(half: Bits16)
    ensures ToBF16(FromBF16(half)) == half
  {
    assert FromBF16(half) / HALF == half;
    var sum := half * HALF + 0x7fff + half % 2;
    assert sum / HALF == half && sum < WORD;
  }

  /** The trick is not a NaN-preserving conversion: the carry turns the NaNs nearest to
      infinity into infinity and the NaNs with the largest payloads into a signed zero. */
  lemma NaNKeptExactly(bits: Bits32)
    requires IsNaN(bits)
    ensures IsNaN(FromBF16(ToBF16(bits))) <==> 0x7f80_8001 <= Magnitude(bits) < 0x7fff_8000
  {
    TrickSplit(bits);
    var h := ToBF16(bits);
    assert FromBF16(h) % SIGN == (h % 0x8000) * HALF;
  }

  lemma NaNBecomesZero()
    ensures ToBF16(0x7fff_ffff) == 0x8000 && ToBF16(0x7f80_0001) == BF16_INFINITY
  {
  }

  /** Rounding a normal value moves it by at most 1/257 of itself. */
  lemma RelativeError(bits: Bits32)
    requires IsNormal(bits)
    ensures var m, h := Magnitude(bits), ToBF16(bits) % 0x8000;
            257 * Distance(Units(h * HALF), Units(m)) <= Units(m)
  {
    TrickOnMagnitude(bits);
    RelativeAt(Magnitude(bits) / HALF, Magnitude(bits) % HALF);
  }

  lemma RelativeAt(k: nat, r: nat)
    requires r < HALF && k * HALF >= SIGNIFICAND
    ensures 257 * Distance(Units((k + Carry(k, r)) * HALF), Units(k * HALF + r)) <= Units(k * HALF + r)
  {
    var low, sp := k * HALF, Spacing(k * HALF);
    assert low % HALF == 0;
    GapAround(k, r, sp, k + Carry(k, r));
    UnitsLinear(low, r);
    LeadingBit(low);
    RelativeArithmetic(r, sp, Carry(k, r) == 0);
  }

  lemma LeadingBit(low: nat)
    requires low >= SIGNIFICAND
    ensures Units(low) >= SIGNIFICAND * Spacing(low)
  {
    var f, sp := low % SIGNIFICAND, Spacing(low);
    assert (SIGNIFICAND + f) * sp == SIGNIFICAND * sp + f * sp;
  }

  lemma RelativeArithmetic(r: nat, sp: nat, down: bool)
    requires r < HALF && if down then r <= 0x8000 else r >= 0x8000
    ensures 257 * ((if down then r else HALF - r) * sp) <= SIGNIFICAND * sp + r * sp
  {
    var d := if down then r else HALF - r;
    MultiplyBy(257 * d, SIGNIFICAND + r, sp);
    Regroup(257, d, SIGNIFICAND, r, sp);
  }

  lemma MultiplyBy(a: nat, b: nat, c: nat)
    requires a <= b
    ensures a * c <= b * c
  {
  }

  lemma Regroup(a: nat, b: nat, c: nat, d: nat, e: nat)
    ensures (a * b) * e == a * (b * e)
    ensures (c + d) * e == c * e + d * e
  {
  }
}
