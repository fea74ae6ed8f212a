/** The quantization engine's loops: bytes in, bytes out, in bounded blocks. */
module Convert {
  import opened Bags
  import opened Bf16
  import opened Quantize
  import opened Blocks

  datatype DType = Int8 | BFloat16 | Float32 | Unsupported

  /** A conversion request; the scale is None when it is not a finite number. */
  datatype Request = Request(elements: nat, source: DType, target: DType, scale: Option<real>, zeroPoint: int)

  /** The floating-point unit for one scale and zero point: the float32 pattern of
      (q - zeroPoint) * scale, and the float64 quotient of a float32 pattern by scale. */
  datatype Arithmetic = Arithmetic(dequantize: int -> Bits32, quotient: Bits32 -> real)

  function NumericSize(t: DType): nat {
    match t
    case Int8 => 1
    case BFloat16 => 2
    case Float32 => 4
    case Unsupported => 0
  }

  predicate ValidPair(r: Request) {
    || (r.source.Int8? && (r.target.Float32? || r.target.BFloat16?))
    || (r.target.Int8? && (r.source.Float32? || r.source.BFloat16?))
  }

  predicate ValidRequest(r: Request) {
    && 0 < r.elements <= 0x100_0000_0000
    && r.scale.Some? && r.scale.value > 0.0 && -128 <= r.zeroPoint <= 127
    && ValidPair(r)
  }

  function Signed(b: Byte): (q: int)
    ensures -128 <= q <= 127
  {
    if b < 128 then b else b - 256
  }

  function Unsigned(q: int): Byte
    requires -128 <= q <= 127
  {
    if q < 0 then q + 256 else q
  }

  function Little16(h: Bits16): seq<Byte> { [h % 256, h / 256] }

  function Little32(b: Bits32): seq<Byte> {
    [b % 256, b / 256 % 256, b / 65536 % 256, b / 16777216]
  }

  function FromLittle16(s: seq<Byte>): Bits16
    requires |s| == 2
  {
    var low: nat, high: nat := s[0], s[1];
    low + 256 * high
  }

  function FromLittle32(s: seq<Byte>): Bits32
    requires |s| == 4
  {
    var b0: nat, b1: nat, b2: nat, b3: nat := s[0], s[1], s[2], s[3];
    b0 + 256 * b1 + 65536 * b2 + 16777216 * b3
  }

  /** One element: encoding never fails, decoding rejects NaN and infinity. */
  function ConvertElement(r: Request, a: Arithmetic, s: seq<Byte>): (out: Option<seq<Byte>>)
    requires ValidPair(r) && |s| == NumericSize(r.source)
    ensures out.Some? ==> |out.value| == NumericSize(r.target)
  {
    if r.source.Int8? then
      var bits := a.dequantize(Signed(s[0]));
      Some(if r.target.Float32? then Little32(bits) else Little16(ToBF16(bits)))
    else
      var bits := if r.source.Float32? then FromLittle32(s) else FromBF16(FromLittle16(s));
      if !IsFinite(bits) then None
      else Some([Unsigned(Clamp(RoundEven(a.quotient(bits)) + r.zeroPoint))])
  }

  /** The element conversion as a function of the element's bytes. */
  function Element(r: Request, a: Arithmetic): (f: Codec)
    requires ValidPair(r)
  {
    (s: seq<Byte>) => if |s| == NumericSize(r.source) then ConvertElement(r, a, s) else None
  }

  /** The whole stream of a request. */
  function ConvertAll(r: Request, a: Arithmetic, s: seq<Byte>): (out: Option<seq<Byte>>)
    requires ValidPair(r)
  {
    MapAll(Element(r, a), NumericSize(r.source), s)
  }

  // --- what one element means -----------------------------------------------

  ghost predicate IsSigned(b: Byte, q: int) { -128 <= q <= 127 && (b == q || b == q + 256) }

  /** Four bytes, or two, least significant first. */
  ghost predicate Spells32(s: seq<Byte>, bits: Bits32) {
    |s| == 4 && s[0] as int + 256 * s[1] as int + 65536 * s[2] as int + 16777216 * s[3] as int == bits
  }

  ghost predicate Spells16(s: seq<Byte>, half: Bits16) {
    |s| == 2 && s[0] as int + 256 * s[1] as int == half
  }

  /** The pattern a source element stands for; a bfloat16 is the upper half of one. */
  ghost predicate Reads(source: DType, s: seq<Byte>, bits: Bits32) {
    match source
    case Float32 => Spells32(s, bits)
    case BFloat16 => bits % 65536 == 0 && Spells16(s, bits / 65536)
    case _ => false
  }

  /** What an element is converted to. An int8 becomes the float32 pattern of its dequantized value, or that
      pattern rounded to bfloat16; a finite number the nearest int8, ties to even. */
  ghost predicate Means(r: Request, a: Arithmetic, s: seq<Byte>, out: seq<Byte>) {
    if r.source.Int8? then
      && |s| == 1
      && forall q :: IsSigned(s[0], q) ==>
           if r.target.Float32? then Spells32(out, a.dequantize(q)) else Spells16(out, ToBF16(a.dequantize(q)))
    else
      && |out| == 1
      && forall bits: Bits32, q :: Reads(r.source, s, bits) && IsSigned(out[0], q) ==>
           IsFinite(bits) && Nearest(a.quotient(bits), r.zeroPoint, q)
  }

  lemma SignedIs(b: Byte, q: int)
    ensures IsSigned(b, q) <==> q == Signed(b)
    ensures -128 <= q <= 127 ==> Signed(Unsigned(q)) == q
  {
  }

  lemma ReadsIs(source: DType, s: seq<Byte>, bits: Bits32)
    requires (source.Float32? || source.BFloat16?) && |s| == NumericSize(source)
    ensures Reads(source, s, bits) <==>
      bits == if source.Float32? then FromLittle32(s) else FromBF16(FromLittle16(s))
  {
  }

  /** Every element converts to what it means, and only a number that is not finite fails. */
  lemma ElementMeans(r: Request, a: Arithmetic, s: seq<Byte>)
    requires ValidPair(r) && |s| == NumericSize(r.source)
    ensures ConvertElement(r, a, s).Some? ==> Means(r, a, s, ConvertElement(r, a, s).value)
    ensures ConvertElement(r, a, s).None? ==>
      !r.source.Int8? && exists bits: Bits32 :: Reads(r.source, s, bits) && !IsFinite(bits)
  {
    if r.source.Int8? {
      EncodeMeans(r, a, s);
    } else {
      var bits := if r.source.Float32? then FromLittle32(s) else FromBF16(FromLittle16(s));
      ReadsIs(r.source, s, bits);
      if IsFinite(bits) {
        DecodeMeans(r, a, s, bits);
      }
    }
  }

  lemma LittleSpells(bits: Bits32, half: Bits16)
    ensures Spells32(Little32(bits), bits) && Spells16(Little16(half), half)
  {
  }

  lemma EncodeMeans(r: Request, a: Arithmetic, s: seq<Byte>)
    requires ValidPair(r) && r.source.Int8? && |s| == 1
    ensures Means(r, a, s, ConvertElement(r, a, s).value)
  {
    var bits := a.dequantize(Signed(s[0]));
    LittleSpells(bits, ToBF16(bits));
    forall q | IsSigned(s[0], q) ensures q == Signed(s[0]) {
      SignedIs(s[0], q);
    }
  }

  lemma DecodeMeans(r: Request, a: Arithmetic, s: seq<Byte>, bits: Bits32)
    requires ValidPair(r) && !r.source.Int8? && |s| == NumericSize(r.source)
    requires bits == if r.source.Float32? then FromLittle32(s) else FromBF16(FromLittle16(s))
    requires IsFinite(bits)
    ensures Means(r, a, s, ConvertElement(r, a, s).value)
  {
    var q := Clamp(RoundEven(a.quotient(bits)) + r.zeroPoint);
    RoundsAndClamps(a.quotient(bits), r.zeroPoint);
    SignedIs(0, q);
    forall other: Bits32, p | Reads(r.source, s, other) && IsSigned(Unsigned(q), p) ensures other == bits && p == q {
      ReadsIs(r.source, s, other);
      SignedIs(Unsigned(q), p);
    }
  }

  /** Every one of n elements is converted to what it means, in order. */
  ghost predicate AllMean(r: Request, a: Arithmetic, s: seq<Byte>, n: nat, out: seq<Byte>)
    requires ValidPair(r)
  {
    var size, wide := NumericSize(r.source), NumericSize(r.target);
    && |s| == Times(n, size) && |out| == Times(n, wide)
    && forall i: nat :: i < n ==> MeansAt(r, a, s, out, i)
  }

  /** Element i of the output is what element i of the source means. */
  ghost predicate MeansAt(r: Request, a: Arithmetic, s: seq<Byte>, out: seq<Byte>, i: nat)
    requires ValidPair(r)
  {
    var from, at := Times(i, NumericSize(r.source)), Times(i, NumericSize(r.target));
    var to, until := from + NumericSize(r.source), at + NumericSize(r.target);
    to <= |s| && until <= |out| && Means(r, a, s[from..to], out[at..until])
  }

  /** Some of the n elements is a number that is not finite. */
  ghost predicate SomeNotFinite(r: Request, s: seq<Byte>, n: nat)
    requires ValidPair(r)
  {
    var size := NumericSize(r.source);
    exists i: nat, bits: Bits32 ::
      i < n && Times(i, size) + size <= |s| && !r.source.Int8? && !IsFinite(bits)
      && Reads(r.source, s[Times(i, size)..Times(i, size) + size], bits)
  }

  lemma ElementOfStream(r: Request, a: Arithmetic, s: seq<Byte>, n: nat, i: nat)
    requires ValidPair(r) && |s| == Times(n, NumericSize(r.source)) && ConvertAll(r, a, s).Some? && i < n
    ensures |ConvertAll(r, a, s).value| == Times(n, NumericSize(r.target))
    ensures MeansAt(r, a, s, ConvertAll(r, a, s).value, i)
  {
    var size, wide, out := NumericSize(r.source), NumericSize(r.target), ConvertAll(r, a, s).value;
    MapAllAt(Element(r, a), size, wide, s, n, i);
    MeansAs(r, a, s[Times(i, size)..Times(i, size) + size], out[Times(i, wide)..Times(i, wide) + wide]);
  }

  lemma MeansAs(r: Request, a: Arithmetic, s: seq<Byte>, out: seq<Byte>)
    requires ValidPair(r) && Element(r, a)(s) == Some(out)
    ensures Means(r, a, s, out)
  {
    ElementMeans(r, a, s);
  }

  lemma FailsSomewhere(r: Request, a: Arithmetic, s: seq<Byte>, n: nat)
    requires ValidPair(r) && |s| == Times(n, NumericSize(r.source)) && ConvertAll(r, a, s).None?
    ensures SomeNotFinite(r, s, n)
  {
    var size := NumericSize(r.source);
    var i := MapAllFails(Element(r, a), size, s, n);
    ElementMeans(r, a, s[Times(i, size)..Times(i, size) + size]);
  }

  /** A converted stream is, element by element, what its source means; it fails only on a number that is not
      finite. */
  lemma StreamMeans(r: Request, a: Arithmetic, s: seq<Byte>, n: nat)
    requires ValidPair(r) && |s| == n * NumericSize(r.source)
    ensures ConvertAll(r, a, s).Some? ==> AllMean(r, a, s, n, ConvertAll(r, a, s).value)
    ensures ConvertAll(r, a, s).None? ==> SomeNotFinite(r, s, n)
  {
    TimesIsProduct(n, NumericSize(r.source));
    if ConvertAll(r, a, s).None? {
      FailsSomewhere(r, a, s, n);
    } else if n == 0 {
      assert s == [];
    } else {
      ElementOfStream(r, a, s, n, 0);
      forall i: nat | i < n ensures MeansAt(r, a, s, ConvertAll(r, a, s).value, i) {
        ElementOfStream(r, a, s, n, i);
      }
    }
  }

  /** convertBlock: every element is converted to what it means. */
  method ConvertBlock(r: Request, a: Arithmetic, input: seq<Byte>, elements: nat) returns (out: Option<seq<Byte>>)
    requires ValidPair(r) && |input| == elements * NumericSize(r.source)
    ensures out == ConvertAll(r, a, input)
    ensures if out.Some? then AllMean(r, a, input, elements, out.value) else SomeNotFinite(r, input, elements)
  {
    out := MapBlock(Element(r, a), NumericSize(r.source), NumericSize(r.target), input, elements);
    StreamMeans(r, a, input, elements);
  }

  /** The bytes a request consumes, when the source holds that many. */
  function Wanted(r: Request): nat { r.elements * NumericSize(r.source) }

  /** validate. */
  method Validate(r: Request) returns (ok: bool)
    ensures ok <==> ValidRequest(r)
  {
    if r.elements == 0 || r.elements > 1099511627776 || r.scale.None? || r.scale.value <= 0.0 {
      return false;
    }
    if r.zeroPoint < -128 || r.zeroPoint > 127 {
      return false;
    }
    var other := if r.source.Int8? then r.target else r.source;
    ok := (r.source.Int8? || r.target.Int8?) && (other.Float32? || other.BFloat16?);
  }

  /** convert: the block loop. The result is that of converting the whole stream, so it does not depend on the
      block size; an invalid request, a short source and a number that is not finite are the only errors. */
  method ConvertStream(r: Request, a: Arithmetic, source: seq<Byte>) returns (out: Option<seq<Byte>>)
    ensures out.Some? ==>
      && ValidRequest(r) && Wanted(r) <= |source| && out == ConvertAll(r, a, source[..Wanted(r)])
      && AllMean(r, a, source[..Wanted(r)], r.elements, out.value)
    ensures out.None? ==>
      !ValidRequest(r) || |source| < Wanted(r) || SomeNotFinite(r, source[..Wanted(r)], r.elements)
  {
    var ok := Validate(r);
    if !ok {
      return None;
    }
    out := MapStream(Element(r, a), NumericSize(r.source), NumericSize(r.target), source, r.elements);
    if Wanted(r) <= |source| {
      StreamMeans(r, a, source[..Wanted(r)], r.elements);
    }
  }

  // --- there and back ------------------------------------------------------

  /** The unit computes within the binary64 and binary32 error bounds, every stored value
      is zero or normal, and a value that is to be stored as bfloat16 does not overflow there. */
  ghost predicate Faithful(r: Request, a: Arithmetic) {
    && ValidRequest(r)
    && (forall q :: -128 <= q <= 127 ==>
          && Stored(q - r.zeroPoint, r.scale.value, a.dequantize(q))
          && (r.target.BFloat16? ==> IsFinite(FromBF16(ToBF16(a.dequantize(q))))))
    && (forall bits: Bits32 :: IsFinite(bits) ==> Rounded64(a.quotient(bits), Value(bits) / r.scale.value))
  }

  function Reverse(r: Request): Request {
    r.(source := r.target, target := r.source)
  }

  lemma LittleRoundTrip(b: Bits32, h: Bits16)
    ensures FromLittle32(Little32(b)) == b && FromLittle16(Little16(h)) == h
  {
  }

  lemma ElementRoundTrip(r: Request, a: Arithmetic, b: Byte)
    requires Faithful(r, a) && r.source.Int8?
    requires r.target.BFloat16? ==> -128 <= Signed(b) - r.zeroPoint <= 128
    ensures ConvertElement(r, a, [b]).Some?
    ensures ConvertElement(Reverse(r), a, ConvertElement(r, a, [b]).value) == Some([b])
  {
    var q, bits := Signed(b), a.dequantize(Signed(b));
    LittleRoundTrip(bits, ToBF16(bits));
    if r.target.Float32? {
      Float32RoundTrip(q, r.zeroPoint, r.scale.value, bits, a.quotient(bits));
    } else {
      Bf16RoundTrip(q, r.zeroPoint, r.scale.value, bits, a.quotient(FromBF16(ToBF16(bits))));
    }
  }

  /** Converting an int8 stream out and back is the identity: always through float32, and
      through bfloat16 when every element is within 128 of the zero point. */
  lemma {:induction false} StreamRoundTrip(r: Request, a: Arithmetic, s: seq<Byte>)
    requires Faithful(r, a) && r.source.Int8?
    requires r.target.BFloat16? ==> forall i :: 0 <= i < |s| ==> -128 <= Signed(s[i]) - r.zeroPoint <= 128
    ensures ConvertAll(r, a, s).Some?
    ensures ConvertAll(Reverse(r), a, ConvertAll(r, a, s).value) == Some(s)
  {
    if s != [] {
      StreamRoundTrip(r, a, s[1..]);
      ElementRoundTrip(r, a, s[0]);
      assert s[..1] == [s[0]] && s == [s[0]] + s[1..];
      var x, y := ConvertElement(r, a, s[..1]).value, ConvertAll(r, a, s[1..]).value;
      assert (x + y)[..|x|] == x && (x + y)[|x|..] == y;
    }
  }
}
