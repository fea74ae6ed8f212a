/** Element-wise conversion of a byte stream in bounded blocks, for any element codec. */
module Blocks {
  import opened Bags

  const ELEMENTS_PER_BLOCK: nat := 65536

  type Byte = b: nat | b < 256

  /** The conversion of one element's bytes; None is a conversion error. */
  type Codec = seq<Byte> -> Option<seq<Byte>>

  function Prepend(x: seq<Byte>, y: Option<seq<Byte>>): Option<seq<Byte>> {
    if y.None? then None else Some(x + y.value)
  }

  /** The whole stream, element by element; the first error is the result. */
  function MapAll(f: Codec, size: nat, s: seq<Byte>): Option<seq<Byte>>
    requires size > 0
    decreases |s|
  {
    if |s| < size then Some([])
    else
      var first := f(s[..size]);
      if first.None? then None else Prepend(first.value, MapAll(f, size, s[size..]))
  }

  /** Every converted element has the same width. */
  ghost predicate Width(f: Codec, wide: nat) {
    forall s :: f(s).Some? ==> |f(s).value| == wide
  }

  lemma PrependNothing(z: Option<seq<Byte>>)
    ensures Prepend([], z) == z
  {
    if z.Some? {
      assert [] + z.value == z.value;
    }
  }

  lemma PrependEnd(f: Codec, size: nat, x: seq<Byte>)
    requires size > 0
    ensures Prepend(x, MapAll(f, size, [])) == Some(x)
  {
    assert x + [] == x;
  }

  lemma PrependTwice(x: seq<Byte>, y: seq<Byte>, z: Option<seq<Byte>>)
    ensures Prepend(x + y, z) == Prepend(x, Prepend(y, z))
  {
    if z.Some? {
      assert x + y + z.value == x + (y + z.value);
    }
  }

  /** n * size by repeated addition, which is how the loops advance. */
  ghost function Times(n: nat, size: nat): nat {
    if n == 0 then 0 else Times(n - 1, size) + size
  }

  lemma {:induction false} TimesIsProduct(n: nat, size: nat)
    ensures Times(n, size) == n * size
  {
    if n > 0 {
      TimesIsProduct(n - 1, size);
      assert n * size == (n - 1) * size + size;
    }
  }

  lemma {:induction false} Room(i: nat, n: nat, size: nat)
    requires i < n
    ensures Times(i, size) + size == Times(i + 1, size) <= Times(n, size)
  {
    if i + 1 < n {
      Room(i, n - 1, size);
    }
  }

  lemma ElementStep(f: Codec, size: nat, s: seq<Byte>, from: nat, done: seq<Byte>)
    requires size > 0 && from + size <= |s|
    ensures var e := f(s[from..from + size]);
            Prepend(done, MapAll(f, size, s[from..])) ==
              if e.None? then None else Prepend(done + e.value, MapAll(f, size, s[from + size..]))
  {
    var e := f(s[from..from + size]);
    assert s[from..][..size] == s[from..from + size];
    assert s[from..][size..] == s[from + size..];
    if e.Some? {
      PrependTwice(done, e.value, MapAll(f, size, s[from + size..]));
    }
  }

  lemma SliceAfter(s: seq<Byte>, n: nat, from: nat, to: nat)
    requires from <= to && n + to <= |s|
    ensures s[n..][from..to] == s[from + n..to + n]
  {
  }

  /** Element i of the output is element i of the input, converted. */
  lemma {:induction false} MapAllAt(f: Codec, size: nat, wide: nat, s: seq<Byte>, n: nat, i: nat)
    requires size > 0 && Width(f, wide) && |s| == Times(n, size) && i < n && MapAll(f, size, s).Some?
    ensures |MapAll(f, size, s).value| == Times(n, wide)
    ensures Times(i, size) + size <= |s| && Times(i, wide) + wide <= Times(n, wide)
    ensures f(s[Times(i, size)..Times(i, size) + size]) ==
            Some(MapAll(f, size, s).value[Times(i, wide)..Times(i, wide) + wide])
    decreases n
  {
    Room(i, n, size);
    Room(i, n, wide);
    var x, rest := f(s[..size]).value, MapAll(f, size, s[size..]).value;
    if n == 1 {
      assert rest == [];
    } else {
      MapAllAt(f, size, wide, s[size..], n - 1, if i == 0 then 0 else i - 1);
    }
    if i == 0 {
      assert s[0..size] == s[..size] && (x + rest)[0..wide] == x;
    } else {
      SliceAfter(s, size, Times(i - 1, size), Times(i - 1, size) + size);
      assert (x + rest)[wide..] == rest;
      SliceAfter(x + rest, wide, Times(i - 1, wide), Times(i - 1, wide) + wide);
    }
  }

  /** An error comes from some element. */
  lemma {:induction false} MapAllFails(f: Codec, size: nat, s: seq<Byte>, n: nat) returns (i: nat)
    requires size > 0 && |s| == Times(n, size) && MapAll(f, size, s).None?
    ensures i < n && Times(i, size) + size <= |s| && f(s[Times(i, size)..Times(i, size) + size]).None?
    decreases n
  {
    if f(s[..size]).None? {
      i := 0;
      Room(0, n, size);
      assert s[0..size] == s[..size];
    } else {
      var k := MapAllFails(f, size, s[size..], n - 1);
      i := k + 1;
      Room(i, n, size);
      SliceAfter(s, size, Times(k, size), Times(k, size) + size);
      assert Times(i, size) == Times(k, size) + size;
    }
  }

  /** convertBlock's loop: one element at a time into an output buffer of known length. */
  method MapBlock(f: Codec, size: nat, wide: nat, input: seq<Byte>, elements: nat) returns (out: Option<seq<Byte>>)
    requires size > 0 && Width(f, wide) && |input| == elements * size
    ensures out == MapAll(f, size, input)
  {
    var length := elements * wide;
    TimesIsProduct(elements, size);
    TimesIsProduct(elements, wide);
    var output := new Byte[length](_ => 0);
    var from, at := 0, 0;
    ghost var done: seq<Byte> := [];
    PrependNothing(MapAll(f, size, input));
    assert input[0..] == input;
    for index := 0 to elements
      invariant from == Times(index, size) <= |input| && at == Times(index, wide) <= output.Length
      invariant output[..at] == done
      invariant MapAll(f, size, input) == Prepend(done, MapAll(f, size, input[from..]))
    {
      Room(index, elements, size);
      Room(index, elements, wide);
      ElementStep(f, size, input, from, done);
      var element := f(input[from..from + size]);
      if element.None? {
        return None;
      }
      Put(output, at, element.value);
      from, at, done := from + size, at + wide, done + element.value;
    }
    assert output[..] == done && input[from..] == [];
    PrependEnd(f, size, done);
    return Some(output[..]);
  }

  /** binary.LittleEndian.PutUint16 and PutUint32, or the store of one int8. */
  method Put(output: array<Byte>, at: nat, bytes: seq<Byte>)
    requires at + |bytes| <= output.Length
    modifies output
    ensures output[..at + |bytes|] == old(output[..at]) + bytes
  {
    for k := 0 to |bytes|
      invariant output[..at + k] == old(output[..at]) + bytes[..k]
    {
      output[at + k] := bytes[k];
    }
    assert bytes[..|bytes|] == bytes;
  }

  /** Converting a whole number of elements, then the rest, is converting the concatenation. */
  lemma {:induction false} MapConcat(f: Codec, size: nat, n: nat, s: seq<Byte>, t: seq<Byte>)
    requires size > 0 && |s| == Times(n, size)
    ensures MapAll(f, size, s + t) ==
            var x := MapAll(f, size, s);
            if x.None? then None else Prepend(x.value, MapAll(f, size, t))
    decreases n
  {
    if n == 0 {
      assert s == [] && s + t == t;
      PrependNothing(MapAll(f, size, t));
    } else {
      MapConcat(f, size, n - 1, s[size..], t);
      assert (s + t)[..size] == s[..size] && (s + t)[size..] == s[size..] + t;
      var first, rest := f(s[..size]), MapAll(f, size, s[size..]);
      if first.Some? && rest.Some? {
        PrependTwice(first.value, rest.value, MapAll(f, size, t));
      }
    }
  }

  lemma SplitCount(n: nat, k: nat, size: nat)
    requires k <= n
    ensures n * size == k * size + (n - k) * size && k * size >= 0 && (n - k) * size >= 0
  {
  }

  lemma BlockStep(f: Codec, size: nat, s: seq<Byte>, at: nat, next: nat, count: nat, done: seq<Byte>)
    requires size > 0 && at <= next <= |s| && next == at + count * size
    ensures var c := MapAll(f, size, s[at..next]);
            Prepend(done, MapAll(f, size, s[at..])) ==
              if c.None? then None else Prepend(done + c.value, MapAll(f, size, s[next..]))
  {
    assert s[at..] == s[at..next] + s[next..];
    TimesIsProduct(count, size);
    MapConcat(f, size, count, s[at..next], s[next..]);
    var c := MapAll(f, size, s[at..next]);
    if c.Some? {
      PrependTwice(done, c.value, MapAll(f, size, s[next..]));
    }
  }

  /** convert's loop: the result is that of converting the whole stream, whatever the block
      size; a source shorter than the request, or an element error, is an error. */
  method MapStream(f: Codec, size: nat, wide: nat, source: seq<Byte>, elements: nat) returns (out: Option<seq<Byte>>)
    requires size > 0 && Width(f, wide)
    ensures out == if elements * size <= |source| then MapAll(f, size, source[..elements * size]) else None
  {
    ghost var wanted := elements * size;
    ghost var enough := wanted <= |source|;
    ghost var stream := if enough then source[..wanted] else [];
    var remaining, output, at: nat := elements, [], 0;
    PrependNothing(MapAll(f, size, stream));
    assert stream[0..] == stream;
    while remaining > 0
      invariant at + remaining * size == wanted && at <= wanted && at <= |source|
      invariant enough ==> MapAll(f, size, stream) == Prepend(output, MapAll(f, size, stream[at..]))
    {
      var count := if remaining < ELEMENTS_PER_BLOCK then remaining else ELEMENTS_PER_BLOCK;
      var next := at + count * size;
      SplitCount(remaining, count, size);
      if |source| < next {
        return None;
      }
      if enough {
        BlockStep(f, size, stream, at, next, count, output);
        assert stream[at..next] == source[at..next];
      }
      var converted := MapBlock(f, size, wide, source[at..next], count);
      if converted.None? {
        return None;
      }
      output, remaining, at := output + converted.value, remaining - count, next;
    }
    assert enough ==> stream[at..] == [];
    PrependEnd(f, size, output);
    return Some(output);
  }
}
