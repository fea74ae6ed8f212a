/** Order-free totals over lists and maps. The validator walks Go maps in an
    arbitrary order; these totals do not mention one. */
module Bags {

  datatype Option<+T> = None | Some(value: T)

  ghost function BagOf<V>(s: seq<V>, f: V -> multiset<string>): multiset<string> {
    if |s| == 0 then multiset{} else BagOf(s[..|s| - 1], f) + f(s[|s| - 1])
  }

  ghost function SumOf<V>(s: seq<V>, f: V -> nat): nat {
    if |s| == 0 then 0 else SumOf(s[..|s| - 1], f) + f(s[|s| - 1])
  }

  ghost function Pick<V>(m: map<string, V>): (k: string)
    requires m != map[]
    ensures k in m
  {
    assert m.Keys != {};
    var k :| k in m;
    k
  }

  ghost function Bag<V>(m: map<string, V>, f: V -> multiset<string>): multiset<string>
    decreases |m|
  {
    if m == map[] then multiset{} else
      var k := Pick(m);
      Bag(m - {k}, f) + f(m[k])
  }

  ghost function Sum<V>(m: map<string, V>, f: V -> nat): nat
    decreases |m|
  {
    if m == map[] then 0 else
      var k := Pick(m);
      Sum(m - {k}, f) + f(m[k])
  }

  /** `order` is one of the orders in which a range over the map may visit its keys. */
  ghost predicate Listing<V>(order: seq<string>, m: map<string, V>) {
    && (forall k :: k in order <==> k in m)
    && (forall i, j :: 0 <= i < j < |order| ==> order[i] != order[j])
  }

  function Values<V>(order: seq<string>, m: map<string, V>): (vs: seq<V>)
    requires forall k :: k in order ==> k in m
    ensures |vs| == |order|
  {
    seq(|order|, i requires 0 <= i < |order| => m[order[i]])
  }

  /** A range over a map that appends one entry per key. */
  ghost function Entries<V, W>(order: seq<string>, m: map<string, V>, f: (string, V) -> W): (list: seq<W>)
    requires forall k :: k in order ==> k in m
    ensures |list| == |order|
  {
    seq(|order|, i requires 0 <= i < |order| => f(order[i], m[order[i]]))
  }

  lemma EntriesMembers<V, W>(order: seq<string>, m: map<string, V>, f: (string, V) -> W, w: W)
    requires Listing(order, m)
    ensures w in Entries(order, m, f) <==> exists k :: k in m && w == f(k, m[k])
  {
    var list := Entries(order, m, f);
    if k :| k in m && w == f(k, m[k]) {
      var i :| 0 <= i < |order| && order[i] == k;
      assert list[i] == w;
    }
    if w in list {
      var i :| 0 <= i < |list| && list[i] == w;
      assert order[i] in m && w == f(order[i], m[order[i]]);
    }
  }

  lemma EntriesBag<V, W>(order: seq<string>, m: map<string, V>, f: (string, V) -> W,
                         g: V -> multiset<string>, h: W -> multiset<string>)
    requires Listing(order, m) && forall k :: k in m ==> h(f(k, m[k])) == g(m[k])
    ensures BagOf(Entries(order, m, f), h) == Bag(m, g)
  {
    BagCongruent(Entries(order, m, f), Values(order, m), h, g);
    ListingTotals(order, m, g, (v: V) => 0);
  }

  ghost predicate Single(b: multiset<string>) {
    forall x :: x in b ==> b[x] == 1
  }

  lemma {:induction false} BagRemove<V>(m: map<string, V>, f: V -> multiset<string>, k: string)
    requires k in m
    ensures Bag(m, f) == Bag(m - {k}, f) + f(m[k])
    decreases |m|
  {
    var p := Pick(m);
    if p != k {
      BagRemove(m - {p}, f, k);
      BagRemove(m - {k}, f, p);
      assert m - {p} - {k} == m - {k} - {p};
    }
  }

  lemma {:induction false} SumRemove<V>(m: map<string, V>, f: V -> nat, k: string)
    requires k in m
    ensures Sum(m, f) == Sum(m - {k}, f) + f(m[k])
    decreases |m|
  {
    var p := Pick(m);
    if p != k {
      SumRemove(m - {p}, f, k);
      SumRemove(m - {k}, f, p);
      assert m - {p} - {k} == m - {k} - {p};
    }
  }

  /** Whatever the visiting order, the totals over the visited values are those of the map. */
  lemma {:induction false} ListingTotals<V>(
    order: seq<string>, m: map<string, V>, f: V -> multiset<string>, g: V -> nat)
    requires Listing(order, m)
    ensures BagOf(Values(order, m), f) == Bag(m, f)
    ensures SumOf(Values(order, m), g) == Sum(m, g)
  {
    if |order| == 0 {
      assert m.Keys == {};
    } else {
      var n := |order| - 1;
      var k, rest := order[n], m - {order[n]};
      assert Listing(order[..n], rest);
      ListingTotals(order[..n], rest, f, g);
      assert Values(order, m)[..n] == Values(order[..n], rest);
      BagRemove(m, f, k);
      SumRemove(m, g, k);
    }
  }

  /** Totals over a prefix are bounded by totals over the list. */
  lemma {:induction false} BagPrefix<V>(s: seq<V>, n: nat, f: V -> multiset<string>)
    requires n <= |s|
    ensures BagOf(s[..n], f) <= BagOf(s, f)
  {
    if n < |s| {
      BagPrefix(s[..|s| - 1], n, f);
      assert s[..|s| - 1][..n] == s[..n];
    } else {
      assert s[..n] == s;
    }
  }

  lemma {:induction false} SumPrefix<V>(s: seq<V>, n: nat, g: V -> nat)
    requires n <= |s|
    ensures SumOf(s[..n], g) <= SumOf(s, g)
  {
    if n < |s| {
      SumPrefix(s[..|s| - 1], n, g);
      assert s[..|s| - 1][..n] == s[..n];
    } else {
      assert s[..n] == s;
    }
  }

  lemma BagStep<V>(s: seq<V>, n: nat, f: V -> multiset<string>)
    requires n < |s|
    ensures BagOf(s[..n + 1], f) == BagOf(s[..n], f) + f(s[n])
  {
    assert s[..n + 1][..n] == s[..n];
  }

  lemma SumStep<V>(s: seq<V>, n: nat, g: V -> nat)
    requires n < |s|
    ensures SumOf(s[..n + 1], g) == SumOf(s[..n], g) + g(s[n])
  {
    assert s[..n + 1][..n] == s[..n];
  }

  /** One more value: what it adds to the bag, and that a repeat it causes is a repeat of the whole. */
  lemma BagNext<V>(s: seq<V>, n: nat, f: V -> multiset<string>)
    requires n < |s|
    ensures BagOf(s[..n + 1], f) == BagOf(s[..n], f) + f(s[n])
    ensures Single(BagOf(s, f)) ==> Single(BagOf(s[..n], f) + f(s[n]))
  {
    BagStep(s, n, f);
    BagPrefix(s, n + 1, f);
    if Single(BagOf(s, f)) {
      SubBagSingle(BagOf(s[..n + 1], f), BagOf(s, f));
    }
  }

  lemma SumNext<V>(s: seq<V>, n: nat, g: V -> nat)
    requires n < |s|
    ensures SumOf(s[..n + 1], g) == SumOf(s[..n], g) + g(s[n]) <= SumOf(s, g)
  {
    SumStep(s, n, g);
    SumPrefix(s, n + 1, g);
  }

  lemma SubBagSingle(a: multiset<string>, b: multiset<string>)
    requires a <= b && Single(b)
    ensures Single(a)
  {
    forall x | x in a ensures a[x] == 1 {
      assert x in b;
    }
  }

  lemma SetIsSingle(s: set<string>)
    ensures Single(multiset(s))
  {
  }

  /** A set that has registered the bag so far: the next string repeats, or is registered. */
  lemma RegisterNext<V>(before: set<string>, base: multiset<string>, s: seq<V>, n: nat,
                        f: V -> multiset<string>, x: string)
    requires n < |s| && f(s[n]) == multiset{x}
    requires multiset(before) == base + BagOf(s[..n], f)
    ensures x in before ==> !Single(base + BagOf(s, f))
    ensures x !in before ==> multiset(before + {x}) == base + BagOf(s[..n + 1], f)
  {
    BagStep(s, n, f);
    if x in before {
      BagPrefix(s, n + 1, f);
      assert multiset(before)[x] == 1;
      assert BagOf(s, f)[x] >= BagOf(s[..n + 1], f)[x];
      assert (base + BagOf(s, f))[x] >= 2;
    } else {
      assert multiset(before + {x}) == multiset(before) + multiset{x};
    }
  }

  lemma {:induction false} BagConcat<V>(s: seq<V>, t: seq<V>, f: V -> multiset<string>)
    ensures BagOf(s + t, f) == BagOf(s, f) + BagOf(t, f)
  {
    if t == [] {
      assert s + t == s;
    } else {
      var n := |t| - 1;
      BagConcat(s, t[..n], f);
      assert (s + t)[..|s + t| - 1] == s + t[..n];
    }
  }

  /** Lists that contribute the same strings, entry by entry, have the same bag. */
  lemma {:induction false} BagCongruent<V, W>(s: seq<V>, t: seq<W>, f: V -> multiset<string>, g: W -> multiset<string>)
    requires |s| == |t| && forall k :: 0 <= k < |s| ==> f(s[k]) == g(t[k])
    ensures BagOf(s, f) == BagOf(t, g)
  {
    if |s| > 0 {
      var n := |s| - 1;
      BagCongruent(s[..n], t[..n], f, g);
    }
  }

  lemma BagMember<V>(s: seq<V>, i: nat, f: V -> multiset<string>)
    requires i < |s|
    ensures f(s[i]) <= BagOf(s, f)
  {
    BagStep(s, i, f);
    BagPrefix(s, i + 1, f);
  }

  /** Values that contribute the same string twice make the bag repeat it. */
  lemma SingleMeansDistinct<V>(s: seq<V>, i: nat, j: nat, f: V -> multiset<string>, x: string)
    requires i < j < |s| && x in f(s[i]) && x in f(s[j])
    ensures !Single(BagOf(s, f))
  {
    BagMember(s[..j], i, f);
    BagStep(s, j, f);
    BagPrefix(s, j + 1, f);
    assert BagOf(s, f)[x] >= BagOf(s[..j + 1], f)[x] >= 2;
  }

  /** The keys of a map, each once, in some order. */
  method ListKeys<K, V>(m: map<K, V>) returns (order: seq<K>)
    ensures forall k :: k in order <==> k in m
    ensures forall i, j :: 0 <= i < j < |order| ==> order[i] != order[j]
  {
    order := [];
    var rest := m.Keys;
    while rest != {}
      invariant rest <= m.Keys && forall k :: k in order <==> k in m && k !in rest
      invariant forall i, j :: 0 <= i < j < |order| ==> order[i] != order[j]
      decreases |rest|
    {
      var k :| k in rest;
      order, rest := order + [k], rest - {k};
    }
  }
}
