/** Axis-aligned boxes of tensor indices, and what the validator's two tests
    (pairwise non-overlap and a volume count) say about the indices themselves. */
module Boxes {

  /** One dimension of a chunk's slice: the half-open interval [lo, hi). */
  datatype Range = Range(lo: nat, hi: nat)

  type Box = seq<Range>

  predicate NonEmpty(b: Box) {
    forall k :: 0 <= k < |b| ==> b[k].lo < b[k].hi
  }

  predicate InBox(index: seq<nat>, b: Box) {
    |index| == |b| && forall k :: 0 <= k < |b| ==> b[k].lo <= index[k] < b[k].hi
  }

  /** The whole index space of a tensor. */
  function Whole(shape: seq<nat>): (b: Box)
    ensures |b| == |shape|
  {
    seq(|shape|, k requires 0 <= k < |shape| => Range(0, shape[k]))
  }

  predicate Inside(b: Box, shape: seq<nat>) {
    |b| == |shape| && forall k :: 0 <= k < |b| ==> b[k].hi <= shape[k]
  }

  /** The validator's overlap test: no dimension separates the two boxes. */
  predicate Overlap(a: Box, b: Box) {
    |a| == |b| && forall k :: 0 <= k < |a| ==> !(a[k].hi <= b[k].lo || b[k].hi <= a[k].lo)
  }

  /** Unbounded product of a shape. */
  function Product(shape: seq<nat>): nat {
    if |shape| == 0 then 1 else Product(shape[..|shape| - 1]) * shape[|shape| - 1]
  }

  function Extents(b: Box): (shape: seq<nat>)
    requires NonEmpty(b)
    ensures |shape| == |b|
  {
    seq(|b|, k requires 0 <= k < |b| => b[k].hi - b[k].lo)
  }

  function Volume(b: Box): nat
    requires NonEmpty(b)
  {
    Product(Extents(b))
  }

  /** The indices of a box, as a finite set. */
  ghost function Cells(b: Box): set<seq<nat>> {
    if |b| == 0 then {[]} else Extend(Cells(b[..|b| - 1]), b[|b| - 1])
  }

  ghost function Extend(s: set<seq<nat>>, r: Range): set<seq<nat>> {
    set i: nat, head | r.lo <= i < r.hi && head in s :: head + [i]
  }

  ghost function Slice(s: set<seq<nat>>, i: nat): set<seq<nat>> {
    set head | head in s :: head + [i]
  }

  lemma ExtendMembers(s: set<seq<nat>>, r: Range, index: seq<nat>)
    ensures index in Extend(s, r) <==>
            |index| > 0 && index[..|index| - 1] in s && r.lo <= index[|index| - 1] < r.hi
  {
    if index in Extend(s, r) {
      var i: nat, head :| r.lo <= i < r.hi && head in s && index == head + [i];
      assert index[..|index| - 1] == head;
    }
    if |index| > 0 && index[..|index| - 1] in s && r.lo <= index[|index| - 1] < r.hi {
      assert index == index[..|index| - 1] + [index[|index| - 1]];
    }
  }

  lemma {:induction false} CellsAreInBox(b: Box, index: seq<nat>)
    ensures index in Cells(b) <==> InBox(index, b)
  {
    if |b| == 0 {
      assert InBox(index, b) <==> index == [];
    } else if |index| > 0 {
      var n, m := |b| - 1, |index| - 1;
      CellsAreInBox(b[..n], index[..m]);
      ExtendMembers(Cells(b[..n]), b[n], index);
      assert InBox(index, b) <==> InBox(index[..m], b[..n]) && b[n].lo <= index[m] < b[n].hi;
    }
  }

  lemma {:induction false} SliceSize(s: set<seq<nat>>, i: nat)
    ensures |Slice(s, i)| == |s|
  {
    if s == {} {
      assert Slice(s, i) == {};
    } else {
      var x :| x in s;
      SliceSize(s - {x}, i);
      forall y | y in s - {x} ensures y + [i] != x + [i] {
        assert (y + [i])[..|y|] == y && (x + [i])[..|x|] == x;
      }
      assert Slice(s, i) == Slice(s - {x}, i) + {x + [i]};
    }
  }

  lemma ExtendSplit(s: set<seq<nat>>, r: Range)
    requires r.lo < r.hi
    ensures Extend(s, r) == Extend(s, Range(r.lo, r.hi - 1)) + Slice(s, r.hi - 1)
    ensures Extend(s, Range(r.lo, r.hi - 1)) !! Slice(s, r.hi - 1)
  {
    var shorter := Range(r.lo, r.hi - 1);
    var front, last := Extend(s, shorter), Slice(s, r.hi - 1);
    forall x | x in last ensures x !in front {
      ExtendMembers(s, shorter, x);
    }
  }

  lemma {:induction false} ExtendSize(s: set<seq<nat>>, r: Range)
    requires r.lo <= r.hi
    ensures |Extend(s, r)| == |s| * (r.hi - r.lo)
    decreases r.hi - r.lo
  {
    if r.lo == r.hi {
      assert Extend(s, r) == {};
    } else {
      ExtendSize(s, Range(r.lo, r.hi - 1));
      SliceSize(s, r.hi - 1);
      ExtendSplit(s, r);
      assert |s| * (r.hi - r.lo) == |s| * (r.hi - 1 - r.lo) + |s|;
    }
  }

  /** Volume counts indices. */
  lemma {:induction false} VolumeCounts(b: Box)
    requires NonEmpty(b)
    ensures |Cells(b)| == Volume(b)
  {
    if |b| > 0 {
      var n := |b| - 1;
      VolumeCounts(b[..n]);
      ExtendSize(Cells(b[..n]), b[n]);
      assert Extents(b)[..n] == Extents(b[..n]);
    }
  }

  lemma ProductCounts(shape: seq<nat>)
    requires forall k :: 0 <= k < |shape| ==> shape[k] > 0
    ensures |Cells(Whole(shape))| == Product(shape)
  {
    VolumeCounts(Whole(shape));
    assert Extents(Whole(shape)) == shape;
  }

  /** The overlap test decides whether two non-empty boxes share an index. */
  lemma OverlapMeansSharedIndex(a: Box, b: Box)
    requires |a| == |b| && NonEmpty(a) && NonEmpty(b)
    ensures Overlap(a, b) <==> exists index :: InBox(index, a) && InBox(index, b)
  {
    if Overlap(a, b) {
      var index := seq(|a|, k requires 0 <= k < |a| => if a[k].lo < b[k].lo then b[k].lo else a[k].lo);
      assert InBox(index, a) && InBox(index, b);
    }
  }

  // --- partitions -------------------------------------------------------

  ghost predicate Disjoint(boxes: seq<Box>) {
    forall i, j, index :: 0 <= i < j < |boxes| ==> !(InBox(index, boxes[i]) && InBox(index, boxes[j]))
  }

  /** Every index of the tensor lies in exactly one box, and every box lies in the tensor. */
  ghost predicate ExactPartition(shape: seq<nat>, boxes: seq<Box>) {
    && (forall i, index :: 0 <= i < |boxes| && InBox(index, boxes[i]) ==> InBox(index, Whole(shape)))
    && (forall index :: InBox(index, Whole(shape)) ==>
          exists i :: 0 <= i < |boxes| && InBox(index, boxes[i]))
    && Disjoint(boxes)
  }

  function Total(boxes: seq<Box>): nat
    requires forall i :: 0 <= i < |boxes| ==> NonEmpty(boxes[i])
  {
    if |boxes| == 0 then 0 else Total(boxes[..|boxes| - 1]) + Volume(boxes[|boxes| - 1])
  }

  ghost function Union(boxes: seq<Box>): set<seq<nat>> {
    if |boxes| == 0 then {} else Union(boxes[..|boxes| - 1]) + Cells(boxes[|boxes| - 1])
  }

  lemma {:induction false} UnionMembers(boxes: seq<Box>, index: seq<nat>)
    ensures index in Union(boxes) <==> exists i :: 0 <= i < |boxes| && InBox(index, boxes[i])
  {
    if |boxes| > 0 {
      var n := |boxes| - 1;
      UnionMembers(boxes[..n], index);
      CellsAreInBox(boxes[n], index);
      if i :| 0 <= i < |boxes| && InBox(index, boxes[i]) {
        assert i < n ==> InBox(index, boxes[..n][i]);
      }
    }
  }

  /** Disjoint boxes hold as many indices as their volumes add up to. */
  lemma {:induction false} DisjointUnionSize(boxes: seq<Box>)
    requires forall i :: 0 <= i < |boxes| ==> NonEmpty(boxes[i])
    requires Disjoint(boxes)
    ensures |Union(boxes)| == Total(boxes)
  {
    if |boxes| > 0 {
      var n := |boxes| - 1;
      var front := boxes[..n];
      assert forall i :: 0 <= i < n ==> front[i] == boxes[i];
      DisjointUnionSize(front);
      VolumeCounts(boxes[n]);
      assert Union(front) !! Cells(boxes[n]) by {
        forall index | index in Union(front) && index in Cells(boxes[n]) ensures false {
          UnionMembers(front, index);
          CellsAreInBox(boxes[n], index);
        }
      }
    }
  }

  lemma SubsetSize<T>(a: set<T>, b: set<T>)
    requires a <= b
    ensures |a| <= |b|
    ensures |a| == |b| ==> a == b
  {
    assert b == a + (b - a);
  }

  /** The cells of boxes that stay inside the tensor are cells of the tensor. */
  lemma UnionInside(shape: seq<nat>, boxes: seq<Box>)
    requires forall i :: 0 <= i < |boxes| ==> Inside(boxes[i], shape)
    ensures Union(boxes) <= Cells(Whole(shape))
  {
    forall index | index in Union(boxes) ensures index in Cells(Whole(shape)) {
      UnionMembers(boxes, index);
      CellsAreInBox(Whole(shape), index);
    }
  }

  predicate NoneOverlap(boxes: seq<Box>) {
    forall i, j :: 0 <= i < j < |boxes| ==> !Overlap(boxes[j], boxes[i])
  }

  predicate Fits(shape: seq<nat>, boxes: seq<Box>) {
    && (forall k :: 0 <= k < |shape| ==> shape[k] > 0)
    && (forall i :: 0 <= i < |boxes| ==> NonEmpty(boxes[i]) && Inside(boxes[i], shape))
  }

  lemma NoneOverlapMeansDisjoint(shape: seq<nat>, boxes: seq<Box>)
    requires Fits(shape, boxes)
    ensures NoneOverlap(boxes) <==> Disjoint(boxes)
  {
    forall i, j | 0 <= i < j < |boxes|
      ensures Overlap(boxes[j], boxes[i]) <==> exists index :: InBox(index, boxes[i]) && InBox(index, boxes[j])
    {
      OverlapMeansSharedIndex(boxes[j], boxes[i]);
    }
  }

  /** Disjoint boxes inside the tensor never add up to more than the tensor, so a
      running total of their volumes stays within any bound the tensor itself meets. */
  lemma DisjointTotalBounded(shape: seq<nat>, boxes: seq<Box>)
    requires Fits(shape, boxes) && NoneOverlap(boxes)
    ensures Total(boxes) <= Product(shape)
    ensures Total(boxes) == Product(shape) <==> Union(boxes) == Cells(Whole(shape))
  {
    NoneOverlapMeansDisjoint(shape, boxes);
    UnionInside(shape, boxes);
    DisjointUnionSize(boxes);
    ProductCounts(shape);
    SubsetSize(Union(boxes), Cells(Whole(shape)));
  }

  lemma CoverMeansUnion(shape: seq<nat>, boxes: seq<Box>)
    requires Fits(shape, boxes)
    ensures ExactPartition(shape, boxes) <==> Disjoint(boxes) && Union(boxes) == Cells(Whole(shape))
  {
    forall index
      ensures index in Union(boxes) <==> exists i :: 0 <= i < |boxes| && InBox(index, boxes[i])
      ensures index in Cells(Whole(shape)) <==> InBox(index, Whole(shape))
    {
      UnionMembers(boxes, index);
      CellsAreInBox(Whole(shape), index);
    }
    UnionInside(shape, boxes);
  }

  /** The counting theorem: for non-empty boxes inside the tensor, "no two overlap
      and the volumes add up to the tensor's" is exactly "every index lies in
      exactly one box". */
  lemma CountingTheorem(shape: seq<nat>, boxes: seq<Box>)
    requires Fits(shape, boxes)
    ensures ExactPartition(shape, boxes) <==> NoneOverlap(boxes) && Total(boxes) == Product(shape)
  {
    NoneOverlapMeansDisjoint(shape, boxes);
    CoverMeansUnion(shape, boxes);
    if NoneOverlap(boxes) {
      DisjointTotalBounded(shape, boxes);
    }
  }

  /** In a partition, the volumes of the first n boxes already fit the tensor. */
  lemma PartitionPrefix(shape: seq<nat>, boxes: seq<Box>, n: nat)
    requires Fits(shape, boxes) && ExactPartition(shape, boxes) && n <= |boxes|
    ensures NoneOverlap(boxes)
    ensures Total(boxes[..n]) <= Product(shape)
  {
    CountingTheorem(shape, boxes);
    DisjointTotalBounded(shape, boxes[..n]);
  }
}
