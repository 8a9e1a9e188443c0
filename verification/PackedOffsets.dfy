/** Packed-sequence offsets computed from per-token sequence identifiers. */
module PackedOffsets {
  import opened Prelude

  const INT32_LIMIT: int := 0x8000_0000

  datatype ShapeError = UnexpectedShape(shape: seq<nat>)

  /** A tensor as its shape and its elements in row-major order. */
  datatype Tensor = Tensor(shape: seq<nat>, data: seq<int>) {
    predicate Valid() {
      |shape| == 2 && shape[0] == 1 ==> |data| == shape[1]
    }
  }

  /** The cast to a signed 32-bit integer, with wrap-around. */
  function ToInt32(v: int): (r: int)
    ensures -INT32_LIMIT <= r < INT32_LIMIT
    ensures r == v <==> -INT32_LIMIT <= v < INT32_LIMIT
  {
    (v + INT32_LIMIT) % (2 * INT32_LIMIT) - INT32_LIMIT
  }

  /** The same value modulo 2^32, in the range of a signed 32-bit integer. */
  ghost predicate WrapsTo(v: int, r: int) {
    -2147483648 <= r < 2147483648 && exists k: int :: v == r + Wraps(k)
  }

  ghost function Wraps(k: int): int {
    k * 4294967296
  }

  lemma CastWraps(v: int)
    ensures WrapsTo(v, ToInt32(v))
  {
    var k := (v + INT32_LIMIT) / (2 * INT32_LIMIT);
    assert v == ToInt32(v) + Wraps(k);
  }

  function AllToInt32(s: seq<int>): (r: seq<int>)
    ensures |r| == |s|
  {
    seq(|s|, i requires 0 <= i < |s| => ToInt32(s[i]))
  }

  /** The positions from `from` on whose identifier differs from the one before. */
  function Boundaries(ids: seq<int>, from: nat): seq<int>
    requires 1 <= from
    decreases |ids| - from
  {
    if from >= |ids| then []
    else (if ids[from] != ids[from - 1] then [from] else []) + Boundaries(ids, from + 1)
  }

  function Offsets(ids: seq<int>): seq<int> {
    if |ids| == 0 then [0] else [0] + Boundaries(ids, 1) + [|ids|]
  }

  function SeqIdxToCuSeqlens(seqIdx: Tensor): Result<seq<int>, ShapeError>
    requires seqIdx.Valid()
  {
    if |seqIdx.shape| != 2 || seqIdx.shape[0] != 1 then Err(UnexpectedShape(seqIdx.shape))
    else Ok(AllToInt32(Offsets(seqIdx.data)))
  }

  predicate Increasing(s: seq<int>) {
    forall i, j :: 0 <= i < j < |s| ==> s[i] < s[j]
  }

  predicate InsideSegment(cu: seq<int>, k: int, p: int) {
    0 <= k < |cu| - 1 && cu[k] < p < cu[k + 1]
  }

  ghost predicate ConstantInside(ids: seq<int>, cu: seq<int>) {
    forall k, p :: InsideSegment(cu, k, p) && 0 < p < |ids| ==> ids[p] == ids[p - 1]
  }

  /** Offsets from 0 to n that cut the identifiers into maximal constant runs; an empty row has the one offset 0. */
  ghost predicate Segments(ids: seq<int>, cu: seq<int>) {
    && |cu| >= 1 && cu[0] == 0 && cu[|cu| - 1] == |ids| && Increasing(cu)
    && ConstantInside(ids, cu)
    && (forall k :: 0 < k < |cu| - 1 && 0 < cu[k] < |ids| ==> ids[cu[k]] != ids[cu[k] - 1])
  }

  predicate IsBoundary(ids: seq<int>, p: int) {
    0 < p < |ids| && ids[p] != ids[p - 1]
  }

  /** One position more at the front of the list. */
  lemma BoundariesStep(ids: seq<int>, from: nat, p: int)
    requires 1 <= from < |ids|
    ensures p in Boundaries(ids, from) <==> (p == from && IsBoundary(ids, from)) || p in Boundaries(ids, from + 1)
  {
    var rest := Boundaries(ids, from + 1);
    assert Boundaries(ids, from) == (if IsBoundary(ids, from) then [from] else []) + rest;
  }

  lemma {:induction false} BoundariesMembers(ids: seq<int>, from: nat, p: int)
    requires 1 <= from
    ensures p in Boundaries(ids, from) <==> from <= p && IsBoundary(ids, p)
    decreases |ids| - from
  {
    if from < |ids| {
      BoundariesStep(ids, from, p);
      BoundariesMembers(ids, from + 1, p);
    }
  }

  lemma PrependIncreasing(first: int, rest: seq<int>)
    requires Increasing(rest) && forall j :: 0 <= j < |rest| ==> first < rest[j]
    ensures Increasing([first] + rest)
  {
  }

  lemma {:induction false} BoundariesIncrease(ids: seq<int>, from: nat)
    requires 1 <= from
    ensures Increasing(Boundaries(ids, from))
    decreases |ids| - from
  {
    if from < |ids| {
      var rest := Boundaries(ids, from + 1);
      BoundariesIncrease(ids, from + 1);
      forall j | 0 <= j < |rest|
        ensures from < rest[j]
      {
        var p := rest[j];
        assert p in rest;
        BoundariesMembers(ids, from + 1, p);
      }
      PrependIncreasing(from, rest);
    }
  }

  lemma BoundariesExact(ids: seq<int>, from: nat)
    requires 1 <= from
    ensures Increasing(Boundaries(ids, from))
    ensures forall p :: p in Boundaries(ids, from) <==> from <= p && IsBoundary(ids, p)
  {
    hide Boundaries, IsBoundary, Increasing;
    BoundariesIncrease(ids, from);
    forall p
      ensures p in Boundaries(ids, from) <==> from <= p && IsBoundary(ids, p)
    {
      BoundariesMembers(ids, from, p);
    }
  }

  lemma TailMembers(a: seq<int>)
    requires Increasing(a) && |a| > 0
    ensures forall x :: x in a[1..] <==> x in a && x != a[0]
  {
    assert a == [a[0]] + a[1..];
    assert a[0] !in a[1..];
  }

  lemma {:induction false} IncreasingSequencesEqual(a: seq<int>, b: seq<int>)
    requires Increasing(a) && Increasing(b) && forall v :: v in a <==> v in b
    ensures a == b
  {
    assert |b| > 0 ==> var w := b[0]; w in b;
    if |a| > 0 {
      var v := a[0];
      assert v in a;
      var w := b[0];
      assert w in b;
      assert v == w;
      TailMembers(a);
      TailMembers(b);
      IncreasingSequencesEqual(a[1..], b[1..]);
      assert a == [a[0]] + a[1..] && b == [b[0]] + b[1..];
    }
  }

  /** The segment of an increasing list into which a position falls. */
  lemma {:induction false} FindSegment(cu: seq<int>, p: int, n: nat) returns (k: nat)
    requires n < |cu| && cu[0] < p <= cu[n] && Increasing(cu)
    ensures k < n && cu[k] < p <= cu[k + 1]
  {
    if n > 0 && p <= cu[n - 1] {
      k := FindSegment(cu, p, n - 1);
    } else {
      k := n - 1;
    }
  }

  /** A segmentation consists of the end points and the boundaries. */
  lemma SegmentsMembers(ids: seq<int>, cu: seq<int>)
    requires Segments(ids, cu)
    ensures forall v :: v in cu <==> v == 0 || v == |ids| || IsBoundary(ids, v)
  {
    forall v
      ensures v in cu <==> v == 0 || v == |ids| || IsBoundary(ids, v)
    {
      if v in cu {
        var k :| 0 <= k < |cu| && cu[k] == v;
      } else if IsBoundary(ids, v) {
        var k := FindSegment(cu, v, |cu| - 1);
        assert cu[k + 1] in cu;
        assert InsideSegment(cu, k, v);
      }
    }
  }

  lemma NotListedInside(cu: seq<int>, k: int, p: int)
    requires Increasing(cu) && InsideSegment(cu, k, p)
    ensures p !in cu
  {
    forall j | 0 <= j < |cu|
      ensures cu[j] != p
    {
      if j > k + 1 {
        assert cu[k + 1] < cu[j];
      }
    }
  }

  /**
   * The offsets run strictly from 0 to n, are constant inside and change across
   * every interior offset; nothing else does.
   */
  lemma OffsetsExact(ids: seq<int>, cu: seq<int>)
    ensures Segments(ids, cu) <==> cu == Offsets(ids)
  {
    var own := Offsets(ids);
    var inner := Boundaries(ids, 1);
    BoundariesExact(ids, 1);
    forall k | 0 <= k < |inner|
      ensures IsBoundary(ids, inner[k])
    {
      var p := inner[k];
      assert p in inner;
    }
    assert Increasing(own);
    forall k, p | InsideSegment(own, k, p) && 0 < p < |ids|
      ensures ids[p] == ids[p - 1]
    {
      assert p in inner ==> p in own;
      NotListedInside(own, k, p);
    }
    assert Segments(ids, own);
    if Segments(ids, cu) {
      SegmentsMembers(ids, cu);
      SegmentsMembers(ids, own);
      IncreasingSequencesEqual(cu, own);
    }
  }

  /** The 32-bit result is the true offset list exactly when the token count fits. */
  lemma CastExact(ids: seq<int>)
    ensures AllToInt32(Offsets(ids)) == Offsets(ids) <==> |ids| < 2147483648
  {
    var own := Offsets(ids);
    if |ids| > 0 {
      OffsetsExact(ids, own);
      if |ids| >= INT32_LIMIT {
        assert AllToInt32(own)[|own| - 1] != own[|own| - 1];
      }
    }
  }

  /** The result for a row of identifiers: rejected exactly on a wrong shape, and exact up to the 32-bit limit. */
  lemma CuSeqlensExact(t: Tensor)
    requires t.Valid()
    ensures var r := SeqIdxToCuSeqlens(t);
            && (r.Ok? <==> |t.shape| == 2 && t.shape[0] == 1)
            && (r.Err? ==> r.error.shape == t.shape)
            && (r.Ok? && |t.data| == 0 ==> r.value == [0])
            && (r.Ok? ==> (Segments(t.data, r.value) <==> |t.data| < 2147483648))
            && (r.Ok? ==>
                  && |r.value| == |Offsets(t.data)|
                  && forall i :: 0 <= i < |r.value| ==> WrapsTo(Offsets(t.data)[i], r.value[i]))
  {
    CastExact(t.data);
    OffsetsExact(t.data, AllToInt32(Offsets(t.data)));
    forall v
      ensures WrapsTo(v, ToInt32(v))
    {
      CastWraps(v);
    }
  }

  // ---------------------------------------------------------------------
  // Unpacking.

  function Repeat(id: int, count: int): (s: seq<int>)
    requires 0 <= count
    ensures |s| == count && forall i :: 0 <= i < count ==> s[i] == id
  {
    seq(count, i => id)
  }

  /** One run per segment, labelled with that segment's identifier. */
  function Expand(cu: seq<int>, labels: seq<int>): seq<int>
    requires |cu| == |labels| + 1 && Increasing(cu)
  {
    if |labels| == 0 then []
    else Repeat(labels[0], cu[1] - cu[0]) + Expand(cu[1..], labels[1..])
  }

  function Labels(ids: seq<int>, cu: seq<int>): (labels: seq<int>)
    requires |cu| >= 1 && forall k :: 0 <= k < |cu| - 1 ==> 0 <= cu[k] < |ids|
    ensures |labels| == |cu| - 1
  {
    seq(|cu| - 1, k requires 0 <= k < |cu| - 1 => ids[cu[k]])
  }

  lemma {:induction false} ConstantRun(ids: seq<int>, lo: nat, hi: nat)
    requires lo < hi <= |ids|
    requires forall p :: lo < p < hi ==> ids[p] == ids[p - 1]
    ensures ids[lo..hi] == Repeat(ids[lo], hi - lo)
  {
    if hi > lo + 1 {
      ConstantRun(ids, lo, hi - 1);
      assert ids[lo..hi - 1][hi - 2 - lo] == ids[hi - 2];
      assert ids[lo..hi] == ids[lo..hi - 1] + [ids[hi - 1]];
    }
  }

  lemma {:induction false} ExpandSuffix(ids: seq<int>, cu: seq<int>)
    requires |cu| >= 1 && Increasing(cu) && 0 <= cu[0] && cu[|cu| - 1] == |ids| && ConstantInside(ids, cu)
    ensures forall k :: 0 <= k < |cu| - 1 ==> 0 <= cu[k] < |ids|
    ensures Expand(cu, Labels(ids, cu)) == ids[cu[0]..]
  {
    if |cu| > 1 {
      var rest := cu[1..];
      forall k, p | InsideSegment(rest, k, p) && 0 < p < |ids|
        ensures ids[p] == ids[p - 1]
      {
        assert InsideSegment(cu, k + 1, p);
      }
      ExpandSuffix(ids, rest);
      assert Labels(ids, cu)[1..] == Labels(ids, rest);
      forall p | cu[0] < p < cu[1]
        ensures ids[p] == ids[p - 1]
      {
        assert InsideSegment(cu, 0, p);
      }
      ConstantRun(ids, cu[0], cu[1]);
      assert ids[cu[0]..] == ids[cu[0]..cu[1]] + ids[cu[1]..];
    }
  }

  /** Unpacking the offsets with the identifiers found at them recovers every identifier. */
  lemma UnpackInvertsPack(ids: seq<int>)
    requires |ids| > 0
    ensures var cu := Offsets(ids);
            && Increasing(cu) && (forall k :: 0 <= k < |cu| - 1 ==> 0 <= cu[k] < |ids|)
            && Expand(cu, Labels(ids, cu)) == ids
  {
    OffsetsExact(ids, Offsets(ids));
    ExpandSuffix(ids, Offsets(ids));
  }

  lemma {:induction false} ExpandLength(cu: seq<int>, labels: seq<int>)
    requires |cu| == |labels| + 1 && Increasing(cu)
    ensures |Expand(cu, labels)| == cu[|cu| - 1] - cu[0]
  {
    if |labels| > 0 {
      ExpandLength(cu[1..], labels[1..]);
    }
  }

  lemma {:induction false} ExpandAt(cu: seq<int>, labels: seq<int>, k: int, p: int)
    requires |cu| == |labels| + 1 && Increasing(cu)
    requires 0 <= k < |labels| && cu[k] <= p < cu[k + 1]
    ensures 0 <= p - cu[0] < |Expand(cu, labels)| && Expand(cu, labels)[p - cu[0]] == labels[k]
  {
    if k > 0 {
      ExpandAt(cu[1..], labels[1..], k - 1, p);
      assert p - cu[0] == |Repeat(labels[0], cu[1] - cu[0])| + (p - cu[1]);
    }
  }

  /** Packing an unpacked list of runs returns its offsets, as long as neighbouring runs differ. */
  lemma PackInvertsUnpack(cu: seq<int>, labels: seq<int>)
    requires |cu| == |labels| + 1 && Increasing(cu) && |labels| > 0 && cu[0] == 0
    requires forall k :: 0 < k < |labels| ==> labels[k] != labels[k - 1]
    ensures Offsets(Expand(cu, labels)) == cu
  {
    var ids := Expand(cu, labels);
    ExpandLength(cu, labels);
    forall k, p | InsideSegment(cu, k, p) && 0 < p < |ids|
      ensures ids[p] == ids[p - 1]
    {
      ExpandAt(cu, labels, k, p);
      ExpandAt(cu, labels, k, p - 1);
    }
    forall k | 0 < k < |cu| - 1 && 0 < cu[k] < |ids|
      ensures ids[cu[k]] != ids[cu[k] - 1]
    {
      ExpandAt(cu, labels, k, cu[k]);
      ExpandAt(cu, labels, k - 1, cu[k] - 1);
    }
    OffsetsExact(ids, cu);
  }
}
