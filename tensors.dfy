/** N-dimensional arrays in the manner of numpy / torch tensors: a value is a
    scalar or a sequence of sub-arrays that all share one shape.  Each inner
    node records the shape of its items, so empty arrays keep their full shape
    (numpy's `(0, 480, 640)` is `Array([480, 640], [])`). */
module Tensors {

  datatype NDArray<T> = Scalar(value: T) | Array(inner: seq<nat>, items: seq<NDArray<T>>)

  /** `a.shape`. */
  function Shape<T>(a: NDArray<T>): seq<nat> {
    match a
    case Scalar(_) => []
    case Array(inner, items) => [|items|] + inner
  }

  /** `a.ndim`. */
  function Rank<T>(a: NDArray<T>): nat {
    |Shape(a)|
  }

  /** Every item of every node has the shape its node records (a rectangular array). */
  predicate Wf<T>(a: NDArray<T>) {
    match a
    case Scalar(_) => true
    case Array(inner, items) =>
      forall i | 0 <= i < |items| :: Shape(items[i]) == inner && Wf(items[i])
  }

  lemma RankZeroIsScalar<T>(a: NDArray<T>)
    ensures Rank(a) == 0 <==> a.Scalar?
  {
  }

  // ---------------------------------------------------------------------------
  // Rank-1 vectors and rank-3 cubes

  /** A well-formed array of rank 1. */
  predicate IsRank1<T>(a: NDArray<T>) {
    a.Array? && a.inner == [] && Wf(a)
  }

  /** A well-formed array of rank 3; its shape is `[|a.items|, a.inner[0], a.inner[1]]`. */
  predicate IsRank3<T>(a: NDArray<T>) {
    a.Array? && |a.inner| == 2 && Wf(a)
  }

  /** A well-formed array of shape `[d0, d1, d2]`. */
  predicate IsCube<T>(a: NDArray<T>, d0: nat, d1: nat, d2: nat) {
    IsRank3(a) && |a.items| == d0 && a.inner == [d1, d2]
  }

  lemma CubeShape<T>(a: NDArray<T>, d0: nat, d1: nat, d2: nat)
    requires Wf(a)
    ensures IsCube(a, d0, d1, d2) <==> Shape(a) == [d0, d1, d2]
  {
    match a
    case Scalar(_) =>
    case Array(inner, items) =>
      if Shape(a) == [d0, d1, d2] {
        assert Shape(a)[0] == |items| && Shape(a)[1..] == inner;
      }
  }

  /** `a[i]` of a rank-1 array. */
  function At1<T>(a: NDArray<T>, i: nat): T
    requires IsRank1(a) && i < |a.items|
  {
    assert Shape(a.items[i]) == [];
    a.items[i].value
  }

  /** `a[i][j][k]` of a rank-3 array. */
  function At<T>(a: NDArray<T>, i: nat, j: nat, k: nat): T
    requires IsRank3(a) && i < |a.items| && j < a.inner[0] && k < a.inner[1]
  {
    var row := a.items[i];
    assert Shape(row) == a.inner && Wf(row);
    var col := row.items[j];
    assert Shape(col) == [a.inner[1]] && Wf(col);
    assert Shape(col.items[k]) == [];
    col.items[k].value
  }

  /** The vector `[f(0), ..., f(n-1)]`. */
  function Vector<T>(n: nat, f: nat --> T): (r: NDArray<T>)
    requires forall i | 0 <= i < n :: f.requires(i)
    ensures IsRank1(r) && |r.items| == n
    ensures forall i | 0 <= i < n :: r.items[i] == Scalar(f(i))
  {
    Array([], seq(n, (i: int) requires 0 <= i < n => Scalar(f(i))))
  }

  /** `np.array(xs)` of a flat list. */
  function FromList<T>(xs: seq<T>): (r: NDArray<T>)
    ensures IsRank1(r) && |r.items| == |xs|
    ensures forall i | 0 <= i < |xs| :: At1(r, i) == xs[i]
  {
    Vector(|xs|, (i: nat) requires i < |xs| => xs[i])
  }

  /** `a.tolist()` of a rank-1 array. */
  function ToList<T>(a: NDArray<T>): (r: seq<T>)
    requires IsRank1(a)
    ensures |r| == |a.items|
    ensures forall i | 0 <= i < |r| :: r[i] == At1(a, i)
  {
    seq(|a.items|, (i: int) requires 0 <= i < |a.items| => At1(a, i))
  }

  /** Listing an array built from a list gives back the list. */
  lemma ToListFromList<T>(xs: seq<T>)
    ensures ToList(FromList(xs)) == xs
  {
  }

  /** The matrix of shape `[d0, d1]` whose element `[i][j]` is `f(i, j)`. */
  function Matrix<T>(d0: nat, d1: nat, f: (nat, nat) --> T): (r: NDArray<T>)
    requires forall i, j | 0 <= i < d0 && 0 <= j < d1 :: f.requires(i, j)
    ensures r.Array? && r.inner == [d1] && |r.items| == d0 && Wf(r)
    ensures forall i | 0 <= i < d0 :: IsRank1(r.items[i]) && |r.items[i].items| == d1
    ensures forall i, j | 0 <= i < d0 && 0 <= j < d1 :: r.items[i].items[j] == Scalar(f(i, j))
  {
    Array([d1], seq(d0, (i: int) requires 0 <= i < d0 => Vector(d1, (j: nat) requires j < d1 => f(i, j))))
  }

  /** The cube of shape `[d0, d1, d2]` whose element `[i][j][k]` is `f(i, j, k)`. */
  function Cube<T>(d0: nat, d1: nat, d2: nat, f: (nat, nat, nat) --> T): (r: NDArray<T>)
    requires forall i, j, k | 0 <= i < d0 && 0 <= j < d1 && 0 <= k < d2 :: f.requires(i, j, k)
    ensures IsCube(r, d0, d1, d2)
    ensures forall i, j, k | 0 <= i < d0 && 0 <= j < d1 && 0 <= k < d2 :: At(r, i, j, k) == f(i, j, k)
  {
    Array([d1, d2], seq(d0, (i: int) requires 0 <= i < d0 =>
      Matrix(d1, d2, (j: nat, k: nat) requires j < d1 && k < d2 => f(i, j, k))))
  }

  /** Two cubes of the same shape with the same elements are the same value. */
  lemma {:induction false} CubeExtensional<T>(a: NDArray<T>, b: NDArray<T>, d0: nat, d1: nat, d2: nat)
    requires IsCube(a, d0, d1, d2) && IsCube(b, d0, d1, d2)
    requires forall i, j, k | 0 <= i < d0 && 0 <= j < d1 && 0 <= k < d2 :: At(a, i, j, k) == At(b, i, j, k)
    ensures a == b
  {
    forall i | 0 <= i < d0 ensures a.items[i] == b.items[i] {
      var ra, rb := a.items[i], b.items[i];
      assert Shape(ra) == [d1, d2] && Wf(ra) && Shape(rb) == [d1, d2] && Wf(rb);
      forall j | 0 <= j < d1 ensures ra.items[j] == rb.items[j] {
        var ca, cb := ra.items[j], rb.items[j];
        assert Shape(ca) == [d2] && Wf(ca) && Shape(cb) == [d2] && Wf(cb);
        forall k | 0 <= k < d2 ensures ca.items[k] == cb.items[k] {
          assert Shape(ca.items[k]) == [] && Shape(cb.items[k]) == [];
          assert At(a, i, j, k) == At(b, i, j, k);
        }
        assert ca.items == cb.items;
      }
      assert ra.items == rb.items;
    }
    assert a.items == b.items;
  }

  // ---------------------------------------------------------------------------
  // Axis permutations of rank-3 images

  /** `np.transpose(a, (2, 0, 1))`, equally `np.moveaxis(a, -1, 0)` and torch
      `permute(2, 0, 1)`: height x width x channel becomes channel x height x width. */
  function ChannelsFirst<T>(a: NDArray<T>): (r: NDArray<T>)
    requires IsRank3(a)
    ensures IsCube(r, a.inner[1], |a.items|, a.inner[0])
    ensures forall c, h, w | 0 <= c < a.inner[1] && 0 <= h < |a.items| && 0 <= w < a.inner[0] ::
              At(r, c, h, w) == At(a, h, w, c)
  {
    var h, w, c := |a.items|, a.inner[0], a.inner[1];
    Cube(c, h, w, (ci: nat, hi: nat, wi: nat) requires ci < c && hi < h && wi < w => At(a, hi, wi, ci))
  }

  /** `np.transpose(a, (1, 2, 0))`: channel x height x width becomes height x width x channel. */
  function ChannelsLast<T>(a: NDArray<T>): (r: NDArray<T>)
    requires IsRank3(a)
    ensures IsCube(r, a.inner[0], a.inner[1], |a.items|)
    ensures forall h, w, c | 0 <= h < a.inner[0] && 0 <= w < a.inner[1] && 0 <= c < |a.items| ::
              At(r, h, w, c) == At(a, c, h, w)
  {
    var c, h, w := |a.items|, a.inner[0], a.inner[1];
    Cube(h, w, c, (hi: nat, wi: nat, ci: nat) requires hi < h && wi < w && ci < c => At(a, ci, hi, wi))
  }

  /** Moving the channel axis last and then first again gives back the image. */
  lemma ChannelsFirstOfLast<T>(a: NDArray<T>)
    requires IsRank3(a)
    ensures ChannelsFirst(ChannelsLast(a)) == a
  {
    var r := ChannelsFirst(ChannelsLast(a));
    CubeExtensional(r, a, |a.items|, a.inner[0], a.inner[1]);
  }

  /** Moving the channel axis first and then last again gives back the image. */
  lemma ChannelsLastOfFirst<T>(a: NDArray<T>)
    requires IsRank3(a)
    ensures ChannelsLast(ChannelsFirst(a)) == a
  {
    var r := ChannelsLast(ChannelsFirst(a));
    CubeExtensional(r, a, |a.items|, a.inner[0], a.inner[1]);
  }

  // ---------------------------------------------------------------------------
  // Batch dimensions

  /** `a[np.newaxis, :]`, torch `unsqueeze(0)`: a leading axis of size 1. */
  function AddBatch<T>(a: NDArray<T>): (r: NDArray<T>)
    ensures Shape(r) == [1] + Shape(a)
    ensures Wf(a) ==> Wf(r)
  {
    Array(Shape(a), [a])
  }

  /** A rank-1 array gains a leading batch axis; any other rank is passed on unchanged. */
  function AddBatchIfVector<T>(a: NDArray<T>): (r: NDArray<T>)
    ensures Rank(a) == 1 ==> Shape(r) == [1] + Shape(a) && r.items == [a]
    ensures Rank(a) != 1 ==> r == a
  {
    if Rank(a) == 1 then AddBatch(a) else a
  }

  /** `if a.ndim == 2 and a.shape[0] == 1: a = a[0]`. */
  function StripBatch<T>(a: NDArray<T>): (r: NDArray<T>)
    ensures Rank(a) == 2 && Shape(a)[0] == 1 && Wf(a) ==> Shape(r) == Shape(a)[1..] && AddBatch(r) == a
    ensures !(Rank(a) == 2 && Shape(a)[0] == 1) ==> r == a
  {
    if Rank(a) == 2 && Shape(a)[0] == 1 then a.items[0] else a
  }

  /** torch `squeeze(0)`: drops the leading axis when it has size 1, otherwise a no-op. */
  function Squeeze0<T>(a: NDArray<T>): (r: NDArray<T>)
    ensures Rank(a) >= 1 && Shape(a)[0] == 1 && Wf(a) ==> Shape(r) == Shape(a)[1..] && AddBatch(r) == a
    ensures !(Rank(a) >= 1 && Shape(a)[0] == 1) ==> r == a
  {
    if Rank(a) >= 1 && Shape(a)[0] == 1 then a.items[0] else a
  }

  /** Adding a batch axis to a vector and stripping it again gives back the vector. */
  lemma StripBatchOfVector<T>(v: NDArray<T>)
    requires Rank(v) == 1
    ensures StripBatch(AddBatchIfVector(v)) == v
  {
  }

  /** Squeezing undoes `unsqueeze(0)` for every array. */
  lemma Squeeze0OfAddBatch<T>(a: NDArray<T>)
    ensures Squeeze0(AddBatch(a)) == a
  {
  }

  // ---------------------------------------------------------------------------
  // Elementwise maps along the last axis

  /** The size of the last axis. */
  function LastDim<T>(a: NDArray<T>): nat
    requires Rank(a) >= 1
  {
    Shape(a)[Rank(a) - 1]
  }

  /** Replaces every element `x` whose index along the last axis is `k` by `f(k, x)`. */
  function MapLast(a: NDArray<real>, f: (nat, real) -> real): (r: NDArray<real>)
    ensures Shape(r) == Shape(a)
    ensures Wf(a) ==> Wf(r)
    ensures IsRank1(a) ==> IsRank1(r) && |r.items| == |a.items| && forall k | 0 <= k < |a.items| :: At1(r, k) == f(k, At1(a, k))
  {
    match a
    case Scalar(_) => a
    case Array(inner, items) =>
      if inner == [] then
        Array(inner, seq(|items|, (k: int) requires 0 <= k < |items| =>
          if items[k].Scalar? then Scalar(f(k, items[k].value)) else items[k]))
      else
        Array(inner, seq(|items|, (i: int) requires 0 <= i < |items| => MapLast(items[i], f)))
  }

  /** When `g` undoes `f` at every index along the last axis, mapping by `f` and then `g` is the identity. */
  lemma {:induction false} MapLastInverse(a: NDArray<real>, f: (nat, real) -> real, g: (nat, real) -> real)
    requires Wf(a) && Rank(a) >= 1
    requires forall k: nat, x: real | k < LastDim(a) :: g(k, f(k, x)) == x
    ensures MapLast(MapLast(a, f), g) == a
  {
    var r := MapLast(MapLast(a, f), g);
    if a.inner == [] {
      var m := MapLast(a, f);
      assert LastDim(a) == |a.items| && m.inner == [];
      forall k | 0 <= k < |a.items| ensures r.items[k] == a.items[k] {
        assert Shape(a.items[k]) == [];
        var x := a.items[k].value;
        assert m.items[k] == Scalar(f(k, x));
        assert g(k, f(k, x)) == x;
        assert r.items[k] == Scalar(g(k, f(k, x)));
      }
    } else {
      forall i | 0 <= i < |a.items| ensures r.items[i] == a.items[i] {
        assert Shape(a.items[i]) == a.inner;
        assert LastDim(a.items[i]) == LastDim(a);
        MapLastInverse(a.items[i], f, g);
      }
    }
    assert r.items == a.items;
  }

  /** Replaces the last axis by one of `d` entries: entry `k` is `f(k, x)`
      for the input's entry `k` along that axis, or for its only entry when
      that axis has size 1 (a size-1 axis broadcast against `d`). */
  function BroadcastLast(a: NDArray<real>, d: nat, f: (nat, real) -> real): (r: NDArray<real>)
    requires Rank(a) >= 1
    ensures Shape(r) == Shape(a)[..Rank(a) - 1] + [d]
  {
    if a.inner == [] then
      Array([], seq(d, (k: int) requires 0 <= k < d =>
        var j := if |a.items| == 1 then 0 else k;
        if j < |a.items| && a.items[j].Scalar? then Scalar(f(k, a.items[j].value)) else Scalar(0.0)))
    else
      Array(a.inner[..|a.inner| - 1] + [d], seq(|a.items|, (i: int) requires 0 <= i < |a.items| =>
        if Rank(a.items[i]) >= 1 then BroadcastLast(a.items[i], d, f) else a.items[i]))
  }

  /** Broadcasting keeps an array rectangular when its last axis has size 1 or `d`. */
  lemma {:induction false} BroadcastLastWf(a: NDArray<real>, d: nat, f: (nat, real) -> real)
    requires Wf(a) && Rank(a) >= 1 && (LastDim(a) == 1 || LastDim(a) == d)
    ensures Wf(BroadcastLast(a, d, f))
  {
    if a.inner != [] {
      forall i | 0 <= i < |a.items|
        ensures Shape(BroadcastLast(a, d, f).items[i]) == a.inner[..|a.inner| - 1] + [d]
        ensures Wf(BroadcastLast(a, d, f).items[i])
      {
        assert Shape(a.items[i]) == a.inner;
        assert LastDim(a.items[i]) == LastDim(a);
        BroadcastLastWf(a.items[i], d, f);
      }
    }
  }

  /** On a vector of 1 or `d` entries, entry `k` of the result is `f` of entry
      `k` of the vector, or of its only entry. */
  lemma BroadcastLastVector(a: NDArray<real>, d: nat, f: (nat, real) -> real)
    requires IsRank1(a) && (|a.items| == 1 || |a.items| == d)
    ensures var r := BroadcastLast(a, d, f);
      && IsRank1(r) && |r.items| == d
      && forall k | 0 <= k < d :: At1(r, k) == f(k, At1(a, if |a.items| == 1 then 0 else k))
  {
    var r := BroadcastLast(a, d, f);
    forall k | 0 <= k < d ensures r.items[k] == Scalar(f(k, At1(a, if |a.items| == 1 then 0 else k))) {
      var j := if |a.items| == 1 then 0 else k;
      assert Shape(a.items[j]) == [];
    }
  }

  /** Broadcasting the last axis against its own size is the elementwise map. */
  lemma {:induction false} BroadcastLastSameWidth(a: NDArray<real>, f: (nat, real) -> real)
    requires Wf(a) && Rank(a) >= 1
    ensures BroadcastLast(a, LastDim(a), f) == MapLast(a, f)
  {
    if a.inner == [] {
      BroadcastVectorSameWidth(a, f);
    } else {
      forall i | 0 <= i < |a.items|
        ensures BroadcastLast(a.items[i], LastDim(a), f) == MapLast(a.items[i], f)
      {
        assert Shape(a.items[i]) == a.inner;
        BroadcastLastSameWidth(a.items[i], f);
      }
      BroadcastNestedSameWidth(a, f);
    }
  }

  /** The step of `BroadcastLastSameWidth` over the outer axis. */
  lemma BroadcastNestedSameWidth(a: NDArray<real>, f: (nat, real) -> real)
    requires a.Array? && a.inner != [] && Rank(a) >= 1
    requires forall i | 0 <= i < |a.items| :: Shape(a.items[i]) == a.inner
    requires forall i | 0 <= i < |a.items| :: BroadcastLast(a.items[i], LastDim(a), f) == MapLast(a.items[i], f)
    ensures BroadcastLast(a, LastDim(a), f) == MapLast(a, f)
  {
    var d := LastDim(a);
    assert a.inner[..|a.inner| - 1] + [d] == a.inner;
    var r, m := BroadcastLast(a, d, f), MapLast(a, f);
    assert r.items == m.items;
  }

  /** The one-axis case of `BroadcastLastSameWidth`. */
  lemma BroadcastVectorSameWidth(a: NDArray<real>, f: (nat, real) -> real)
    requires Wf(a) && a.Array? && a.inner == []
    ensures BroadcastLast(a, |a.items|, f) == MapLast(a, f)
  {
    var r, m := BroadcastLast(a, |a.items|, f), MapLast(a, f);
    forall k | 0 <= k < |a.items| ensures r.items[k] == m.items[k] {
      assert Shape(a.items[k]) == [];
    }
    assert r.items == m.items;
  }
}
