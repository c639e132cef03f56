/** What the client and the server both know about the ACT policy: the
    ImageNet image normalisation, the action statistics stored beside the
    weights and the affine map they define, the batch handed to the policy,
    and the devices a policy can be placed on.  The client file and the server
    file each carry their own copy of these constants and formulas; they agree,
    so the model states them once. */
module ActPolicy {
  import opened Outcomes
  import opened Tensors

  // ---------------------------------------------------------------------------
  // ImageNet normalisation

  const ImagenetMean: seq<real> := [0.485, 0.456, 0.406]
  const ImagenetStd: seq<real> := [0.229, 0.224, 0.225]

  /** `image / 255.0` on a rank-3 image. */
  function Rescale255(a: NDArray<real>): (r: NDArray<real>)
    requires IsRank3(a)
    ensures IsCube(r, |a.items|, a.inner[0], a.inner[1])
    ensures forall i, j, k | 0 <= i < |a.items| && 0 <= j < a.inner[0] && 0 <= k < a.inner[1] ::
              At(r, i, j, k) == At(a, i, j, k) / 255.0
  {
    Cube(|a.items|, a.inner[0], a.inner[1],
      (i: nat, j: nat, k: nat) requires i < |a.items| && j < a.inner[0] && k < a.inner[1] => At(a, i, j, k) / 255.0)
  }

  /** `(image - mean.view(3, 1, 1)) / std.view(3, 1, 1)` on a channel-first image of three channels. */
  function ImagenetNormalize(a: NDArray<real>): (r: NDArray<real>)
    requires IsRank3(a) && |a.items| == 3
    ensures IsCube(r, 3, a.inner[0], a.inner[1])
    ensures forall c, h, w | 0 <= c < 3 && 0 <= h < a.inner[0] && 0 <= w < a.inner[1] ::
              At(r, c, h, w) == (At(a, c, h, w) - ImagenetMean[c]) / ImagenetStd[c]
  {
    Cube(3, a.inner[0], a.inner[1],
      (c: nat, h: nat, w: nat) requires c < 3 && h < a.inner[0] && w < a.inner[1] =>
        (At(a, c, h, w) - ImagenetMean[c]) / ImagenetStd[c])
  }

  // ---------------------------------------------------------------------------
  // Action statistics

  /** The statistics file looked for inside a checkpoint directory. */
  const StatsFileName := "policy_preprocessor_step_3_normalizer_processor.safetensors"

  datatype Stats = Stats(mean: seq<real>, std: seq<real>)

  /** Loads `action.mean` and `action.std` from the statistics file's contents
      when the file exists; a file without either key raises KeyError. */
  function LoadStats(file: Option<map<string, seq<real>>>): (r: Result<Option<Stats>>)
    ensures file.None? ==> r == Ok(None)
    ensures file.Some? && "action.mean" in file.value && "action.std" in file.value ==>
              r == Ok(Some(Stats(file.value["action.mean"], file.value["action.std"])))
    ensures file.Some? && !("action.mean" in file.value && "action.std" in file.value) ==>
              r.Err? && r.error.kind == KeyError
  {
    match file
    case None => Ok(None)
    case Some(tensors) =>
      if "action.mean" !in tensors then Err(Error(KeyError, "'action.mean'"))
      else if "action.std" !in tensors then Err(Error(KeyError, "'action.std'"))
      else Ok(Some(Stats(tensors["action.mean"], tensors["action.std"])))
  }

  /** Torch's broadcasting rule for one axis: the sizes agree or one of them
      is 1, and the result has the size that is not 1. */
  function BroadcastDim(d1: nat, d2: nat): (r: Option<nat>)
    ensures r.Some? <==> d1 == d2 || d1 == 1 || d2 == 1
    ensures r.Some? ==> (r.value == d1 || d1 == 1) && (r.value == d2 || d2 == 1)
  {
    if d1 == d2 || d2 == 1 then Some(d1) else if d1 == 1 then Some(d2) else None
  }

  /** The size of the last axis of `action * std + mean` when the three
      broadcast (a 0-d action counts as one entry). */
  function DenormalizedDim(a: NDArray<real>, stats: Stats): Option<nat> {
    var width := if Rank(a) == 0 then 1 else LastDim(a);
    match BroadcastDim(width, |stats.std|)
    case None => None
    case Some(d) => BroadcastDim(d, |stats.mean|)
  }

  /** `action * std + mean` broadcasts. */
  predicate Broadcasts(a: NDArray<real>, stats: Stats) {
    DenormalizedDim(a, stats).Some?
  }

  /** The action's last axis has one entry per statistic. */
  predicate SameWidth(a: NDArray<real>, stats: Stats) {
    Rank(a) >= 1 && LastDim(a) == |stats.mean| == |stats.std|
  }

  /** Entry `k` of a statistic broadcast along the last axis: the only entry
      of a one-entry statistic. */
  function StatAt(s: seq<real>, k: nat): real {
    if |s| == 1 then s[0] else if k < |s| then s[k] else 0.0
  }

  /** The affine map `x * std[k] + mean[k]` at index `k` of the last axis. */
  function Affine(stats: Stats): (nat, real) -> real {
    (k: nat, x: real) => x * StatAt(stats.std, k) + StatAt(stats.mean, k)
  }

  /** `action * std + mean`: entry `k` along the last axis becomes
      `x * std[k] + mean[k]`, an axis of size 1 on either side broadcasting
      against the other; a 0-d action becomes a vector. */
  function Denormalize(a: NDArray<real>, stats: Stats): (r: Result<NDArray<real>>)
    ensures r.Ok? <==> Broadcasts(a, stats)
    ensures r.Ok? && Rank(a) >= 1 ==> Shape(r.value) == Shape(a)[..Rank(a) - 1] + [DenormalizedDim(a, stats).value]
    ensures r.Ok? && Rank(a) == 0 ==> Shape(r.value) == [DenormalizedDim(a, stats).value]
    ensures r.Ok? && SameWidth(a, stats) ==> Shape(r.value) == Shape(a)
  {
    match DenormalizedDim(a, stats)
    case None => Err(Error(RuntimeError, "The size of tensor a must match the size of tensor b"))
    case Some(d) =>
      var v := if a.Scalar? then FromList([a.value]) else a;
      Ok(BroadcastLast(v, d, Affine(stats)))
  }

  /** A denormalised rectangular action is rectangular, and on a vector entry
      `k` is the action's entry `k` (or its only entry) times `std[k]` plus
      `mean[k]` (or their only entries). */
  lemma DenormalizeEntries(a: NDArray<real>, stats: Stats)
    requires Wf(a) && Broadcasts(a, stats)
    ensures Denormalize(a, stats).Ok? && Wf(Denormalize(a, stats).value)
    ensures IsRank1(a) ==>
              var r, d := Denormalize(a, stats).value, DenormalizedDim(a, stats).value;
              && IsRank1(r) && |r.items| == d
              && forall k | 0 <= k < d ::
                   At1(r, k) == At1(a, if |a.items| == 1 then 0 else k) * StatAt(stats.std, k) + StatAt(stats.mean, k)
  {
    var d := DenormalizedDim(a, stats).value;
    var f := Affine(stats);
    var v := if a.Scalar? then FromList([a.value]) else a;
    BroadcastLastWf(v, d, f);
    if IsRank1(a) {
      BroadcastLastVector(a, d, f);
    }
  }

  /** The training-time normalisation `(action - mean) / std` that `Denormalize` undoes. */
  function Standardize(a: NDArray<real>, stats: Stats): (r: NDArray<real>)
    requires forall k | 0 <= k < |stats.std| :: stats.std[k] != 0.0
    ensures Shape(r) == Shape(a)
  {
    MapLast(a, Unaffine(stats))
  }

  /** The map `(x - mean[k]) / std[k]` at index `k` of the last axis. */
  function Unaffine(stats: Stats): (nat, real) -> real {
    (k: nat, x: real) => if k < |stats.std| && k < |stats.mean| && stats.std[k] != 0.0 then (x - stats.mean[k]) / stats.std[k] else x
  }

  /** `Unaffine` undoes `Affine` at every index of matching statistics. */
  lemma AffineInverse(stats: Stats, k: nat, x: real)
    requires k < |stats.std| == |stats.mean| && stats.std[k] != 0.0
    ensures Unaffine(stats)(k, Affine(stats)(k, x)) == x
  {
    var s, m := stats.std[k], stats.mean[k];
    assert StatAt(stats.std, k) == s && StatAt(stats.mean, k) == m;
    assert Affine(stats)(k, x) == x * s + m;
    assert (x * s + m - m) / s == x;
  }

  /** Re-deriving the raw output from a denormalised action gives back the
      raw output exactly when no axis was broadcast. */
  lemma DenormalizeRoundTrip(a: NDArray<real>, stats: Stats)
    requires Wf(a) && SameWidth(a, stats)
    requires forall k | 0 <= k < |stats.std| :: stats.std[k] != 0.0
    ensures Denormalize(a, stats).Ok?
    ensures Standardize(Denormalize(a, stats).value, stats) == a
  {
    var f, g := Affine(stats), Unaffine(stats);
    assert DenormalizedDim(a, stats) == Some(LastDim(a));
    BroadcastLastSameWidth(a, f);
    assert Denormalize(a, stats).value == MapLast(a, f);
    forall k: nat, x: real | k < LastDim(a) ensures g(k, f(k, x)) == x {
      AffineInverse(stats, k, x);
    }
    MapLastInverse(a, f, g);
  }

  // ---------------------------------------------------------------------------
  // Policy input and placement

  /** The dictionary handed to `policy.select_action`: keys `observation.state`
      and `observation.images.top_cam`. */
  datatype Batch = Batch(state: NDArray<real>, image: NDArray<real>)

  datatype Device = Cpu | Cuda0 | Mps
}
