/** The Triton Python backend that serves the ACT policy: start-up (checkpoint
    directory, device, optional action statistics) and the batch handler that
    answers every request of a batch, one response each, in order, turning a
    failure into an error response without disturbing the others.

    The policy network is an oracle `(S, Batch) -> (S, Result<raw action>)`:
    it may keep state between calls (ACT's action queue) and it may raise. */
module ServingModel {
  import opened Outcomes
  import opened Tensors
  import opened Text
  import opened ActPolicy
  import opened TritonWire

  const DefaultCheckpointDir := "/workspace/outputs/train/act_pick_place_30k/checkpoints/030000/pretrained_model"

  /** What `initialize` can observe: the environment, the accelerators, whether
      the weights load from a directory, and the statistics file's contents
      for a path when that file exists. */
  datatype ServerHost = ServerHost(
    env: map<string, string>,
    cudaAvailable: bool,
    mpsAvailable: bool,
    policyLoads: string -> bool,
    statsFile: string -> Option<map<string, seq<real>>>)

  /** The fields `initialize` sets once. */
  datatype ServerConfig = ServerConfig(checkpointDir: string, device: Device, stats: Option<Stats>)

  // ---------------------------------------------------------------------------
  // initialize

  /** `cuda:0` when CUDA is available, CPU otherwise; an available MPS device is never used. */
  function ServerDevice(cudaAvailable: bool, mpsAvailable: bool): (d: Device)
    ensures d == Cuda0 <==> cudaAvailable
    ensures d == Cpu <==> !cudaAvailable
    ensures d != Mps
  {
    if cudaAvailable then Cuda0
    else if mpsAvailable then Cpu
    else Cpu
  }

  /** `initialize`: checkpoint from `CHECKPOINT_DIR` or the default, the policy
      loaded from it, the device, and `action.mean` and `action.std` from the
      statistics file inside it when present, KeyError when it lacks either. */
  function Initialize(host: ServerHost): (r: Result<ServerConfig>)
    ensures var dir := Getenv(host.env, "CHECKPOINT_DIR", DefaultCheckpointDir);
      && (!host.policyLoads(dir) ==> r.Err? && r.error.kind == LoadError)
      && (r.Ok? ==> r.value.checkpointDir == dir && r.value.device == ServerDevice(host.cudaAvailable, host.mpsAvailable))
      && (r.Ok? ==> (r.value.stats.Some? <==> host.statsFile(PathJoin(dir, StatsFileName)).Some?))
      && (host.policyLoads(dir) && LoadStats(host.statsFile(PathJoin(dir, StatsFileName))).Ok? ==> r.Ok?)
    ensures var file := host.statsFile(PathJoin(Getenv(host.env, "CHECKPOINT_DIR", DefaultCheckpointDir), StatsFileName));
      && (r.Ok? && file.Some? ==>
            && "action.mean" in file.value && "action.std" in file.value
            && r.value.stats == Some(Stats(file.value["action.mean"], file.value["action.std"])))
      && (host.policyLoads(Getenv(host.env, "CHECKPOINT_DIR", DefaultCheckpointDir)) && file.Some? &&
          !("action.mean" in file.value && "action.std" in file.value) ==>
            r.Err? && r.error.kind == KeyError)
  {
    var dir := Getenv(host.env, "CHECKPOINT_DIR", DefaultCheckpointDir);
    if !host.policyLoads(dir) then
      Err(Error(LoadError, "cannot load policy from " + dir))
    else
      match LoadStats(host.statsFile(PathJoin(dir, StatsFileName)))
      case Err(e) => Err(e)
      case Ok(stats) => Ok(ServerConfig(dir, ServerDevice(host.cudaAvailable, host.mpsAvailable), stats))
  }

  /** Without `CHECKPOINT_DIR` the server loads the fixed training output directory. */
  lemma InitializeDefaultCheckpoint(host: ServerHost)
    requires "CHECKPOINT_DIR" !in host.env && Initialize(host).Ok?
    ensures Initialize(host).value.checkpointDir == DefaultCheckpointDir
  {
  }

  // ---------------------------------------------------------------------------
  // _predict

  /** `(image - mean.view(3, 1, 1)) / std.view(3, 1, 1)` on one channel-first
      image whose channel axis is 3, or 1 (broadcast to three channels). */
  function NormalizeChannels(a: NDArray<real>): (r: NDArray<real>)
    requires IsRank3(a) && (|a.items| == 3 || |a.items| == 1)
    ensures IsCube(r, 3, a.inner[0], a.inner[1])
    ensures forall c, h, w | 0 <= c < 3 && 0 <= h < a.inner[0] && 0 <= w < a.inner[1] ::
              At(r, c, h, w) == (At(a, if |a.items| == 1 then 0 else c, h, w) - ImagenetMean[c]) / ImagenetStd[c]
  {
    Cube(3, a.inner[0], a.inner[1],
      (c: nat, h: nat, w: nat) requires c < 3 && h < a.inner[0] && w < a.inner[1] =>
        (At(a, if |a.items| == 1 then 0 else c, h, w) - ImagenetMean[c]) / ImagenetStd[c])
  }

  /** Images whose broadcasting against the `(3, 1, 1)` constants the model
      defines: rectangular, of rank 3 (`[C, H, W]`) or 4 (`[B, C, H, W]`). */
  predicate ServerImage(img: NDArray<real>) {
    Wf(img) && (Rank(img) == 3 || Rank(img) == 4)
  }

  /** The size of the channel axis, the third from the end. */
  function ChannelDim(img: NDArray<real>): nat
    requires ServerImage(img)
  {
    Shape(img)[Rank(img) - 3]
  }

  lemma BatchItemIsRank3(img: NDArray<real>, b: nat)
    requires ServerImage(img) && Rank(img) == 4 && b < |img.items|
    ensures IsRank3(img.items[b]) && img.items[b].inner == img.inner[1..] && |img.items[b].items| == img.inner[0]
  {
    var x := img.items[b];
    assert Shape(x) == img.inner && Wf(x);
    assert Shape(x)[0] == |x.items| && Shape(x)[1..] == x.inner;
  }

  /** torch's error for a channel axis that does not broadcast against 3. */
  function BroadcastMismatch(dim: nat, axis: nat): (e: Error)
    ensures e.kind == RuntimeError
  {
    Error(RuntimeError, "The size of tensor a (" + NatText(dim) +
      ") must match the size of tensor b (3) at non-singleton dimension " + NatText(axis))
  }

  /** The normalisation of each image of a `[B, C, H, W]` batch. */
  function NormalizeBatch(img: NDArray<real>): (r: NDArray<real>)
    requires ServerImage(img) && Rank(img) == 4 && (img.inner[0] == 3 || img.inner[0] == 1)
    ensures Shape(r) == [|img.items|, 3, img.inner[1], img.inner[2]] && Wf(r)
  {
    var n := |img.items|;
    Array([3, img.inner[1], img.inner[2]], seq(n, (b: int) requires 0 <= b < n =>
      BatchItemIsRank3(img, b);
      NormalizeChannels(img.items[b])))
  }

  /** The server's ImageNet normalisation, applied to every image of the batch. */
  function ServerNormalize(img: NDArray<real>): (r: Result<NDArray<real>>)
    requires ServerImage(img)
    ensures r.Ok? <==> ChannelDim(img) == 3 || ChannelDim(img) == 1
    ensures r.Err? ==> r.error.kind == RuntimeError
    ensures r.Ok? && Rank(img) == 3 ==> Shape(r.value) == [3, img.inner[0], img.inner[1]]
    ensures r.Ok? && Rank(img) == 4 ==> Shape(r.value) == [|img.items|, 3, img.inner[1], img.inner[2]] && Wf(r.value)
  {
    if ChannelDim(img) != 3 && ChannelDim(img) != 1 then
      Err(BroadcastMismatch(ChannelDim(img), Rank(img) - 3))
    else if Rank(img) == 3 then
      Ok(NormalizeChannels(img))
    else
      Ok(NormalizeBatch(img))
  }

  /** Every image of a `[B, 3, H, W]` batch is normalised channel by channel. */
  lemma ServerNormalizeBatch(img: NDArray<real>, b: nat)
    requires ServerImage(img) && Rank(img) == 4 && img.inner[0] == 3 && b < |img.items|
    ensures ServerNormalize(img).Ok?
    ensures var x, y := img.items[b], ServerNormalize(img).value.items[b];
      && IsCube(x, 3, img.inner[1], img.inner[2]) && IsCube(y, 3, img.inner[1], img.inner[2])
      && forall c, h, w | 0 <= c < 3 && 0 <= h < img.inner[1] && 0 <= w < img.inner[2] ::
           At(y, c, h, w) == (At(x, c, h, w) - ImagenetMean[c]) / ImagenetStd[c]
  {
    BatchItemIsRank3(img, b);
  }

  /** The action handed back: the raw policy output, denormalised when statistics were loaded. */
  function ServerAction(stats: Option<Stats>, raw: NDArray<real>): (r: Result<NDArray<real>>)
    ensures stats.None? ==> r == Ok(raw)
    ensures stats.Some? ==> r == Denormalize(raw, stats.value)
  {
    match stats
    case None => Ok(raw)
    case Some(st) => Denormalize(raw, st)
  }

  /** `_predict(state_np, image_np)`: normalise the image, call the policy on
      the batch, denormalise.  An image that does not broadcast fails before the
      policy is called, so the policy state is then unchanged. */
  function Predict<S>(cfg: ServerConfig, state: NDArray<real>, image: NDArray<real>,
                      policy: (S, Batch) -> (S, Result<NDArray<real>>), s: S): (r: (S, Result<NDArray<real>>))
    requires ServerImage(image)
    ensures ServerNormalize(image).Err? ==> r == (s, Err(ServerNormalize(image).error))
    ensures ServerNormalize(image).Ok? ==>
              var out := policy(s, Batch(state, ServerNormalize(image).value));
              && r.0 == out.0
              && (out.1.Err? ==> r.1 == out.1)
              && (out.1.Ok? ==> r.1 == ServerAction(cfg.stats, out.1.value))
  {
    match ServerNormalize(image)
    case Err(e) => (s, Err(e))
    case Ok(normalized) =>
      var out := policy(s, Batch(state, normalized));
      match out.1
      case Err(e) => (out.0, Err(e))
      case Ok(raw) => (out.0, ServerAction(cfg.stats, raw))
  }

  // ---------------------------------------------------------------------------
  // execute

  /** The named input tensors of one inference request. */
  type Request = map<string, NDArray<real>>

  /** An `InferenceResponse`: its output tensors by name, and its error message if any. */
  datatype Response = Response(outputs: seq<(string, NDArray<real>)>, error: Option<string>)

  /** Images the model can follow through `_predict`. */
  predicate Servable(req: Request) {
    ImageInput in req ==> ServerImage(req[ImageInput])
  }

  /** `str(e)` of the exception raised on a missing input: `get_input_tensor_by_name`
      gives `None`, whose `as_numpy` does not exist. */
  const MissingInputMessage := "'NoneType' object has no attribute 'as_numpy'"

  /** The `try` body of one loop iteration of `execute`, and its `except`. */
  function HandleRequest<S>(cfg: ServerConfig, req: Request,
                            policy: (S, Batch) -> (S, Result<NDArray<real>>), s: S): (r: (S, Response))
    requires Servable(req)
    ensures r.1.error.None? <==> |r.1.outputs| == 1
    ensures r.1.error.None? ==> r.1.outputs[0].0 == ActionOutput
    ensures r.1.error.Some? ==> r.1.outputs == [] && |r.1.error.value| >= |"Inference failed: "| &&
                                r.1.error.value[..|"Inference failed: "|] == "Inference failed: "
  {
    if StateInput !in req || ImageInput !in req then
      (s, Response([], Some("Inference failed: " + MissingInputMessage)))
    else
      var p := Predict(cfg, req[StateInput], req[ImageInput], policy, s);
      match p.1
      case Ok(action) => (p.0, Response([(ActionOutput, action)], None))
      case Err(e) => (p.0, Response([], Some("Inference failed: " + e.message)))
  }

  /** A request that fails before the policy is reached: an input is missing or
      the image does not broadcast against the normalisation constants. */
  predicate RejectedEarly(req: Request)
    requires Servable(req)
  {
    StateInput !in req || ImageInput !in req || ServerNormalize(req[ImageInput]).Err?
  }

  lemma RejectedEarlyKeepsState<S>(cfg: ServerConfig, req: Request,
                                   policy: (S, Batch) -> (S, Result<NDArray<real>>), s: S)
    requires Servable(req) && RejectedEarly(req)
    ensures HandleRequest(cfg, req, policy, s).0 == s
    ensures HandleRequest(cfg, req, policy, s).1.error.Some?
  {
  }

  /** `execute` on a batch, as a function of the policy state before it:
      the policy state after, and the responses. */
  function ExecuteSpec<S>(cfg: ServerConfig, reqs: seq<Request>,
                          policy: (S, Batch) -> (S, Result<NDArray<real>>), s: S): (r: (S, seq<Response>))
    requires forall i | 0 <= i < |reqs| :: Servable(reqs[i])
    ensures |r.1| == |reqs|
  {
    if |reqs| == 0 then (s, [])
    else
      var prev := ExecuteSpec(cfg, reqs[..|reqs| - 1], policy, s);
      var last := HandleRequest(cfg, reqs[|reqs| - 1], policy, prev.0);
      (last.0, prev.1 + [last.1])
  }

  /** Response `i` is the handling of request `i` in the policy state the
      requests before it left behind. */
  lemma {:induction false} ExecuteInOrder<S>(cfg: ServerConfig, reqs: seq<Request>,
                                              policy: (S, Batch) -> (S, Result<NDArray<real>>), s: S, i: nat)
    requires forall k | 0 <= k < |reqs| :: Servable(reqs[k])
    requires i < |reqs|
    ensures ExecuteSpec(cfg, reqs, policy, s).1[i] ==
              HandleRequest(cfg, reqs[i], policy, ExecuteSpec(cfg, reqs[..i], policy, s).0).1
  {
    var n := |reqs|;
    var front := reqs[..n - 1];
    var prev := ExecuteSpec(cfg, front, policy, s);
    var last := HandleRequest(cfg, reqs[n - 1], policy, prev.0);
    assert ExecuteSpec(cfg, reqs, policy, s).1 == prev.1 + [last.1];
    if i < n - 1 {
      ExecuteInOrder(cfg, front, policy, s, i);
      assert front[..i] == reqs[..i];
      assert (prev.1 + [last.1])[i] == prev.1[i];
    } else {
      assert front == reqs[..i];
    }
  }

  /** Running two batches one after the other is running their concatenation. */
  lemma {:induction false} ExecuteAppend<S>(cfg: ServerConfig, p: seq<Request>, q: seq<Request>,
                                             policy: (S, Batch) -> (S, Result<NDArray<real>>), s: S)
    requires forall k | 0 <= k < |p| :: Servable(p[k])
    requires forall k | 0 <= k < |q| :: Servable(q[k])
    ensures forall k | 0 <= k < |p + q| :: Servable((p + q)[k])
    ensures var first := ExecuteSpec(cfg, p, policy, s);
            var second := ExecuteSpec(cfg, q, policy, first.0);
            ExecuteSpec(cfg, p + q, policy, s) == (second.0, first.1 + second.1)
  {
    if |q| > 0 {
      var qf := q[..|q| - 1];
      ExecuteAppend(cfg, p, qf, policy, s);
      assert (p + q)[..|p + q| - 1] == p + qf;
      assert (p + q)[|p + q| - 1] == q[|q| - 1];
      var first := ExecuteSpec(cfg, p, policy, s);
      var mid := ExecuteSpec(cfg, qf, policy, first.0);
      var last := HandleRequest(cfg, q[|q| - 1], policy, mid.0);
      assert ExecuteSpec(cfg, p + q, policy, s) == (last.0, ExecuteSpec(cfg, p + qf, policy, s).1 + [last.1]);
      assert ExecuteSpec(cfg, q, policy, first.0) == (last.0, mid.1 + [last.1]);
      assert first.1 + mid.1 + [last.1] == first.1 + (mid.1 + [last.1]);
    } else {
      assert p + q == p;
      assert ExecuteSpec(cfg, p, policy, s).1 + [] == ExecuteSpec(cfg, p, policy, s).1;
    }
  }

  /** Failure isolation: a request rejected before the policy is reached gets
      its own error response, and the other requests get exactly the responses,
      and leave exactly the policy state, they would without it in the batch. */
  lemma ExecuteIsolatesEarlyFailure<S>(cfg: ServerConfig, reqs: seq<Request>, i: nat,
                                       policy: (S, Batch) -> (S, Result<NDArray<real>>), s: S)
    requires forall k | 0 <= k < |reqs| :: Servable(reqs[k])
    requires i < |reqs| && RejectedEarly(reqs[i])
    ensures var rest := reqs[..i] + reqs[i + 1..];
            var all := ExecuteSpec(cfg, reqs, policy, s);
            var without := ExecuteSpec(cfg, rest, policy, s);
            && all.0 == without.0
            && all.1[i].error.Some?
            && all.1[..i] + all.1[i + 1..] == without.1
  {
    var p, x, q := reqs[..i], reqs[i], reqs[i + 1..];
    assert reqs == p + ([x] + q);
    ExecuteAppend(cfg, [x], q, policy, ExecuteSpec(cfg, p, policy, s).0);
    ExecuteAppend(cfg, p, [x] + q, policy, s);
    ExecuteAppend(cfg, p, q, policy, s);
    var first := ExecuteSpec(cfg, p, policy, s);
    RejectedEarlyKeepsState(cfg, x, policy, first.0);
    assert [x][..0] == [];
    var one := ExecuteSpec(cfg, [x], policy, first.0);
    assert one.0 == first.0;
    var second := ExecuteSpec(cfg, q, policy, first.0);
    var all := ExecuteSpec(cfg, reqs, policy, s);
    assert all.1 == first.1 + (one.1 + second.1);
    assert all.1[..i] == first.1;
    assert all.1[i + 1..] == second.1;
  }

  /** The backend instance: its start-up configuration and the policy's state. */
  class TritonPythonModel<S> {
    const config: ServerConfig
    var policyState: S

    constructor(config: ServerConfig, initial: S)
      ensures this.config == config && policyState == initial
    {
      this.config := config;
      policyState := initial;
    }

    /** `execute(requests)`: one response per request, appended in request order. */
    method Execute(requests: seq<Request>, policy: (S, Batch) -> (S, Result<NDArray<real>>))
      returns (responses: seq<Response>)
      requires forall k | 0 <= k < |requests| :: Servable(requests[k])
      modifies this
      ensures (policyState, responses) == ExecuteSpec(config, requests, policy, old(policyState))
    {
      responses := [];
      var i := 0;
      while i < |requests|
        invariant 0 <= i <= |requests|
        invariant (policyState, responses) == ExecuteSpec(config, requests[..i], policy, old(policyState))
      {
        assert requests[..i + 1][..i] == requests[..i];
        var handled := HandleRequest(config, requests[i], policy, policyState);
        policyState := handled.0;
        responses := responses + [handled.1];
        i := i + 1;
      }
      assert requests[..i] == requests;
    }
  }
}
