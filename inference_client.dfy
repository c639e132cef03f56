/** The observation-to-action client: the factory that picks a backend from a
    mode string, the Triton gRPC client (liveness and readiness checked at
    construction, observation preprocessing, the named-tensor exchange) and the
    local in-process client (device and statistics chosen at construction,
    its own image handling, optional denormalisation, squeezing).

    Client objects are written once, in their constructors, and only read
    afterwards, so they are values here.  The policy network is an oracle
    `(S, Batch) -> (S, raw action)` whose state `S` carries the action queue
    ACT keeps between calls. */
module InferenceClient {
  import opened Outcomes
  import opened Tensors
  import opened Text
  import opened ActPolicy
  import opened TritonWire

  const StateKey := "observation.state"
  const ImageKey := "observation.images.top_cam"

  /** The observation dictionary the callers pass in. */
  type Observation = map<string, NDArray<real>>

  datatype Client =
    | TritonGrpc(url: string, modelName: string, modelVersion: string)
    | Local(checkpointDir: string, device: Device, stats: Option<Stats>)

  /** What construction can observe: environment variables, the server's
      liveness per URL and readiness per (URL, model, version), whether the
      policy weights load from a directory, whether MPS is available, and the
      contents of a checkpoint directory's statistics file when it exists. */
  datatype Host = Host(
    env: map<string, string>,
    serverLive: string -> bool,
    modelReady: (string, string, string) -> bool,
    policyLoads: string -> bool,
    mpsAvailable: bool,
    statsFile: string -> Option<map<string, seq<real>>>)

  const DefaultCheckpoint := "outputs/train/act_pick_place_30k/checkpoints/030000/pretrained_model"

  // ---------------------------------------------------------------------------
  // InferenceClient.create

  /** `mode or os.getenv("INFERENCE_MODE", "local")`. */
  function ResolveMode(mode: Option<string>, env: map<string, string>): (m: string)
    ensures mode.Some? && mode.value != "" ==> m == mode.value
    ensures (mode.None? || mode.value == "") && "INFERENCE_MODE" in env ==> m == env["INFERENCE_MODE"]
    ensures (mode.None? || mode.value == "") && "INFERENCE_MODE" !in env ==> m == "local"
  {
    OrElse(mode, Getenv(env, "INFERENCE_MODE", "local"))
  }

  /** `TritonGRPCClient.__init__`: fails with ConnectionError when the server is
      not live, then with ValueError when the model version is not ready. */
  function ConnectTriton(url: string, modelName: string, modelVersion: string, host: Host): (r: Result<Client>)
    ensures r.Ok? <==> host.serverLive(url) && host.modelReady(url, modelName, modelVersion)
    ensures r.Ok? ==> r.value == TritonGrpc(url, modelName, modelVersion)
    ensures !host.serverLive(url) ==> r.Err? && r.error.kind == ConnectionError
    ensures host.serverLive(url) && !host.modelReady(url, modelName, modelVersion) ==>
              r.Err? && r.error.kind == ValueError
  {
    if !host.serverLive(url) then
      Err(Error(ConnectionError, "Triton server at " + url + " is not live"))
    else if !host.modelReady(url, modelName, modelVersion) then
      Err(Error(ValueError, "Model " + modelName + " version " + modelVersion + " is not ready"))
    else
      Ok(TritonGrpc(url, modelName, modelVersion))
  }

  /** `LocalInferenceClient.__init__`: loads the policy, picks MPS when
      available and CPU otherwise, and loads `action.mean` and `action.std`
      when the statistics file exists, raising KeyError when it lacks either. */
  function LoadLocal(checkpointDir: string, host: Host): (r: Result<Client>)
    ensures !host.policyLoads(checkpointDir) ==> r.Err? && r.error.kind == LoadError
    ensures r.Ok? ==> r.value.Local? && r.value.checkpointDir == checkpointDir
    ensures r.Ok? ==> r.value.device == (if host.mpsAvailable then Mps else Cpu)
    ensures r.Ok? ==> (r.value.stats.Some? <==> host.statsFile(checkpointDir).Some?)
    ensures host.policyLoads(checkpointDir) && LoadStats(host.statsFile(checkpointDir)).Ok? ==> r.Ok?
    ensures var file := host.statsFile(checkpointDir);
      && (r.Ok? && file.Some? ==>
            && "action.mean" in file.value && "action.std" in file.value
            && r.value.stats == Some(Stats(file.value["action.mean"], file.value["action.std"])))
      && (host.policyLoads(checkpointDir) && file.Some? && !("action.mean" in file.value && "action.std" in file.value) ==>
            r.Err? && r.error.kind == KeyError)
  {
    if !host.policyLoads(checkpointDir) then
      Err(Error(LoadError, "cannot load policy from " + checkpointDir))
    else
      match LoadStats(host.statsFile(checkpointDir))
      case Err(e) => Err(e)
      case Ok(stats) => Ok(Local(checkpointDir, if host.mpsAvailable then Mps else Cpu, stats))
  }

  /** The Triton connection settings `create` passes on: each is the explicit
      argument when it is non-empty, else the environment variable when set,
      else the default. */
  function TritonSettings(tritonUrl: Option<string>, modelName: Option<string>, modelVersion: Option<string>,
                          env: map<string, string>): (r: (string, string, string))
    ensures tritonUrl.Some? && tritonUrl.value != "" ==> r.0 == tritonUrl.value
    ensures (tritonUrl.None? || tritonUrl.value == "") && "TRITON_URL" in env ==> r.0 == env["TRITON_URL"]
    ensures (tritonUrl.None? || tritonUrl.value == "") && "TRITON_URL" !in env ==> r.0 == "localhost:8001"
    ensures modelName.Some? && modelName.value != "" ==> r.1 == modelName.value
    ensures (modelName.None? || modelName.value == "") && "MODEL_NAME" in env ==> r.1 == env["MODEL_NAME"]
    ensures (modelName.None? || modelName.value == "") && "MODEL_NAME" !in env ==> r.1 == "act_pick_place"
    ensures modelVersion.Some? && modelVersion.value != "" ==> r.2 == modelVersion.value
    ensures (modelVersion.None? || modelVersion.value == "") && "MODEL_VERSION" in env ==> r.2 == env["MODEL_VERSION"]
    ensures (modelVersion.None? || modelVersion.value == "") && "MODEL_VERSION" !in env ==> r.2 == "1"
  {
    (OrElse(tritonUrl, Getenv(env, "TRITON_URL", "localhost:8001")),
     OrElse(modelName, Getenv(env, "MODEL_NAME", "act_pick_place")),
     OrElse(modelVersion, Getenv(env, "MODEL_VERSION", "1")))
  }

  /** The checkpoint `create` passes on: the argument when given (even ""),
      else `CHECKPOINT_DIR`, else the default training output directory. */
  function LocalCheckpoint(checkpointDir: Option<string>, env: map<string, string>): (r: string)
    ensures checkpointDir.Some? ==> r == checkpointDir.value
    ensures checkpointDir.None? && "CHECKPOINT_DIR" in env ==> r == env["CHECKPOINT_DIR"]
    ensures checkpointDir.None? && "CHECKPOINT_DIR" !in env ==> r == DefaultCheckpoint
  {
    if checkpointDir.None? then Getenv(env, "CHECKPOINT_DIR", DefaultCheckpoint) else checkpointDir.value
  }

  /** `InferenceClient.create`: a Triton client connected with the resolved
      settings, a local client loaded from the resolved checkpoint, or
      ValueError for any other mode. */
  function Create(mode: Option<string>, tritonUrl: Option<string>, modelName: Option<string>,
                  modelVersion: Option<string>, checkpointDir: Option<string>, host: Host): (r: Result<Client>)
    ensures ResolveMode(mode, host.env) !in {"triton", "local"} ==>
              r == Err(Error(ValueError, "Unknown inference mode: " + ResolveMode(mode, host.env) + ". Use 'triton' or 'local'"))
    ensures ResolveMode(mode, host.env) == "triton" ==>
              var t := TritonSettings(tritonUrl, modelName, modelVersion, host.env);
              r == ConnectTriton(t.0, t.1, t.2, host)
    ensures ResolveMode(mode, host.env) == "local" ==> r == LoadLocal(LocalCheckpoint(checkpointDir, host.env), host)
    ensures r.Ok? ==> (r.value.TritonGrpc? <==> ResolveMode(mode, host.env) == "triton")
    ensures r.Ok? ==> (r.value.Local? <==> ResolveMode(mode, host.env) == "local")
  {
    var m := ResolveMode(mode, host.env);
    if m == "triton" then
      var t := TritonSettings(tritonUrl, modelName, modelVersion, host.env);
      ConnectTriton(t.0, t.1, t.2, host)
    else if m == "local" then
      LoadLocal(LocalCheckpoint(checkpointDir, host.env), host)
    else
      Err(Error(ValueError, "Unknown inference mode: " + m + ". Use 'triton' or 'local'"))
  }

  /** In Triton mode `create` succeeds exactly when the server at the resolved
      URL is live and the resolved model version is ready, and then the client
      holds the resolved settings; a dead server gives ConnectionError, a
      model that is not ready ValueError. */
  lemma CreateTritonSettings(mode: Option<string>, tritonUrl: Option<string>, modelName: Option<string>,
                             modelVersion: Option<string>, checkpointDir: Option<string>, host: Host)
    requires ResolveMode(mode, host.env) == "triton"
    ensures var t := TritonSettings(tritonUrl, modelName, modelVersion, host.env);
      var r := Create(mode, tritonUrl, modelName, modelVersion, checkpointDir, host);
      && (r.Ok? <==> host.serverLive(t.0) && host.modelReady(t.0, t.1, t.2))
      && (r.Ok? ==> r.value == TritonGrpc(t.0, t.1, t.2))
      && (!host.serverLive(t.0) ==> r.Err? && r.error.kind == ConnectionError)
      && (host.serverLive(t.0) && !host.modelReady(t.0, t.1, t.2) ==> r.Err? && r.error.kind == ValueError)
  {
  }

  /** In local mode `create` fails with the loader's error when the policy
      does not load from the resolved checkpoint, succeeds when it loads and
      the statistics file (if any) has both keys, and the client then holds
      the resolved checkpoint. */
  lemma CreateLocalCheckpoint(mode: Option<string>, tritonUrl: Option<string>, modelName: Option<string>,
                              modelVersion: Option<string>, checkpointDir: Option<string>, host: Host)
    requires ResolveMode(mode, host.env) == "local"
    ensures var ckpt := LocalCheckpoint(checkpointDir, host.env);
      var r := Create(mode, tritonUrl, modelName, modelVersion, checkpointDir, host);
      && (!host.policyLoads(ckpt) ==> r.Err? && r.error.kind == LoadError)
      && (host.policyLoads(ckpt) && LoadStats(host.statsFile(ckpt)).Ok? ==> r.Ok?)
      && (r.Ok? ==> r.value.Local? && r.value.checkpointDir == ckpt)
  {
  }

  // ---------------------------------------------------------------------------
  // TritonGRPCClient._preprocess_observation

  datatype Layout = ChannelFirst | ChannelLast

  /** The image layout rule: a leading axis of 3 means channel-first (even when
      the last axis is 3 too); otherwise a trailing axis of 3 means channel-last;
      otherwise ValueError.  A shapeless (0-d) image fails on `shape[0]`. */
  function ImageLayout(shape: seq<nat>): (r: Result<Layout>)
    ensures r == Ok(ChannelFirst) <==> |shape| > 0 && shape[0] == 3
    ensures r == Ok(ChannelLast) <==> |shape| > 0 && shape[0] != 3 && shape[|shape| - 1] == 3
    ensures r.Err? <==> |shape| == 0 || (shape[0] != 3 && shape[|shape| - 1] != 3)
  {
    if |shape| == 0 then Err(Error(IndexError, "tuple index out of range"))
    else if shape[0] == 3 then Ok(ChannelFirst)
    else if shape[|shape| - 1] == 3 then Ok(ChannelLast)
    else Err(Error(ValueError, "Expected image in CHW or HWC format, got shape " + TupleText(shape)))
  }

  /** Images whose arithmetic the model defines: rectangular, and not a
      channel-first array of a rank other than 3 (for those, the per-channel
      constants of shape (3, 1, 1) would be broadcast against other axes). */
  ghost predicate SupportedImage(img: NDArray<real>) {
    Wf(img) && !(Rank(img) != 3 && Rank(img) >= 1 && Shape(img)[0] == 3)
  }

  /** The Triton client's image path: layout detection, transposition of a
      channel-last image, `/ 255`, ImageNet normalisation and a batch axis. */
  function PreprocessImage(img: NDArray<real>): (r: Result<NDArray<real>>)
    requires SupportedImage(img)
    ensures r.Ok? <==> IsRank3(img) && (|img.items| == 3 || img.inner[1] == 3)
    ensures r.Ok? && |img.items| == 3 ==> Shape(r.value) == [1, 3, img.inner[0], img.inner[1]]
    ensures r.Ok? && |img.items| != 3 ==> Shape(r.value) == [1, 3, |img.items|, img.inner[0]]
  {
    match ImageLayout(Shape(img))
    case Err(e) => Err(e)
    case Ok(layout) =>
      if Rank(img) != 3 then
        Err(AxesMismatch)
      else if layout == ChannelFirst then
        Ok(NormalizedBatch(img))
      else
        Ok(NormalizedBatch(ChannelsFirst(img)))
  }

  /** `/ 255`, ImageNet normalisation and a batch axis on a channel-first image of three channels. */
  function NormalizedBatch(chw: NDArray<real>): (r: NDArray<real>)
    requires IsRank3(chw) && |chw.items| == 3
    ensures Shape(r) == [1, 3, chw.inner[0], chw.inner[1]] && r.Array? && |r.items| == 1
    ensures IsCube(r.items[0], 3, chw.inner[0], chw.inner[1])
    ensures forall c, h, w | 0 <= c < 3 && 0 <= h < chw.inner[0] && 0 <= w < chw.inner[1] ::
              At(r.items[0], c, h, w) == (At(chw, c, h, w) / 255.0 - ImagenetMean[c]) / ImagenetStd[c]
  {
    AddBatch(ImagenetNormalize(Rescale255(chw)))
  }

  /** A channel-first image: each pixel of channel `c` becomes
      `(x / 255 - mean[c]) / std[c]` in place, under a batch axis of 1. */
  lemma PreprocessChannelFirst(img: NDArray<real>)
    requires IsRank3(img) && |img.items| == 3
    ensures PreprocessImage(img).Ok?
    ensures var t := PreprocessImage(img).value;
      && t.Array? && |t.items| == 1 && IsCube(t.items[0], 3, img.inner[0], img.inner[1])
      && forall c, h, w | 0 <= c < 3 && 0 <= h < img.inner[0] && 0 <= w < img.inner[1] ::
           At(t.items[0], c, h, w) == (At(img, c, h, w) / 255.0 - ImagenetMean[c]) / ImagenetStd[c]
  {
  }

  /** A channel-last image of three channels: pixel `(h, w)` of channel `c`
      comes from `img[h][w][c]`, normalised as above. */
  lemma PreprocessChannelLast(img: NDArray<real>)
    requires IsRank3(img) && |img.items| != 3 && img.inner[1] == 3
    ensures PreprocessImage(img).Ok?
    ensures var t := PreprocessImage(img).value;
      && t.Array? && |t.items| == 1 && IsCube(t.items[0], 3, |img.items|, img.inner[0])
      && forall c, h, w | 0 <= c < 3 && 0 <= h < |img.items| && 0 <= w < img.inner[0] ::
           At(t.items[0], c, h, w) == (At(img, h, w, c) / 255.0 - ImagenetMean[c]) / ImagenetStd[c]
  {
    var chw := ChannelsFirst(img);
    assert PreprocessImage(img) == Ok(NormalizedBatch(chw));
  }

  /** The layout rule gives channel-first precedence: an image whose first and
      last axes are both 3 is read as channel-first, never transposed. */
  lemma LayoutPrecedence(img: NDArray<real>)
    requires IsRank3(img) && |img.items| == 3 && img.inner[1] == 3
    ensures ImageLayout(Shape(img)) == Ok(ChannelFirst)
    ensures PreprocessImage(img) == Ok(AddBatch(ImagenetNormalize(Rescale255(img))))
  {
  }

  /** The same picture given channel-first or channel-last yields the same
      tensor, as long as its height is not 3 (a picture 3 rows high, given
      channel-last, is read as channel-first by `LayoutPrecedence`). */
  lemma {:induction false} LayoutIndependence(chw: NDArray<real>)
    requires IsRank3(chw) && |chw.items| == 3 && chw.inner[0] != 3
    ensures PreprocessImage(ChannelsLast(chw)) == PreprocessImage(chw)
    ensures PreprocessImage(chw).Ok?
  {
    var hwc := ChannelsLast(chw);
    assert Shape(hwc) == [chw.inner[0], chw.inner[1], 3];
    ChannelsFirstOfLast(chw);
  }

  /** `_preprocess_observation`: the state gains a batch axis when it is a
      vector, the image goes through `PreprocessImage`. */
  function PreprocessObservation(obs: Observation): (r: Result<Batch>)
    requires ImageKey in obs ==> SupportedImage(obs[ImageKey])
    ensures StateKey !in obs ==> r.Err? && r.error.kind == KeyError
    ensures r.Ok? ==> StateKey in obs && ImageKey in obs
    ensures r.Ok? ==> r.value.state == AddBatchIfVector(obs[StateKey])
    ensures r.Ok? ==> PreprocessImage(obs[ImageKey]) == Ok(r.value.image)
    ensures StateKey in obs && ImageKey in obs && PreprocessImage(obs[ImageKey]).Ok? ==> r.Ok?
  {
    if StateKey !in obs then Err(Error(KeyError, "'" + StateKey + "'"))
    else
      var state := AddBatchIfVector(obs[StateKey]);
      if ImageKey !in obs then Err(Error(KeyError, "'" + ImageKey + "'"))
      else
        match PreprocessImage(obs[ImageKey])
        case Err(e) => Err(e)
        case Ok(image) => Ok(Batch(state, image))
  }

  // ---------------------------------------------------------------------------
  // TritonGRPCClient.predict

  /** Preprocesses, sends `state__0` and `image__1` to the client's model and
      version, reads `output__0` and strips a batch axis of 1 from a rank-2 action. */
  function TritonPredict(client: Client, obs: Observation, infer: InferRequest -> Reply): (r: Result<NDArray<real>>)
    requires client.TritonGrpc?
    requires ImageKey in obs ==> SupportedImage(obs[ImageKey])
    ensures PreprocessObservation(obs).Err? ==> r == Err(PreprocessObservation(obs).error)
    ensures PreprocessObservation(obs).Ok? ==>
              var b := PreprocessObservation(obs).value;
              var reply := infer(MakeRequest(client.modelName, client.modelVersion, b.state, b.image));
              && (reply.Err? ==> r == Err(reply.error))
              && (reply.Ok? ==> r == ReadAction(reply.value))
  {
    match PreprocessObservation(obs)
    case Err(e) => Err(e)
    case Ok(b) =>
      match infer(MakeRequest(client.modelName, client.modelVersion, b.state, b.image))
      case Err(e) => Err(e)
      case Ok(outputs) => ReadAction(outputs)
  }

  // ---------------------------------------------------------------------------
  // LocalInferenceClient.predict

  /** The local client's layout step: a channel-first image is transposed to
      channel-last, a channel-last one is kept, anything else is rejected. */
  function LocalLayout(img: NDArray<real>): (r: Result<NDArray<real>>)
    requires Wf(img)
    ensures r.Ok? ==> Wf(r.value) && (IsRank3(r.value) <==> IsRank3(img))
    ensures IsRank3(img) ==> (r.Ok? <==> |img.items| == 3 || img.inner[1] == 3)
  {
    if Rank(img) == 0 then Err(Error(IndexError, "tuple index out of range"))
    else if Shape(img)[0] == 3 then
      (if Rank(img) == 3 then Ok(ChannelsLast(img)) else Err(AxesMismatch))
    else if Shape(img)[Rank(img) - 1] == 3 then Ok(img)
    else Err(Error(ValueError, "Unexpected image shape: " + TupleText(Shape(img))))
  }

  const AxesMismatch := Error(ValueError, "axes don't match array")
  const PermuteMismatch := Error(RuntimeError, "permute(sparse_coo): number of dimensions in the tensor input " +
                                               "does not match the length of the desired ordering of dimensions")

  /** The local client's image path: the layout step, then every image is
      permuted to channel-first, scaled by `1 / 255`, ImageNet-normalised and
      given a batch axis. */
  function LocalImage(img: NDArray<real>): (r: Result<NDArray<real>>)
    requires Wf(img)
    ensures r.Ok? <==> IsRank3(img) && (|img.items| == 3 || img.inner[1] == 3)
  {
    var hwc :- LocalLayout(img);
    if !IsRank3(hwc) then Err(PermuteMismatch)
    else Ok(NormalizedBatch(ChannelsFirst(hwc)))
  }

  /** For every rank-3 image the local client builds exactly the tensor the
      Triton client builds: its transpose (1, 2, 0) followed by the permute
      (2, 0, 1) is the identity. */
  lemma {:induction false} LocalImageMatchesTriton(img: NDArray<real>)
    requires IsRank3(img)
    ensures LocalImage(img).Ok? == PreprocessImage(img).Ok?
    ensures LocalImage(img).Ok? ==> LocalImage(img) == PreprocessImage(img)
  {
    if |img.items| == 3 {
      ChannelsFirstOfLast(img);
    }
  }

  /** The batch the local client hands to the policy: the state always gains a
      batch axis (`unsqueeze(0)`), whatever its rank. */
  function LocalBatch(obs: Observation): (r: Result<Batch>)
    requires ImageKey in obs ==> Wf(obs[ImageKey])
    ensures StateKey !in obs ==> r.Err? && r.error.kind == KeyError
    ensures r.Ok? ==> StateKey in obs && ImageKey in obs && r.value.state == AddBatch(obs[StateKey])
    ensures r.Ok? ==> LocalImage(obs[ImageKey]) == Ok(r.value.image)
  {
    if StateKey !in obs then Err(Error(KeyError, "'" + StateKey + "'"))
    else if ImageKey !in obs then Err(Error(KeyError, "'" + ImageKey + "'"))
    else
      match LocalImage(obs[ImageKey])
      case Err(e) => Err(e)
      case Ok(image) => Ok(Batch(AddBatch(obs[StateKey]), image))
  }

  /** The two clients build the same policy input for a vector state and a rank-3 image. */
  lemma LocalBatchMatchesTriton(obs: Observation)
    requires StateKey in obs && ImageKey in obs
    requires Rank(obs[StateKey]) == 1 && IsRank3(obs[ImageKey])
    ensures LocalBatch(obs).Ok? == PreprocessObservation(obs).Ok?
    ensures LocalBatch(obs).Ok? ==> LocalBatch(obs) == PreprocessObservation(obs)
  {
    LocalImageMatchesTriton(obs[ImageKey]);
  }

  /** Denormalises the raw policy output when statistics were loaded, then squeezes the leading axis. */
  function LocalAction(stats: Option<Stats>, raw: NDArray<real>): (r: Result<NDArray<real>>)
    ensures stats.None? ==> r == Ok(Squeeze0(raw))
    ensures stats.Some? ==> (r.Ok? <==> Broadcasts(raw, stats.value))
    ensures stats.Some? && r.Ok? ==> r.value == Squeeze0(Denormalize(raw, stats.value).value)
  {
    match stats
    case None => Ok(Squeeze0(raw))
    case Some(st) =>
      match Denormalize(raw, st)
      case Err(e) => Err(e)
      case Ok(a) => Ok(Squeeze0(a))
  }

  /** `LocalInferenceClient.predict`: returns the policy's next state and the action. */
  function LocalPredict<S>(client: Client, obs: Observation, policy: (S, Batch) -> (S, NDArray<real>), s: S): (r: (S, Result<NDArray<real>>))
    requires client.Local?
    requires ImageKey in obs ==> Wf(obs[ImageKey])
    ensures LocalBatch(obs).Err? ==> r == (s, Err(LocalBatch(obs).error))
    ensures LocalBatch(obs).Ok? ==>
              var out := policy(s, LocalBatch(obs).value);
              r == (out.0, LocalAction(client.stats, out.1))
  {
    match LocalBatch(obs)
    case Err(e) => (s, Err(e))
    case Ok(batch) =>
      var out := policy(s, batch);
      (out.0, LocalAction(client.stats, out.1))
  }

  /** With statistics loaded, re-standardising the local client's action and
      restoring its batch axis gives back the policy's raw output. */
  lemma LocalActionDenormalizes(stats: Stats, raw: NDArray<real>)
    requires Wf(raw) && SameWidth(raw, stats) && Rank(raw) == 2 && Shape(raw)[0] == 1
    requires forall k | 0 <= k < |stats.std| :: stats.std[k] != 0.0
    ensures LocalAction(Some(stats), raw).Ok?
    ensures AddBatch(Standardize(LocalAction(Some(stats), raw).value, stats)) == raw
  {
    var d := Denormalize(raw, stats).value;
    DenormalizeRoundTrip(raw, stats);
    assert Rank(d) == 2 && Shape(d)[0] == 1;
    var sq := Squeeze0(d);
    assert AddBatch(sq) == d;
    assert d.items == [sq];
    assert Standardize(d, stats) == raw;
    assert Standardize(d, stats).items == [Standardize(sq, stats)];
  }
}
