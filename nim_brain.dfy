/** The ROS 2 "brain" node: on every joint-state message it builds a Triton
    request from the joint positions and a placeholder image, strips the batch
    axis from the returned action, and publishes it as a flat list of floats.

    The Triton client, the liveness probe and the `infer` call are oracles;
    the publisher is the sequence of messages published so far and the logger
    the sequence of lines logged. */
module NimBrain {
  import opened Outcomes
  import opened Tensors
  import opened Text
  import opened TritonWire

  /** The module-level settings read from the environment at import time. */
  datatype NimSettings = NimSettings(url: string, modelName: string, modelVersion: string)

  function ReadSettings(env: map<string, string>): (r: NimSettings)
    ensures r.url == Getenv(env, "TRITON_URL", "triton:8001")
    ensures r.modelName == Getenv(env, "MODEL_NAME", "act_pick_place")
    ensures r.modelVersion == Getenv(env, "MODEL_VERSION", "1")
  {
    NimSettings(
      Getenv(env, "TRITON_URL", "triton:8001"),
      Getenv(env, "MODEL_NAME", "act_pick_place"),
      Getenv(env, "MODEL_VERSION", "1"))
  }

  /** An environment that sets none of the variables gives the in-cluster defaults. */
  lemma DefaultSettings(env: map<string, string>)
    requires "TRITON_URL" !in env && "MODEL_NAME" !in env && "MODEL_VERSION" !in env
    ensures ReadSettings(env) == NimSettings("triton:8001", "act_pick_place", "1")
  {
  }

  // ---------------------------------------------------------------------------
  // preprocess

  const ImageHeight := 480
  const ImageWidth := 640

  /** The all-zero placeholder image of shape `(1, 3, 480, 640)`. */
  function DummyImage(): (r: NDArray<real>)
    ensures Shape(r) == [1, 3, ImageHeight, ImageWidth] && Wf(r)
    ensures r.Array? && |r.items| == 1 && IsCube(r.items[0], 3, ImageHeight, ImageWidth)
    ensures forall c, h, w | 0 <= c < 3 && 0 <= h < ImageHeight && 0 <= w < ImageWidth :: At(r.items[0], c, h, w) == 0.0
  {
    AddBatch(Cube(3, ImageHeight, ImageWidth,
      (c: nat, h: nat, w: nat) requires c < 3 && h < ImageHeight && w < ImageWidth => 0.0))
  }

  /** `preprocess(state)`: a rank-1 state gains a batch axis, any other rank is
      passed on unchanged; the image is always the placeholder. */
  function Preprocess(state: NDArray<real>): (r: (NDArray<real>, NDArray<real>))
    ensures Rank(state) == 1 ==> Shape(r.0) == [1] + Shape(state) && r.0.items == [state]
    ensures Rank(state) != 1 ==> r.0 == state
    ensures r.1 == DummyImage()
  {
    (AddBatchIfVector(state), DummyImage())
  }

  // ---------------------------------------------------------------------------
  // One message: request, reply, published list

  /** Assigning `action.tolist()` to `Float32MultiArray.data` succeeds only for a
      flat list; for a scalar or a nested list the message field's setter
      fails its `assert`. */
  function CommandData(action: NDArray<real>): (r: Result<seq<real>>)
    ensures r.Ok? <==> IsRank1(action)
    ensures r.Ok? ==> |r.value| == |action.items| && forall i | 0 <= i < |r.value| :: r.value[i] == At1(action, i)
  {
    if IsRank1(action) then Ok(ToList(action))
    else Err(Error(AssertionError, "The 'data' field must be a set or sequence and each value of type 'float'"))
  }

  /** The request sent for a message whose joint positions are `position`. */
  function RequestFor(settings: NimSettings, position: seq<real>): (r: InferRequest)
    ensures r.modelName == settings.modelName && r.modelVersion == settings.modelVersion
    ensures |r.inputs| == 2 && r.inputs[0].data.Array?
    ensures r.inputs[0].shape == [1, |position|] && r.inputs[1].shape == [1, 3, ImageHeight, ImageWidth]
    ensures r.inputs[0].data.items == [FromList(position)] && r.inputs[1].data == DummyImage()
  {
    var p := Preprocess(FromList(position));
    MakeRequest(settings.modelName, settings.modelVersion, p.0, p.1)
  }

  /** The `try` body of `listener_callback`: the data that would be published,
      or the exception it raised. */
  function Infer(settings: NimSettings, position: seq<real>, infer: InferRequest -> Reply): (r: Result<seq<real>>)
    ensures infer(RequestFor(settings, position)).Err? ==> r == Err(infer(RequestFor(settings, position)).error)
    ensures infer(RequestFor(settings, position)).Ok? ==>
              var outputs := infer(RequestFor(settings, position)).value;
              && (ActionOutput !in outputs ==> r.Err?)
              && (ActionOutput in outputs ==> r == CommandData(StripBatch(outputs[ActionOutput])))
  {
    match infer(RequestFor(settings, position))
    case Err(e) => Err(e)
    case Ok(outputs) =>
      match ReadAction(outputs)
      case Err(e) => Err(e)
      case Ok(action) => CommandData(action)
  }

  /** An action returned as `(1, n)` is published as its single row, and one
      returned as `(n,)` as it is. */
  lemma {:induction false} PublishedRow(settings: NimSettings, position: seq<real>, infer: InferRequest -> Reply, row: seq<real>)
    requires infer(RequestFor(settings, position)).Ok?
    requires var outputs := infer(RequestFor(settings, position)).value;
      ActionOutput in outputs && (outputs[ActionOutput] == AddBatch(FromList(row)) || outputs[ActionOutput] == FromList(row))
    ensures Infer(settings, position, infer) == Ok(row)
  {
    var a := FromList(row);
    assert StripBatch(AddBatch(a)) == a;
    assert StripBatch(a) == a;
    assert ToList(a) == row;
  }

  // ---------------------------------------------------------------------------
  // The node

  datatype LogLevel = InfoLevel | WarnLevel | ErrorLevel
  datatype LogLine = LogLine(level: LogLevel, text: string)

  /** The lines `connect_to_triton` logs: the creation error, or, once the
      client exists, the not-live warning or the liveness probe's error. */
  function ConnectLines(url: string, createError: Option<Error>, live: Result<bool>): seq<LogLine> {
    if createError.Some? then [LogLine(ErrorLevel, "Failed to create Triton client: " + createError.value.message)]
    else
      match live
      case Ok(isLive) => if isLive then [] else [LogLine(WarnLevel, "Triton server at " + url + " is not live yet.")]
      case Err(e) => [LogLine(ErrorLevel, "Failed to create Triton client: " + e.message)]
  }

  /** A created `InferenceServerClient` for a URL. */
  datatype TritonHandle = TritonHandle(url: string)

  class NimBrainNode {
    const settings: NimSettings
    var tritonClient: Option<TritonHandle>
    var published: seq<seq<real>>
    var log: seq<LogLine>

    /** `__init__`: no client, one connection attempt, then the ready line. */
    constructor(env: map<string, string>, createError: Option<Error>, live: Result<bool>)
      ensures settings == ReadSettings(env) && published == []
      ensures tritonClient == (if createError.None? then Some(TritonHandle(settings.url)) else None)
      ensures |log| >= 1 && log[|log| - 1] == LogLine(InfoLevel, "NIM Brain Node Initialized. Ready for inference.")
      ensures log == ConnectLines(settings.url, createError, live) + [LogLine(InfoLevel, "NIM Brain Node Initialized. Ready for inference.")]
    {
      settings := ReadSettings(env);
      tritonClient := None;
      published := [];
      log := [];
      new;
      ConnectToTriton(createError, live);
      log := log + [LogLine(InfoLevel, "NIM Brain Node Initialized. Ready for inference.")];
    }

    /** `connect_to_triton`: the client is kept once created, even when the
        server is not live (a warning) or the probe raises (an error line); a
        client whose creation raised leaves the previous value in place. */
    method ConnectToTriton(createError: Option<Error>, live: Result<bool>)
      modifies this
      ensures published == old(published)
      ensures createError.Some? ==>
                tritonClient == old(tritonClient) &&
                log == old(log) + [LogLine(ErrorLevel, "Failed to create Triton client: " + createError.value.message)]
      ensures createError.None? ==> tritonClient == Some(TritonHandle(settings.url))
      ensures createError.None? && live == Ok(true) ==> log == old(log)
      ensures createError.None? && live == Ok(false) ==>
                log == old(log) + [LogLine(WarnLevel, "Triton server at " + settings.url + " is not live yet.")]
      ensures createError.None? && live.Err? ==>
                log == old(log) + [LogLine(ErrorLevel, "Failed to create Triton client: " + live.error.message)]
      ensures log == old(log) + ConnectLines(settings.url, createError, live)
    {
      if createError.Some? {
        log := log + [LogLine(ErrorLevel, "Failed to create Triton client: " + createError.value.message)];
        return;
      }
      tritonClient := Some(TritonHandle(settings.url));
      match live
      case Ok(isLive) =>
        if !isLive {
          log := log + [LogLine(WarnLevel, "Triton server at " + settings.url + " is not live yet.")];
        }
      case Err(e) =>
        log := log + [LogLine(ErrorLevel, "Failed to create Triton client: " + e.message)];
    }

    /** `listener_callback(msg)`: reconnects once when there is no client and
        gives up on the message if there still is none; otherwise publishes the
        inferred command, or logs the failure and publishes nothing. */
    method ListenerCallback(position: seq<real>, createError: Option<Error>, live: Result<bool>,
                            infer: InferRequest -> Reply)
      modifies this
      ensures var connected := if old(tritonClient).None? then old(log) + ConnectLines(settings.url, createError, live) else old(log);
        && (old(tritonClient).None? && createError.Some? ==>
              tritonClient == None && published == old(published) && log == connected)
        && (old(tritonClient).Some? ==> tritonClient == old(tritonClient))
        && (old(tritonClient).None? && createError.None? ==> tritonClient == Some(TritonHandle(settings.url)))
        && (old(tritonClient).Some? || createError.None? ==>
              match Infer(settings, position, infer)
              case Ok(data) => published == old(published) + [data] && log == connected
              case Err(e) => published == old(published) &&
                             log == connected + [LogLine(ErrorLevel, "Inference failed: " + e.message)])
    {
      if tritonClient.None? {
        ConnectToTriton(createError, live);
        if tritonClient.None? {
          return;
        }
      }
      match Infer(settings, position, infer)
      case Ok(data) =>
        published := published + [data];
      case Err(e) =>
        log := log + [LogLine(ErrorLevel, "Inference failed: " + e.message)];
    }
  }
}
