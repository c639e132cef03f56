/** The Triton gRPC exchange as the clients use it: two named input tensors,
    one requested output, and the action read back from the reply.  The
    transport itself is an oracle `InferRequest -> Reply`. */
module TritonWire {
  import opened Outcomes
  import opened Tensors

  const StateInput := "state__0"
  const ImageInput := "image__1"
  const ActionOutput := "output__0"

  /** `InferInput(name, tensor.shape, dtype)` filled by `set_data_from_numpy(tensor)`. */
  datatype InferInput = InferInput(name: string, shape: seq<nat>, data: NDArray<real>)

  /** The arguments of `client.infer(model_name=…, model_version=…, inputs=…, outputs=…)`. */
  datatype InferRequest = InferRequest(
    modelName: string, modelVersion: string, inputs: seq<InferInput>, outputs: seq<string>)

  /** What `client.infer` gives back: the returned tensors by name, or the exception it raised. */
  type Reply = Result<map<string, NDArray<real>>>

  /** The request both clients send: the state as `state__0`, the image as
      `image__1`, each with its own shape, and `output__0` requested. */
  function MakeRequest(modelName: string, modelVersion: string, state: NDArray<real>, image: NDArray<real>): (r: InferRequest)
    ensures r.modelName == modelName && r.modelVersion == modelVersion
    ensures |r.inputs| == 2 && r.outputs == [ActionOutput]
    ensures r.inputs[0].name == StateInput && r.inputs[0].data == state && r.inputs[0].shape == Shape(state)
    ensures r.inputs[1].name == ImageInput && r.inputs[1].data == image && r.inputs[1].shape == Shape(image)
  {
    InferRequest(modelName, modelVersion,
      [InferInput(StateInput, Shape(state), state), InferInput(ImageInput, Shape(image), image)],
      [ActionOutput])
  }

  /** `response.as_numpy("output__0")` with a batch axis of size 1 stripped from a
      rank-2 result; a reply without that tensor gives `None`, whose `.ndim` raises. */
  function ReadAction(outputs: map<string, NDArray<real>>): (r: Result<NDArray<real>>)
    ensures ActionOutput !in outputs ==> r.Err? && r.error.kind == AttributeError
    ensures ActionOutput in outputs ==> r == Ok(StripBatch(outputs[ActionOutput]))
  {
    if ActionOutput in outputs then Ok(StripBatch(outputs[ActionOutput]))
    else Err(Error(AttributeError, "'NoneType' object has no attribute 'ndim'"))
  }
}
