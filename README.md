# ACT pick-and-place pipeline: a Dafny model

This project models the deterministic bookkeeping around an ACT
(Action Chunking Transformer) pick-and-place policy for a Trossen arm in
MuJoCo, and proves properties of it:

- the observation-to-action client (`InferenceClient`): the factory that
  picks the Triton gRPC or the local backend, the Triton client's checks at
  construction, its observation preprocessing (state batching, CHW/HWC
  layout rule, `/ 255`, ImageNet normalisation), the named-tensor exchange,
  and the local client's own image path, denormalisation and squeeze;
- the Triton Python backend (`ServingModel`): device and statistics
  selection at start-up, `_predict`, and `execute`, which answers every
  request of a batch in order and isolates failures;
- the ROS 2 brain node (`NimBrain`): settings, the placeholder image, the
  reconnect-once callback and what it publishes;
- the Gymnasium wrapper (`GymEnv`): observation formatting, `reset`,
  `step`, `render`, `close`;
- the evaluation loop (`EvalPolicy`), the dataset playback inspection
  (`DatasetPlayback`) and the joint qpos-address listing (`JointLayout`);
- the HDF5-to-parquet converter (`Hdf5ToParquet`) and the demonstration
  recorder (`RecordSim`), including the observation / next-joint-position
  pairing loop, and a lemma connecting the two: a recorded episode converts
  to one parquet row per recorded pair.

The neural network, the simulators, the scripted expert, the Triton and ROS
transports and file readers are oracles: function-typed parameters over
abstract states (the policy's action queue, the simulator's physics), or
maps from names to stored data. Numbers are exact `real`s; arrays are
`Tensors.NDArray`, a scalar or a node that records the shape of its items.
Python exceptions are values of `Outcomes.Result`; each models the
exception class the code raises and, where the code builds it, its text.

Shared modules: `Outcomes` (Option, Result, exception kinds), `Tensors`
(shapes, axis moves, batch axes, broadcasting along the last axis), `Text` (`str` / `int()` / `os.path`
operations and environment lookups), `Sorting` (the library sort),
`ActPolicy` (ImageNet constants, action statistics, the policy batch),
`TritonWire` (the request and reply of a Triton inference call),
`Seeding` (the seed ranges numpy and gymnasium accept).

## Model

| member | source | states |
|---|---|---|
| Tensors.ChannelsFirst | trossen_arm_mujoco/gym_env.py:82 | the result is the cube of shape (C, H, W) with `out[c][h][w] == img[h][w][c]` |
| Tensors.ChannelsLast | trossen_arm_mujoco/inference_client.py:295 | the result has shape (H, W, C) with `out[h][w][c] == img[c][h][w]` |
| Tensors.ChannelsFirstOfLast | trossen_arm_mujoco/inference_client.py:293-304 | transposing (1, 2, 0) and then permuting (2, 0, 1) gives back every rank-3 image |
| Tensors.ChannelsLastOfFirst | trossen_arm_mujoco/gym_env.py:80-82 | moving the channel axis first and then last again gives back the frame |
| Tensors.AddBatchIfVector | trossen_arm_mujoco/inference_client.py:132-134 | a rank-1 array gains a leading axis of size 1 holding it unchanged; any other rank is returned as it is |
| Tensors.AddBatch | trossen_arm_mujoco/inference_client.py:315 | `unsqueeze(0)`: the shape gains a leading 1 and a well-formed array stays well formed |
| Tensors.StripBatch | trossen_arm_mujoco/inference_client.py:213-215 | a rank-2 array with leading size 1 loses that axis (adding it back restores the input); anything else is unchanged |
| Tensors.Squeeze0 | trossen_arm_mujoco/inference_client.py:331-332 | a leading axis of size 1 is dropped (adding it back restores the input); otherwise a no-op |
| Tensors.StripBatchOfVector | trossen_arm_mujoco/inference_client.py:213-215 | stripping undoes the batch axis the client added to a vector |
| Tensors.Squeeze0OfAddBatch | trossen_arm_mujoco/inference_client.py:315 | `squeeze(0)` undoes `unsqueeze(0)` for every array |
| Tensors.FromList | nim_wrapper/main.py:84 | a rank-1 array of the list's length whose element i is the list's element i |
| Tensors.ToList | nim_wrapper/main.py:115 | the list of a vector's elements, in order |
| Tensors.ToListFromList | nim_wrapper/main.py:84-115 | listing an array built from a list gives back the list |
| Tensors.MapLast | trossen_arm_mujoco/inference_client.py:329 | an elementwise map along the last axis keeps the shape; on a vector element k becomes f(k, x) |
| Tensors.MapLastInverse | trossen_arm_mujoco/inference_client.py:328-329 | when g undoes f at every index, mapping by f and then g is the identity |
| Tensors.CubeExtensional | trossen_arm_mujoco/inference_client.py:293-304 | two cubes of one shape with equal elements are equal |
| ActPolicy.Rescale255 | trossen_arm_mujoco/inference_client.py:150 | same shape, every element divided by 255 |
| ActPolicy.ImagenetNormalize | trossen_arm_mujoco/inference_client.py:152-155 | same shape, channel c mapped by `(x - mean[c]) / std[c]` with the ImageNet constants |
| ActPolicy.LoadStats | trossen_arm_mujoco/inference_client.py:256-266 | no file gives no statistics; a file with both keys gives its mean and std; a file missing a key raises KeyError |
| ActPolicy.Denormalize | trossen_arm_mujoco/inference_client.py:328-329 | succeeds exactly when the action's last axis, `std` and `mean` broadcast (a RuntimeError otherwise); the last axis becomes the broadcast size, the other axes are kept, a 0-d action becomes a vector; with matching widths the shape is unchanged |
| ActPolicy.BroadcastDim | trossen_arm_mujoco/inference_client.py:329 | two axis sizes broadcast iff they are equal or one is 1, and the result is the size that is not 1 |
| ActPolicy.DenormalizeEntries | trossen_arm_mujoco/inference_client.py:329 | a denormalised rectangular action is rectangular; on a vector, entry k is the action's entry k (or its only entry) times `std[k]` plus `mean[k]` (or their only entries) |
| ActPolicy.AffineInverse | model_repository/act_pick_place/1/model.py:172-173 | `(x * std[k] + mean[k] - mean[k]) / std[k] == x` for a non-zero `std[k]` |
| Tensors.BroadcastLast | trossen_arm_mujoco/inference_client.py:329 | the last axis is replaced by one of the broadcast size, the other axes kept |
| Tensors.BroadcastLastWf | trossen_arm_mujoco/inference_client.py:329 | broadcasting a last axis of size 1 or d to d keeps an array rectangular |
| Tensors.BroadcastLastVector | trossen_arm_mujoco/inference_client.py:329 | on a vector of 1 or d entries, entry k is f applied at k to entry k, or to the only entry |
| Tensors.BroadcastLastSameWidth | model_repository/act_pick_place/1/model.py:172-173 | broadcasting a last axis to its own size is the elementwise map |
| ActPolicy.DenormalizeRoundTrip | model_repository/act_pick_place/1/model.py:172-173 | when the widths match and no `std` entry is 0, denormalising succeeds and re-standardising gives back the raw output exactly |
| TritonWire.MakeRequest | trossen_arm_mujoco/inference_client.py:179-208 | two inputs named `state__0` and `image__1` carrying the state and image with their own shapes, `output__0` requested, the client's model and version |
| TritonWire.ReadAction | trossen_arm_mujoco/inference_client.py:210-217 | a reply holding `output__0` gives that tensor with a rank-2 batch axis of 1 stripped; a reply without it raises AttributeError |
| Text.Getenv | trossen_arm_mujoco/inference_client.py:63-65 | a set variable's value (even ""), else the default |
| Text.OrElse | trossen_arm_mujoco/inference_client.py:60 | Python's `arg or fallback`: a non-empty argument, else the fallback |
| Text.Split | trossen_arm_mujoco/scripts/record_sim_episodes.py:78 | at least one piece, no piece contains the separator |
| Text.JoinSplit | trossen_arm_mujoco/scripts/record_sim_episodes.py:78 | joining the pieces of a split on the separator gives back the string |
| Text.SplitJoin | trossen_arm_mujoco/scripts/record_sim_episodes.py:78 | splitting a join of separator-free pieces gives back the pieces |
| Text.Replace | trossen_arm_mujoco/scripts/convert_hdf5_to_parquet.py:17 | `str.replace` scanning left to right; replacing by "" never lengthens the text |
| Text.ReplaceAvoids | trossen_arm_mujoco/scripts/convert_hdf5_to_parquet.py:17 | a character absent from the text and the replacement is absent from the result |
| Text.ReplaceAbsent | trossen_arm_mujoco/scripts/convert_hdf5_to_parquet.py:17 | text without the pattern's first character is left unchanged |
| Text.ReplaceSuffix | trossen_arm_mujoco/scripts/convert_hdf5_to_parquet.py:104 | a trailing occurrence after text free of the pattern's first character is the one replaced |
| Text.ReplacePrefix | trossen_arm_mujoco/scripts/convert_hdf5_to_parquet.py:17 | a leading occurrence is replaced and the scan resumes after it |
| Text.NatTextValue | trossen_arm_mujoco/scripts/convert_hdf5_to_parquet.py:76 | reading back the decimal text of n gives n |
| Text.NatText | trossen_arm_mujoco/scripts/record_sim_episodes.py:245 | `str(n)` of a natural number: at least one character, all decimal digits |
| Text.ZeroPadded | trossen_arm_mujoco/scripts/convert_hdf5_to_parquet.py:63 | all digits, of length max(width, number of digits) |
| Text.ZeroPaddedValue | trossen_arm_mujoco/scripts/convert_hdf5_to_parquet.py:63 | the padded text still denotes n |
| Text.ParseInt | trossen_arm_mujoco/scripts/convert_hdf5_to_parquet.py:76 | a non-empty run of digits parses to its value; empty text raises ValueError |
| Text.IntText | trossen_arm_mujoco/scripts/record_sim_episodes.py:245 | `str(n)`: the digits of n, with a minus sign when negative, never a `/` |
| Text.IntTextParses | trossen_arm_mujoco/scripts/convert_hdf5_to_parquet.py:76 | `int(str(n)) == n` for every integer |
| Text.Basename | trossen_arm_mujoco/scripts/convert_hdf5_to_parquet.py:16 | a separator-free suffix of the path |
| Text.BasenameMaximal | trossen_arm_mujoco/scripts/convert_hdf5_to_parquet.py:16 | the base name is the whole path or follows a `/`, so it is the longest separator-free suffix |
| Text.BasenameOfJoin | trossen_arm_mujoco/scripts/convert_hdf5_to_parquet.py:16 | `basename(join(dir, name)) == name` for a separator-free name |
| Text.LexLeTotal | trossen_arm_mujoco/scripts/convert_hdf5_to_parquet.py:94 | Python string order is total |
| Text.LexLeTransitive | trossen_arm_mujoco/scripts/convert_hdf5_to_parquet.py:94 | Python string order is transitive |
| Text.LexLeAntisymmetric | trossen_arm_mujoco/scripts/convert_hdf5_to_parquet.py:94 | Python string order is antisymmetric |
| Sorting.Sort | scripts/inspect_dataset_playback.py:27 | the result is a permutation of the input |
| Sorting.SortSorted | trossen_arm_mujoco/scripts/convert_hdf5_to_parquet.py:94 | under a total preorder the result is sorted and a permutation of the input |
| InferenceClient.ResolveMode | trossen_arm_mujoco/inference_client.py:60 | the mode is the non-empty argument, else `INFERENCE_MODE` when set, else `"local"` |
| InferenceClient.ConnectTriton | trossen_arm_mujoco/inference_client.py:103-118 | succeeds iff the server is live and the model version ready; not live raises ConnectionError, not ready raises ValueError |
| InferenceClient.LoadLocal | trossen_arm_mujoco/inference_client.py:243-266 | a policy that does not load fails; otherwise the device is MPS when available, else CPU; without a statistics file there are no statistics, a file lacking `action.mean` or `action.std` raises KeyError, and otherwise the statistics are the file's two entries |
| InferenceClient.Create | trossen_arm_mujoco/inference_client.py:60-80 | `"triton"` is the Triton connection made with the resolved settings, `"local"` the local load from the resolved checkpoint, any other mode ValueError with the code's message; the client kind matches the mode |
| InferenceClient.TritonSettings | trossen_arm_mujoco/inference_client.py:63-65 | each of URL, model name and version is the non-empty argument, else its environment variable, else `localhost:8001` / `act_pick_place` / `"1"` |
| InferenceClient.LocalCheckpoint | trossen_arm_mujoco/inference_client.py:73-77 | the argument when given (even ""), else `CHECKPOINT_DIR`, else the default directory |
| InferenceClient.CreateTritonSettings | trossen_arm_mujoco/inference_client.py:62-71 | in Triton mode `create` succeeds iff the server at the resolved URL is live and the resolved model ready, holding the resolved settings; a dead server raises ConnectionError, a model not ready ValueError |
| InferenceClient.CreateLocalCheckpoint | trossen_arm_mujoco/inference_client.py:72-78 | in local mode a policy that does not load from the resolved checkpoint fails with the load error; one that loads with usable statistics succeeds, holding the resolved checkpoint |
| InferenceClient.ImageLayout | trossen_arm_mujoco/inference_client.py:140-147 | CHW iff the first axis is 3; HWC iff the first is not 3 and the last is; error otherwise (both directions) |
| InferenceClient.PreprocessImage | trossen_arm_mujoco/inference_client.py:137-159 | succeeds exactly for rank-3 images with 3 first or last; the result has shape (1, 3, H, W) |
| InferenceClient.NormalizedBatch | trossen_arm_mujoco/inference_client.py:149-159 | shape (1, 3, H, W) with pixel (c, h, w) equal to `(x / 255 - mean[c]) / std[c]` |
| InferenceClient.PreprocessChannelFirst | trossen_arm_mujoco/inference_client.py:140-159 | a CHW image is normalised in place under a batch axis |
| InferenceClient.PreprocessChannelLast | trossen_arm_mujoco/inference_client.py:143-159 | an HWC image's pixel (h, w, c) becomes channel c at (h, w), normalised |
| InferenceClient.LayoutPrecedence | trossen_arm_mujoco/inference_client.py:140-145 | an image whose first and last axes are both 3 is read as CHW and never transposed |
| InferenceClient.LayoutIndependence | trossen_arm_mujoco/inference_client.py:140-159 | the same picture given as CHW or HWC (height not 3) yields the same tensor |
| InferenceClient.PreprocessObservation | trossen_arm_mujoco/inference_client.py:131-164 | a missing state raises KeyError; on success the state is batched if a vector and the image is the preprocessed image |
| InferenceClient.TritonPredict | trossen_arm_mujoco/inference_client.py:176-217 | preprocessing errors propagate; otherwise the request built from the batch is sent and the reply's `output__0` is read, transport errors propagating |
| InferenceClient.LocalLayout | trossen_arm_mujoco/inference_client.py:292-300 | on a rank-3 image succeeds iff the first or last axis is 3, and keeps the rank |
| InferenceClient.LocalImage | trossen_arm_mujoco/inference_client.py:292-315 | succeeds exactly for rank-3 images with 3 first or last |
| InferenceClient.LocalImageMatchesTriton | trossen_arm_mujoco/inference_client.py:293-315 | for every rank-3 image the local client accepts the same images and builds the same tensor as the Triton client |
| InferenceClient.LocalBatch | trossen_arm_mujoco/inference_client.py:280-321 | a missing state raises KeyError; the state always gains a batch axis; the image is the local image path's result |
| InferenceClient.LocalBatchMatchesTriton | trossen_arm_mujoco/inference_client.py:280-321 | for a vector state and a rank-3 image both clients build the same policy input |
| InferenceClient.LocalAction | trossen_arm_mujoco/inference_client.py:327-332 | without statistics the raw output squeezed; with them, succeeds iff the output broadcasts against the statistics, and is then the denormalised output squeezed |
| InferenceClient.LocalPredict | trossen_arm_mujoco/inference_client.py:280-334 | batch errors leave the policy state unchanged; otherwise the policy is called once and its output post-processed |
| InferenceClient.LocalActionDenormalizes | trossen_arm_mujoco/inference_client.py:328-332 | re-standardising the local action and restoring its batch axis gives back the policy's raw output |
| ServingModel.ServerDevice | model_repository/act_pick_place/1/model.py:59-68 | `cuda:0` iff CUDA is available, CPU otherwise, never MPS |
| ServingModel.Initialize | model_repository/act_pick_place/1/model.py:45-83 | checkpoint from `CHECKPOINT_DIR` or the default, the statistics file joined to it as a path; load failure raises; without a statistics file in the checkpoint there are no statistics, a file lacking `action.mean` or `action.std` raises KeyError, and otherwise the statistics are the file's two entries |
| ServingModel.InitializeDefaultCheckpoint | model_repository/act_pick_place/1/model.py:47-50 | without `CHECKPOINT_DIR` the fixed default directory is used |
| ServingModel.NormalizeChannels | model_repository/act_pick_place/1/model.py:155 | shape (3, H, W), channel c mapped by `(x - mean[c]) / std[c]`, a single channel broadcast to three |
| ServingModel.BroadcastMismatch | model_repository/act_pick_place/1/model.py:155 | a shape mismatch is a RuntimeError |
| ServingModel.NormalizeBatch | model_repository/act_pick_place/1/model.py:155 | a (B, C, H, W) batch becomes a well-formed (B, 3, H, W) batch |
| ServingModel.ServerNormalize | model_repository/act_pick_place/1/model.py:150-155 | succeeds iff the channel axis is 3 or 1, else RuntimeError; the result has three channels and the input's other axes |
| ServingModel.ServerNormalizeBatch | model_repository/act_pick_place/1/model.py:155 | every image of a (B, 3, H, W) batch is normalised channel by channel |
| ServingModel.ServerAction | model_repository/act_pick_place/1/model.py:171-173 | the raw output without statistics, the denormalised output with them |
| ServingModel.Predict | model_repository/act_pick_place/1/model.py:134-190 | an image that does not broadcast fails before the policy, leaving its state; otherwise the policy runs once and its errors propagate |
| ServingModel.HandleRequest | model_repository/act_pick_place/1/model.py:104-130 | exactly one output, named `output__0`, on success; no outputs and a message starting `Inference failed: ` on error |
| ServingModel.RejectedEarlyKeepsState | model_repository/act_pick_place/1/model.py:106-111 | a request missing an input or with a non-broadcasting image gets an error and leaves the policy state untouched |
| ServingModel.ExecuteSpec | model_repository/act_pick_place/1/model.py:101-132 | one response per request |
| ServingModel.ExecuteInOrder | model_repository/act_pick_place/1/model.py:101-132 | response i is request i handled in the policy state the earlier requests left |
| ServingModel.ExecuteAppend | model_repository/act_pick_place/1/model.py:101-132 | handling two batches in turn equals handling their concatenation |
| ServingModel.ExecuteIsolatesEarlyFailure | model_repository/act_pick_place/1/model.py:122-130 | an early-rejected request gets an error response, and every other response and the final policy state are as if it were absent |
| ServingModel.TritonPythonModel.constructor | model_repository/act_pick_place/1/model.py:22-89 | the instance holds the start-up configuration and the initial policy state |
| ServingModel.TritonPythonModel.Execute | model_repository/act_pick_place/1/model.py:101-132 | the responses and the new policy state are those of the batch specification |
| NimBrain.ReadSettings | nim_wrapper/main.py:13-15 | each setting is the environment variable, else its default |
| NimBrain.DefaultSettings | nim_wrapper/main.py:13-15 | an empty environment gives `triton:8001`, `act_pick_place`, `"1"` |
| NimBrain.DummyImage | nim_wrapper/main.py:69 | shape (1, 3, 480, 640), every element 0 |
| NimBrain.Preprocess | nim_wrapper/main.py:48-70 | a rank-1 state gains a batch axis, other ranks pass unchanged; the image is always the placeholder |
| NimBrain.CommandData | nim_wrapper/main.py:114-115 | assignment succeeds iff the action is a vector, and then the data is its elements in order; otherwise the field setter's AssertionError |
| NimBrain.RequestFor | nim_wrapper/main.py:84-106 | the request carries the positions as a (1, n) state and the placeholder image, for the configured model and version |
| NimBrain.Infer | nim_wrapper/main.py:90-116 | transport errors propagate; a reply without `output__0` fails; otherwise the published data is the batch-stripped action as a list |
| NimBrain.PublishedRow | nim_wrapper/main.py:108-116 | an action returned as (1, n) or (n,) is published as exactly its row |
| NimBrain.NimBrainNode.constructor | nim_wrapper/main.py:18-46 | settings read, nothing published, the client the one connection attempt leaves, and a log of exactly that attempt's lines followed by the ready line |
| NimBrain.NimBrainNode.ConnectToTriton | nim_wrapper/main.py:40-46 | a created client is kept even when not live (warning) or when the probe raises (error line); a failed creation keeps the old value and logs; nothing else is logged or published |
| NimBrain.NimBrainNode.ListenerCallback | nim_wrapper/main.py:72-120 | with no client it reconnects once, logging exactly the connection's lines, and if creation failed keeps no client and publishes nothing; with a client (old or new, which stays) it publishes the inferred data and logs nothing more, or logs exactly `Inference failed: ` and publishes nothing |
| GymEnv.FormatObs | trossen_arm_mujoco/gym_env.py:76-89 | exactly the two keys; state is qpos; image `out[c][h][w] == img[h][w][c]`; no `cam_high` raises KeyError |
| GymEnv.FormatObsInvertible | trossen_arm_mujoco/gym_env.py:80-82 | moving the channel axis back recovers the camera frame |
| GymEnv.StepResult | trossen_arm_mujoco/gym_env.py:63-74 | reward 0.0 when missing else passed through; terminated iff last; never truncated; empty info |
| GymEnv.TrossenGymEnv.constructor | trossen_arm_mujoco/gym_env.py:17-27 | the render mode and simulator are stored, nothing seeded, not closed |
| GymEnv.TrossenGymEnv.Reset | trossen_arm_mujoco/gym_env.py:52-61 | a negative seed raises gymnasium's error and a seed of 2**32 or more ValueError, leaving the state alone; otherwise reseeds only when a seed is given, resets the simulator under the seed in effect and returns the observation with an empty info dict |
| GymEnv.ResetSeed | trossen_arm_mujoco/gym_env.py:53-58 | no seed keeps the current one; a given seed is accepted iff it lies in `[0, 2**32)`, a negative one failing in gymnasium, a larger one in numpy |
| GymEnv.TrossenGymEnv.Step | trossen_arm_mujoco/gym_env.py:63-74 | one simulator step; the result is the step tuple of its time step; seed unchanged |
| GymEnv.TrossenGymEnv.Render | trossen_arm_mujoco/gym_env.py:91-95 | a frame iff the mode is `rgb_array`, and then the physics render of the current state |
| GymEnv.TrossenGymEnv.Close | trossen_arm_mujoco/gym_env.py:97-98 | marks the environment closed and changes nothing else |
| EvalPolicy.PolicyStep | scripts/eval_policy.py:59-61 | a failing predict fails the step; otherwise the client's new state is predict's |
| EvalPolicy.EpisodeShape | scripts/eval_policy.py:57-75 | at most `max_steps` steps; no step but the last terminated or truncated; fewer steps only when the last one ended the episode |
| EvalPolicy.SucceededStays | scripts/eval_policy.py:64-65 | once a reward of 4 is seen, success stays set |
| EvalPolicy.EpisodeTallyAdvance | scripts/eval_policy.py:64-67 | one more step adds its reward and sets success iff its reward is 4 |
| EvalPolicy.CountSucceeded | scripts/eval_policy.py:77-79 | the success count never exceeds the number of episodes |
| EvalPolicy.TalliesAdvance | scripts/eval_policy.py:77-83 | one more episode adds one to the count iff it succeeded and adds its steps to the frame count |
| EvalPolicy.Resets | scripts/eval_policy.py:47-49 | one reset per episode, episode `ep` seeded with `ep` |
| EvalPolicy.EvalSpec | scripts/eval_policy.py:47-83 | a completed evaluation has one trace per episode |
| EvalPolicy.EvalSpecErrPersists | scripts/eval_policy.py:47-83 | an exception in one episode ends the evaluation |
| EvalPolicy.EvalEpisodesBounded | scripts/eval_policy.py:57 | every episode took at most `max_steps` steps |
| EvalPolicy.TakeStep | scripts/eval_policy.py:59-61 | the predict-then-step of the loop agrees with the step specification |
| EvalPolicy.RunEpisode | scripts/eval_policy.py:50-75 | succeeds iff the episode specification does and then reaches its final world and steps; its reward is the sum of step rewards, success iff some reward was 4, one frame per step |
| EvalPolicy.EpisodeProgressStep | scripts/eval_policy.py:57-75 | a step of the unfinished loop keeps it on the way to the episode specification, finishing it iff the step terminated or truncated |
| EvalPolicy.EpisodeProgressFails | scripts/eval_policy.py:59-61 | a failing step of the unfinished loop fails the episode |
| EvalPolicy.StepTowards | scripts/eval_policy.py:59-61 | one loop step either fails the episode specification or advances towards it by the step's outcome |
| EvalPolicy.Tallied | scripts/eval_policy.py:64-67 | the tallies after one more step are the reward sum and success of the extended steps |
| EvalPolicy.EvalSpecAdvance | scripts/eval_policy.py:47-49 | an episode index of 2**32 or more fails the evaluation at the reset; otherwise the next episode is the reset followed by the episode specification |
| EvalPolicy.PlayEpisode | scripts/eval_policy.py:47-75 | one reset with seed `ep` and one episode advance the evaluation specification by that episode, or it fails when the evaluation does |
| EvalPolicy.Evaluate | scripts/eval_policy.py:41-86 | fails iff the specification does; the success count counts successful episodes, one reward per episode, one frame per step, resets with seeds 0..n-1, then the environment and the client closed once |
| Seeding.NumpySeed | trossen_arm_mujoco/scripts/record_sim_episodes.py:113 | `np.random.seed` accepts exactly the integers in `[0, 2**32)` and raises ValueError for the rest |
| Seeding.GymnasiumSeed | trossen_arm_mujoco/gym_env.py:53 | gymnasium's `reset(seed=...)` accepts exactly the non-negative integers and raises its own error for the rest |
| Seeding.NumpySeedPassesGymnasium | trossen_arm_mujoco/gym_env.py:53-58 | every seed numpy accepts gymnasium accepts unchanged, so an accepted `reset` seed is numpy's |
| DatasetPlayback.SelectEpisodes | scripts/inspect_dataset_playback.py:26-27 | `min(num_episodes, total)` episodes; a negative count raises ValueError |
| DatasetPlayback.SelectedEpisodesAscending | scripts/inspect_dataset_playback.py:26-27 | the chosen episodes are distinct valid indices in strictly ascending order, a rearrangement of the random sample |
| DatasetPlayback.RearrangedDistinct | scripts/inspect_dataset_playback.py:26-27 | sorting a sample drawn without replacement keeps its entries distinct |
| DatasetPlayback.ComputeFrameRange | scripts/inspect_dataset_playback.py:33-50 | the accumulated start and the end agree with the frame-range specification |
| DatasetPlayback.FrameRangeCases | scripts/inspect_dataset_playback.py:34-50 | skipped iff metadata exists and does not list the episode; `[0, 100)` without metadata; otherwise start is the sum of earlier lengths and end - start the episode's length |
| DatasetPlayback.RangesAbut | scripts/inspect_dataset_playback.py:38-42 | consecutive episodes' ranges abut |
| DatasetPlayback.RangesDisjoint | scripts/inspect_dataset_playback.py:38-42 | an earlier episode's range ends no later than a later one's begins |
| DatasetPlayback.EpisodeFramesShape | scripts/inspect_dataset_playback.py:54-55 | one frame per index of the range in order; reading fails with IndexError iff the range passes the dataset's end |
| DatasetPlayback.PlaybackErrPersists | scripts/inspect_dataset_playback.py:31-79 | a failed frame read ends the inspection |
| DatasetPlayback.DrawEpisode | scripts/inspect_dataset_playback.py:54-79 | the frame loop agrees with the episode-frames specification |
| DatasetPlayback.InspectDataset | scripts/inspect_dataset_playback.py:16-79 | a selection error propagates; otherwise the frames are those of the playback specification over the sorted episodes |
| DatasetPlayback.PlaybackInRange | scripts/inspect_dataset_playback.py:31-79 | every frame drawn belongs to an inspected episode and lies inside its range |
| DatasetPlayback.PlaybackAscending | scripts/inspect_dataset_playback.py:31-79 | with metadata and ascending episodes, frames are drawn in strictly ascending order, none twice |
| JointLayout.TotalWidthCounts | scripts/debug_state_mapping.py:37 | total width is one per joint plus six per free joint, between n and 7n |
| JointLayout.ListedRangesContiguous | scripts/debug_state_mapping.py:39-40 | listed ranges start at 0, abut, and end at the total width |
| JointLayout.JointRanges | scripts/debug_state_mapping.py:33-40 | joint i starts at the widths of joints before it and spans its own width; ranges abut; the final index is the total width |
| JointLayout.JointRangesDisjoint | scripts/debug_state_mapping.py:39-40 | an earlier joint's range ends no later than a later joint's begins |
| Hdf5ToParquet.StandardFileNames | trossen_arm_mujoco/scripts/convert_hdf5_to_parquet.py:16-17 | `episode_<digits>.hdf5` in any directory has id `<digits>` and is saved as `episode_<digits>.parquet` |
| Hdf5ToParquet.StandardStem | trossen_arm_mujoco/scripts/convert_hdf5_to_parquet.py:17 | removing `.hdf5` and `episode_` from a standard name leaves its digits |
| Hdf5ToParquet.FrameNameDecodes | trossen_arm_mujoco/scripts/convert_hdf5_to_parquet.py:63 | `frame_`, digits denoting i, `.png`: distinct steps get distinct names, 16 characters below a million |
| Hdf5ToParquet.EpisodeIdNoSeparator | trossen_arm_mujoco/scripts/convert_hdf5_to_parquet.py:16-17 | an episode id never contains `/` |
| Hdf5ToParquet.ImagePathLayout | trossen_arm_mujoco/scripts/convert_hdf5_to_parquet.py:69 | the stored path is `images/episode_<id>/<frame name>` |
| Hdf5ToParquet.RowsUpToShape | trossen_arm_mujoco/scripts/convert_hdf5_to_parquet.py:54-79 | rows are built iff every step has a frame and the id is an integer; the error is IndexError or ValueError accordingly; row i is step i's |
| Hdf5ToParquet.RowsUpToRows | trossen_arm_mujoco/scripts/convert_hdf5_to_parquet.py:54-79 | n rows exist iff every step has a frame and the id parses, and row i is step i's |
| Hdf5ToParquet.RowsUpToFailure | trossen_arm_mujoco/scripts/convert_hdf5_to_parquet.py:61-76 | the first missing frame raises IndexError unless the id already raised ValueError |
| Hdf5ToParquet.EpisodeRowsContents | trossen_arm_mujoco/scripts/convert_hdf5_to_parquet.py:48-79 | one row per qpos step in step order: state, image path, action or None past the actions, `i * DT`, episode index, `frame_index == i` |
| Hdf5ToParquet.EpisodeRowsCamera | trossen_arm_mujoco/scripts/convert_hdf5_to_parquet.py:36-44 | no table exactly when neither `cam_high` nor `cam_low` was recorded |
| Hdf5ToParquet.ConvertEpisode | trossen_arm_mujoco/scripts/convert_hdf5_to_parquet.py:15-82 | agrees with the episode-rows specification |
| Hdf5ToParquet.BuildRows | trossen_arm_mujoco/scripts/convert_hdf5_to_parquet.py:53-79 | the row loop agrees with the rows specification |
| Hdf5ToParquet.GlobEpisodes | trossen_arm_mujoco/scripts/convert_hdf5_to_parquet.py:93 | never more files than entries |
| Hdf5ToParquet.GlobEpisodesMatch | trossen_arm_mujoco/scripts/convert_hdf5_to_parquet.py:93 | the glob yields exactly the directory's matching entries, joined to the directory |
| Hdf5ToParquet.ConversionOrderSorted | trossen_arm_mujoco/scripts/convert_hdf5_to_parquet.py:93-94 | files are converted in ascending name order, each matched file once |
| Hdf5ToParquet.StandardEpisodeSaved | trossen_arm_mujoco/scripts/convert_hdf5_to_parquet.py:98-107 | a readable standard file whose camera covers every step is saved under the parquet name with one row per step, row i being step i's with the index the digits denote |
| Hdf5ToParquet.ConvertFile | trossen_arm_mujoco/scripts/convert_hdf5_to_parquet.py:100-109 | the try/except body agrees with the per-file specification |
| Hdf5ToParquet.ConvertAll | trossen_arm_mujoco/scripts/convert_hdf5_to_parquet.py:84-109 | nothing without the directory; otherwise output dir is `--output_dir` or the data dir and outcome k is file k's, in sorted order, each independent of the others |
| RecordSim.Resolve | trossen_arm_mujoco/scripts/record_sim_episodes.py:62-87 | counts from the CLI unless None, else config; cameras the split of non-empty `--cam_names` (joining gives it back), else config; flags true iff CLI or config true |
| RecordSim.SelectTask | trossen_arm_mujoco/scripts/record_sim_episodes.py:93-104 | pick-place iff the name is `sim_pick_place`, with its scenes; every other name selects transfer-cube |
| RecordSim.Rollout | trossen_arm_mujoco/scripts/record_sim_episodes.py:124-135 | the episode list has `episode_len + 1` time steps, the first being the reset |
| RecordSim.RollOut | trossen_arm_mujoco/scripts/record_sim_episodes.py:124-135 | the rollout loop agrees with the rollout specification |
| RecordSim.EeEpisode | trossen_arm_mujoco/scripts/record_sim_episodes.py:113-135 | the scripted rollout of an episode has `steps + 1` time steps |
| RecordSim.Replay | trossen_arm_mujoco/scripts/record_sim_episodes.py:175-188 | the replay has one time step per command plus the reset |
| RecordSim.ReplayTrajectory | trossen_arm_mujoco/scripts/record_sim_episodes.py:175-188 | the replay loop agrees with the replay specification |
| RecordSim.ReplayEpisode | trossen_arm_mujoco/scripts/record_sim_episodes.py:160-188 | the replay of a joint trajectory has one time step more than the trajectory |
| RecordSim.JointTrajectory | trossen_arm_mujoco/scripts/record_sim_episodes.py:145 | position t is time step t's qpos |
| RecordSim.StepRewards | trossen_arm_mujoco/scripts/record_sim_episodes.py:189-190 | the rewards of every time step after the first, in order |
| RecordSim.MaxOf | trossen_arm_mujoco/scripts/record_sim_episodes.py:190 | an element of the list no smaller than any element |
| RecordSim.SuccessFlagMeaning | trossen_arm_mujoco/scripts/record_sim_episodes.py:189-196 | the entry is 0 or 1, and 1 iff some reward equals the maximum reward and none exceeds it |
| RecordSim.EmptyData | trossen_arm_mujoco/scripts/record_sim_episodes.py:201-208 | all lists empty, one empty image list per listed camera |
| RecordSim.AppendedShape | trossen_arm_mujoco/scripts/record_sim_episodes.py:236-239 | the camera loop succeeds iff the step has every camera, then extends each listed camera's frames by its image |
| RecordSim.AppendFrames | trossen_arm_mujoco/scripts/record_sim_episodes.py:236-239 | the camera loop agrees with its specification |
| RecordSim.PairCount | trossen_arm_mujoco/scripts/record_sim_episodes.py:228 | the loop runs `max(0, len - 1)` times |
| RecordSim.PairsSucceed | trossen_arm_mujoco/scripts/record_sim_episodes.py:228-239 | k rounds succeed iff every replayed step before k has every camera, repeated names included; otherwise KeyError |
| RecordSim.AppendedSucceeds | trossen_arm_mujoco/scripts/record_sim_episodes.py:236-239 | one step's camera loop succeeds iff the step has every listed camera, otherwise KeyError |
| RecordSim.PairsShape | trossen_arm_mujoco/scripts/record_sim_episodes.py:228-239 | after k rounds every list has k entries; observation t is replayed step t, action t is trajectory position t + 1 |
| RecordSim.FramesShape | trossen_arm_mujoco/scripts/record_sim_episodes.py:236-239 | after k rounds each camera's frame t is its image in replayed step t |
| RecordSim.PairSteps | trossen_arm_mujoco/scripts/record_sim_episodes.py:228-239 | the pop-and-pair loop agrees with the pairing specification |
| RecordSim.EpisodeFailures | trossen_arm_mujoco/scripts/record_sim_episodes.py:113-256 | an index outside `[0, 2**32)` raises ValueError at `np.random.seed`; then a missing length raises TypeError, a length of 0 or less ValueError at the maximum, a missing camera list TypeError, and a length of 1 with cameras the h5py chunk ValueError; a repeated camera name raises KeyError or ValueError |
| RecordSim.EpisodeOutcome | trossen_arm_mujoco/scripts/record_sim_episodes.py:109-263 | a recorded episode is saved as `episode_<index>.hdf5` in the save directory with success 0 or 1, and only with a camera list of distinct names |
| RecordSim.RecordedEpisode | trossen_arm_mujoco/scripts/record_sim_episodes.py:113-263 | a recorded episode is saved at the episode path with success 0 or 1 |
| RecordSim.Saved | trossen_arm_mujoco/scripts/record_sim_episodes.py:189-263 | what is saved goes to the given path with success 0 or 1 and only for distinct camera names; a one-step rollout with cameras leaves no pair and h5py refuses the one-frame chunks with ValueError |
| RecordSim.SavedRepeatedCamera | trossen_arm_mujoco/scripts/record_sim_episodes.py:228-256 | a repeated camera name is never saved: KeyError when a replayed step lacks a camera, else ValueError at the chunk shape (one-step rollout) or at the second dataset of the name |
| RecordSim.SaveEpisode | trossen_arm_mujoco/scripts/record_sim_episodes.py:189-263 | truncating, pairing and writing the rollout and its replay gives what `Saved` specifies |
| RecordSim.SavedPairs | trossen_arm_mujoco/scripts/record_sim_episodes.py:210-239 | after truncation, n - 1 pairs of replayed step t with rollout position t + 1, equal-length lists, widths from the first pair, box pose from the first step |
| RecordSim.SavedSuccess | trossen_arm_mujoco/scripts/record_sim_episodes.py:189-196 | success 1 iff some replayed reward reached the maximum and none exceeded it |
| RecordSim.EpisodeRecorded | trossen_arm_mujoco/scripts/record_sim_episodes.py:113-190 | the rollout has n + 1 steps, the replay n + 2, and the episode is what is saved of them |
| RecordSim.RecordEpisode | trossen_arm_mujoco/scripts/record_sim_episodes.py:109-263 | the loop body (seeding, rollout, replay, pairing and the HDF5 write) has exactly the outcome of the episode specification, its errors included |
| RecordSim.RunShape | trossen_arm_mujoco/scripts/record_sim_episodes.py:106-110 | one success entry per completed episode, entry i from episode `start + i`; all episodes done unless an exception stopped the run |
| RecordSim.RunErrPersists | trossen_arm_mujoco/scripts/record_sim_episodes.py:109 | an exception ends the run |
| RecordSim.RunStep | trossen_arm_mujoco/scripts/record_sim_episodes.py:109-110 | one more iteration records episode `start + i` under the box pose left by the previous one |
| RecordSim.RecordingShape | trossen_arm_mujoco/scripts/record_sim_episodes.py:62-113 | no episode count raises TypeError with nothing written; a start index outside `[0, 2**32)` raises ValueError with nothing written; otherwise one 0/1 entry per completed episode, file i named `episode_<start + i>.hdf5`, every index written within `[0, 2**32)` |
| RecordSim.RecordingNeedsDistinctCameras | trossen_arm_mujoco/scripts/record_sim_episodes.py:62-256 | a run writes files only with a camera list of distinct names; with a missing or repeated name and at least one episode it writes nothing and ends with an exception |
| RecordSim.Record | trossen_arm_mujoco/scripts/record_sim_episodes.py:53-110 | `main` agrees with the recording specification |
| RecordSim.RecordEpisodes | trossen_arm_mujoco/scripts/record_sim_episodes.py:106-110 | the episode loop agrees with the run specification |
| RecordSim.StoredEpisode | trossen_arm_mujoco/scripts/record_sim_episodes.py:246-263 | the converter reads back the qpos and action datasets and a camera iff it was recorded |
| RecordSim.EpisodePathJoin | trossen_arm_mujoco/scripts/record_sim_episodes.py:245-246 | adding `.hdf5` after the join names the same file as joining the full name |
| RecordSim.RecordedEpisodeConverts | trossen_arm_mujoco/scripts/record_sim_episodes.py:244-263 | a recorded episode with a `cam_high` or `cam_low` camera converts to `episode_<index>.parquet`, row i holding pair i's joint positions, action, index and frame i |
| RecordSim.ConvertsAsStored | trossen_arm_mujoco/scripts/convert_hdf5_to_parquet.py:98-107 | a stored file of k pairs named after episode index converts to k rows of its pairs |

## Left out

- Neural network: the ACT policy is an oracle `(state, batch) -> (state, action)`; its weights, `from_pretrained`, `eval()` and `.to(device)` are not modelled beyond whether loading succeeds.
- InferenceClient.LocalPredict: the local policy oracle returns an action and never fails, so an exception raised inside `select_action` is not modelled; the server's oracle does carry that error path.
- Floating point: values are exact reals, so float32 casts, `astype`, the `.float()`/`.cpu()`/`contiguous()` handoff and DLPack (model.py:181-188) have no observable effect here; no bit-level equality is claimed.
- Torch and numpy broadcasting in general: image normalisation is modelled on rank-3 images (client) and rank-3/4 images (server); the client's requires exclude channel-first images of another rank, where the `(3, 1, 1)` constants would broadcast against other axes.
- I/O: PNG writes, `to_parquet`, HDF5 writes and `makedirs`, plots and on-screen rendering, video writing, printing and latency are left out; the converter keeps the rows and the output path, the recorder the datasets and the file path.
- RecordSim.Saved: the errors h5py raises when `root[name][...] = array` writes data whose shape does not fit its dataset are not modelled. Examples are a `qvel` or `action` width other than the `qpos` width, or a camera frame that is not (480, 640, 3). Only the chunk-shape and duplicate-name errors of `create_dataset` are.
- DatasetPlayback.Playback: a dataset item without `observation.images.top_cam`, `observation.state` or `action` raises KeyError in the frame loop; this is not modelled. The playback model only labels frames `(episode, index)` and reads no item contents.
- Transports: gRPC, rclpy subscriptions, timers and the publisher are oracles or sequences of published messages; liveness and readiness probes are boolean inputs.
- Randomness: `np.random.seed` and `np.random.choice` are modelled by their effect: the recorder reseeds before every environment, so an environment is a function of its build request; the playback sample is a permutation given as a parameter.
- Seed ranges are those of numpy's legacy `np.random.seed` (`[0, 2**32)`, ValueError otherwise) and of gymnasium's `Env.reset` (non-negative, its own error otherwise); gymnasium's internal generator, seeded before numpy rejects a seed of 2**32 or more, is not modelled.
- RecordSim.Saved: when h5py refuses the image chunks, the file it has already opened and partly written is not modelled; only the ValueError is.
- RecordSim: the end-effector task is assumed to read the box pose in effect at reset; `sim_env`, `ee_sim_env`, `scripted_policy`, `utils` and `constants` are not part of this model, and `SIM_TASK_CONFIGS` and `ROOT_DIR` are parameters.
- RecordSim.Resolve: the configuration's truthy flag values are approximated by `Option<bool>`; a present `False` and an absent entry behave alike, as in the code.
- RecordSim.FramesShape: stated only for distinct camera names. With a repeated name the pairing loop appends the same frame twice to one list, but that list is never written: the second `create_dataset` of the name raises ValueError (`RecordSim.SavedRepeatedCamera`).
- RecordSim.SavedPairs: requires distinct camera names, the only case in which an episode is saved (`RecordSim.Saved` ensures it).
- The recorder's 16 / 7 dataset-width fallback is modelled but unreachable: a saved episode always has at least one step after truncation.
- The converter writes a parquet file for every episode with a camera, even one with no rows, since an empty data frame is not `None`.
- Text.ParseInt: the surrounding whitespace and underscores `int()` also accepts are not modelled.
- Hdf5ToParquet.GlobEpisodes: the glob is modelled as a filter of the directory listing in listing order; hidden files and non-file entries are not distinguished.
- HandleRequest (ServingModel.HandleRequest): its contract states the response shape and the message prefix; its contents follow from `Predict`, whose contract states them.
- EvalPolicy.Evaluate: the client is taken as already created by `InferenceClient.create`, and the video file is left out. The model also leaves out the success-rate division that follows the loop: with `num_episodes == 0`, `success_count / num_episodes` raises ZeroDivisionError (after the environment and client are closed), while the model returns `Ok` with an empty report.
- Exact library error texts (numpy, torch, tritonclient) are approximations; only the exception class is relied on.
- `scripts/ros_sim_bridge.py`, the network test scripts, export and training wrappers and the visualisation scripts are not part of this model.
