/** The Gymnasium wrapper around the MuJoCo pick-and-place simulation: it
    formats dm_control time steps as policy observations (joint positions and
    the channel-first top camera image) and maps the simulator's step to the
    five-tuple `(obs, reward, terminated, truncated, info)`.

    The wrapped simulator is an oracle over its state `E`: `reset` and `step`
    return a new state and a time step, `render` a frame. */
module GymEnv {
  import opened Outcomes
  import opened Tensors
  import opened Seeding
  import InferenceClient

  type Observation = InferenceClient.Observation

  /** A rendered camera frame: height x width x channel. */
  type Frame = a: NDArray<real> | IsRank3(a) witness Array([0, 0], [])

  /** A dm_control time step: joint positions, the camera frames by name,
      the reward (`None` on the first step) and whether it is the last. */
  datatype TimeStep = TimeStep(qpos: NDArray<real>, images: map<string, Frame>, reward: Option<real>, last: bool)

  /** `_format_obs`: the state is `qpos`, the image is `cam_high` with its
      channel axis moved to the front. */
  function FormatObs(ts: TimeStep): (r: Result<Observation>)
    ensures r.Err? <==> "cam_high" !in ts.images
    ensures r.Err? ==> r.error.kind == KeyError
    ensures r.Ok? ==> r.value.Keys == {InferenceClient.StateKey, InferenceClient.ImageKey}
    ensures r.Ok? ==> r.value[InferenceClient.StateKey] == ts.qpos
    ensures r.Ok? ==>
              var img := ts.images["cam_high"];
              var out := r.value[InferenceClient.ImageKey];
              && IsCube(out, img.inner[1], |img.items|, img.inner[0])
              && forall c, h, w | 0 <= c < img.inner[1] && 0 <= h < |img.items| && 0 <= w < img.inner[0] ::
                   At(out, c, h, w) == At(img, h, w, c)
  {
    if "cam_high" !in ts.images then Err(Error(KeyError, "'cam_high'"))
    else
      Ok(map[InferenceClient.StateKey := ts.qpos, InferenceClient.ImageKey := ChannelsFirst(ts.images["cam_high"])])
  }

  /** Moving the channel axis of the formatted image back to the end recovers the camera frame. */
  lemma FormatObsInvertible(ts: TimeStep)
    requires "cam_high" in ts.images
    ensures FormatObs(ts).Ok?
    ensures ChannelsLast(FormatObs(ts).value[InferenceClient.ImageKey]) == ts.images["cam_high"]
  {
    ChannelsLastOfFirst(ts.images["cam_high"]);
  }

  /** What `step` returns. */
  datatype StepOutcome = StepOutcome(obs: Observation, reward: real, terminated: bool, truncated: bool, info: map<string, string>)

  /** `step`'s tuple built from the simulator's time step: a missing reward
      counts as 0.0, the episode is terminated exactly when the time step is
      the last, and it is never truncated. */
  function StepResult(ts: TimeStep): (r: Result<StepOutcome>)
    ensures r.Ok? <==> FormatObs(ts).Ok?
    ensures r.Ok? ==> r.value.obs == FormatObs(ts).value
    ensures r.Ok? ==> r.value.reward == (if ts.reward.Some? then ts.reward.value else 0.0)
    ensures r.Ok? ==> r.value.terminated == ts.last && !r.value.truncated && r.value.info == map[]
  {
    match FormatObs(ts)
    case Err(e) => Err(e)
    case Ok(obs) => Ok(StepOutcome(obs, ts.reward.GetOr(0.0), ts.last, false, map[]))
  }

  /** The global seed after `reset(seed)`'s two seeding calls, given the
      current one: no seed keeps it; otherwise Gymnasium rejects a negative
      seed, numpy a seed of 2**32 or more, and an accepted seed replaces it. */
  function ResetSeed(seed: Option<int>, current: Option<int>): (r: Result<Option<int>>)
    ensures seed.None? ==> r == Ok(current)
    ensures seed.Some? ==> (r.Ok? <==> 0 <= seed.value < SeedLimit)
    ensures seed.Some? && r.Ok? ==> r.value == seed
    ensures seed.Some? && seed.value < 0 ==> r.Err? && r.error.kind == GymnasiumError
    ensures seed.Some? && seed.value >= SeedLimit ==> r.Err? && r.error.kind == ValueError
  {
    match seed
    case None => Ok(current)
    case Some(s) =>
      match GymnasiumSeed(s)
      case Err(e) => Err(e)
      case Ok(_) =>
        match NumpySeed(s)
        case Err(e) => Err(e)
        case Ok(n) => Ok(Some(n))
  }

  /** The wrapper instance: its render mode, the wrapped simulator's state,
      the seed last given to numpy's global generator, and whether it is closed. */
  class TrossenGymEnv<E> {
    const renderMode: Option<string>
    var sim: E
    var globalSeed: Option<int>
    var closed: bool

    constructor(renderMode: Option<string>, sim: E)
      ensures this.renderMode == renderMode && this.sim == sim && globalSeed == None && !closed
    {
      this.renderMode := renderMode;
      this.sim := sim;
      globalSeed := None;
      closed := false;
    }

    /** `reset(seed)`: Gymnasium's base `reset` and then numpy's global
        generator check a given seed (a rejected seed raises before anything
        changes); a seed both accept becomes the global seed, no seed keeps
        the current one.  The simulator is then reset (its randomness follows
        that generator) and the formatted observation is returned with an
        empty info dict. */
    method Reset(seed: Option<int>, simReset: (E, Option<int>) -> (E, TimeStep)) returns (r: Result<(Observation, map<string, string>)>)
      modifies this
      ensures closed == old(closed)
      ensures ResetSeed(seed, old(globalSeed)).Err? ==>
                r == Err(ResetSeed(seed, old(globalSeed)).error) && sim == old(sim) && globalSeed == old(globalSeed)
      ensures ResetSeed(seed, old(globalSeed)).Ok? ==>
                globalSeed == ResetSeed(seed, old(globalSeed)).value && sim == simReset(old(sim), globalSeed).0
      ensures ResetSeed(seed, old(globalSeed)).Ok? ==>
                var ts := simReset(old(sim), globalSeed).1;
                && (FormatObs(ts).Err? ==> r == Err(FormatObs(ts).error))
                && (FormatObs(ts).Ok? ==> r == Ok((FormatObs(ts).value, map[])))
    {
      var seeded := ResetSeed(seed, globalSeed);
      if seeded.Err? {
        return Err(seeded.error);
      }
      globalSeed := seeded.value;
      var next := simReset(sim, globalSeed);
      sim := next.0;
      match FormatObs(next.1)
      case Err(e) =>
        r := Err(e);
      case Ok(obs) =>
        r := Ok((obs, map[]));
    }

    /** `step(action)`: one simulator step, its result as the gym tuple. */
    method Step(action: NDArray<real>, simStep: (E, NDArray<real>) -> (E, TimeStep)) returns (r: Result<StepOutcome>)
      modifies this
      ensures sim == simStep(old(sim), action).0
      ensures globalSeed == old(globalSeed) && closed == old(closed)
      ensures r == StepResult(simStep(old(sim), action).1)
    {
      var next := simStep(sim, action);
      sim := next.0;
      r := StepResult(next.1);
    }

    /** `render()`: a frame of the top camera in `rgb_array` mode, nothing otherwise. */
    method Render(physicsRender: E -> NDArray<real>) returns (frame: Option<NDArray<real>>)
      ensures frame.Some? <==> renderMode == Some("rgb_array")
      ensures frame.Some? ==> frame.value == physicsRender(sim)
    {
      if renderMode == Some("rgb_array") {
        frame := Some(physicsRender(sim));
      } else {
        frame := None;
      }
    }

    /** `close()`. */
    method Close()
      modifies this
      ensures closed && sim == old(sim) && globalSeed == old(globalSeed)
    {
      closed := true;
    }
  }
}
