/** Closed-loop evaluation of the policy in the gym environment: for each
    episode `ep`, reset with seed `ep`, then alternate `client.predict` and
    `env.step` until the episode terminates, is truncated, or reaches
    `max_steps`; record the episode's reward and whether any step's reward was
    4; close the environment and the client at the end.

    The inference client's `predict` is an oracle `(C, Observation) -> (C,
    Result<action>)`; the simulator inside the environment is an oracle over
    its state `E`.  An exception from either ends the whole evaluation. */
module EvalPolicy {
  import opened Outcomes
  import opened Tensors
  import opened GymEnv
  import opened Seeding

  /** The client's state and the simulator's state between two steps. */
  datatype World<C, E> = World(client: C, sim: E)

  // ---------------------------------------------------------------------------
  // One episode

  /** `action = client.predict(obs)` followed by `env.step(action)`. */
  function PolicyStep<C, E>(w: World<C, E>, obs: Observation,
                                  predict: (C, Observation) -> (C, Result<NDArray<real>>),
                                  simStep: (E, NDArray<real>) -> (E, TimeStep)): (r: Result<(World<C, E>, StepOutcome)>)
    ensures predict(w.client, obs).1.Err? ==> r.Err?
    ensures r.Ok? ==> r.value.0.client == predict(w.client, obs).0
  {
    var p := predict(w.client, obs);
    match p.1
    case Err(e) => Err(e)
    case Ok(action) =>
      var next := simStep(w.sim, action);
      match StepResult(next.1)
      case Err(e) => Err(e)
      case Ok(o) => Ok((World(p.0, next.0), o))
  }

  /** Prefixes the steps already taken to the outcome of the rest of an episode. */
  function After<W>(t: seq<StepOutcome>, rest: Result<(W, seq<StepOutcome>)>): (r: Result<(W, seq<StepOutcome>)>)
    ensures rest.Err? <==> r.Err?
    ensures rest.Ok? ==> r.value == (rest.value.0, t + rest.value.1)
    ensures t == [] ==> r == rest
  {
    match rest
    case Err(e) => Err(e)
    case Ok(x) =>
      assert t == [] ==> t + x.1 == x.1;
      Ok((x.0, t + x.1))
  }

  lemma AfterAfter<W>(t: seq<StepOutcome>, u: seq<StepOutcome>, rest: Result<(W, seq<StepOutcome>)>)
    ensures After(t, After(u, rest)) == After(t + u, rest)
  {
    if rest.Ok? {
      assert t + (u + rest.value.1) == (t + u) + rest.value.1;
    }
  }

  /** The episode loop as a function of the world and observation it starts
      from and the steps it may still take: the world it ends in and the
      outcomes of the steps it took. */
  function Episode<C, E>(w: World<C, E>, obs: Observation, fuel: nat,
                               predict: (C, Observation) -> (C, Result<NDArray<real>>),
                               simStep: (E, NDArray<real>) -> (E, TimeStep)): (r: Result<(World<C, E>, seq<StepOutcome>)>)
    decreases fuel
  {
    if fuel == 0 then Ok((w, []))
    else
      match PolicyStep(w, obs, predict, simStep)
      case Err(e) => Err(e)
      case Ok(p) =>
        if p.1.terminated || p.1.truncated then Ok((p.0, [p.1]))
        else After([p.1], Episode(p.0, p.1.obs, fuel - 1, predict, simStep))
  }

  /** An episode takes at most `fuel` steps; every step but the last neither
      terminated nor truncated; and when it took fewer than `fuel` steps, its
      last step terminated or truncated it. */
  lemma {:induction false} EpisodeShape<C, E>(w: World<C, E>, obs: Observation, fuel: nat,
                                                    predict: (C, Observation) -> (C, Result<NDArray<real>>),
                                                    simStep: (E, NDArray<real>) -> (E, TimeStep))
    requires Episode(w, obs, fuel, predict, simStep).Ok?
    ensures var t := Episode(w, obs, fuel, predict, simStep).value.1;
      && |t| <= fuel
      && (forall i | 0 <= i < |t| - 1 :: !t[i].terminated && !t[i].truncated)
      && (|t| < fuel ==> |t| > 0 && (t[|t| - 1].terminated || t[|t| - 1].truncated))
    decreases fuel
  {
    if fuel > 0 {
      var p := PolicyStep(w, obs, predict, simStep).value;
      if !(p.1.terminated || p.1.truncated) {
        EpisodeShape(p.0, p.1.obs, fuel - 1, predict, simStep);
        var rest := Episode(p.0, p.1.obs, fuel - 1, predict, simStep).value.1;
        var t := Episode(w, obs, fuel, predict, simStep).value.1;
        assert t == [p.1] + rest;
        assert forall i | 1 <= i < |t| :: t[i] == rest[i - 1];
      }
    }
  }

  /** `ep_reward`: the sum of the step rewards. */
  function EpisodeReward(t: seq<StepOutcome>): real {
    if |t| == 0 then 0.0 else EpisodeReward(t[..|t| - 1]) + t[|t| - 1].reward
  }

  /** `ep_success`: some step returned reward 4. */
  predicate Succeeded(t: seq<StepOutcome>) {
    exists i | 0 <= i < |t| :: t[i].reward == 4.0
  }

  /** Success, once set, stays set whatever steps follow. */
  lemma SucceededStays(t: seq<StepOutcome>, u: seq<StepOutcome>)
    requires Succeeded(t)
    ensures Succeeded(t + u)
  {
    var i :| 0 <= i < |t| && t[i].reward == 4.0;
    assert (t + u)[i] == t[i];
  }

  // ---------------------------------------------------------------------------
  // All episodes

  /** `eval_policy`'s episode loop as a function: the world after episode
      `n - 1` and the steps of every episode; episode `ep` starts from the
      simulator reset under seed `ep`. */
  function EvalSpec<C, E>(n: nat, maxSteps: nat, w0: World<C, E>,
                                predict: (C, Observation) -> (C, Result<NDArray<real>>),
                                simReset: (E, Option<int>) -> (E, TimeStep),
                                simStep: (E, NDArray<real>) -> (E, TimeStep)): (r: Result<(World<C, E>, seq<seq<StepOutcome>>)>)
    ensures r.Ok? ==> |r.value.1| == n
  {
    if n == 0 then Ok((w0, []))
    else
      match EvalSpec(n - 1, maxSteps, w0, predict, simReset, simStep)
      case Err(e) => Err(e)
      case Ok(prev) =>
        match ResetSeed(Some(n - 1), None)
        case Err(e) => Err(e)
        case Ok(seed) =>
          var reset := simReset(prev.0.sim, seed);
          match FormatObs(reset.1)
          case Err(e) => Err(e)
          case Ok(obs) =>
            match Episode(World(prev.0.client, reset.0), obs, maxSteps, predict, simStep)
            case Err(e) => Err(e)
            case Ok(ep) => Ok((ep.0, prev.1 + [ep.1]))
  }

  /** A failed episode ends the evaluation: no later count of episodes succeeds. */
  lemma {:induction false} EvalSpecErrPersists<C, E>(k: nat, n: nat, maxSteps: nat, w0: World<C, E>,
                                                           predict: (C, Observation) -> (C, Result<NDArray<real>>),
                                                           simReset: (E, Option<int>) -> (E, TimeStep),
                                                           simStep: (E, NDArray<real>) -> (E, TimeStep))
    requires k <= n && EvalSpec(k, maxSteps, w0, predict, simReset, simStep).Err?
    ensures EvalSpec(n, maxSteps, w0, predict, simReset, simStep).Err?
    decreases n - k
  {
    if k < n {
      EvalSpecErrPersists(k + 1, n, maxSteps, w0, predict, simReset, simStep);
    }
  }

  /** Every episode of a completed evaluation took at most `max_steps` steps. */
  lemma EvalEpisodesBounded<C, E>(n: nat, maxSteps: nat, w0: World<C, E>,
                                        predict: (C, Observation) -> (C, Result<NDArray<real>>),
                                        simReset: (E, Option<int>) -> (E, TimeStep),
                                        simStep: (E, NDArray<real>) -> (E, TimeStep), i: nat)
    requires EvalSpec(n, maxSteps, w0, predict, simReset, simStep).Ok? && i < n
    ensures |EvalSpec(n, maxSteps, w0, predict, simReset, simStep).value.1[i]| <= maxSteps
    decreases n
  {
    var prev := EvalSpec(n - 1, maxSteps, w0, predict, simReset, simStep).value;
    var reset := simReset(prev.0.sim, Some(n - 1));
    var obs := FormatObs(reset.1).value;
    var w := World(prev.0.client, reset.0);
    if i < n - 1 {
      EvalEpisodesBounded(n - 1, maxSteps, w0, predict, simReset, simStep, i);
    } else {
      EpisodeShape(w, obs, maxSteps, predict, simStep);
    }
  }

  /** One more episode of the evaluation, in terms of the episodes before it. */
  lemma EvalSpecAdvance<C, E>(ep: nat, maxSteps: nat, w0: World<C, E>,
                              predict: (C, Observation) -> (C, Result<NDArray<real>>),
                              simReset: (E, Option<int>) -> (E, TimeStep),
                              simStep: (E, NDArray<real>) -> (E, TimeStep),
                              w: World<C, E>, traces: seq<seq<StepOutcome>>)
    requires EvalSpec(ep, maxSteps, w0, predict, simReset, simStep) == Ok((w, traces))
    ensures ep >= SeedLimit ==> EvalSpec(ep + 1, maxSteps, w0, predict, simReset, simStep).Err?
    ensures ep < SeedLimit ==>
      var reset := simReset(w.sim, Some(ep));
      && (FormatObs(reset.1).Err? ==> EvalSpec(ep + 1, maxSteps, w0, predict, simReset, simStep).Err?)
      && (FormatObs(reset.1).Ok? ==>
            var run := Episode(World(w.client, reset.0), FormatObs(reset.1).value, maxSteps, predict, simStep);
            && (run.Err? ==> EvalSpec(ep + 1, maxSteps, w0, predict, simReset, simStep).Err?)
            && (run.Ok? ==> EvalSpec(ep + 1, maxSteps, w0, predict, simReset, simStep) == Ok((run.value.0, traces + [run.value.1]))))
  {
  }

  /** The tallies after one more episode. */
  lemma TalliesAdvance(traces: seq<seq<StepOutcome>>, t: seq<StepOutcome>)
    ensures CountSucceeded(traces + [t]) == CountSucceeded(traces) + (if Succeeded(t) then 1 else 0)
    ensures TotalSteps(traces + [t]) == TotalSteps(traces) + |t|
  {
    assert (traces + [t])[..|traces|] == traces;
  }

  /** `success_count`: the number of successful episodes. */
  function CountSucceeded(traces: seq<seq<StepOutcome>>): (k: nat)
    ensures k <= |traces|
  {
    if |traces| == 0 then 0
    else CountSucceeded(traces[..|traces| - 1]) + (if Succeeded(traces[|traces| - 1]) then 1 else 0)
  }

  /** The steps taken over all episodes. */
  function TotalSteps(traces: seq<seq<StepOutcome>>): nat {
    if |traces| == 0 then 0 else TotalSteps(traces[..|traces| - 1]) + |traces[|traces| - 1]|
  }

  /** The resets and closes the evaluation performs, in order. */
  datatype Event = EnvReset(seed: int) | EnvClosed | ClientClosed

  /** One reset per episode, with the episode number as its seed. */
  function Resets(n: nat): (r: seq<Event>)
    ensures |r| == n && forall i | 0 <= i < n :: r[i] == EnvReset(i)
  {
    if n == 0 then [] else Resets(n - 1) + [EnvReset(n - 1)]
  }

  /** One more step of the episode loop, in terms of the steps taken so far. */
  lemma EpisodeAdvance<C, E>(start: Result<(World<C, E>, seq<StepOutcome>)>, t: seq<StepOutcome>,
                                   w: World<C, E>, obs: Observation, fuel: nat,
                                   predict: (C, Observation) -> (C, Result<NDArray<real>>),
                                   simStep: (E, NDArray<real>) -> (E, TimeStep))
    requires fuel > 0 && start == After(t, Episode(w, obs, fuel, predict, simStep))
    ensures PolicyStep(w, obs, predict, simStep).Err? ==> start.Err?
    ensures PolicyStep(w, obs, predict, simStep).Ok? ==>
              var p := PolicyStep(w, obs, predict, simStep).value;
              && (p.1.terminated || p.1.truncated ==> start == Ok((p.0, t + [p.1])))
              && (!(p.1.terminated || p.1.truncated) ==>
                    start == After(t + [p.1], Episode(p.0, p.1.obs, fuel - 1, predict, simStep)))
  {
    if PolicyStep(w, obs, predict, simStep).Ok? {
      var p := PolicyStep(w, obs, predict, simStep).value;
      AfterAfter(t, [p.1], Episode(p.0, p.1.obs, fuel - 1, predict, simStep));
    }
  }

  /** The loop's progress towards `spec`, the whole episode: a finished loop
      has reached it; an unfinished one, after the steps `t` taken so far,
      still has the rest of the episode from `w` and `obs` with `fuel` steps
      to run. */
  ghost predicate EpisodeProgress<C, E>(spec: Result<(World<C, E>, seq<StepOutcome>)>, t: seq<StepOutcome>, done: bool,
                                        w: World<C, E>, obs: Observation, fuel: nat,
                                        predict: (C, Observation) -> (C, Result<NDArray<real>>),
                                        simStep: (E, NDArray<real>) -> (E, TimeStep))
  {
    && (done ==> spec == Ok((w, t)))
    && (!done ==> spec == After(t, Episode(w, obs, fuel, predict, simStep)))
  }

  /** A failing step of an unfinished loop means the episode fails. */
  lemma EpisodeProgressFails<C, E>(spec: Result<(World<C, E>, seq<StepOutcome>)>, t: seq<StepOutcome>,
                                   w: World<C, E>, obs: Observation, fuel: nat,
                                   predict: (C, Observation) -> (C, Result<NDArray<real>>),
                                   simStep: (E, NDArray<real>) -> (E, TimeStep))
    requires fuel > 0 && EpisodeProgress(spec, t, false, w, obs, fuel, predict, simStep)
    requires PolicyStep(w, obs, predict, simStep).Err?
    ensures spec.Err?
  {
    EpisodeAdvance(spec, t, w, obs, fuel, predict, simStep);
  }

  /** A step of an unfinished loop that reaches world `w'` with outcome `o`
      keeps the loop's progress towards the episode; the loop is finished
      when `o` terminated or truncated it. */
  lemma EpisodeProgressStep<C, E>(spec: Result<(World<C, E>, seq<StepOutcome>)>, t: seq<StepOutcome>,
                                  w: World<C, E>, obs: Observation, fuel: nat,
                                  predict: (C, Observation) -> (C, Result<NDArray<real>>),
                                  simStep: (E, NDArray<real>) -> (E, TimeStep),
                                  w': World<C, E>, o: StepOutcome)
    requires fuel > 0 && EpisodeProgress(spec, t, false, w, obs, fuel, predict, simStep)
    requires PolicyStep(w, obs, predict, simStep) == Ok((w', o))
    ensures EpisodeProgress(spec, t + [o], o.terminated || o.truncated, w', o.obs, fuel - 1, predict, simStep)
  {
    EpisodeAdvance(spec, t, w, obs, fuel, predict, simStep);
  }

  /** A loop that ran out of steps has reached the episode as well. */
  lemma EpisodeProgressEnd<C, E>(spec: Result<(World<C, E>, seq<StepOutcome>)>, t: seq<StepOutcome>, done: bool,
                                 w: World<C, E>, obs: Observation,
                                 predict: (C, Observation) -> (C, Result<NDArray<real>>),
                                 simStep: (E, NDArray<real>) -> (E, TimeStep))
    requires EpisodeProgress(spec, t, done, w, obs, 0, predict, simStep)
    ensures spec == Ok((w, t))
  {
    if !done {
      assert t + [] == t;
    }
  }

  /** Reward and success after one more step. */
  lemma EpisodeTallyAdvance(t: seq<StepOutcome>, o: StepOutcome)
    ensures EpisodeReward(t + [o]) == EpisodeReward(t) + o.reward
    ensures Succeeded(t + [o]) <==> Succeeded(t) || o.reward == 4.0
  {
    assert (t + [o])[..|t|] == t;
    assert (t + [o])[|t|] == o;
    if Succeeded(t) {
      SucceededStays(t, [o]);
    }
  }

  /** `ep_reward += reward` and `if reward == 4: ep_success = True`, as the
      tallies of the steps `t` followed by `o`. */
  method Tallied(t: seq<StepOutcome>, o: StepOutcome, epReward: real, epSuccess: bool) returns (reward: real, success: bool)
    requires epReward == EpisodeReward(t) && epSuccess == Succeeded(t)
    ensures reward == EpisodeReward(t + [o]) && success == Succeeded(t + [o])
  {
    reward := epReward + o.reward;
    success := epSuccess || o.reward == 4.0;
    EpisodeTallyAdvance(t, o);
  }

  /** What one episode of the loop leaves behind: the client's state, the
      steps' outcomes, `ep_reward`, `ep_success` and the frames rendered. */
  datatype EpisodeRun<C> = EpisodeRun(
    client: C, steps: seq<StepOutcome>, reward: real, success: bool, frames: seq<Option<NDArray<real>>>)

  /** `action_np = client.predict(obs)` then `env.step(action_np)`. */
  method TakeStep<C, E>(env: TrossenGymEnv<E>, client: C, obs: Observation,
                              predict: (C, Observation) -> (C, Result<NDArray<real>>),
                              simStep: (E, NDArray<real>) -> (E, TimeStep)) returns (r: Result<(C, StepOutcome)>)
    modifies env
    ensures var spec := PolicyStep(World(client, old(env.sim)), obs, predict, simStep);
      && (r.Err? <==> spec.Err?)
      && (r.Ok? ==> spec.value == (World(r.value.0, env.sim), r.value.1))
  {
    var predicted := predict(client, obs);
    if predicted.1.Err? {
      return Err(predicted.1.error);
    }
    var outcome := env.Step(predicted.1.value, simStep);
    if outcome.Err? {
      return Err(outcome.error);
    }
    r := Ok((predicted.0, outcome.value));
  }

  /** One step of the episode loop, as progress towards the whole episode
      `spec`: a failing step fails the episode, and a step taken extends the
      steps `t` by its outcome. */
  method StepTowards<C, E>(env: TrossenGymEnv<E>, client: C, obs: Observation,
                           predict: (C, Observation) -> (C, Result<NDArray<real>>),
                           simStep: (E, NDArray<real>) -> (E, TimeStep),
                           ghost spec: Result<(World<C, E>, seq<StepOutcome>)>, ghost t: seq<StepOutcome>, ghost fuel: nat)
      returns (r: Result<(C, StepOutcome)>)
    requires fuel > 0 && EpisodeProgress(spec, t, false, World(client, env.sim), obs, fuel, predict, simStep)
    modifies env
    ensures r.Err? ==> spec.Err?
    ensures r.Ok? ==>
              EpisodeProgress(spec, t + [r.value.1], r.value.1.terminated || r.value.1.truncated,
                              World(r.value.0, env.sim), r.value.1.obs, fuel - 1, predict, simStep)
  {
    ghost var before := World(client, env.sim);
    r := TakeStep(env, client, obs, predict, simStep);
    if r.Err? {
      EpisodeProgressFails(spec, t, before, obs, fuel, predict, simStep);
    } else {
      EpisodeProgressStep(spec, t, before, obs, fuel, predict, simStep, World(r.value.0, env.sim), r.value.1);
    }
  }

  /** The `while not done and step < max_steps` loop of one episode. */
  method RunEpisode<C, E>(env: TrossenGymEnv<E>, client0: C, obs0: Observation, maxSteps: nat,
                                predict: (C, Observation) -> (C, Result<NDArray<real>>),
                                simStep: (E, NDArray<real>) -> (E, TimeStep),
                                physicsRender: E -> NDArray<real>) returns (r: Result<EpisodeRun<C>>)
    requires env.renderMode == Some("rgb_array")
    modifies env
    ensures var spec := Episode(World(client0, old(env.sim)), obs0, maxSteps, predict, simStep);
      && (r.Ok? <==> spec.Ok?)
      && (r.Ok? ==>
            && spec.value == (World(r.value.client, env.sim), r.value.steps)
            && r.value.reward == EpisodeReward(r.value.steps)
            && r.value.success == Succeeded(r.value.steps)
            && |r.value.frames| == |r.value.steps|)
  {
    ghost var spec := Episode(World(client0, env.sim), obs0, maxSteps, predict, simStep);
    var client := client0;
    var obs := obs0;
    var t: seq<StepOutcome> := [];
    var frames: seq<Option<NDArray<real>>> := [];
    var done := false;
    var epReward := 0.0;
    var epSuccess := false;
    var step := 0;
    ghost var fuel := maxSteps;

    while !done && step < maxSteps
      invariant step == |t| == |frames| <= maxSteps && fuel == maxSteps - step
      invariant EpisodeProgress(spec, t, done, World(client, env.sim), obs, fuel, predict, simStep)
      invariant epReward == EpisodeReward(t)
      invariant epSuccess == Succeeded(t)
      decreases maxSteps - step
    {
      var taken := StepTowards(env, client, obs, predict, simStep, spec, t, fuel);
      if taken.Err? {
        return Err(taken.error);
      }
      var o;
      client, o := taken.value.0, taken.value.1;
      obs, done := o.obs, o.terminated || o.truncated;
      epReward, epSuccess := Tallied(t, o, epReward, epSuccess);
      var frame := env.Render(physicsRender);
      t, frames := t + [o], frames + [frame];
      step, fuel := step + 1, fuel - 1;
    }

    if !done {
      EpisodeProgressEnd(spec, t, done, World(client, env.sim), obs, predict, simStep);
    }
    r := Ok(EpisodeRun(client, t, epReward, epSuccess, frames));
  }

  /** One iteration of the evaluation loop: `env.reset(seed=ep)` and then
      the episode, as the evaluation's episode `ep + 1` after the first `ep`
      reached `World(client, env.sim)` with `traces`. */
  method PlayEpisode<C, E>(env: TrossenGymEnv<E>, client: C, ep: nat, maxSteps: nat,
                           predict: (C, Observation) -> (C, Result<NDArray<real>>),
                           simReset: (E, Option<int>) -> (E, TimeStep),
                           simStep: (E, NDArray<real>) -> (E, TimeStep),
                           physicsRender: E -> NDArray<real>,
                           ghost w0: World<C, E>, ghost traces: seq<seq<StepOutcome>>) returns (r: Result<EpisodeRun<C>>)
    requires env.renderMode == Some("rgb_array")
    requires EvalSpec(ep, maxSteps, w0, predict, simReset, simStep) == Ok((World(client, env.sim), traces))
    modifies env
    ensures r.Err? ==> EvalSpec(ep + 1, maxSteps, w0, predict, simReset, simStep).Err?
    ensures r.Ok? ==>
              && EvalSpec(ep + 1, maxSteps, w0, predict, simReset, simStep) == Ok((World(r.value.client, env.sim), traces + [r.value.steps]))
              && r.value.reward == EpisodeReward(r.value.steps)
              && r.value.success == Succeeded(r.value.steps)
              && |r.value.frames| == |r.value.steps|
  {
    EvalSpecAdvance(ep, maxSteps, w0, predict, simReset, simStep, World(client, env.sim), traces);
    var reset := env.Reset(Some(ep), simReset);
    if reset.Err? {
      return Err(reset.error);
    }
    r := RunEpisode(env, client, reset.value.0, maxSteps, predict, simStep, physicsRender);
  }

  datatype EvalReport = EvalReport(
    successCount: nat, totalRewards: seq<real>, frames: seq<Option<NDArray<real>>>, events: seq<Event>)

  /** `eval_policy(num_episodes, max_steps)` on an already created client and
      a fresh environment in `rgb_array` mode. */
  method Evaluate<C, E>(numEpisodes: nat, maxSteps: nat, client0: C, sim0: E,
                              predict: (C, Observation) -> (C, Result<NDArray<real>>),
                              simReset: (E, Option<int>) -> (E, TimeStep),
                              simStep: (E, NDArray<real>) -> (E, TimeStep),
                              physicsRender: E -> NDArray<real>) returns (r: Result<EvalReport>)
    ensures var spec := EvalSpec(numEpisodes, maxSteps, World(client0, sim0), predict, simReset, simStep);
      && (r.Ok? <==> spec.Ok?)
      && (r.Ok? ==>
            var traces := spec.value.1;
            && r.value.successCount == CountSucceeded(traces)
            && |r.value.totalRewards| == numEpisodes
            && (forall i | 0 <= i < numEpisodes :: r.value.totalRewards[i] == EpisodeReward(traces[i]))
            && |r.value.frames| == TotalSteps(traces)
            && r.value.events == Resets(numEpisodes) + [EnvClosed, ClientClosed])
  {
    var env := new TrossenGymEnv(Some("rgb_array"), sim0);
    var client := client0;
    var successCount: nat := 0;
    var totalRewards: seq<real> := [];
    var frames: seq<Option<NDArray<real>>> := [];
    var events: seq<Event> := [];
    ghost var traces: seq<seq<StepOutcome>> := [];

    for ep := 0 to numEpisodes
      invariant env.renderMode == Some("rgb_array")
      invariant EvalSpec(ep, maxSteps, World(client0, sim0), predict, simReset, simStep) == Ok((World(client, env.sim), traces))
      invariant successCount == CountSucceeded(traces)
      invariant |totalRewards| == ep && forall i | 0 <= i < ep :: totalRewards[i] == EpisodeReward(traces[i])
      invariant |frames| == TotalSteps(traces)
      invariant events == Resets(ep)
    {
      var run := PlayEpisode(env, client, ep, maxSteps, predict, simReset, simStep, physicsRender, World(client0, sim0), traces);
      if run.Err? {
        EvalSpecErrPersists(ep + 1, numEpisodes, maxSteps, World(client0, sim0), predict, simReset, simStep);
        return Err(run.error);
      }
      events := events + [EnvReset(ep)];
      var er := run.value;
      client := er.client;
      if er.success {
        successCount := successCount + 1;
      }
      totalRewards := totalRewards + [er.reward];
      frames := frames + er.frames;
      TalliesAdvance(traces, er.steps);
      traces := traces + [er.steps];
    }

    env.Close();
    events := events + [EnvClosed, ClientClosed];
    r := Ok(EvalReport(successCount, totalRewards, frames, events));
  }
}
