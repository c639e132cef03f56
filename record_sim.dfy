/** The demonstration recorder: for each episode it rolls the scripted policy
    out in the end-effector simulation, replays the resulting joint trajectory
    in the joint-space simulation from the same box pose, tallies whether the
    replay reached the simulation task's maximum reward, pairs each replayed observation
    with the next joint position as its action, and saves the pairs as
    `episode_<index>.hdf5`.

    The simulators and the scripted policy are oracles over their states `E`
    and `P`; the numpy generator is reseeded with the episode index before each
    environment is built, so an environment is a function of its build request.
    `BOX_POSE[0]`, the box pose the joint-space task reads when it resets, is
    threaded through the run as an explicit value. */
module RecordSim {
  import opened Outcomes
  import opened Tensors
  import opened Text
  import opened Seeding
  import Hdf5ToParquet

  type Vec = seq<real>

  // ---------------------------------------------------------------------------
  // Settings

  /** The entries of a task's configuration; an absent entry reads as `None`. */
  datatype TaskConfig = TaskConfig(
    numEpisodes: Option<int>, episodeLen: Option<int>, camNames: Option<seq<string>>,
    onscreenRender: Option<bool>, injectNoise: Option<bool>)

  /** The command line. */
  datatype Args = Args(
    taskName: string, rootDir: Option<string>, dataDir: string,
    numEpisodes: Option<int>, episodeLen: Option<int>,
    onscreenRender: bool, injectNoise: bool, camNames: Option<string>, startEpisodeIdx: int)

  /** The values `main` works with once command line and configuration are merged. */
  datatype Settings = Settings(
    saveDir: string, numEpisodes: Option<int>, episodeLen: Option<int>,
    camList: Option<seq<string>>, onscreenRender: bool, injectNoise: bool)

  /** `SIM_TASK_CONFIGS.get(task_name, {})`. */
  function ConfigOf(configs: map<string, TaskConfig>, taskName: string): TaskConfig {
    if taskName in configs then configs[taskName] else TaskConfig(None, None, None, None, None)
  }

  /** The opening of `main`: counts take the command-line value unless it is
      `None`; the camera list is the comma-split of a non-empty `--cam_names`;
      the two flags take the command-line value when it is set; everything
      else falls back to the simulation task's configuration entry.  `rootDefault` is the
      package's `ROOT_DIR`. */
  function Resolve(args: Args, configs: map<string, TaskConfig>, rootDefault: string): (s: Settings)
    ensures s.saveDir == PathJoin(OrElse(args.rootDir, rootDefault), args.dataDir)
    ensures args.numEpisodes.Some? ==> s.numEpisodes == args.numEpisodes
    ensures args.numEpisodes.None? ==> s.numEpisodes == ConfigOf(configs, args.taskName).numEpisodes
    ensures args.episodeLen.Some? ==> s.episodeLen == args.episodeLen
    ensures args.episodeLen.None? ==> s.episodeLen == ConfigOf(configs, args.taskName).episodeLen
    ensures args.camNames.Some? && args.camNames.value != "" ==>
              s.camList.Some? && Join(s.camList.value, ',') == args.camNames.value
    ensures (args.camNames.None? || args.camNames.value == "") ==> s.camList == ConfigOf(configs, args.taskName).camNames
    ensures s.onscreenRender <==> args.onscreenRender || ConfigOf(configs, args.taskName).onscreenRender == Some(true)
    ensures s.injectNoise <==> args.injectNoise || ConfigOf(configs, args.taskName).injectNoise == Some(true)
  {
    var config := ConfigOf(configs, args.taskName);
    var camList := if args.camNames.Some? && args.camNames.value != "" then Some(Split(args.camNames.value, ',')) else config.camNames;
    JoinSplit(args.camNames.GetOr(""), ',');
    Settings(
      PathJoin(if args.rootDir.Some? && args.rootDir.value != "" then args.rootDir.value else rootDefault, args.dataDir),
      if args.numEpisodes.Some? then args.numEpisodes else config.numEpisodes,
      if args.episodeLen.Some? then args.episodeLen else config.episodeLen,
      camList,
      args.onscreenRender || config.onscreenRender == Some(true),
      args.injectNoise || config.injectNoise == Some(true))
  }

  // ---------------------------------------------------------------------------
  // Task selection

  datatype TaskKind = PickPlace | TransferCube

  /** The policy, task classes and scene files chosen for a task name. */
  datatype TaskSetup = TaskSetup(kind: TaskKind, sceneXml: string, sceneJointXml: string)

  /** `sim_pick_place` selects the one-arm pick-and-place classes and scenes;
      every other name, known or not, selects the bimanual cube transfer. */
  function SelectTask(taskName: string): (t: TaskSetup)
    ensures t.kind == PickPlace <==> taskName == "sim_pick_place"
    ensures t.kind == PickPlace ==>
              t.sceneXml == "trossen_one_arm_scene.xml" && t.sceneJointXml == "trossen_one_arm_scene_joint.xml"
    ensures t.kind == TransferCube ==>
              t.sceneXml == "trossen_ai_scene.xml" && t.sceneJointXml == "trossen_ai_scene_joint.xml"
  {
    if taskName == "sim_pick_place" then
      TaskSetup(PickPlace, "trossen_one_arm_scene.xml", "trossen_one_arm_scene_joint.xml")
    else
      TaskSetup(TransferCube, "trossen_ai_scene.xml", "trossen_ai_scene_joint.xml")
  }

  // ---------------------------------------------------------------------------
  // Simulation oracles

  /** A dm_control time step: joint positions and velocities, the box state,
      the camera images by name and the reward. */
  datatype TimeStep = TimeStep(qpos: Vec, qvel: Vec, envState: Vec, images: map<string, NDArray<real>>, reward: real)

  /** The arguments of `make_sim_env` right after `np.random.seed(seed)`:
      the end-effector task (`replay == false`) or the joint-space task. */
  datatype EnvRequest = EnvRequest(
    kind: TaskKind, replay: bool, xml: string, taskName: string, camList: Option<seq<string>>, seed: int)

  /** The simulator and the scripted policy: building an environment,
      resetting it (with the box pose in effect), stepping it, the simulation task's
      maximum reward, building the policy with its noise flag, and one policy call. */
  datatype Simulator<!E, !P> = Simulator(
    makeEnv: EnvRequest -> E,
    reset: (E, Option<Vec>) -> (E, TimeStep),
    step: (E, Vec) -> (E, TimeStep),
    maxReward: E -> real,
    makePolicy: (TaskKind, bool) -> P,
    act: (P, TimeStep) -> (P, Vec))

  /** The scripted rollout: the environment and policy after `n` steps, and
      the episode list (the reset time step followed by one time step per
      step, each produced by the policy's action on the previous one). */
  function Rollout<E, P>(sim: Simulator<E, P>, e: E, p: P, ts0: TimeStep, n: nat): (r: (E, P, seq<TimeStep>))
    ensures |r.2| == n + 1 && r.2[0] == ts0
  {
    if n == 0 then (e, p, [ts0])
    else
      var prev := Rollout(sim, e, p, ts0, n - 1);
      var chosen := sim.act(prev.1, prev.2[n - 1]);
      var next := sim.step(prev.0, chosen.1);
      (next.0, chosen.0, prev.2 + [next.1])
  }

  /** The replay: the environment after commanding every joint position of
      `actions` in order, and the episode list (the reset time step followed by
      one time step per command). */
  function Replay<E, P>(sim: Simulator<E, P>, e: E, ts0: TimeStep, actions: seq<Vec>): (r: (E, seq<TimeStep>))
    ensures |r.1| == |actions| + 1 && r.1[0] == ts0
  {
    if |actions| == 0 then (e, [ts0])
    else
      var prev := Replay(sim, e, ts0, actions[..|actions| - 1]);
      var next := sim.step(prev.0, actions[|actions| - 1]);
      (next.0, prev.1 + [next.1])
  }

  /** The scripted rollout loop: `episode_len` policy calls and steps. */
  method RollOut<E, P>(sim: Simulator<E, P>, e0: E, p0: P, ts0: TimeStep, n: nat)
    returns (e: E, p: P, episode: seq<TimeStep>)
    ensures (e, p, episode) == Rollout(sim, e0, p0, ts0, n)
  {
    e, p, episode := e0, p0, [ts0];
    var ts := ts0;
    for i := 0 to n
      invariant (e, p, episode) == Rollout(sim, e0, p0, ts0, i)
      invariant ts == episode[i]
    {
      var chosen := sim.act(p, ts);
      p := chosen.0;
      var next := sim.step(e, chosen.1);
      e, ts := next.0, next.1;
      episode := episode + [ts];
    }
  }

  /** The replay loop: one step per joint position of the trajectory. */
  method ReplayTrajectory<E, P>(sim: Simulator<E, P>, e0: E, ts0: TimeStep, jointTraj: seq<Vec>)
    returns (e: E, episodeReplay: seq<TimeStep>)
    ensures (e, episodeReplay) == Replay(sim, e0, ts0, jointTraj)
  {
    e, episodeReplay := e0, [ts0];
    for t := 0 to |jointTraj|
      invariant (e, episodeReplay) == Replay(sim, e0, ts0, jointTraj[..t])
    {
      assert jointTraj[..t + 1][..t] == jointTraj[..t];
      var next := sim.step(e, jointTraj[t]);
      e := next.0;
      episodeReplay := episodeReplay + [next.1];
    }
    assert jointTraj[..|jointTraj|] == jointTraj;
  }

  /** The joint positions of an episode's time steps. */
  function JointTrajectory(episode: seq<TimeStep>): (r: seq<Vec>)
    ensures |r| == |episode| && forall t | 0 <= t < |episode| :: r[t] == episode[t].qpos
  {
    seq(|episode|, t requires 0 <= t < |episode| => episode[t].qpos)
  }

  /** The rewards of an episode's time steps after the first. */
  function StepRewards(episode: seq<TimeStep>): (r: seq<real>)
    requires |episode| >= 1
    ensures |r| == |episode| - 1 && forall t | 0 <= t < |r| :: r[t] == episode[t + 1].reward
  {
    seq(|episode| - 1, t requires 0 <= t < |episode| - 1 => episode[t + 1].reward)
  }

  /** `np.max` of a non-empty list of rewards. */
  function MaxOf(xs: seq<real>): (m: real)
    requires |xs| > 0
    ensures forall i | 0 <= i < |xs| :: xs[i] <= m
    ensures exists i | 0 <= i < |xs| :: xs[i] == m
  {
    if |xs| == 1 then xs[0]
    else
      var rest := MaxOf(xs[..|xs| - 1]);
      assert forall i | 0 <= i < |xs| - 1 :: xs[..|xs| - 1][i] == xs[i];
      if xs[|xs| - 1] > rest then xs[|xs| - 1] else rest
  }

  /** The success entry of an episode: 1 when the best reward of the replay
      equals the simulation task's maximum reward, else 0. */
  function SuccessFlag(rewards: seq<real>, maxReward: real): nat
    requires |rewards| > 0
  {
    if MaxOf(rewards) == maxReward then 1 else 0
  }

  /** An episode succeeds exactly when some replayed step reaches the maximum
      reward and none exceeds it. */
  lemma SuccessFlagMeaning(rewards: seq<real>, maxReward: real)
    requires |rewards| > 0
    ensures SuccessFlag(rewards, maxReward) <= 1
    ensures SuccessFlag(rewards, maxReward) == 1 <==>
              (exists i | 0 <= i < |rewards| :: rewards[i] == maxReward) &&
              (forall i | 0 <= i < |rewards| :: rewards[i] <= maxReward)
  {
    var m := MaxOf(rewards);
    if (exists i | 0 <= i < |rewards| :: rewards[i] == maxReward) &&
       (forall i | 0 <= i < |rewards| :: rewards[i] <= maxReward) {
      var i :| 0 <= i < |rewards| && rewards[i] == maxReward;
      var j :| 0 <= j < |rewards| && rewards[j] == m;
      assert m <= maxReward && maxReward <= m;
    }
  }

  // ---------------------------------------------------------------------------
  // Pairing observations with next joint positions

  /** The lists of `data_dict`: one entry per recorded step in each, and one
      list of frames per camera name. */
  datatype EpisodeData = EpisodeData(
    qpos: seq<Vec>, qvel: seq<Vec>, envState: seq<Vec>, action: seq<Vec>,
    images: map<string, seq<NDArray<real>>>)

  /** `data_dict` before the loop: every list empty, one image list per camera. */
  function EmptyData(cams: seq<string>): (d: EpisodeData)
    ensures d.images.Keys == set c | c in cams
    ensures |d.qpos| == |d.qvel| == |d.envState| == |d.action| == 0
    ensures forall c | c in d.images :: d.images[c] == []
  {
    EpisodeData([], [], [], [], map c | c in cams :: [])
  }

  /** The camera loop of one step: each camera's frame of `ts`, in camera-list
      order, appended to that camera's list; a camera missing from the time
      step raises KeyError. */
  function Appended(images: map<string, seq<NDArray<real>>>, ts: TimeStep, cams: seq<string>): (r: Result<map<string, seq<NDArray<real>>>>)
  {
    if |cams| == 0 then Ok(images)
    else
      var prev :- Appended(images, ts, cams[..|cams| - 1]);
      var cam := cams[|cams| - 1];
      if cam !in ts.images then Err(Error(KeyError, "'" + cam + "'"))
      else Ok(prev[cam := (if cam in prev then prev[cam] else []) + [ts.images[cam]]])
  }

  predicate Distinct(cams: seq<string>) {
    forall i, j | 0 <= i < j < |cams| :: cams[i] != cams[j]
  }

  /** With distinct camera names, the camera loop succeeds exactly when the
      time step has every camera, and then extends each listed camera's frames
      by that camera's image and leaves every other list as it was. */
  lemma {:induction false} AppendedShape(images: map<string, seq<NDArray<real>>>, ts: TimeStep, cams: seq<string>)
    requires Distinct(cams) && forall c | c in cams :: c in images
    ensures Appended(images, ts, cams).Ok? <==> forall c | c in cams :: c in ts.images
    ensures Appended(images, ts, cams).Ok? ==>
              var r := Appended(images, ts, cams).value;
              && r.Keys == images.Keys
              && forall c | c in images :: r[c] == if c in cams then images[c] + [ts.images[c]] else images[c]
    decreases |cams|
  {
    if |cams| > 0 {
      var init := cams[..|cams| - 1];
      var cam := cams[|cams| - 1];
      assert forall c | c in init :: c in cams;
      AppendedShape(images, ts, init);
      assert cam !in init by {
        forall k | 0 <= k < |init| ensures init[k] != cam {
          assert init[k] == cams[k];
        }
      }
      assert forall c | c in cams :: c in init || c == cam;
    }
  }

  /** A failure in the camera loop stays the outcome of the longer loop. */
  lemma {:induction false} AppendedErrPersists(images: map<string, seq<NDArray<real>>>, ts: TimeStep, cams: seq<string>, i: nat)
    requires i <= |cams| && Appended(images, ts, cams[..i]).Err?
    ensures Appended(images, ts, cams) == Appended(images, ts, cams[..i])
    decreases |cams| - i
  {
    if i < |cams| {
      assert cams[..i + 1][..i] == cams[..i];
      AppendedErrPersists(images, ts, cams, i + 1);
    } else {
      assert cams[..i] == cams;
    }
  }

  /** The camera loop of one step. */
  method AppendFrames(images0: map<string, seq<NDArray<real>>>, ts: TimeStep, cams: seq<string>)
    returns (r: Result<map<string, seq<NDArray<real>>>>)
    ensures r == Appended(images0, ts, cams)
  {
    var images := images0;
    for i := 0 to |cams|
      invariant Appended(images0, ts, cams[..i]) == Ok(images)
    {
      assert cams[..i + 1][..i] == cams[..i];
      var cam := cams[i];
      if cam !in ts.images {
        r := Err(Error(KeyError, "'" + cam + "'"));
        AppendedErrPersists(images0, ts, cams, i + 1);
        return;
      }
      images := images[cam := (if cam in images then images[cam] else []) + [ts.images[cam]]];
    }
    assert cams[..|cams|] == cams;
    r := Ok(images);
  }

  /** `data_dict` after `k` rounds of the pairing loop: round `t` records the
      replayed time step `t` (its joint positions, velocities, box state and
      camera frames) with the trajectory's joint position `t + 1` as the action. */
  function PairsUpTo(traj: seq<Vec>, replay: seq<TimeStep>, cams: seq<string>, k: nat): Result<EpisodeData>
    requires k == 0 || (k < |traj| && k <= |replay|)
  {
    if k == 0 then Ok(EmptyData(cams))
    else
      var d :- PairsUpTo(traj, replay, cams, k - 1);
      var ts := replay[k - 1];
      var images :- Appended(d.images, ts, cams);
      Ok(EpisodeData(d.qpos + [ts.qpos], d.qvel + [ts.qvel], d.envState + [ts.envState], d.action + [traj[k]], images))
  }

  /** The number of rounds: the loop runs while at least two joint positions remain. */
  function PairCount(traj: seq<Vec>): (n: nat)
    ensures n == 0 || n < |traj|
  {
    if |traj| > 1 then |traj| - 1 else 0
  }

  /** `k` rounds succeed exactly when every replayed step before `k` has
      every camera of the list, and otherwise raise KeyError. */
  lemma {:induction false} PairsSucceed(traj: seq<Vec>, replay: seq<TimeStep>, cams: seq<string>, k: nat)
    requires k == 0 || (k < |traj| && k <= |replay|)
    ensures PairsUpTo(traj, replay, cams, k).Ok? <==>
              forall t, c | 0 <= t < k && c in cams :: c in replay[t].images
    ensures PairsUpTo(traj, replay, cams, k).Err? ==> PairsUpTo(traj, replay, cams, k).error.kind == KeyError
    decreases k
  {
    if k > 0 {
      PairsSucceed(traj, replay, cams, k - 1);
      FramesPresentStep(replay, cams, k);
      var prev := PairsUpTo(traj, replay, cams, k - 1);
      if prev.Ok? {
        AppendedSucceeds(prev.value.images, replay[k - 1], cams);
      }
    }
  }

  /** The camera loop of one step succeeds exactly when the time step has
      every listed camera, repeated or not, and otherwise raises KeyError. */
  lemma {:induction false} AppendedSucceeds(images: map<string, seq<NDArray<real>>>, ts: TimeStep, cams: seq<string>)
    ensures Appended(images, ts, cams).Ok? <==> forall c | c in cams :: c in ts.images
    ensures Appended(images, ts, cams).Err? ==> Appended(images, ts, cams).error.kind == KeyError
    decreases |cams|
  {
    if |cams| > 0 {
      var init := cams[..|cams| - 1];
      AppendedSucceeds(images, ts, init);
      assert forall c | c in cams :: c in init || c == cams[|cams| - 1];
    }
  }

  /** Every camera is present in steps `0 .. k - 1` exactly when it is in
      steps `0 .. k - 2` and in step `k - 1`. */
  lemma FramesPresentStep(replay: seq<TimeStep>, cams: seq<string>, k: nat)
    requires 0 < k <= |replay|
    ensures (forall t, c | 0 <= t < k && c in cams :: c in replay[t].images) <==>
            (forall t, c | 0 <= t < k - 1 && c in cams :: c in replay[t].images) &&
            (forall c | c in cams :: c in replay[k - 1].images)
  {
  }

  /** The camera lists of `k` successful rounds are exactly the listed cameras. */
  lemma {:induction false} EmptyOrPairsKeys(traj: seq<Vec>, replay: seq<TimeStep>, cams: seq<string>, k: nat)
    requires k == 0 || (k < |traj| && k <= |replay|)
    requires Distinct(cams)
    ensures PairsUpTo(traj, replay, cams, k).Ok? ==>
              PairsUpTo(traj, replay, cams, k).value.images.Keys == (set c | c in cams)
    decreases k
  {
    if k > 0 {
      EmptyOrPairsKeys(traj, replay, cams, k - 1);
      var prev := PairsUpTo(traj, replay, cams, k - 1);
      if prev.Ok? {
        AppendedShape(prev.value.images, replay[k - 1], cams);
      }
    }
  }

  /** Round `t` recorded replayed step `t` with the trajectory's joint position `t + 1`. */
  ghost predicate PairsRecorded(d: EpisodeData, traj: seq<Vec>, replay: seq<TimeStep>, k: nat)
    requires k == 0 || (k < |traj| && k <= |replay|)
  {
    && |d.qpos| == k && |d.qvel| == k && |d.envState| == k && |d.action| == k
    && forall t | 0 <= t < k ::
         && d.qpos[t] == replay[t].qpos && d.qvel[t] == replay[t].qvel
         && d.envState[t] == replay[t].envState && d.action[t] == traj[t + 1]
  }

  /** Each listed camera's frames are its images in replayed steps `0 .. k - 1`. */
  ghost predicate FramesRecorded(images: map<string, seq<NDArray<real>>>, replay: seq<TimeStep>, cams: seq<string>, k: nat)
    requires k <= |replay|
  {
    && images.Keys == (set c | c in cams)
    && forall c | c in images ::
         |images[c]| == k && forall t | 0 <= t < k :: c in replay[t].images && images[c][t] == replay[t].images[c]
  }

  /** `k` successful rounds leave `k` entries in every list: observation `t`
      is replayed step `t` and action `t` is the trajectory's joint position `t + 1`. */
  lemma {:induction false} PairsShape(traj: seq<Vec>, replay: seq<TimeStep>, cams: seq<string>, k: nat)
    requires k == 0 || (k < |traj| && k <= |replay|)
    requires PairsUpTo(traj, replay, cams, k).Ok?
    ensures PairsRecorded(PairsUpTo(traj, replay, cams, k).value, traj, replay, k)
    decreases k
  {
    if k > 0 {
      PairsShape(traj, replay, cams, k - 1);
    }
  }

  /** With distinct camera names, after `k` successful rounds each camera's
      frame `t` is its image in replayed step `t`. */
  lemma {:induction false} FramesShape(traj: seq<Vec>, replay: seq<TimeStep>, cams: seq<string>, k: nat)
    requires k == 0 || (k < |traj| && k <= |replay|)
    requires Distinct(cams)
    requires PairsUpTo(traj, replay, cams, k).Ok?
    ensures FramesRecorded(PairsUpTo(traj, replay, cams, k).value.images, replay, cams, k)
    decreases k
  {
    if k > 0 {
      var prev := PairsUpTo(traj, replay, cams, k - 1);
      assert prev.Ok?;
      FramesShape(traj, replay, cams, k - 1);
      var before := prev.value.images;
      var ts := replay[k - 1];
      assert forall c | c in cams :: c in before;
      AppendedShape(before, ts, cams);
      var images := Appended(before, ts, cams).value;
      assert PairsUpTo(traj, replay, cams, k).value.images == images;
      FramesExtend(before, images, replay, cams, k);
    }
  }

  /** Appending step `k - 1`'s image of every listed camera extends frames
      recorded for `k - 1` steps to frames recorded for `k`. */
  lemma FramesExtend(before: map<string, seq<NDArray<real>>>, after: map<string, seq<NDArray<real>>>,
                     replay: seq<TimeStep>, cams: seq<string>, k: nat)
    requires 0 < k <= |replay|
    requires FramesRecorded(before, replay, cams, k - 1)
    requires forall c | c in cams :: c in replay[k - 1].images
    requires after.Keys == before.Keys
    requires forall c | c in before :: after[c] == if c in cams then before[c] + [replay[k - 1].images[c]] else before[c]
    ensures FramesRecorded(after, replay, cams, k)
  {
    forall c | c in after
      ensures |after[c]| == k && forall t | 0 <= t < k :: c in replay[t].images && after[c][t] == replay[t].images[c]
    {
      assert c in cams;
      FrameListExtend(before[c], replay, c, k);
    }
  }

  /** One camera's frames for `k - 1` steps, extended by its image in step `k - 1`. */
  lemma FrameListExtend(frames: seq<NDArray<real>>, replay: seq<TimeStep>, c: string, k: nat)
    requires 0 < k <= |replay|
    requires |frames| == k - 1 && forall t | 0 <= t < k - 1 :: c in replay[t].images && frames[t] == replay[t].images[c]
    requires c in replay[k - 1].images
    ensures var longer := frames + [replay[k - 1].images[c]];
      |longer| == k && forall t | 0 <= t < k :: c in replay[t].images && longer[t] == replay[t].images[c]
  {
  }

  /** A failed round stays the outcome of the whole loop. */
  lemma {:induction false} PairsErrPersists(traj: seq<Vec>, replay: seq<TimeStep>, cams: seq<string>, k: nat, n: nat)
    requires k <= n && (n == 0 || (n < |traj| && n <= |replay|))
    requires PairsUpTo(traj, replay, cams, k).Err?
    ensures PairsUpTo(traj, replay, cams, n) == PairsUpTo(traj, replay, cams, k)
    decreases n - k
  {
    if k < n {
      PairsErrPersists(traj, replay, cams, k, n - 1);
    }
  }

  /** The pairing loop: pops the front of the trajectory and uses the new
      front as the action, pops the front of the replay as the observation,
      until one joint position is left. */
  method PairSteps(traj: seq<Vec>, replay: seq<TimeStep>, cams: seq<string>) returns (r: Result<EpisodeData>)
    requires |replay| >= |traj|
    ensures r == PairsUpTo(traj, replay, cams, PairCount(traj))
  {
    var jointTraj, episodeReplay := traj, replay;
    var d := EmptyData(cams);
    ghost var k := 0;
    while |jointTraj| > 1
      invariant k <= |traj| && jointTraj == traj[k..] && episodeReplay == replay[k..]
      invariant k == 0 || k < |traj|
      invariant PairsUpTo(traj, replay, cams, k) == Ok(d)
      invariant PairCount(traj) == k + PairCount(jointTraj)
      decreases |jointTraj|
    {
      jointTraj := jointTraj[1..];
      var action := jointTraj[0];
      var ts := episodeReplay[0];
      episodeReplay := episodeReplay[1..];
      var appended := AppendFrames(d.images, ts, cams);
      k := k + 1;
      if appended.Err? {
        r := Err(appended.error);
        PairsErrPersists(traj, replay, cams, k, PairCount(traj));
        return;
      }
      d := EpisodeData(d.qpos + [ts.qpos], d.qvel + [ts.qvel], d.envState + [ts.envState], d.action + [action], appended.value);
    }
    r := Ok(d);
  }

  // ---------------------------------------------------------------------------
  // One episode

  /** The file `main` writes for an episode: its path, the pairs, the camera
      list (one image dataset per camera) and the widths of the qpos and
      env_state datasets. */
  datatype HdfFile = HdfFile(path: string, data: EpisodeData, cams: seq<string>, qposDim: nat, envStateDim: nat)

  /** A recorded episode: its file, its success entry, and the box pose left in `BOX_POSE[0]`. */
  datatype Recorded = Recorded(file: HdfFile, success: nat, boxPose: Vec)

  /** `os.path.join(save_dir, f"episode_{index}") + ".hdf5"`. */
  function EpisodePath(saveDir: string, index: int): string {
    PathJoin(saveDir, "episode_" + IntText(index)) + ".hdf5"
  }

  /** The scripted rollout of episode `index`, given `steps` policy steps. */
  function EeEpisode<E, P>(sim: Simulator<E, P>, s: Settings, task: TaskSetup, taskName: string,
                           index: int, boxPose: Option<Vec>, steps: nat): (r: seq<TimeStep>)
    ensures |r| == steps + 1
  {
    var env := sim.makeEnv(EnvRequest(task.kind, false, task.sceneXml, taskName, s.camList, index));
    var reset := sim.reset(env, boxPose);
    Rollout(sim, reset.0, sim.makePolicy(task.kind, s.injectNoise), reset.1, steps).2
  }

  /** The joint-space replay of episode `index`: the environment after the
      replay, and the replay's episode list. */
  function ReplayEpisode<E, P>(sim: Simulator<E, P>, s: Settings, task: TaskSetup, taskName: string,
                               index: int, jointTraj: seq<Vec>, subtaskInfo: Vec): (r: (E, seq<TimeStep>))
    ensures |r.1| == |jointTraj| + 1
  {
    var env := sim.makeEnv(EnvRequest(task.kind, true, task.sceneJointXml, taskName, s.camList, index));
    var reset := sim.reset(env, Some(subtaskInfo));
    Replay(sim, reset.0, reset.1, jointTraj)
  }

  /** The widths of the qpos and env_state datasets: those of the first
      remaining pair, or 16 and 7 when no time step remains. */
  function DatasetWidths(traj: seq<Vec>, steps: seq<TimeStep>): (nat, nat)
    requires |traj| > 0 ==> |steps| > 0
  {
    if |traj| > 0 then (|traj[0]|, |steps[0].envState|) else (16, 7)
  }

  const MissingLength := Error(TypeError, "'NoneType' object cannot be interpreted as an integer")
  const EmptyEpisode := Error(ValueError, "zero-size array to reduction operation maximum which has no identity")
  const MissingCameras := Error(TypeError, "'NoneType' object is not iterable")
  const ChunkTooLarge := Error(ValueError, "Chunk shape must not be greater than data shape in any dimension. (1, 480, 640, 3) is not compatible with (0, 480, 640, 3)")
  const DatasetExists := Error(ValueError, "Unable to create dataset (name already exists)")

  /** An episode of `n > 0` steps: the scripted rollout, the replay of its
      joint trajectory from its initial box state, then what is saved of them. */
  function RecordedEpisode<E, P>(sim: Simulator<E, P>, s: Settings, task: TaskSetup, taskName: string,
                                 index: int, boxPose: Option<Vec>, n: nat, cams: seq<string>): (r: Result<Recorded>)
    requires n > 0
    ensures r.Ok? ==> r.value.file.path == EpisodePath(s.saveDir, index) && r.value.success <= 1
    ensures r.Ok? ==> Distinct(cams)
  {
    var episode := EeEpisode(sim, s, task, taskName, index, boxPose, n);
    var replay := ReplayEpisode(sim, s, task, taskName, index, JointTrajectory(episode), episode[0].envState);
    Saved(EpisodePath(s.saveDir, index), episode, replay.1, sim.maxReward(replay.0), cams)
  }

  /** What is saved of a scripted episode and its replay: the success entry,
      then both lists lose their last element and are paired.  A camera
      image dataset is created with chunks of one frame, which h5py refuses
      (ValueError) when no pair remains, as after a one-step episode; a camera
      named twice makes the second `create_dataset` of that name raise
      ValueError as well. */
  function Saved(path: string, episode: seq<TimeStep>, replay: seq<TimeStep>, maxReward: real, cams: seq<string>): (r: Result<Recorded>)
    requires |episode| >= 2 && |replay| == |episode| + 1
    ensures r.Ok? ==> r.value.file.path == path && r.value.success <= 1
    ensures r.Ok? ==> |episode| > 2 || cams == []
    ensures |episode| == 2 && cams != [] ==> r == Err(ChunkTooLarge)
    ensures r.Ok? ==> Distinct(cams)
  {
    var jointTraj := JointTrajectory(episode);
    var success := SuccessFlag(StepRewards(replay), maxReward);
    var traj := jointTraj[..|jointTraj| - 1];
    var steps := replay[..|replay| - 1];
    var widths := DatasetWidths(traj, steps);
    match PairsUpTo(traj, steps, cams, PairCount(traj))
    case Err(e) => Err(e)
    case Ok(data) =>
      if PairCount(traj) == 0 && cams != [] then Err(ChunkTooLarge)
      else if !Distinct(cams) then Err(DatasetExists)
      else Ok(Recorded(HdfFile(path, data, cams, widths.0, widths.1), success, episode[0].envState))
  }

  /** One iteration of the episode loop.  `np.random.seed(episode_idx)`
      raises ValueError for an index outside `[0, 2**32)`; `range(episode_len)` raises
      TypeError for a missing length; a length of zero or less leaves the
      scripted episode without steps, whose reward maximum raises ValueError;
      a missing camera list raises TypeError when `data_dict` is built (after
      the replay, which has no other effect then). */
  function EpisodeOutcome<E, P>(sim: Simulator<E, P>, s: Settings, task: TaskSetup, taskName: string,
                                index: int, boxPose: Option<Vec>): (r: Result<Recorded>)
    ensures r.Ok? ==> r.value.file.path == EpisodePath(s.saveDir, index) && r.value.success <= 1
    ensures r.Ok? ==> s.camList.Some? && Distinct(s.camList.value)
  {
    if NumpySeed(index).Err? then Err(NumpySeed(index).error)
    else if s.episodeLen.None? then Err(MissingLength)
    else if s.episodeLen.value <= 0 then Err(EmptyEpisode)
    else if s.camList.None? then Err(MissingCameras)
    else RecordedEpisode(sim, s, task, taskName, index, boxPose, s.episodeLen.value, s.camList.value)
  }

  /** The failures of an episode, in the order the loop meets them. */
  lemma EpisodeFailures<E, P>(sim: Simulator<E, P>, s: Settings, task: TaskSetup, taskName: string,
                              index: int, boxPose: Option<Vec>)
    ensures var r := EpisodeOutcome(sim, s, task, taskName, index, boxPose);
      && (!(0 <= index < SeedLimit) ==> r == Err(SeedOutOfRange))
      && (0 <= index < SeedLimit ==>
            && (s.episodeLen.None? ==> r.Err? && r.error.kind == TypeError)
            && (s.episodeLen.Some? && s.episodeLen.value <= 0 ==> r.Err? && r.error.kind == ValueError)
            && (s.episodeLen.Some? && s.episodeLen.value > 0 && s.camList.None? ==> r.Err? && r.error.kind == TypeError)
            && (s.episodeLen == Some(1) && s.camList.Some? && s.camList.value != [] ==> r == Err(ChunkTooLarge))
            && (s.episodeLen.Some? && s.episodeLen.value > 0 && s.camList.Some? && !Distinct(s.camList.value) ==>
                  r.Err? && (r.error.kind == KeyError || r.error.kind == ValueError)))
  {
    if 0 <= index < SeedLimit && s.episodeLen == Some(1) && s.camList.Some? && s.camList.value != [] {
      EpisodeRecorded(sim, s, task, taskName, index, boxPose, 1, s.camList.value);
    }
    if 0 <= index < SeedLimit && s.episodeLen.Some? && s.episodeLen.value > 0 && s.camList.Some? && !Distinct(s.camList.value) {
      var n, cams := s.episodeLen.value, s.camList.value;
      EpisodeRecorded(sim, s, task, taskName, index, boxPose, n, cams);
      var episode := EeEpisode(sim, s, task, taskName, index, boxPose, n);
      var replay := ReplayEpisode(sim, s, task, taskName, index, JointTrajectory(episode), episode[0].envState);
      SavedRepeatedCamera(EpisodePath(s.saveDir, index), episode, replay.1, sim.maxReward(replay.0), cams);
    }
  }

  /** A camera named twice is never saved: the pairing loop raises KeyError
      when a replayed step lacks a listed camera, and otherwise h5py raises
      ValueError, at the chunk shape after a one-step episode or else at the
      second dataset of the repeated name. */
  lemma SavedRepeatedCamera(path: string, episode: seq<TimeStep>, replay: seq<TimeStep>, maxReward: real, cams: seq<string>)
    requires |episode| >= 2 && |replay| == |episode| + 1 && !Distinct(cams)
    ensures var r := Saved(path, episode, replay, maxReward, cams);
      && r.Err?
      && ((forall t, c | 0 <= t < |episode| - 2 && c in cams :: c in replay[t].images) ==>
            r == Err(if |episode| == 2 then ChunkTooLarge else DatasetExists))
      && (!(forall t, c | 0 <= t < |episode| - 2 && c in cams :: c in replay[t].images) ==> r.error.kind == KeyError)
  {
    var jointTraj := JointTrajectory(episode);
    var traj := jointTraj[..|jointTraj| - 1];
    var steps := replay[..|replay| - 1];
    assert PairCount(traj) == |episode| - 2;
    PairsSucceed(traj, steps, cams, |episode| - 2);
    assert forall t | 0 <= t < |episode| - 2 :: steps[t] == replay[t];
  }

  /** A saved episode of `n` steps holds `n - 1` pairs: observation `t` is
      step `t` of the replay, action `t` is the scripted rollout's joint
      position `t + 1`, every list has the same length, and the dataset widths
      come from the first pair (the 16 / 7 fallback is never used).  The box
      pose it leaves is the scripted episode's initial box state. */
  lemma SavedPairs(path: string, episode: seq<TimeStep>, replay: seq<TimeStep>, maxReward: real, cams: seq<string>)
    requires |episode| >= 2 && |replay| == |episode| + 1 && Distinct(cams)
    requires Saved(path, episode, replay, maxReward, cams).Ok?
    ensures var rec := Saved(path, episode, replay, maxReward, cams).value;
      && rec.file.cams == cams
      && PairsRecorded(rec.file.data, JointTrajectory(episode), replay, |episode| - 2)
      && FramesRecorded(rec.file.data.images, replay, cams, |episode| - 2)
      && rec.file.qposDim == |episode[0].qpos| && rec.file.envStateDim == |replay[0].envState|
      && rec.boxPose == episode[0].envState
  {
    var jointTraj := JointTrajectory(episode);
    var traj := jointTraj[..|jointTraj| - 1];
    var steps := replay[..|replay| - 1];
    var k := |episode| - 2;
    assert PairCount(traj) == k;
    var pairs := PairsUpTo(traj, steps, cams, k);
    assert pairs.Ok?;
    PairsShape(traj, steps, cams, k);
    FramesShape(traj, steps, cams, k);
    PairsPrefix(pairs.value, traj, jointTraj, steps, replay, k);
    FramesPrefix(pairs.value.images, steps, replay, cams, k);
  }

  /** The success entry of a saved episode is 1 exactly when some replayed
      step reached the maximum reward and none exceeded it. */
  lemma SavedSuccess(path: string, episode: seq<TimeStep>, replay: seq<TimeStep>, maxReward: real, cams: seq<string>)
    requires |episode| >= 2 && |replay| == |episode| + 1
    requires Saved(path, episode, replay, maxReward, cams).Ok?
    ensures Saved(path, episode, replay, maxReward, cams).value.success == 1 <==>
              (exists t | 1 <= t < |replay| :: replay[t].reward == maxReward) &&
              (forall t | 1 <= t < |replay| :: replay[t].reward <= maxReward)
  {
    var rewards := StepRewards(replay);
    assert Saved(path, episode, replay, maxReward, cams).value.success == SuccessFlag(rewards, maxReward);
    SuccessFlagMeaning(rewards, maxReward);
    assert forall t | 1 <= t < |replay| :: replay[t].reward == rewards[t - 1];
    if exists i | 0 <= i < |rewards| :: rewards[i] == maxReward {
      var i :| 0 <= i < |rewards| && rewards[i] == maxReward;
      assert replay[i + 1].reward == maxReward;
    }
    if exists t | 1 <= t < |replay| :: replay[t].reward == maxReward {
      var t :| 1 <= t < |replay| && replay[t].reward == maxReward;
      assert rewards[t - 1] == maxReward;
    }
  }

  /** A recorded episode of `n` steps is what is saved of its scripted
      rollout (`n + 1` time steps) and of the replay of that rollout's joint
      trajectory (`n + 2` time steps), so `SavedPairs` and `SavedSuccess`
      describe it. */
  lemma EpisodeRecorded<E, P>(sim: Simulator<E, P>, s: Settings, task: TaskSetup, taskName: string,
                              index: int, boxPose: Option<Vec>, n: nat, cams: seq<string>)
    requires n > 0
    ensures var episode := EeEpisode(sim, s, task, taskName, index, boxPose, n);
      var replay := ReplayEpisode(sim, s, task, taskName, index, JointTrajectory(episode), episode[0].envState);
      && |episode| == n + 1 && |replay.1| == n + 2
      && RecordedEpisode(sim, s, task, taskName, index, boxPose, n, cams) ==
           Saved(EpisodePath(s.saveDir, index), episode, replay.1, sim.maxReward(replay.0), cams)
  {
  }

  /** Pairs recorded from the truncated lists are pairs of the full lists. */
  lemma PairsPrefix(d: EpisodeData, traj: seq<Vec>, fullTraj: seq<Vec>, steps: seq<TimeStep>, fullSteps: seq<TimeStep>, k: nat)
    requires k == 0 || (k < |traj| && k <= |steps|)
    requires traj <= fullTraj && steps <= fullSteps
    requires PairsRecorded(d, traj, steps, k)
    ensures PairsRecorded(d, fullTraj, fullSteps, k)
  {
  }

  /** Frames recorded from the truncated replay are frames of the full replay. */
  lemma FramesPrefix(images: map<string, seq<NDArray<real>>>, steps: seq<TimeStep>, fullSteps: seq<TimeStep>, cams: seq<string>, k: nat)
    requires k <= |steps| && steps <= fullSteps
    requires FramesRecorded(images, steps, cams, k)
    ensures FramesRecorded(images, fullSteps, cams, k)
  {
  }

  /** One iteration of the episode loop. */
  method RecordEpisode<E, P>(sim: Simulator<E, P>, s: Settings, task: TaskSetup, taskName: string,
                             index: int, boxPose: Option<Vec>) returns (r: Result<Recorded>)
    ensures r == EpisodeOutcome(sim, s, task, taskName, index, boxPose)
  {
    var seeded := NumpySeed(index);
    if seeded.Err? {
      return Err(seeded.error);
    }
    var env := sim.makeEnv(EnvRequest(task.kind, false, task.sceneXml, taskName, s.camList, index));
    var reset := sim.reset(env, boxPose);
    var policy := sim.makePolicy(task.kind, s.injectNoise);
    if s.episodeLen.None? {
      return Err(MissingLength);
    }
    var n := if s.episodeLen.value <= 0 then 0 else s.episodeLen.value;
    var _, _, episode := RollOut(sim, reset.0, policy, reset.1, n);
    if n == 0 {
      return Err(EmptyEpisode);
    }
    var jointTraj := JointTrajectory(episode);
    var subtaskInfo := episode[0].envState;
    var replayEnv := sim.makeEnv(EnvRequest(task.kind, true, task.sceneJointXml, taskName, s.camList, index));
    var replayReset := sim.reset(replayEnv, Some(subtaskInfo));
    var e, episodeReplay := ReplayTrajectory(sim, replayReset.0, replayReset.1, jointTraj);
    if s.camList.None? {
      return Err(MissingCameras);
    }
    EpisodeRecorded(sim, s, task, taskName, index, boxPose, n, s.camList.value);
    r := SaveEpisode(EpisodePath(s.saveDir, index), episode, episodeReplay, sim.maxReward(e), s.camList.value);
  }

  /** The end of an iteration: the success entry, the pairing loop, then the
      HDF5 file with its datasets. */
  method SaveEpisode(path: string, episode: seq<TimeStep>, replay: seq<TimeStep>, maxReward: real, cams: seq<string>)
      returns (r: Result<Recorded>)
    requires |episode| >= 2 && |replay| == |episode| + 1
    ensures r == Saved(path, episode, replay, maxReward, cams)
  {
    var jointTraj := JointTrajectory(episode);
    var success := SuccessFlag(StepRewards(replay), maxReward);
    var traj := jointTraj[..|jointTraj| - 1];
    var steps := replay[..|replay| - 1];
    var widths := DatasetWidths(traj, steps);
    var data := PairSteps(traj, steps, cams);
    if data.Err? {
      return Err(data.error);
    }
    if PairCount(traj) == 0 && cams != [] {
      return Err(ChunkTooLarge);
    }
    if !Distinct(cams) {
      return Err(DatasetExists);
    }
    r := Ok(Recorded(HdfFile(path, data.value, cams, widths.0, widths.1), success, episode[0].envState));
  }

  // ---------------------------------------------------------------------------
  // The episode loop

  /** What a run leaves behind: the files written, the success list, the box
      pose in `BOX_POSE[0]`, and the exception that stopped it, if any. */
  datatype Run = Run(files: seq<HdfFile>, success: seq<nat>, boxPose: Option<Vec>, failure: Option<Error>)

  /** One iteration of the loop as a function of the episode index and the
      box pose in effect. */
  type Episodes = (int, Option<Vec>) -> Result<Recorded>

  /** The first `k` iterations of the episode loop, episode `i` having index
      `start + i`; the first exception ends the run, the files already written staying. */
  function RunUpTo(episode: Episodes, start: int, boxPose0: Option<Vec>, k: nat): Run
  {
    if k == 0 then Run([], [], boxPose0, None)
    else
      var prev := RunUpTo(episode, start, boxPose0, k - 1);
      if prev.failure.Some? then prev
      else
        match episode(start + k - 1, prev.boxPose)
        case Err(e) => prev.(failure := Some(e))
        case Ok(rec) => Run(prev.files + [rec.file], prev.success + [rec.success], Some(rec.boxPose), None)
  }

  /** The number of iterations of `range(num_episodes)`. */
  function EpisodeCount(numEpisodes: int): nat {
    if numEpisodes < 0 then 0 else numEpisodes
  }

  /** The loop body of a run with the given settings and task. */
  function EpisodesOf<E, P>(sim: Simulator<E, P>, s: Settings, task: TaskSetup, taskName: string): Episodes {
    (index: int, boxPose: Option<Vec>) => EpisodeOutcome(sim, s, task, taskName, index, boxPose)
  }

  /** `main` after the settings are resolved and the simulation task is selected: a
      missing episode count makes `range` raise TypeError before any episode. */
  function Recording<E, P>(sim: Simulator<E, P>, args: Args, configs: map<string, TaskConfig>,
                           rootDefault: string, boxPose0: Option<Vec>): Run
  {
    var s := Resolve(args, configs, rootDefault);
    if s.numEpisodes.None? then Run([], [], boxPose0, Some(MissingLength))
    else RunUpTo(EpisodesOf(sim, s, SelectTask(args.taskName), args.taskName), args.startEpisodeIdx, boxPose0,
                 EpisodeCount(s.numEpisodes.value))
  }

  /** `file` and `flag` are what the loop body records for episode `index` under some box pose. */
  ghost predicate Produced(episode: Episodes, index: int, file: HdfFile, flag: nat) {
    exists b :: episode(index, b).Ok? && episode(index, b).value.file == file && episode(index, b).value.success == flag
  }

  /** The success list has one entry per completed episode, the file and the
      entry of position `i` coming from episode `start + i`; a run that did not
      fail completed every episode, one that failed stopped short. */
  lemma {:induction false} RunShape(episode: Episodes, start: int, boxPose0: Option<Vec>, k: nat)
    ensures var run := RunUpTo(episode, start, boxPose0, k);
      && |run.files| == |run.success|
      && (run.failure.None? ==> |run.files| == k)
      && (run.failure.Some? ==> |run.files| < k)
      && forall i | 0 <= i < |run.files| :: Produced(episode, start + i, run.files[i], run.success[i])
  {
    if k > 0 {
      RunShape(episode, start, boxPose0, k - 1);
      var prev := RunUpTo(episode, start, boxPose0, k - 1);
      if prev.failure.None? {
        var b := prev.boxPose;
        if episode(start + k - 1, b).Ok? {
          assert Produced(episode, start + (k - 1), episode(start + k - 1, b).value.file, episode(start + k - 1, b).value.success);
        }
      }
    }
  }

  /** An exception stays the outcome of the run. */
  lemma {:induction false} RunErrPersists(episode: Episodes, start: int, boxPose0: Option<Vec>, k: nat, n: nat)
    requires k <= n && RunUpTo(episode, start, boxPose0, k).failure.Some?
    ensures RunUpTo(episode, start, boxPose0, n) == RunUpTo(episode, start, boxPose0, k)
    decreases n - k
  {
    if k < n {
      RunErrPersists(episode, start, boxPose0, k, n - 1);
    }
  }

  /** One iteration of the episode loop: a failing episode ends the run with
      its error, a completed one extends the files, the tally and the box pose. */
  lemma RunStep(episode: Episodes, start: int, boxPose0: Option<Vec>, i: nat, run: Run)
    requires RunUpTo(episode, start, boxPose0, i) == run && run.failure.None?
    ensures RunUpTo(episode, start, boxPose0, i + 1) ==
      match episode(start + i, run.boxPose)
      case Err(e) => run.(failure := Some(e))
      case Ok(r) => Run(run.files + [r.file], run.success + [r.success], Some(r.boxPose), None)
  {
    assert start + (i + 1) - 1 == start + i;
  }

  /** What `main` records: nothing and a TypeError without an episode count;
      nothing and a ValueError when the first index is not a valid seed;
      otherwise one success entry, 0 or 1, per completed episode, the file of
      the `i`-th episode being `episode_<start_episode_idx + i>.hdf5` in the
      save directory, every recorded index a valid seed, and every episode of
      `range(num_episodes)` completed unless an exception stopped the run. */
  lemma RecordingShape<E, P>(sim: Simulator<E, P>, args: Args, configs: map<string, TaskConfig>,
                             rootDefault: string, boxPose0: Option<Vec>)
    ensures var s := Resolve(args, configs, rootDefault);
      var run := Recording(sim, args, configs, rootDefault, boxPose0);
      && (s.numEpisodes.None? ==> run.files == [] && run.failure.Some? && run.failure.value.kind == TypeError)
      && (s.numEpisodes.Some? && EpisodeCount(s.numEpisodes.value) > 0 && !(0 <= args.startEpisodeIdx < SeedLimit) ==>
            run.files == [] && run.failure == Some(SeedOutOfRange))
      && |run.files| == |run.success|
      && (s.numEpisodes.Some? && run.failure.None? ==> |run.success| == EpisodeCount(s.numEpisodes.value))
      && (forall i | 0 <= i < |run.success| :: run.success[i] <= 1)
      && (forall i | 0 <= i < |run.files| :: run.files[i].path == EpisodePath(s.saveDir, args.startEpisodeIdx + i))
      && (run.files != [] ==> 0 <= args.startEpisodeIdx && args.startEpisodeIdx + |run.files| <= SeedLimit)
  {
    var s := Resolve(args, configs, rootDefault);
    if s.numEpisodes.Some? {
      var episode := EpisodesOf(sim, s, SelectTask(args.taskName), args.taskName);
      var k := EpisodeCount(s.numEpisodes.value);
      RunShape(episode, args.startEpisodeIdx, boxPose0, k);
      var run := RunUpTo(episode, args.startEpisodeIdx, boxPose0, k);
      if k > 0 && !(0 <= args.startEpisodeIdx < SeedLimit) {
        assert RunUpTo(episode, args.startEpisodeIdx, boxPose0, 1) == Run([], [], boxPose0, Some(SeedOutOfRange));
        RunErrPersists(episode, args.startEpisodeIdx, boxPose0, 1, k);
      }
      forall i | 0 <= i < |run.files|
        ensures run.success[i] <= 1 && run.files[i].path == EpisodePath(s.saveDir, args.startEpisodeIdx + i)
        ensures NumpySeed(args.startEpisodeIdx + i).Ok?
      {
        assert Produced(episode, args.startEpisodeIdx + i, run.files[i], run.success[i]);
        var b :| episode(args.startEpisodeIdx + i, b).Ok? && episode(args.startEpisodeIdx + i, b).value.file == run.files[i]
                 && episode(args.startEpisodeIdx + i, b).value.success == run.success[i];
        assert episode(args.startEpisodeIdx + i, b) == EpisodeOutcome(sim, s, SelectTask(args.taskName), args.taskName, args.startEpisodeIdx + i, b);
      }
      if run.files != [] {
        var last := |run.files| - 1;
        assert run.success[last] <= 1 && run.files[last].path == EpisodePath(s.saveDir, args.startEpisodeIdx + last);
        assert NumpySeed(args.startEpisodeIdx + 0).Ok? && NumpySeed(args.startEpisodeIdx + last).Ok?;
      }
    }
  }

  /** A run with a missing or repeated camera name records no file: every
      episode that gets as far as saving raises, so the first one ends the run. */
  lemma RecordingNeedsDistinctCameras<E, P>(sim: Simulator<E, P>, args: Args, configs: map<string, TaskConfig>,
                                            rootDefault: string, boxPose0: Option<Vec>)
    ensures var s := Resolve(args, configs, rootDefault);
      var run := Recording(sim, args, configs, rootDefault, boxPose0);
      && (run.files != [] ==> s.camList.Some? && Distinct(s.camList.value))
      && (s.numEpisodes.Some? && EpisodeCount(s.numEpisodes.value) > 0 && (s.camList.None? || !Distinct(s.camList.value)) ==>
            run.files == [] && run.failure.Some?)
  {
    var s := Resolve(args, configs, rootDefault);
    if s.numEpisodes.Some? {
      var episode := EpisodesOf(sim, s, SelectTask(args.taskName), args.taskName);
      var k := EpisodeCount(s.numEpisodes.value);
      RunShape(episode, args.startEpisodeIdx, boxPose0, k);
      var run := RunUpTo(episode, args.startEpisodeIdx, boxPose0, k);
      if run.files != [] {
        assert Produced(episode, args.startEpisodeIdx + 0, run.files[0], run.success[0]);
        var b :| episode(args.startEpisodeIdx + 0, b).Ok?;
        assert episode(args.startEpisodeIdx + 0, b) == EpisodeOutcome(sim, s, SelectTask(args.taskName), args.taskName, args.startEpisodeIdx + 0, b);
      }
    }
  }

  /** `main`: resolves the settings, selects the simulation task, and records the
      episodes `start_episode_idx`, `start_episode_idx + 1`, … in order,
      stopping at the first exception. */
  method Record<E, P>(sim: Simulator<E, P>, args: Args, configs: map<string, TaskConfig>,
                      rootDefault: string, boxPose0: Option<Vec>) returns (run: Run)
    ensures run == Recording(sim, args, configs, rootDefault, boxPose0)
  {
    var s := Resolve(args, configs, rootDefault);
    var task := SelectTask(args.taskName);
    if s.numEpisodes.None? {
      return Run([], [], boxPose0, Some(MissingLength));
    }
    run := RecordEpisodes(sim, s, task, args.taskName, args.startEpisodeIdx, boxPose0,
                          EpisodeCount(s.numEpisodes.value), EpisodesOf(sim, s, task, args.taskName));
  }

  /** The episode loop of `main`: episodes `start .. start + count - 1`,
      stopping at the first one that raises. */
  method RecordEpisodes<E, P>(sim: Simulator<E, P>, s: Settings, task: TaskSetup, taskName: string,
                              start: int, boxPose0: Option<Vec>, count: nat, ghost episode: Episodes) returns (run: Run)
    requires forall index, boxPose {:trigger EpisodeOutcome(sim, s, task, taskName, index, boxPose)} ::
      episode(index, boxPose) == EpisodeOutcome(sim, s, task, taskName, index, boxPose)
    ensures run == RunUpTo(episode, start, boxPose0, count)
  {
    run := Run([], [], boxPose0, None);
    var i := 0;
    while i < count && run.failure.None?
      invariant i <= count
      invariant run == RunUpTo(episode, start, boxPose0, i)
    {
      var rec := RecordEpisode(sim, s, task, taskName, start + i, run.boxPose);
      RunStep(episode, start, boxPose0, i, run);
      run := match rec
        case Err(e) => run.(failure := Some(e))
        case Ok(r) => Run(run.files + [r.file], run.success + [r.success], Some(r.boxPose), None);
      i := i + 1;
    }
    if i < count {
      RunErrPersists(episode, start, boxPose0, i, count);
    }
  }

  // ---------------------------------------------------------------------------
  // From recorder to converter

  /** What the converter reads back from a recorded file: the qpos and action
      datasets, and the number of frames of `cam_high` and of `cam_low` when
      they were recorded. */
  function StoredEpisode(f: HdfFile): (e: Hdf5ToParquet.EpisodeFile)
    ensures e.qpos == f.data.qpos && e.actions == f.data.action
    ensures e.camHigh.Some? <==> "cam_high" in f.data.images
    ensures e.camLow.Some? <==> "cam_low" in f.data.images
  {
    Hdf5ToParquet.EpisodeFile(f.data.qpos, f.data.action,
      if "cam_high" in f.data.images then Some(|f.data.images["cam_high"]|) else None,
      if "cam_low" in f.data.images then Some(|f.data.images["cam_low"]|) else None)
  }

  /** The recorder's `.hdf5` suffix can be added before or after the join. */
  lemma EpisodePathJoin(saveDir: string, index: int)
    ensures EpisodePath(saveDir, index) == PathJoin(saveDir, "episode_" + IntText(index) + ".hdf5")
  {
  }

  /** An episode recorded with index `index` and a `cam_high` or
      `cam_low` camera, read back as written, converts to
      `episode_<index>.parquet` with one row per recorded pair: row `i` holds
      pair `i`'s joint positions and its action, and the episode index `index`. */
  lemma RecordedEpisodeConverts<E, P>(sim: Simulator<E, P>, s: Settings, task: TaskSetup, taskName: string,
                                      index: int, boxPose: Option<Vec>, rec: Recorded, outDir: string,
                                      load: string -> Result<Hdf5ToParquet.EpisodeFile>)
    requires EpisodeOutcome(sim, s, task, taskName, index, boxPose) == Ok(rec)
    requires Distinct(s.camList.value)
    requires "cam_high" in s.camList.value || "cam_low" in s.camList.value
    requires load(rec.file.path) == Ok(StoredEpisode(rec.file))
    ensures var f, outcome := rec.file, Hdf5ToParquet.FileOutcome(rec.file.path, outDir, load);
      && outcome.Saved?
      && outcome.outputPath == PathJoin(outDir, "episode_" + NatText(index) + ".parquet")
      && |outcome.rows| == |f.data.qpos| == |f.data.action|
      && forall i | 0 <= i < |outcome.rows| ::
           && outcome.rows[i].state == f.data.qpos[i]
           && outcome.rows[i].action == Some(f.data.action[i])
           && outcome.rows[i].episodeIndex == index
           && outcome.rows[i].frameIndex == i
  {
    var n, cams := s.episodeLen.value, s.camList.value;
    var episode := EeEpisode(sim, s, task, taskName, index, boxPose, n);
    var replay := ReplayEpisode(sim, s, task, taskName, index, JointTrajectory(episode), episode[0].envState);
    EpisodeRecorded(sim, s, task, taskName, index, boxPose, n, cams);
    var path := EpisodePath(s.saveDir, index);
    assert Ok(rec) == Saved(path, episode, replay.1, sim.maxReward(replay.0), cams);
    SavedPairs(path, episode, replay.1, sim.maxReward(replay.0), cams);
    ConvertsAsStored(rec.file, n - 1, index, outDir, load);
  }

  /** The converter's view of a file of `k` recorded pairs named after episode `index`. */
  lemma ConvertsAsStored(f: HdfFile, k: nat, index: int, outDir: string, load: string -> Result<Hdf5ToParquet.EpisodeFile>)
    requires index >= 0
    requires exists saveDir :: f.path == EpisodePath(saveDir, index)
    requires |f.data.qpos| == k && |f.data.action| == k
    requires "cam_high" in f.data.images || "cam_low" in f.data.images
    requires forall c | c in f.data.images :: |f.data.images[c]| == k
    requires load(f.path) == Ok(StoredEpisode(f))
    ensures var outcome := Hdf5ToParquet.FileOutcome(f.path, outDir, load);
      && outcome.Saved?
      && outcome.outputPath == PathJoin(outDir, "episode_" + NatText(index) + ".parquet")
      && |outcome.rows| == k
      && forall i | 0 <= i < |outcome.rows| ::
           && outcome.rows[i].state == f.data.qpos[i]
           && outcome.rows[i].action == Some(f.data.action[i])
           && outcome.rows[i].episodeIndex == index
           && outcome.rows[i].frameIndex == i
  {
    var saveDir :| f.path == EpisodePath(saveDir, index);
    var digits := NatText(index);
    EpisodePathJoin(saveDir, index);
    assert f.path == PathJoin(saveDir, "episode_" + digits + ".hdf5");
    var cam := if "cam_high" in f.data.images then "cam_high" else "cam_low";
    assert Hdf5ToParquet.CameraFrames(StoredEpisode(f)) == Some(|f.data.images[cam]|);
    Hdf5ToParquet.StandardEpisodeSaved(saveDir, digits, outDir, load);
    NatTextValue(index);
  }
}
