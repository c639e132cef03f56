/** The seeds the global random generators accept.  numpy's legacy
    `np.random.seed` takes integers in `[0, 2**32)` and raises ValueError for
    any other; Gymnasium's `Env.reset(seed=…)` builds its own generator and
    raises `gymnasium.error.Error` for a negative seed. */
module Seeding {
  import opened Outcomes

  /** One past the largest seed `np.random.seed` accepts. */
  const SeedLimit: int := 0x1_0000_0000

  const SeedOutOfRange := Error(ValueError, "Seed must be between 0 and 2**32 - 1")

  /** `np.random.seed(seed)`: the seed in effect afterwards. */
  function NumpySeed(seed: int): (r: Result<nat>)
    ensures r.Ok? <==> 0 <= seed < SeedLimit
    ensures r.Ok? ==> r.value == seed
    ensures r.Err? ==> r.error.kind == ValueError
  {
    if 0 <= seed < SeedLimit then Ok(seed) else Err(SeedOutOfRange)
  }

  /** The seed check of Gymnasium's `Env.reset(seed=seed)`. */
  function GymnasiumSeed(seed: int): (r: Result<nat>)
    ensures r.Ok? <==> 0 <= seed
    ensures r.Ok? ==> r.value == seed
    ensures r.Err? ==> r.error.kind == GymnasiumError
  {
    if seed < 0 then Err(Error(GymnasiumError, "Seed must be greater or equal to zero"))
    else Ok(seed)
  }

  /** A seed numpy accepts passes Gymnasium's check as well. */
  lemma NumpySeedPassesGymnasium(seed: int)
    requires NumpySeed(seed).Ok?
    ensures GymnasiumSeed(seed) == Ok(seed as nat)
  {
  }
}
