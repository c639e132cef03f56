/** The dataset playback inspection: a random sample of episodes is chosen,
    sorted, and for each one the global frame range is computed from the
    per-episode lengths in the dataset's metadata; every frame in that range
    is drawn, labelled with its episode and frame index.

    The random generator is the permutation it would draw; the dataset is its
    number of episodes, the episode lengths of its metadata (when it has
    any) and its number of frames. The frames are kept as their labels
    `(episode, frame index)`; the drawing and the video file are left out. */
module DatasetPlayback {
  import opened Outcomes
  import opened Sorting

  // ---------------------------------------------------------------------------
  // Episode selection

  /** `perm` is a permutation of `0 .. n - 1`. */
  ghost predicate IsPermutationOfRange(perm: seq<nat>, n: nat) {
    && |perm| == n
    && (forall i | 0 <= i < n :: perm[i] < n)
    && (forall i, j | 0 <= i < j < n :: perm[i] != perm[j])
  }

  function NatLe(a: nat, b: nat): bool {
    a <= b
  }

  function Min(a: int, b: int): int {
    if a <= b then a else b
  }

  /** `np.random.choice(range(total), size=min(num_episodes, total), replace=False)`
      followed by `sort()`. Sampling without replacement takes the first
      `size` entries of a random permutation `perm` of the population; a
      negative size is rejected. */
  function SelectEpisodes(numEpisodes: int, total: nat, perm: seq<nat>): (r: Result<seq<nat>>)
    requires IsPermutationOfRange(perm, total)
    ensures r.Ok? <==> numEpisodes >= 0
    ensures r.Err? ==> r.error.kind == ValueError
    ensures r.Ok? ==> |r.value| == Min(numEpisodes, total)
  {
    if numEpisodes < 0 then Err(Error(ValueError, "negative dimensions are not allowed"))
    else Ok(Sort(perm[..Min(numEpisodes, total)], NatLe))
  }

  /** A sequence without repeats holds each value at most once. */
  lemma {:induction false} DistinctCounts(s: seq<nat>)
    requires forall i, j | 0 <= i < j < |s| :: s[i] != s[j]
    ensures forall x :: multiset(s)[x] <= 1
  {
    if |s| > 0 {
      DistinctCounts(s[1..]);
      assert s == [s[0]] + s[1..];
      assert s[0] !in s[1..];
    }
  }

  /** A rearrangement of a sequence without repeats has no repeats. */
  lemma RearrangedDistinct(s: seq<nat>, t: seq<nat>)
    requires forall i, j | 0 <= i < j < |s| :: s[i] != s[j]
    requires multiset(t) == multiset(s)
    ensures forall i, j | 0 <= i < j < |t| :: t[i] != t[j]
  {
    DistinctCounts(s);
    forall i, j | 0 <= i < j < |t|
      ensures t[i] != t[j]
    {
      assert t == t[..j] + t[j..];
      assert t[i] in multiset(t[..j]) && t[j] in multiset(t[j..]);
      assert multiset(t)[t[j]] == multiset(t[..j])[t[j]] + multiset(t[j..])[t[j]];
    }
  }

  lemma NatLeTotalPreorder()
    ensures TotalPreorder(NatLe)
  {
  }

  /** The inspected episodes are `min(num_episodes, total)` distinct valid
      indices, in strictly ascending order, drawn from the permutation's head. */
  lemma SelectedEpisodesAscending(numEpisodes: int, total: nat, perm: seq<nat>)
    requires IsPermutationOfRange(perm, total) && numEpisodes >= 0
    ensures var eps := SelectEpisodes(numEpisodes, total, perm).value;
      && (forall i, j | 0 <= i < j < |eps| :: eps[i] < eps[j])
      && (forall i | 0 <= i < |eps| :: eps[i] < total)
      && multiset(eps) == multiset(perm[..Min(numEpisodes, total)])
  {
    var head := perm[..Min(numEpisodes, total)];
    var eps := SelectEpisodes(numEpisodes, total, perm).value;
    NatLeTotalPreorder();
    SortSorted(head, NatLe);
    RearrangedDistinct(head, eps);
    forall i, j | 0 <= i < j < |eps|
      ensures eps[i] < eps[j]
    {
      assert NatLe(eps[i], eps[j]);
    }
    forall i | 0 <= i < |eps|
      ensures eps[i] < total
    {
      assert eps[i] in multiset(head);
    }
  }

  // ---------------------------------------------------------------------------
  // Frame range of one episode

  /** Without episode metadata every inspected episode shows the frames `[0, 100)`. */
  const FallbackFrames := 100

  /** The sum of the lengths of the episodes before `ep`. */
  function EpisodeStart(lengths: seq<nat>, ep: nat): nat
    requires ep <= |lengths|
  {
    if ep == 0 then 0 else EpisodeStart(lengths, ep - 1) + lengths[ep - 1]
  }

  /** The frame range `[start, end)` of episode `ep`, or `None` when looking
      it up raised (the episode is then skipped). */
  function FrameRange(hasMeta: bool, lengths: seq<nat>, ep: nat): Option<(nat, nat)> {
    if !hasMeta then Some((0, FallbackFrames))
    else if ep < |lengths| then Some((EpisodeStart(lengths, ep), EpisodeStart(lengths, ep) + lengths[ep]))
    else None
  }

  /** The `try` block: with metadata, the lengths of the episodes before `ep`
      are added up one by one and the range spans episode `ep`'s length; an
      index past the metadata raises, which skips the episode. */
  method ComputeFrameRange(hasMeta: bool, lengths: seq<nat>, ep: nat) returns (r: Option<(nat, nat)>)
    ensures r == FrameRange(hasMeta, lengths, ep)
  {
    if !hasMeta {
      return Some((0, FallbackFrames));
    }
    var startIdx := 0;
    for i := 0 to ep
      invariant i <= |lengths| && startIdx == EpisodeStart(lengths, i)
    {
      if i >= |lengths| {
        return None;
      }
      startIdx := startIdx + lengths[i];
    }
    if ep >= |lengths| {
      return None;
    }
    var length := lengths[ep];
    r := Some((startIdx, startIdx + length));
  }

  /** The range is skipped exactly for an episode the metadata does not list,
      falls back to `[0, 100)` without metadata, and otherwise spans the
      episode's length. */
  lemma FrameRangeCases(hasMeta: bool, lengths: seq<nat>, ep: nat)
    ensures FrameRange(hasMeta, lengths, ep).None? <==> hasMeta && ep >= |lengths|
    ensures !hasMeta ==> FrameRange(hasMeta, lengths, ep) == Some((0, 100))
    ensures hasMeta && ep < |lengths| ==>
              var rng := FrameRange(hasMeta, lengths, ep).value;
              rng.0 == EpisodeStart(lengths, ep) && rng.1 - rng.0 == lengths[ep]
  {
  }

  /** Consecutive episodes' ranges abut. */
  lemma RangesAbut(lengths: seq<nat>, ep: nat)
    requires ep + 1 < |lengths|
    ensures FrameRange(true, lengths, ep).value.1 == FrameRange(true, lengths, ep + 1).value.0
  {
  }

  /** An earlier episode's range ends no later than a later episode's begins. */
  lemma {:induction false} RangesDisjoint(lengths: seq<nat>, ep: nat, later: nat)
    requires ep < later < |lengths|
    ensures FrameRange(true, lengths, ep).value.1 <= FrameRange(true, lengths, later).value.0
    decreases later
  {
    if later > ep + 1 {
      RangesDisjoint(lengths, ep, later - 1);
    }
  }

  // ---------------------------------------------------------------------------
  // Frames drawn

  /** The frames one episode contributes: `(ep, i)` for `i` from `start` up to
      `end`, or IndexError at the first `i` past the dataset's last frame. */
  function EpisodeFrames(ep: nat, start: nat, end: nat, numFrames: nat): Result<seq<(nat, nat)>>
    decreases end
  {
    if end <= start then Ok([])
    else
      match EpisodeFrames(ep, start, end - 1, numFrames)
      case Err(e) => Err(e)
      case Ok(fs) =>
        if end - 1 >= numFrames then Err(Error(IndexError, "Invalid key is out of bounds"))
        else Ok(fs + [(ep, end - 1)])
  }

  /** An episode's frames are drawn in order, one per index of its range, and
      reading fails exactly when the range reaches past the dataset. */
  lemma {:induction false} EpisodeFramesShape(ep: nat, start: nat, end: nat, numFrames: nat)
    ensures EpisodeFrames(ep, start, end, numFrames).Ok? <==> end <= start || end <= numFrames
    ensures EpisodeFrames(ep, start, end, numFrames).Err? ==>
              EpisodeFrames(ep, start, end, numFrames).error.kind == IndexError
    ensures EpisodeFrames(ep, start, end, numFrames).Ok? ==>
              var fs := EpisodeFrames(ep, start, end, numFrames).value;
              && |fs| == (if end <= start then 0 else end - start)
              && forall k | 0 <= k < |fs| :: fs[k] == (ep, start + k)
    decreases end
  {
    if end > start {
      EpisodeFramesShape(ep, start, end - 1, numFrames);
    }
  }

  /** The frames drawn for the episodes `eps`, in order: a skipped episode
      adds none, and a failed frame read ends the inspection. */
  function Playback(eps: seq<nat>, hasMeta: bool, lengths: seq<nat>, numFrames: nat): Result<seq<(nat, nat)>> {
    if |eps| == 0 then Ok([])
    else
      match Playback(eps[..|eps| - 1], hasMeta, lengths, numFrames)
      case Err(e) => Err(e)
      case Ok(fs) =>
        match FrameRange(hasMeta, lengths, eps[|eps| - 1])
        case None => Ok(fs)
        case Some(rng) =>
          match EpisodeFrames(eps[|eps| - 1], rng.0, rng.1, numFrames)
          case Err(e) => Err(e)
          case Ok(more) => Ok(fs + more)
  }

  /** A failed frame read ends the inspection: the episodes after it change nothing. */
  lemma {:induction false} PlaybackErrPersists(eps: seq<nat>, k: nat, hasMeta: bool, lengths: seq<nat>, numFrames: nat)
    requires k <= |eps| && Playback(eps[..k], hasMeta, lengths, numFrames).Err?
    ensures Playback(eps, hasMeta, lengths, numFrames) == Playback(eps[..k], hasMeta, lengths, numFrames)
    decreases |eps|
  {
    if k < |eps| {
      assert eps[..|eps| - 1][..k] == eps[..k];
      PlaybackErrPersists(eps[..|eps| - 1], k, hasMeta, lengths, numFrames);
    } else {
      assert eps[..k] == eps;
    }
  }

  /** `inspect_dataset`: choose and sort the episodes, then draw the frames
      of each one's range. */
  method InspectDataset(numEpisodes: int, total: nat, perm: seq<nat>, hasMeta: bool, lengths: seq<nat>, numFrames: nat)
    returns (r: Result<seq<(nat, nat)>>)
    requires IsPermutationOfRange(perm, total)
    ensures SelectEpisodes(numEpisodes, total, perm).Err? ==> r == Err(SelectEpisodes(numEpisodes, total, perm).error)
    ensures SelectEpisodes(numEpisodes, total, perm).Ok? ==>
              r == Playback(SelectEpisodes(numEpisodes, total, perm).value, hasMeta, lengths, numFrames)
  {
    var selected := SelectEpisodes(numEpisodes, total, perm);
    if selected.Err? {
      return Err(selected.error);
    }
    var indices := selected.value;
    var frames: seq<(nat, nat)> := [];
    for k := 0 to |indices|
      invariant Playback(indices[..k], hasMeta, lengths, numFrames) == Ok(frames)
    {
      var epIdx := indices[k];
      assert indices[..k + 1][..k] == indices[..k];
      var rng := ComputeFrameRange(hasMeta, lengths, epIdx);
      if rng.None? {
        continue;
      }
      var startIdx, endIdx := rng.value.0, rng.value.1;
      var drawn := DrawEpisode(epIdx, startIdx, endIdx, numFrames);
      if drawn.Err? {
        assert Playback(indices[..k + 1], hasMeta, lengths, numFrames) == Err(drawn.error);
        PlaybackErrPersists(indices, k + 1, hasMeta, lengths, numFrames);
        return Err(drawn.error);
      }
      frames := frames + drawn.value;
    }
    assert indices[..|indices|] == indices;
    r := Ok(frames);
  }

  /** A failed read ends the episode's frame loop. */
  lemma {:induction false} EpisodeFramesErrPersists(ep: nat, start: nat, i: nat, end: nat, numFrames: nat)
    requires i <= end && EpisodeFrames(ep, start, i, numFrames).Err?
    ensures EpisodeFrames(ep, start, end, numFrames) == EpisodeFrames(ep, start, i, numFrames)
    decreases end
  {
    if i < end {
      EpisodeFramesErrPersists(ep, start, i, end - 1, numFrames);
    }
  }

  /** The frame loop of one episode: reads frame `i` for every `i` of the
      range and appends its label. */
  method DrawEpisode(ep: nat, start: nat, end: nat, numFrames: nat) returns (r: Result<seq<(nat, nat)>>)
    ensures r == EpisodeFrames(ep, start, end, numFrames)
  {
    var frames: seq<(nat, nat)> := [];
    if end <= start {
      return Ok(frames);
    }
    for i := start to end
      invariant EpisodeFrames(ep, start, i, numFrames) == Ok(frames)
    {
      if i >= numFrames {
        EpisodeFramesErrPersists(ep, start, i + 1, end, numFrames);
        return Err(Error(IndexError, "Invalid key is out of bounds"));
      }
      frames := frames + [(ep, i)];
    }
    r := Ok(frames);
  }

  /** Every frame drawn belongs to one of the inspected episodes and lies
      inside that episode's range. */
  lemma {:induction false} PlaybackInRange(eps: seq<nat>, hasMeta: bool, lengths: seq<nat>, numFrames: nat)
    requires Playback(eps, hasMeta, lengths, numFrames).Ok?
    ensures var fs := Playback(eps, hasMeta, lengths, numFrames).value;
      forall k | 0 <= k < |fs| ::
        && fs[k].0 in eps
        && FrameRange(hasMeta, lengths, fs[k].0).Some?
        && FrameRange(hasMeta, lengths, fs[k].0).value.0 <= fs[k].1 < FrameRange(hasMeta, lengths, fs[k].0).value.1
  {
    if |eps| > 0 {
      var init := eps[..|eps| - 1];
      var last := eps[|eps| - 1];
      PlaybackInRange(init, hasMeta, lengths, numFrames);
      var fs := Playback(init, hasMeta, lengths, numFrames).value;
      var rng := FrameRange(hasMeta, lengths, last);
      if rng.Some? {
        EpisodeFramesShape(last, rng.value.0, rng.value.1, numFrames);
      }
      forall x | x in init
        ensures x in eps
      {
        assert x == init[0] || x in init;
      }
    }
  }

  /** With metadata, frames are drawn in strictly ascending dataset order
      when the episodes are ascending: no frame is drawn twice. */
  lemma {:induction false} PlaybackAscending(eps: seq<nat>, lengths: seq<nat>, numFrames: nat)
    requires forall i, j | 0 <= i < j < |eps| :: eps[i] < eps[j]
    requires Playback(eps, true, lengths, numFrames).Ok?
    ensures var fs := Playback(eps, true, lengths, numFrames).value;
      forall a, b | 0 <= a < b < |fs| :: fs[a].1 < fs[b].1
  {
    if |eps| > 0 {
      var init := eps[..|eps| - 1];
      var last := eps[|eps| - 1];
      PlaybackAscending(init, lengths, numFrames);
      PlaybackInRange(init, true, lengths, numFrames);
      var fs := Playback(init, true, lengths, numFrames).value;
      var rng := FrameRange(true, lengths, last);
      if rng.Some? {
        EpisodeFramesShape(last, rng.value.0, rng.value.1, numFrames);
        var more := EpisodeFrames(last, rng.value.0, rng.value.1, numFrames).value;
        var all := fs + more;
        assert Playback(eps, true, lengths, numFrames).value == all;
        forall a, b | 0 <= a < b < |all|
          ensures all[a].1 < all[b].1
        {
          if a < |fs| && b >= |fs| {
            var prev := fs[a].0;
            var m :| 0 <= m < |init| && init[m] == prev;
            RangesDisjoint(lengths, prev, last);
          }
        }
      }
    }
  }
}
