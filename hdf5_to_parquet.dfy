/** The HDF5-to-parquet converter: every `episode_*.hdf5` file of a directory
    becomes a table with one row per recorded step (joint positions, the
    path of the step's PNG frame, the action when one was recorded, the
    timestamp, the episode index and the frame index), saved next to it as
    `episode_*.parquet`.

    An HDF5 file is its qpos rows, its action rows and, for each camera
    stored under `/observations/images`, the number of frames stored; the
    file reader is an oracle that may fail. The PNG and parquet writers are
    left out: the model keeps the rows and the output path. */
module Hdf5ToParquet {
  import opened Outcomes
  import opened Text
  import opened Sorting

  /** The simulation time step between recorded frames. */
  const DT: real := 0.02

  /** An HDF5 episode: its qpos rows, its action rows, and the number of
      frames stored for `cam_high` and for `cam_low` when they were recorded. */
  datatype EpisodeFile = EpisodeFile(qpos: seq<seq<real>>, actions: seq<seq<real>>,
                                     camHigh: Option<nat>, camLow: Option<nat>)

  datatype Row = Row(state: seq<real>, imagePath: string, action: Option<seq<real>>,
                     timestamp: real, episodeIndex: int, frameIndex: nat)

  // ---------------------------------------------------------------------------
  // Names

  /** The episode id: the file's base name with every ".hdf5" and then every
      "episode_" removed. */
  function EpisodeId(path: string): string {
    Replace(Replace(Basename(path), ".hdf5", ""), "episode_", "")
  }

  /** The image file name of step `i`: `frame_` and `i` zero-padded to six digits. */
  function FrameName(i: nat): string {
    "frame_" + ZeroPadded(i, 6) + ".png"
  }

  /** The stored image path, relative to the dataset root. */
  function ImagePath(episodeId: string, i: nat): string {
    PathJoin(PathJoin("images", "episode_" + episodeId), FrameName(i))
  }

  /** The parquet file written for an input file: its base name with ".hdf5" replaced by ".parquet". */
  function OutputPath(outDir: string, h5File: string): string {
    PathJoin(outDir, Replace(Basename(h5File), ".hdf5", ".parquet"))
  }

  /** A file named `episode_<digits>.hdf5` has the episode id `<digits>`, and
      its table is saved as `episode_<digits>.parquet`. */
  lemma StandardFileNames(dir: string, digits: string, outDir: string)
    requires forall i | 0 <= i < |digits| :: IsDigit(digits[i])
    ensures EpisodeId(PathJoin(dir, "episode_" + digits + ".hdf5")) == digits
    ensures OutputPath(outDir, PathJoin(dir, "episode_" + digits + ".hdf5")) == PathJoin(outDir, "episode_" + digits + ".parquet")
  {
    StandardNameChars(digits);
    BasenameOfJoin(dir, "episode_" + digits + ".hdf5");
    StandardStem(digits);
    ReplaceSuffix("episode_" + digits, ".hdf5", ".parquet");
  }

  /** The id is what remains of the base name without its suffix and prefix. */
  lemma StandardStem(digits: string)
    requires forall i | 0 <= i < |digits| :: IsDigit(digits[i])
    ensures Replace(Replace("episode_" + digits + ".hdf5", ".hdf5", ""), "episode_", "") == digits
  {
    var stem := "episode_" + digits;
    StandardNameChars(digits);
    ReplaceSuffix(stem, ".hdf5", "");
    assert stem + "" == stem;
    ReplacePrefix("episode_", digits, "");
    ReplaceAbsent(digits, "episode_", "");
    assert "" + digits == digits;
  }

  /** A standard name has no separator, its stem no dot, its digits no `e`. */
  lemma StandardNameChars(digits: string)
    requires forall i | 0 <= i < |digits| :: IsDigit(digits[i])
    ensures '/' !in "episode_" + digits + ".hdf5"
    ensures '.' !in "episode_" + digits
    ensures 'e' !in digits
  {
    var stem := "episode_" + digits;
    var name := stem + ".hdf5";
    forall k | 0 <= k < |name| ensures name[k] != '/' {
      if 8 <= k < 8 + |digits| {
        assert name[k] == digits[k - 8];
      }
    }
    forall k | 0 <= k < |stem| ensures stem[k] != '.' {
      if 8 <= k {
        assert stem[k] == digits[k - 8];
      }
    }
    forall k | 0 <= k < |digits| ensures digits[k] != 'e' {
      assert IsDigit(digits[k]);
    }
  }

  /** The frame name holds `i` in decimal between its fixed prefix and
      suffix, so distinct steps get distinct names; below a million it is
      always 16 characters long. */
  lemma FrameNameDecodes(i: nat)
    ensures var name := FrameName(i);
      && |name| >= 16
      && name[..6] == "frame_" && name[|name| - 4..] == ".png"
      && (forall k | 6 <= k < |name| - 4 :: IsDigit(name[k]))
      && DigitsValue(name[6..|name| - 4]) == i
    ensures i < 1000000 ==> |FrameName(i)| == 16
  {
    var name := FrameName(i);
    var digits := ZeroPadded(i, 6);
    ZeroPaddedValue(i, 6);
    assert name[6..|name| - 4] == digits;
    if i < 1000000 {
      assert Pow10(6) == 1000000;
      NatTextLength(i, 6);
    }
  }

  /** An episode id holds no path separator. */
  lemma EpisodeIdNoSeparator(path: string)
    ensures '/' !in EpisodeId(path)
  {
    ReplaceAvoids(Basename(path), ".hdf5", "", '/');
    ReplaceAvoids(Replace(Basename(path), ".hdf5", ""), "episode_", "", '/');
  }

  /** The stored path is `images/episode_<id>/<frame name>`. */
  lemma ImagePathLayout(episodeId: string, i: nat)
    requires '/' !in episodeId
    ensures ImagePath(episodeId, i) == "images/episode_" + episodeId + "/" + FrameName(i)
  {
    var dir := "images/episode_" + episodeId;
    assert PathJoin("images", "episode_" + episodeId) == dir;
    assert |dir| > 0 && dir[|dir| - 1] != '/' by {
      if |episodeId| == 0 {
        assert dir[|dir| - 1] == '_';
      } else {
        assert dir[|dir| - 1] == episodeId[|episodeId| - 1];
      }
    }
  }

  // ---------------------------------------------------------------------------
  // convert_episode

  /** The number of frames of the camera that is read: `cam_high` when it
      was recorded, else `cam_low`, else none. */
  function CameraFrames(file: EpisodeFile): Option<nat> {
    if file.camHigh.Some? then file.camHigh else file.camLow
  }

  /** The row of step `i`. */
  function RowAt(file: EpisodeFile, episodeId: string, episodeIndex: int, i: nat): Row
    requires i < |file.qpos|
  {
    Row(file.qpos[i], ImagePath(episodeId, i),
        if i < |file.actions| then Some(file.actions[i]) else None,
        i as real * DT, episodeIndex, i)
  }

  /** The rows of the first `n` steps, or the exception raised while building
      them: reading the frame of a step the camera did not store raises
      IndexError, and an episode id that is not an integer raises ValueError
      when the first row is built. */
  function RowsUpTo(file: EpisodeFile, episodeId: string, frames: nat, n: nat): Result<seq<Row>>
    requires n <= |file.qpos|
  {
    if n == 0 then Ok([])
    else
      match RowsUpTo(file, episodeId, frames, n - 1)
      case Err(e) => Err(e)
      case Ok(rows) =>
        if n - 1 >= frames then Err(Error(IndexError, "index out of bounds for axis 0"))
        else
          match ParseInt(episodeId)
          case Err(e) => Err(e)
          case Ok(index) => Ok(rows + [RowAt(file, episodeId, index, n - 1)])
  }

  /** `convert_episode(path)`: no table (`None`) when neither camera was
      recorded, otherwise the rows of every step or the exception raised. */
  function EpisodeRows(path: string, file: EpisodeFile): Result<Option<seq<Row>>> {
    match CameraFrames(file)
    case None => Ok(None)
    case Some(frames) =>
      match RowsUpTo(file, EpisodeId(path), frames, |file.qpos|)
      case Err(e) => Err(e)
      case Ok(rows) => Ok(Some(rows))
  }

  /** The rows built so far, and the first exception. */
  lemma {:induction false} RowsUpToShape(file: EpisodeFile, episodeId: string, frames: nat, n: nat)
    requires n <= |file.qpos|
    ensures RowsUpTo(file, episodeId, frames, n).Ok? <==> n == 0 || (n <= frames && ParseInt(episodeId).Ok?)
    ensures RowsUpTo(file, episodeId, frames, n).Err? ==>
              RowsUpTo(file, episodeId, frames, n).error.kind ==
                (if frames == 0 || (frames < n && ParseInt(episodeId).Ok?) then IndexError else ValueError)
    ensures RowsUpTo(file, episodeId, frames, n).Ok? ==>
              var rows := RowsUpTo(file, episodeId, frames, n).value;
              && |rows| == n
              && forall i | 0 <= i < n :: rows[i] == RowAt(file, episodeId, ParseInt(episodeId).value, i)
  {
    RowsUpToRows(file, episodeId, frames, n);
    RowsUpToFailure(file, episodeId, frames, n);
  }

  /** Rows are built while steps have a frame and the id parses; row `i` is step `i`'s. */
  lemma {:induction false} RowsUpToRows(file: EpisodeFile, episodeId: string, frames: nat, n: nat)
    requires n <= |file.qpos|
    ensures RowsUpTo(file, episodeId, frames, n).Ok? <==> n == 0 || (n <= frames && ParseInt(episodeId).Ok?)
    ensures RowsUpTo(file, episodeId, frames, n).Ok? ==>
              var rows := RowsUpTo(file, episodeId, frames, n).value;
              && |rows| == n
              && forall i | 0 <= i < n :: rows[i] == RowAt(file, episodeId, ParseInt(episodeId).value, i)
    decreases n
  {
    if n > 0 {
      RowsUpToRows(file, episodeId, frames, n - 1);
      var prev := RowsUpTo(file, episodeId, frames, n - 1);
      if prev.Ok? && n - 1 < frames && ParseInt(episodeId).Ok? {
        var rows := prev.value + [RowAt(file, episodeId, ParseInt(episodeId).value, n - 1)];
        assert RowsUpTo(file, episodeId, frames, n) == Ok(rows);
        forall i | 0 <= i < n
          ensures rows[i] == RowAt(file, episodeId, ParseInt(episodeId).value, i)
        {
          if i < n - 1 {
            assert rows[i] == prev.value[i];
          }
        }
      }
    }
  }

  /** The first missing frame raises IndexError, unless the first row
      already raised ValueError for an id that is not an integer. */
  lemma {:induction false} RowsUpToFailure(file: EpisodeFile, episodeId: string, frames: nat, n: nat)
    requires n <= |file.qpos|
    ensures RowsUpTo(file, episodeId, frames, n).Err? ==>
              RowsUpTo(file, episodeId, frames, n).error.kind ==
                (if frames == 0 || (frames < n && ParseInt(episodeId).Ok?) then IndexError else ValueError)
    decreases n
  {
    if n > 0 {
      RowsUpToFailure(file, episodeId, frames, n - 1);
      RowsUpToRows(file, episodeId, frames, n - 1);
      ParseIntErrKind(episodeId);
    }
  }

  /** `int()` reports bad text as ValueError. */
  lemma ParseIntErrKind(s: string)
    ensures ParseInt(s).Err? ==> ParseInt(s).error.kind == ValueError
  {
  }

  /** The row of step `i`, field by field: the step's joint positions, the
      zero-padded image path, the step's action when one was recorded and
      `None` after the last action, the time `i * DT`, the episode index and
      `frame_index == i`. */
  ghost predicate IsStepRow(row: Row, file: EpisodeFile, episodeId: string, episodeIndex: int, i: nat) {
    && i < |file.qpos|
    && row.frameIndex == i
    && row.state == file.qpos[i]
    && (row.action.Some? <==> i < |file.actions|)
    && (i < |file.actions| ==> row.action.value == file.actions[i])
    && row.imagePath == "images/episode_" + episodeId + "/" + FrameName(i)
    && row.episodeIndex == episodeIndex
    && row.timestamp == i as real * DT
  }

  lemma RowAtIsStepRow(file: EpisodeFile, episodeId: string, episodeIndex: int, i: nat)
    requires i < |file.qpos| && '/' !in episodeId
    ensures IsStepRow(RowAt(file, episodeId, episodeIndex, i), file, episodeId, episodeIndex, i)
  {
    ImagePathLayout(episodeId, i);
  }

  /** What `convert_episode` promises: one row per qpos step, in step order,
      row `i` being the row of step `i`. */
  lemma EpisodeRowsContents(path: string, file: EpisodeFile)
    requires EpisodeRows(path, file).Ok? && EpisodeRows(path, file).value.Some?
    ensures var rows := EpisodeRows(path, file).value.value;
      && |rows| == |file.qpos|
      && forall i | 0 <= i < |rows| :: IsStepRow(rows[i], file, EpisodeId(path), ParseInt(EpisodeId(path)).value, i)
  {
    var frames := CameraFrames(file).value;
    var id := EpisodeId(path);
    var table := RowsUpTo(file, id, frames, |file.qpos|);
    assert EpisodeRows(path, file) == match table case Err(e) => Err(e) case Ok(rows) => Ok(Some(rows));
    EpisodeIdNoSeparator(path);
    TableRows(file, id, frames);
  }

  lemma TableRows(file: EpisodeFile, id: string, frames: nat)
    requires RowsUpTo(file, id, frames, |file.qpos|).Ok? && '/' !in id
    ensures var rows := RowsUpTo(file, id, frames, |file.qpos|).value;
      && |rows| == |file.qpos|
      && forall i | 0 <= i < |rows| :: IsStepRow(rows[i], file, id, ParseInt(id).value, i)
  {
    RowsUpToShape(file, id, frames, |file.qpos|);
    var rows := RowsUpTo(file, id, frames, |file.qpos|).value;
    forall i | 0 <= i < |rows|
      ensures IsStepRow(rows[i], file, id, ParseInt(id).value, i)
    {
      RowAtIsStepRow(file, id, ParseInt(id).value, i);
    }
  }

  /** The camera fallback: a table exactly when `cam_high` or `cam_low` was recorded. */
  lemma EpisodeRowsCamera(path: string, file: EpisodeFile)
    ensures EpisodeRows(path, file) == Ok(None) <==> file.camHigh.None? && file.camLow.None?
  {
    match CameraFrames(file)
    case None =>
    case Some(frames) =>
      match RowsUpTo(file, EpisodeId(path), frames, |file.qpos|)
      case Err(e) => assert EpisodeRows(path, file) == Err(e);
      case Ok(rows) => assert EpisodeRows(path, file) == Ok(Some(rows));
  }

  /** An exception while building rows ends the episode. */
  lemma {:induction false} RowsUpToErrPersists(file: EpisodeFile, episodeId: string, frames: nat, i: nat, n: nat)
    requires i <= n <= |file.qpos| && RowsUpTo(file, episodeId, frames, i).Err?
    ensures RowsUpTo(file, episodeId, frames, n) == RowsUpTo(file, episodeId, frames, i)
    decreases n
  {
    if i < n {
      RowsUpToErrPersists(file, episodeId, frames, i, n - 1);
    }
  }

  /** `convert_episode`: picks the camera, then builds the rows. */
  method ConvertEpisode(path: string, file: EpisodeFile) returns (r: Result<Option<seq<Row>>>)
    ensures r == EpisodeRows(path, file)
  {
    var camFrames := CameraFrames(file);
    if camFrames.None? {
      return Ok(None);
    }
    var frames := camFrames.value;
    var episodeId := EpisodeId(path);
    var dataRows := BuildRows(file, episodeId, frames);
    assert EpisodeRows(path, file) == match dataRows case Err(e) => Err(e) case Ok(rows) => Ok(Some(rows));
    if dataRows.Err? {
      return Err(dataRows.error);
    }
    r := Ok(Some(dataRows.value));
  }

  /** The row loop of `convert_episode`: reads the frame of every step and
      appends the step's row. */
  method BuildRows(file: EpisodeFile, episodeId: string, frames: nat) returns (r: Result<seq<Row>>)
    ensures r == RowsUpTo(file, episodeId, frames, |file.qpos|)
  {
    var numSteps := |file.qpos|;
    var dataRows: seq<Row> := [];
    for i := 0 to numSteps
      invariant RowsUpTo(file, episodeId, frames, i) == Ok(dataRows)
    {
      if i >= frames {
        RowsUpToErrPersists(file, episodeId, frames, i + 1, numSteps);
        return Err(Error(IndexError, "index out of bounds for axis 0"));
      }
      var index := ParseInt(episodeId);
      if index.Err? {
        RowsUpToErrPersists(file, episodeId, frames, i + 1, numSteps);
        return Err(index.error);
      }
      var action := if i < |file.actions| then Some(file.actions[i]) else None;
      var row := Row(file.qpos[i], ImagePath(episodeId, i), action, i as real * DT, index.value, i);
      assert row == RowAt(file, episodeId, index.value, i);
      dataRows := dataRows + [row];
    }
    r := Ok(dataRows);
  }

  // ---------------------------------------------------------------------------
  // main

  /** The base names `episode_*.hdf5` matches. */
  predicate MatchesEpisodeGlob(name: string) {
    |name| >= 13 && name[..8] == "episode_" && name[|name| - 5..] == ".hdf5"
  }

  /** `glob(join(data_dir, "episode_*.hdf5"))` over the directory's entries, in listing order. */
  function GlobEpisodes(dataDir: string, listing: seq<string>): (r: seq<string>)
    ensures |r| <= |listing|
  {
    if |listing| == 0 then []
    else
      var rest := GlobEpisodes(dataDir, listing[..|listing| - 1]);
      var name := listing[|listing| - 1];
      if MatchesEpisodeGlob(name) then rest + [PathJoin(dataDir, name)] else rest
  }

  /** The glob yields, under the data directory, exactly the entries whose names match. */
  lemma {:induction false} GlobEpisodesMatch(dataDir: string, listing: seq<string>)
    ensures forall name | name in listing && MatchesEpisodeGlob(name) :: PathJoin(dataDir, name) in GlobEpisodes(dataDir, listing)
    ensures forall f | f in GlobEpisodes(dataDir, listing) ::
              exists name | name in listing :: MatchesEpisodeGlob(name) && f == PathJoin(dataDir, name)
  {
    if |listing| > 0 {
      var init := listing[..|listing| - 1];
      GlobEpisodesMatch(dataDir, init);
      assert listing == init + [listing[|listing| - 1]];
    }
  }

  /** What happens to one input file. */
  datatype Outcome =
    | Saved(outputPath: string, rows: seq<Row>)
    | Skipped(h5File: string)
    | Failed(h5File: string, message: string)

  /** One file of the loop: read it, convert it, and save the table when
      there is one; any exception is caught and reported. */
  function FileOutcome(h5File: string, outDir: string, load: string -> Result<EpisodeFile>): Outcome {
    match load(h5File)
    case Err(e) => Failed(h5File, e.message)
    case Ok(file) =>
      match EpisodeRows(h5File, file)
      case Err(e) => Failed(h5File, e.message)
      case Ok(None) => Skipped(h5File)
      case Ok(Some(rows)) => Saved(OutputPath(outDir, h5File), rows)
  }

  /** The files in the order they are converted: sorted. */
  function ConversionOrder(dataDir: string, listing: seq<string>): seq<string> {
    Sort(GlobEpisodes(dataDir, listing), LexLe)
  }

  lemma LexLeTotalPreorder()
    ensures TotalPreorder(LexLe)
  {
    forall a, b ensures LexLe(a, b) || LexLe(b, a) {
      LexLeTotal(a, b);
    }
    forall a, b, c | LexLe(a, b) && LexLe(b, c) ensures LexLe(a, c) {
      LexLeTransitive(a, b, c);
    }
  }

  /** The files are converted in ascending name order, each matched file exactly once. */
  lemma ConversionOrderSorted(dataDir: string, listing: seq<string>)
    ensures SortedBy(ConversionOrder(dataDir, listing), LexLe)
    ensures multiset(ConversionOrder(dataDir, listing)) == multiset(GlobEpisodes(dataDir, listing))
  {
    LexLeTotalPreorder();
    SortSorted(GlobEpisodes(dataDir, listing), LexLe);
  }

  /** A readable file `episode_<digits>.hdf5` whose camera stored a frame for
      every step is saved as `episode_<digits>.parquet`, one row per step,
      row `i` being step `i`'s row with the episode index `<digits>` denotes. */
  lemma StandardEpisodeSaved(dataDir: string, digits: string, outDir: string, load: string -> Result<EpisodeFile>)
    requires |digits| > 0 && forall i | 0 <= i < |digits| :: IsDigit(digits[i])
    requires var h5 := PathJoin(dataDir, "episode_" + digits + ".hdf5");
      && load(h5).Ok?
      && CameraFrames(load(h5).value).Some?
      && |load(h5).value.qpos| <= CameraFrames(load(h5).value).value
    ensures var h5 := PathJoin(dataDir, "episode_" + digits + ".hdf5");
      var outcome := FileOutcome(h5, outDir, load);
      && outcome.Saved?
      && outcome.outputPath == PathJoin(outDir, "episode_" + digits + ".parquet")
      && |outcome.rows| == |load(h5).value.qpos|
      && forall i | 0 <= i < |outcome.rows| :: IsStepRow(outcome.rows[i], load(h5).value, digits, DigitsValue(digits), i)
  {
    var h5 := PathJoin(dataDir, "episode_" + digits + ".hdf5");
    var file := load(h5).value;
    StandardFileNames(dataDir, digits, outDir);
    assert EpisodeId(h5) == digits;
    assert ParseInt(digits) == Ok(DigitsValue(digits));
    var frames := CameraFrames(file).value;
    RowsUpToShape(file, digits, frames, |file.qpos|);
    var table := RowsUpTo(file, digits, frames, |file.qpos|);
    assert EpisodeRows(h5, file) == Ok(Some(table.value));
    EpisodeRowsContents(h5, file);
  }

  /** The `try` block of the loop of `main` and its `except`. */
  method ConvertFile(h5File: string, outDir: string, load: string -> Result<EpisodeFile>) returns (outcome: Outcome)
    ensures outcome == FileOutcome(h5File, outDir, load)
  {
    var loaded := load(h5File);
    if loaded.Err? {
      return Failed(h5File, loaded.error.message);
    }
    var df := ConvertEpisode(h5File, loaded.value);
    if df.Err? {
      outcome := Failed(h5File, df.error.message);
    } else if df.value.Some? {
      outcome := Saved(OutputPath(outDir, h5File), df.value.value);
    } else {
      outcome := Skipped(h5File);
    }
  }

  /** `main`: nothing happens when the data directory does not exist;
      otherwise the output directory is `--output_dir` when given, else the
      data directory, and every matched file is converted in sorted order,
      a failure on one file leaving the others unaffected. */
  method ConvertAll(dataDir: string, isDir: bool, outputDir: Option<string>, listing: seq<string>,
                    load: string -> Result<EpisodeFile>)
    returns (outDir: Option<string>, outcomes: seq<Outcome>)
    ensures !isDir ==> outDir == None && outcomes == []
    ensures isDir ==> outDir == Some(OrElse(outputDir, dataDir))
    ensures isDir ==>
              var files := ConversionOrder(dataDir, listing);
              && |outcomes| == |files|
              && forall k | 0 <= k < |files| :: outcomes[k] == FileOutcome(files[k], outDir.value, load)
  {
    if !isDir {
      return None, [];
    }
    var outputParquetDir := OrElse(outputDir, dataDir);
    outDir := Some(outputParquetDir);
    var hdf5Files := GlobEpisodes(dataDir, listing);
    hdf5Files := Sort(hdf5Files, LexLe);
    outcomes := [];
    for k := 0 to |hdf5Files|
      invariant |outcomes| == k
      invariant forall j | 0 <= j < k :: outcomes[j] == FileOutcome(hdf5Files[j], outputParquetDir, load)
    {
      var outcome := ConvertFile(hdf5Files[k], outputParquetDir, load);
      outcomes := outcomes + [outcome];
    }
  }
}
