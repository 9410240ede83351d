/** The per-file logic of batch_compress_and_compare.py: one SVT-AV1 and
    Opus encode into a timestamped temporary file, a comparison of the two
    files' probes, and the moves of the original to `over/` and of the
    encode to `output/`. Nothing is moved unless the encode succeeded. */
module Compare {
  import opened Common
  import opened Json
  import opened Paths
  import opened ProbeSummary
  import opened Report

  const FFMPEG_CMD := "ffmpeg"
  const DIR_OVER: Path := ["over"]
  const DIR_OUTPUT: Path := ["output"]

  /** The encoding options, word for word, including the two settings
      written as bare words ("preset" "6" and "aq-mode" "3") rather than
      as options. */
  const VIDEO_OPTIONS: seq<string> :=
    ["-c:v", "libsvtav1", "-threads", "8", "-crf", "22", "-g", "240",
     "preset", "6", "aq-mode", "3",
     "-svtav1-params", "tune=0:enable-overlays=1:scd=1",
     "-pix_fmt", "yuv420p10le", "-c:a", "libopus", "-b:a", "100k"]

  const METADATA_OPTIONS: seq<string> := ["-metadata", "comment=Encoded by Pradeep"]

  /** The temporary output `{stem}_{ts}.mp4` in the working directory. */
  function TempPath(input: Path, ts: string): Path {
    Timestamped(input, ts, ".mp4")
  }

  /** The log file `{stem}_{ts}.log` that receives FFmpeg's output. */
  function LogPath(input: Path, ts: string): Path {
    Timestamped(input, ts, ".log")
  }

  /** The FFmpeg command of `process_video`. */
  function Command(input: Path, temp: Path): seq<string> {
    [FFMPEG_CMD, "-hide_banner", "-loglevel", "info", "-report", "-y", "-i", PathText(input)]
    + VIDEO_OPTIONS + METADATA_OPTIONS + [PathText(temp)]
  }

  /** The command reads the input right after `-i`, passes both option
      lists unchanged and in order, and writes the temporary file last;
      nothing else in it depends on the file. */
  lemma CommandLayout(input: Path, other: Path, temp: Path, temp': Path)
    ensures var cmd := Command(input, temp);
            && |cmd| == 31
            && cmd[6] == "-i" && cmd[7] == PathText(input)
            && cmd[8..28] == VIDEO_OPTIONS && cmd[28..30] == METADATA_OPTIONS
            && cmd[30] == PathText(temp)
    ensures forall k :: 0 <= k < 31 && k != 7 && k != 30 ==> Command(input, temp)[k] == Command(other, temp')[k]
  {
    var cmd := Command(input, temp);
    var cmd' := Command(other, temp');
    assert cmd[8..28] == VIDEO_OPTIONS && cmd'[8..28] == VIDEO_OPTIONS;
    assert cmd[28..30] == METADATA_OPTIONS && cmd'[28..30] == METADATA_OPTIONS;
    forall k | 0 <= k < 31 && k != 7 && k != 30
      ensures cmd[k] == cmd'[k]
    {
      if 8 <= k < 28 {
        assert cmd[k] == cmd[8..28][k - 8] && cmd'[k] == cmd'[8..28][k - 8];
      } else if 28 <= k < 30 {
        assert cmd[k] == cmd[28..30][k - 28] && cmd'[k] == cmd'[28..30][k - 28];
      }
    }
  }

  /** The command tells the files apart: different inputs or different
      temporary files give different commands. */
  lemma CommandInjective(input: Path, other: Path, temp: Path, temp': Path)
    requires Command(input, temp) == Command(other, temp')
    ensures PathText(input) == PathText(other) && PathText(temp) == PathText(temp')
  {
    CommandLayout(input, other, temp, temp');
    CommandLayout(other, input, temp', temp);
  }

  /** What `process_video` observes: the input's size (none when it is
      missing), the timestamp, FFmpeg's exit code, the size of the
      temporary output (none when it is missing) and what `run_ffprobe`
      returns for the two files (`{}` when ffprobe fails). */
  datatype Observed = Observed(
    origSize: Option<int>,
    timestamp: string,
    exitCode: int,
    compSize: Option<int>,
    origProbe: map<string, Json>,
    compProbe: map<string, Json>)

  /** How `process_video` ends: the input is missing, FFmpeg fails, the
      encode is missing, an exception escapes the comparison (a probe
      field does not convert), or everything is done. */
  datatype Outcome = Missing | EncodeFailed | NoOutput | Crashed(error: string) | Done(table: seq<seq<string>>)

  /** `print_comparison`'s table, or the exception that stops it; this
      script keeps a format value only when it is truthy. */
  function Comparison(obs: Observed): (r: Result<seq<seq<string>>, string>)
    ensures r.Ok? ==> |r.value| == 5
    ensures ExtractSummaryOf(obs.origProbe, Truthiness).Err? ==> r == Err(ExtractSummaryOf(obs.origProbe, Truthiness).error)
    ensures ExtractSummaryOf(obs.origProbe, Truthiness).Ok? && ExtractSummaryOf(obs.compProbe, Truthiness).Err? ==>
      r == Err(ExtractSummaryOf(obs.compProbe, Truthiness).error)
    ensures ExtractSummaryOf(obs.origProbe, Truthiness).Ok? && ExtractSummaryOf(obs.compProbe, Truthiness).Ok? ==>
      r == Table(ExtractSummaryOf(obs.origProbe, Truthiness).value, ExtractSummaryOf(obs.compProbe, Truthiness).value)
  {
    match ExtractSummaryOf(obs.origProbe, Truthiness)
    case Err(e) => Err(e)
    case Ok(o) =>
      match ExtractSummaryOf(obs.compProbe, Truthiness)
      case Err(e) => Err(e)
      case Ok(c) => Table(o, c)
  }

  /** The moves after a successful encode: a file already at a target is
      removed first. */
  function Finish(input: Path, ts: string): seq<Action> {
    var overTarget := DIR_OVER + [Name(input)];
    var outTarget := DIR_OUTPUT + [Stem(Name(input)) + ".mp4"];
    [Discard(overTarget), Move(input, overTarget), Discard(outTarget), Move(TempPath(input, ts), outTarget)]
  }

  /** `process_video(input)`: how it ends and the actions it takes. */
  function Decide(input: Path, obs: Observed): (Outcome, seq<Action>) {
    var ts := obs.timestamp;
    var run := RunFfmpeg(Command(input, TempPath(input, ts)), LogPath(input, ts));
    if obs.origSize.None? then (Missing, [])
    else if obs.exitCode != 0 then (EncodeFailed, [run])
    else if obs.compSize.None? then (NoOutput, [run])
    else match Comparison(obs)
      case Err(e) => (Crashed(e), [run])
      case Ok(table) => (Done(table), [run] + Finish(input, ts))
  }

  /** The moves take the original to `over/` under its name and the
      encode to `output/` as `{stem}.mp4`, each after clearing its target;
      they run no encoder. */
  lemma FinishEffects(input: Path, ts: string)
    ensures var f := Finish(input, ts);
            && |f| == 4
            && f[0] == Discard(DIR_OVER + [Name(input)]) && f[1] == Move(input, DIR_OVER + [Name(input)])
            && f[2] == Discard(DIR_OUTPUT + [Stem(Name(input)) + ".mp4"])
            && f[3] == Move(TempPath(input, ts), DIR_OUTPUT + [Stem(Name(input)) + ".mp4"])
            && forall a <- f :: !a.RunFfmpeg?
  {
  }

  /** A finished run is the encode followed by the moves; any other run
      at most ran the encoder. */
  lemma DecideShape(input: Path, obs: Observed)
    ensures var (o, acts) := Decide(input, obs);
            o.Done? ==> |acts| == 5 && acts[1..] == Finish(input, obs.timestamp)
    ensures var (o, acts) := Decide(input, obs);
            !o.Done? ==> |acts| <= 1 && forall a <- acts :: a.RunFfmpeg?
  {
  }

  /** A file is moved or removed exactly when the input exists, FFmpeg
      exits with 0, the encode exists and both probes summarise; the
      encoder runs exactly when the input exists. */
  lemma SuccessGating(input: Path, obs: Observed)
    ensures var (o, acts) := Decide(input, obs);
            (exists a <- acts :: a.Move? || a.Discard?) <==> o.Done?
    ensures Decide(input, obs).0.Done? <==>
              obs.origSize.Some? && obs.exitCode == 0 && obs.compSize.Some? && Comparison(obs).Ok?
    ensures (Decide(input, obs).1 == []) <==> obs.origSize.None?
  {
    var (o, acts) := Decide(input, obs);
    DecideShape(input, obs);
    if o.Done? {
      FinishEffects(input, obs.timestamp);
      assert acts[1] == Finish(input, obs.timestamp)[0];
    }
  }

  /** After success the original ends in `over/` and the encode in
      `output/`, each move preceded by clearing its target. */
  lemma DoneEffects(input: Path, obs: Observed)
    requires Decide(input, obs).0.Done?
    ensures var acts := Decide(input, obs).1;
            && acts[0] == RunFfmpeg(Command(input, TempPath(input, obs.timestamp)), LogPath(input, obs.timestamp))
            && acts[1] == Discard(DIR_OVER + [Name(input)]) && acts[2] == Move(input, DIR_OVER + [Name(input)])
            && acts[3] == Discard(DIR_OUTPUT + [Stem(Name(input)) + ".mp4"])
            && acts[4] == Move(TempPath(input, obs.timestamp), DIR_OUTPUT + [Stem(Name(input)) + ".mp4"])
            && |acts| == 5
  {
    var acts := Decide(input, obs).1;
    var f := Finish(input, obs.timestamp);
    DecideShape(input, obs);
    FinishEffects(input, obs.timestamp);
    assert acts[1] == f[0] && acts[2] == f[1] && acts[3] == f[2] && acts[4] == f[3];
  }

  /** The encode and its log are named after the input's stem and the
      timestamp, with the suffixes `.mp4` and `.log`, and the final name
      keeps the input's stem. */
  lemma OutputNames(input: Path, ts: string)
    requires Stem(Name(input)) != []
    ensures Stem(Name(TempPath(input, ts))) == Stem(Name(input)) + "_" + ts
    ensures Suffix(Name(TempPath(input, ts))) == ".mp4" && Suffix(Name(LogPath(input, ts))) == ".log"
    ensures Stem(Name(LogPath(input, ts))) == Stem(Name(TempPath(input, ts)))
    ensures Stem(Stem(Name(input)) + ".mp4") == Stem(Name(input))
  {
    assert '.' !in "mp4" && '.' !in "log";
    assert ".mp4"[1..] == "mp4" && ".log"[1..] == "log";
    TimestampedNames(input, ts, ".mp4");
    TimestampedNames(input, ts, ".log");
  }

  /** The dashes under the header run two columns past every body line,
      since two are added to the widths' sum. */
  lemma SeparatorOverhang(table: seq<seq<string>>, row: seq<string>)
    requires table != [] && (forall r <- table :: |r| == 3) && row in table
    ensures |Separator(ColumnWidths(table), 2)| == |Line(row, ColumnWidths(table))| + 2
  {
    BodyAligned(table, row);
  }
}
