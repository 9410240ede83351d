/** The per-file logic of 2pass_compress.py: an analysis pass and an
    encoding pass of SVT-AV1 at a target bit rate sharing one pass log,
    a comparison of the two files' probes, removal of the encoder's pass
    logs and the moves of the original and the result. Nothing is
    cleaned up or moved unless both passes succeeded. */
module TwoPass {
  import opened Common
  import opened Json
  import opened Paths
  import opened ProbeSummary
  import opened Report

  const FFMPEG_CMD := "ffmpeg"
  const TARGET_BITRATE := "5000k"
  const SVTAV1_PARAMS := "preset=6:tile-rows=2:tile-columns=2:scd=1:aq-mode=1:tune=0"
  const AUDIO_CODEC := "libopus"
  const AUDIO_BITRATE := "100k"
  const DIR_OVER: Path := ["over"]
  const DIR_OUTPUT: Path := ["output"]
  /** `os.devnull` on a POSIX system. */
  const NULL_DEVICE := "/dev/null"

  /** `{stem}_{ts}_svp`, the pass log base both passes name. */
  function PasslogBase(input: Path, ts: string): string {
    Stem(Name(input)) + "_" + ts + "_svp"
  }

  function Pass1Log(input: Path, ts: string): Path {
    [Stem(Name(input)) + "_" + ts + "_pass1.log"]
  }

  function Pass2Log(input: Path, ts: string): Path {
    [Stem(Name(input)) + "_" + ts + "_pass2.log"]
  }

  /** The temporary output `{stem}_{ts}.mp4` in the working directory. */
  function TempPath(input: Path, ts: string): Path {
    Timestamped(input, ts, ".mp4")
  }

  /** The arguments both passes start with, up to `-pass`. */
  function SharedArgs(input: Path): (r: seq<string>)
    ensures |r| == 16
  {
    [FFMPEG_CMD, "-hide_banner", "-loglevel", "info", "-y", "-i", PathText(input),
     "-c:v", "libsvtav1", "-b:v", TARGET_BITRATE, "-rc", "2", "-svtav1-params", SVTAV1_PARAMS, "-pass"]
  }

  /** `cmd_pass1`: analysis only, no audio, output discarded. */
  function Pass1Command(input: Path, base: string): (r: seq<string>)
    ensures |r| == 23 && r[..16] == SharedArgs(input)
  {
    SharedArgs(input) + ["1", "-passlogfile", base, "-an", "-f", "null", NULL_DEVICE]
  }

  /** `cmd_pass2`: the encode, with Opus audio, into the temporary file. */
  function Pass2Command(input: Path, base: string, temp: Path): (r: seq<string>)
    ensures |r| == 24 && r[..16] == SharedArgs(input)
  {
    SharedArgs(input) + ["2", "-passlogfile", base, "-c:a", AUDIO_CODEC, "-b:a", AUDIO_BITRATE, PathText(temp)]
  }

  /** The two passes read the same input at the same bit rate and
      parameters and share the pass log; only the first drops audio and
      writes nowhere, only the second encodes Opus into the temporary
      file. */
  lemma PassesAgree(input: Path, ts: string)
    ensures var base := PasslogBase(input, ts);
            var p1 := Pass1Command(input, base);
            var p2 := Pass2Command(input, base, TempPath(input, ts));
            && p1[..16] == p2[..16]
            && p1[6] == PathText(input) && p1[10] == TARGET_BITRATE && p1[14] == SVTAV1_PARAMS
            && p1[16] == "1" && p2[16] == "2"
            && p1[17] == p2[17] == "-passlogfile" && p1[18] == p2[18] == base
            && p1[19..] == ["-an", "-f", "null", NULL_DEVICE]
            && p2[19..23] == ["-c:a", AUDIO_CODEC, "-b:a", AUDIO_BITRATE]
            && p2[23] == PathText(TempPath(input, ts))
  {
  }

  /** What `process_video` observes: the input's size (none when it is
      missing), the timestamp, the exit codes of the passes, the size of
      the temporary output after the second pass (none when it is
      missing) and what `run_ffprobe` returns for the two files (`{}`
      when ffprobe fails). */
  datatype Observed = Observed(
    origSize: Option<int>,
    timestamp: string,
    pass1Exit: int,
    pass2Exit: int,
    tempSize: Option<int>,
    origProbe: map<string, Json>,
    compProbe: map<string, Json>)

  /** How `process_video` ends: the input is missing, a pass fails, an
      exception escapes (the temporary output is missing when its size is
      printed, or a probe field does not convert), or everything is
      done. */
  datatype Outcome = Missing | Pass1Failed | Pass2Failed | Crashed(error: string) | Done(table: seq<seq<string>>)

  /** `print_comparison`'s table, or the exception that stops it. */
  function Comparison(obs: Observed): (r: Result<seq<seq<string>>, string>)
    ensures r.Ok? ==> |r.value| == 5
    ensures ExtractSummaryOf(obs.origProbe, NotNone).Err? ==> r == Err(ExtractSummaryOf(obs.origProbe, NotNone).error)
    ensures ExtractSummaryOf(obs.origProbe, NotNone).Ok? && ExtractSummaryOf(obs.compProbe, NotNone).Err? ==>
      r == Err(ExtractSummaryOf(obs.compProbe, NotNone).error)
    ensures ExtractSummaryOf(obs.origProbe, NotNone).Ok? && ExtractSummaryOf(obs.compProbe, NotNone).Ok? ==>
      r == Table(ExtractSummaryOf(obs.origProbe, NotNone).value, ExtractSummaryOf(obs.compProbe, NotNone).value)
  {
    match ExtractSummaryOf(obs.origProbe, NotNone)
    case Err(e) => Err(e)
    case Ok(o) =>
      match ExtractSummaryOf(obs.compProbe, NotNone)
      case Err(e) => Err(e)
      case Ok(c) => Table(o, c)
  }

  /** The clean-up and the moves after a successful encode. */
  function Finish(input: Path, ts: string): seq<Action> {
    var base := PasslogBase(input, ts);
    var overTarget := DIR_OVER + [Name(input)];
    var outTarget := DIR_OUTPUT + [Stem(Name(input)) + ".mp4"];
    [Discard([base + "-0.log"]), Discard([base + "-0.log.mbtree"]),
     Discard(overTarget), Move(input, overTarget),
     Discard(outTarget), Move(TempPath(input, ts), outTarget)]
  }

  /** `process_video(input)`: how it ends and the actions it takes. */
  function Decide(input: Path, obs: Observed): (Outcome, seq<Action>) {
    var ts := obs.timestamp;
    var base := PasslogBase(input, ts);
    var run1 := RunFfmpeg(Pass1Command(input, base), Pass1Log(input, ts));
    var run2 := RunFfmpeg(Pass2Command(input, base, TempPath(input, ts)), Pass2Log(input, ts));
    if obs.origSize.None? then (Missing, [])
    else if obs.pass1Exit != 0 then (Pass1Failed, [run1])
    else if obs.pass2Exit != 0 then (Pass2Failed, [run1, run2])
    else if obs.tempSize.None? then (Crashed("FileNotFoundError"), [run1, run2])
    else match Comparison(obs)
      case Err(e) => (Crashed(e), [run1, run2])
      case Ok(table) => (Done(table), [run1, run2] + Finish(input, ts))
  }

  /** The clean-up removes the two pass-log files first, then moves the
      original to `over/` under its name and the encode to `output/` as
      `{stem}.mp4`; it runs no encoder. */
  lemma FinishEffects(input: Path, ts: string)
    ensures var f := Finish(input, ts);
            var base := PasslogBase(input, ts);
            && |f| == 6
            && f[0] == Discard([base + "-0.log"]) && f[1] == Discard([base + "-0.log.mbtree"])
            && f[3] == Move(input, DIR_OVER + [Name(input)])
            && f[5] == Move(TempPath(input, ts), DIR_OUTPUT + [Stem(Name(input)) + ".mp4"])
            && forall a <- f :: !a.RunFfmpeg?
  {
  }

  /** A finished run is the two passes followed by the clean-up; any
      other run only ran encoders. */
  lemma DecideShape(input: Path, obs: Observed)
    ensures var (o, acts) := Decide(input, obs);
            o.Done? ==> |acts| == 8 && acts[2..] == Finish(input, obs.timestamp)
    ensures var (o, acts) := Decide(input, obs);
            !o.Done? ==> forall a <- acts :: a.RunFfmpeg?
  {
  }

  /** Only a fully successful run removes the pass logs or moves a file:
      both passes exit with 0, the encode exists and both probes
      summarise. Otherwise the actions are just the passes that ran. */
  lemma SuccessGating(input: Path, obs: Observed)
    ensures var (o, acts) := Decide(input, obs);
            (exists a <- acts :: a.Move? || a.Discard?) <==> o.Done?
    ensures Decide(input, obs).0.Done? <==>
              obs.origSize.Some? && obs.pass1Exit == 0 && obs.pass2Exit == 0
              && obs.tempSize.Some? && Comparison(obs).Ok?
    ensures obs.origSize.Some? && obs.pass1Exit != 0 ==> |Decide(input, obs).1| == 1
    ensures obs.origSize.Some? && obs.pass1Exit == 0 && obs.pass2Exit != 0 ==> |Decide(input, obs).1| == 2
  {
    var (o, acts) := Decide(input, obs);
    DecideShape(input, obs);
    if o.Done? {
      FinishEffects(input, obs.timestamp);
      assert acts[2] == Finish(input, obs.timestamp)[0];
    }
  }

  /** After success the encoder's two pass-log files are removed before
      anything is moved, the original goes to `over/` under its name and
      the encode to `output/` as `{stem}.mp4`. */
  lemma DoneEffects(input: Path, obs: Observed)
    requires Decide(input, obs).0.Done?
    ensures var acts := Decide(input, obs).1;
            var base := PasslogBase(input, obs.timestamp);
            && acts[2] == Discard([base + "-0.log"]) && acts[3] == Discard([base + "-0.log.mbtree"])
            && acts[5] == Move(input, DIR_OVER + [Name(input)])
            && acts[7] == Move(TempPath(input, obs.timestamp), DIR_OUTPUT + [Stem(Name(input)) + ".mp4"])
            && |acts| == 8
  {
    var acts := Decide(input, obs).1;
    var f := Finish(input, obs.timestamp);
    DecideShape(input, obs);
    FinishEffects(input, obs.timestamp);
    assert acts[2] == f[0] && acts[3] == f[1] && acts[5] == f[3] && acts[7] == f[5];
  }

  /** The dashes under the header are exactly as long as every body
      line, since the widths' sum is printed without anything added. */
  lemma SeparatorMatchesBody(table: seq<seq<string>>, row: seq<string>)
    requires table != [] && (forall r <- table :: |r| == 3) && row in table
    ensures |Separator(ColumnWidths(table), 0)| == |Line(row, ColumnWidths(table))|
  {
    BodyAligned(table, row);
  }
}
