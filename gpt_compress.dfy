/** The batch compressor of gpt_video_compress.py: a configuration
    record, the FFmpeg command it builds for one video, the discovery of
    the videos to compress, the decisions taken for one video (skip,
    fail, or compress and move), the counters those decisions update and
    the exit code of a run. The file system and FFmpeg are observations
    passed in (`Entry`, `Base`, `Observed`); what the script does to the
    file system is returned as a list of `Action`s. */
module GptCompress {
  import opened Common
  import opened Paths

  /** The extensions a run looks for when none are given. */
  const DEFAULT_VIDEO_EXTENSIONS: seq<string> :=
    [".avi", ".mpg", ".mp4", ".flv", ".3gp", ".mkv", ".wmv", ".mov", ".mts", ".vob", ".webm"]

  /** `CompressionConfig`. */
  datatype CompressionConfig = CompressionConfig(
    ffmpegCmd: string,
    threads: int,
    crf: int,
    gop: int,
    svtParams: string,
    pixFmt: string,
    audioBitrate: string,
    metadataComment: string,
    videoExtensions: seq<string>,
    outputDir: Path,
    originalsDir: Path,
    logDir: Path,
    keepLogs: bool,
    recursive: bool,
    dryRun: bool,
    skipExisting: bool,
    moveOriginals: bool)

  /** `CompressionConfig()` with every field at its default. */
  const DEFAULT_CONFIG: CompressionConfig := CompressionConfig(
    "ffmpeg", 8, 22, 240, "tune=0:enable-overlays=1:scd=1", "yuv420p10le", "100k",
    "Encoded by Pradeep", DEFAULT_VIDEO_EXTENSIONS, ["output"], ["over"], ["logs"],
    false, false, false, false, true)

  /** `normalised_extensions`: every extension lower-cased, in order. */
  function NormalisedExtensions(c: CompressionConfig): (r: seq<string>)
    ensures |r| == |c.videoExtensions|
    ensures forall i :: 0 <= i < |r| ==> r[i] == Lower(c.videoExtensions[i])
  {
    seq(|c.videoExtensions|, i requires 0 <= i < |c.videoExtensions| => Lower(c.videoExtensions[i]))
  }

  /** Normalising extensions that are already normalised changes nothing. */
  lemma NormalisedIdempotent(c: CompressionConfig)
    ensures NormalisedExtensions(c.(videoExtensions := NormalisedExtensions(c))) == NormalisedExtensions(c)
  {
    var n := NormalisedExtensions(c);
    forall i | 0 <= i < |n|
      ensures Lower(n[i]) == n[i]
    {
      LowerIdempotent(c.videoExtensions[i]);
    }
  }

  /** `video_options`: SVT-AV1 video and Opus audio at the configured
      settings. */
  function VideoOptions(c: CompressionConfig): (r: seq<string>)
    ensures |r| == 16
    ensures r[0] == "-c:v" && r[1] == "libsvtav1" && r[12] == "-c:a" && r[13] == "libopus"
    ensures r[2] == "-threads" && r[4] == "-crf" && r[6] == "-g"
    ensures r[8] == "-svtav1-params" && r[10] == "-pix_fmt" && r[14] == "-b:a"
    ensures r[3] == IntToString(c.threads) && r[5] == IntToString(c.crf) && r[7] == IntToString(c.gop)
    ensures r[9] == c.svtParams && r[11] == c.pixFmt && r[15] == c.audioBitrate
  {
    ["-c:v", "libsvtav1", "-threads", IntToString(c.threads), "-crf", IntToString(c.crf),
     "-g", IntToString(c.gop), "-svtav1-params", c.svtParams, "-pix_fmt", c.pixFmt,
     "-c:a", "libopus", "-b:a", c.audioBitrate]
  }

  /** `metadata_options`: the comment tag. */
  function MetadataOptions(c: CompressionConfig): (r: seq<string>)
    ensures |r| == 2 && r[0] == "-metadata" && r[1] == "comment=" + c.metadataComment
  {
    ["-metadata", "comment=" + c.metadataComment]
  }

  /** The fixed head of every command, before the input path. */
  const COMMAND_FLAGS: seq<string> := ["-hide_banner", "-loglevel", "info", "-y", "-i"]

  /** `build_ffmpeg_command`. */
  function BuildFfmpegCommand(input: Path, output: Path, c: CompressionConfig): (r: seq<string>)
    ensures |r| == 26 && r[0] == c.ffmpegCmd && r[1..6] == COMMAND_FLAGS && r[6] == PathText(input)
    ensures r[7..23] == VideoOptions(c) && r[23..25] == MetadataOptions(c) && r[25] == PathText(output)
  {
    var r := [c.ffmpegCmd] + COMMAND_FLAGS + [PathText(input)] + VideoOptions(c) + MetadataOptions(c) + [PathText(output)];
    assert r[1..6] == COMMAND_FLAGS && r[7..23] == VideoOptions(c) && r[23..25] == MetadataOptions(c);
    r
  }

  /** The command names its input right after `-i` and its output last, so
      two runs with the same command read and write the same files. */
  lemma CommandPaths(input: Path, output: Path, c: CompressionConfig)
    ensures var cmd := BuildFfmpegCommand(input, output, c);
            cmd[0] == c.ffmpegCmd && cmd[5] == "-i" && cmd[6] == PathText(input)
            && cmd[|cmd| - 1] == PathText(output) && cmd[7..23] == VideoOptions(c)
  {
    var cmd := BuildFfmpegCommand(input, output, c);
    assert cmd[7..23] == VideoOptions(c);
  }

  /** Distinct encodes give distinct command lines: the command names its
      input and output, the executable and every encoder setting. */
  lemma CommandInjective(i1: Path, o1: Path, i2: Path, o2: Path, c1: CompressionConfig, c2: CompressionConfig)
    requires BuildFfmpegCommand(i1, o1, c1) == BuildFfmpegCommand(i2, o2, c2)
    ensures PathText(i1) == PathText(i2) && PathText(o1) == PathText(o2)
    ensures c1.ffmpegCmd == c2.ffmpegCmd && c1.svtParams == c2.svtParams
    ensures c1.metadataComment == c2.metadataComment && c1.audioBitrate == c2.audioBitrate
    ensures c1.threads == c2.threads && c1.crf == c2.crf && c1.gop == c2.gop && c1.pixFmt == c2.pixFmt
  {
    CommandPaths(i1, o1, c1);
    CommandPaths(i2, o2, c2);
    var v1, v2 := VideoOptions(c1), VideoOptions(c2);
    assert v1 == v2;
    ParseIntTextRoundTrip(c1.threads);
    ParseIntTextRoundTrip(c2.threads);
    ParseIntTextRoundTrip(c1.crf);
    ParseIntTextRoundTrip(c2.crf);
    ParseIntTextRoundTrip(c1.gop);
    ParseIntTextRoundTrip(c2.gop);
    var m1 := BuildFfmpegCommand(i1, o1, c1)[24];
    assert m1 == "comment=" + c1.metadataComment && m1 == "comment=" + c2.metadataComment;
    assert c1.metadataComment == m1[8..] == c2.metadataComment;
  }

  // ---------------------------------------------------------------------
  // Statistics
  // ---------------------------------------------------------------------

  /** `CompressionStats`: the counters of a run. */
  class CompressionStats {
    var processed: int
    var skipped: int
    var failures: int
    var bytesBefore: int
    var bytesAfter: int

    /** The counters as a value. */
    function Counters(): Counts
      reads this
    {
      Counts(processed, skipped, failures, bytesBefore, bytesAfter)
    }

    constructor()
      ensures processed == 0 && skipped == 0 && failures == 0
      ensures bytesBefore == 0 && bytesAfter == 0
    {
      processed, skipped, failures := 0, 0, 0;
      bytesBefore, bytesAfter := 0, 0;
    }

    /** `record_processed`. */
    method RecordProcessed(original: int, compressed: int)
      modifies this
      ensures processed == old(processed) + 1
      ensures bytesBefore == old(bytesBefore) + original && bytesAfter == old(bytesAfter) + compressed
      ensures skipped == old(skipped) && failures == old(failures)
    {
      processed := processed + 1;
      bytesBefore := bytesBefore + original;
      bytesAfter := bytesAfter + compressed;
    }

    /** `record_skipped`. */
    method RecordSkipped()
      modifies this
      ensures skipped == old(skipped) + 1
      ensures processed == old(processed) && failures == old(failures)
      ensures bytesBefore == old(bytesBefore) && bytesAfter == old(bytesAfter)
    {
      skipped := skipped + 1;
    }

    /** `record_failure`. */
    method RecordFailure()
      modifies this
      ensures failures == old(failures) + 1
      ensures processed == old(processed) && skipped == old(skipped)
      ensures bytesBefore == old(bytesBefore) && bytesAfter == old(bytesAfter)
    {
      failures := failures + 1;
    }
  }

  // ---------------------------------------------------------------------
  // Discovery
  // ---------------------------------------------------------------------

  /** A path a directory listing yields, resolved, and whether it is a
      directory. */
  datatype Entry = Entry(isDir: bool, resolved: Path)

  /** A path given on the command line, as the file system shows it: it
      does not exist, it is a file (with its resolved form), or it is a
      directory with what `glob("*")` and `rglob("*")` yield in it. */
  datatype Base = Missing | FileBase(resolved: Path) | DirBase(shallow: seq<Entry>, deep: seq<Entry>)

  /** Whether a path's lower-cased suffix is one of the extensions. */
  predicate Wanted(p: Path, exts: set<string>) {
    Lower(Suffix(Name(p))) in exts
  }

  /** The resolved non-directory entries of a listing, in order. */
  function NonDirs(es: seq<Entry>): (r: seq<Path>)
    ensures forall p :: p in r <==> exists e <- es :: !e.isDir && e.resolved == p
  {
    if es == [] then []
    else
      var last := es[|es| - 1];
      var front := es[..|es| - 1];
      assert forall e <- es :: e in front || e == last;
      NonDirs(front) + (if last.isDir then [] else [last.resolved])
  }

  /** The candidate files one base contributes. */
  function CandidatesOf(b: Base, recursive: bool): seq<Path> {
    match b
    case Missing => []
    case FileBase(resolved) => [resolved]
    case DirBase(shallow, deep) => NonDirs(if recursive then deep else shallow)
  }

  /** The candidate files of all bases, in the order they are visited. */
  function AllCandidates(bases: seq<Base>, recursive: bool): seq<Path> {
    if bases == [] then []
    else AllCandidates(bases[..|bases| - 1], recursive) + CandidatesOf(bases[|bases| - 1], recursive)
  }

  /** `discovered` holds, once each, exactly the wanted paths of `cands`. */
  predicate Collects(discovered: seq<Path>, cands: seq<Path>, exts: set<string>) {
    Distinct(discovered)
    && (forall p <- discovered :: p in cands && Wanted(p, exts))
    && (forall p <- cands :: Wanted(p, exts) ==> p in discovered)
  }

  /** One step of either loop of `discover_video_files`: keep `p` when it
      is wanted and not yet seen. */
  method Offer(discovered: seq<Path>, seen: set<Path>, p: Path, exts: set<string>, ghost cands: seq<Path>)
    returns (d: seq<Path>, s: set<Path>)
    requires Collects(discovered, cands, exts) && (forall q :: q in seen <==> q in discovered)
    ensures Collects(d, cands + [p], exts) && (forall q :: q in s <==> q in d)
  {
    d, s := discovered, seen;
    if Wanted(p, exts) && p !in seen {
      d := discovered + [p];
      s := seen + {p};
      DistinctSnoc(discovered, p);
      assert forall q <- d :: q in discovered || q == p;
      assert forall q <- discovered :: q in d;
    }
    assert forall q <- cands + [p] :: q in cands || q == p;
  }

  /** The inner loop of `discover_video_files`: offer each file entry of
      a directory listing in turn. */
  method OfferListing(discovered: seq<Path>, seen: set<Path>, listing: seq<Entry>, exts: set<string>, ghost cands: seq<Path>)
    returns (d: seq<Path>, s: set<Path>)
    requires Collects(discovered, cands, exts) && (forall q :: q in seen <==> q in discovered)
    ensures Collects(d, cands + NonDirs(listing), exts) && (forall q :: q in s <==> q in d)
  {
    d, s := discovered, seen;
    for j := 0 to |listing|
      invariant Collects(d, cands + NonDirs(listing[..j]), exts)
      invariant forall q :: q in s <==> q in d
    {
      assert listing[..j + 1][..j] == listing[..j];
      if !listing[j].isDir {
        d, s := Offer(d, s, listing[j].resolved, exts, cands + NonDirs(listing[..j]));
        assert cands + NonDirs(listing[..j + 1]) == cands + NonDirs(listing[..j]) + [listing[j].resolved];
      }
    }
    assert listing[..|listing|] == listing;
  }

  /** `discover_video_files`: every wanted candidate once, sorted. */
  method DiscoverVideoFiles(bases: seq<Base>, c: CompressionConfig) returns (r: seq<Path>)
    ensures Sorted(r) && Distinct(r)
    ensures forall p :: p in r <==> p in AllCandidates(bases, c.recursive) && Wanted(p, set e <- NormalisedExtensions(c))
  {
    var exts := set e <- NormalisedExtensions(c);
    var discovered: seq<Path> := [];
    var seen: set<Path> := {};
    for i := 0 to |bases|
      invariant Collects(discovered, AllCandidates(bases[..i], c.recursive), exts)
      invariant forall q :: q in seen <==> q in discovered
    {
      ghost var before := AllCandidates(bases[..i], c.recursive);
      assert bases[..i + 1][..i] == bases[..i];
      match bases[i]
      case Missing =>
      case FileBase(resolved) =>
        discovered, seen := Offer(discovered, seen, resolved, exts, before);
      case DirBase(shallow, deep) =>
        var listing := if c.recursive then deep else shallow;
        discovered, seen := OfferListing(discovered, seen, listing, exts, before);
    }
    assert bases[..|bases|] == bases;
    r := SortPaths(discovered);
    forall p
      ensures p in r <==> p in discovered
    {
      assert p in r <==> p in multiset(r);
    }
  }

  // ---------------------------------------------------------------------
  // One video
  // ---------------------------------------------------------------------

  /** What `process_video` observes of the world: the size `stat` gives
      for the input (none when it is missing), whether the final output
      already exists, the timestamp `datetime.now()` formats, FFmpeg's
      exit code, the size of the temporary output afterwards (none when it
      is missing) and the working directory `resolve` starts from. */
  datatype Observed = Observed(
    origSize: Option<int>,
    targetExists: bool,
    timestamp: string,
    exitCode: int,
    compSize: Option<int>,
    cwd: Path)

  /** Which counter a call bumps. */
  datatype Outcome = Processed(original: int, compressed: int) | Skipped | Failed

  /** `resolve()` on a path without links or `..`: relative paths are
      taken from the working directory. */
  function Absolute(cwd: Path, p: Path): (r: Path)
    ensures p != [] && p[0] == "/" ==> r == p
    ensures Name(p) != "" ==> Name(r) == Name(p)
  {
    if p != [] && p[0] == "/" then p else cwd + p
  }

  /** `output_dir / f"{stem}.mp4"`. */
  function TargetOut(input: Path, c: CompressionConfig): Path {
    Child(c.outputDir, Stem(Name(input)) + ".mp4")
  }

  /** The resolved temporary output, `{stem}_{timestamp}.mp4`. */
  function TempPath(input: Path, c: CompressionConfig, obs: Observed): Path {
    Absolute(obs.cwd, Child(c.outputDir, Stem(Name(input)) + "_" + obs.timestamp + ".mp4"))
  }

  /** The FFmpeg log, `{stem}_{timestamp}.log` in the log directory. */
  function LogPath(input: Path, c: CompressionConfig, obs: Observed): Path {
    Child(c.logDir, Stem(Name(input)) + "_" + obs.timestamp + ".log")
  }

  /** The moves and removals once FFmpeg succeeded: the original to the
      originals directory (when configured), the temporary output over
      the final one, and the log away unless it is kept. */
  function Finish(input: Path, c: CompressionConfig, obs: Observed): seq<Action> {
    var overTarget := Child(c.originalsDir, Name(input));
    (if c.moveOriginals then [Discard(overTarget), Move(input, overTarget)] else [])
    + [Discard(TargetOut(input, c)), Move(TempPath(input, c, obs), TargetOut(input, c))]
    + (if c.keepLogs then [] else [Discard(LogPath(input, c, obs))])
  }

  /** The decisions of `process_video` for one input: the counter it
      bumps and the actions it takes, in order. */
  function Decide(input: Path, c: CompressionConfig, obs: Observed): (Outcome, seq<Action>) {
    var temp := TempPath(input, c, obs);
    var run := RunFfmpeg(BuildFfmpegCommand(input, temp, c), LogPath(input, c, obs));
    if obs.origSize.None? then (Failed, [])
    else if c.skipExisting && obs.targetExists then (Skipped, [])
    else if c.dryRun then (Skipped, [Discard(temp)])
    else if obs.exitCode != 0 || obs.compSize.None? then (Failed, [Discard(temp), run, Discard(temp)])
    else (Processed(obs.origSize.value, obs.compSize.value), [Discard(temp), run] + Finish(input, c, obs))
  }

  /** The counter `process_video` bumps, which depends only on what the
      file system and FFmpeg report, not on the paths involved. */
  function OutcomeOf(c: CompressionConfig, obs: Observed): Outcome {
    if obs.origSize.None? then Failed
    else if c.skipExisting && obs.targetExists then Skipped
    else if c.dryRun then Skipped
    else if obs.exitCode != 0 || obs.compSize.None? then Failed
    else Processed(obs.origSize.value, obs.compSize.value)
  }

  /** The outcome of the decision is `OutcomeOf`: a video fails exactly
      when its input is missing, or when it is neither skipped nor a dry
      run and FFmpeg fails or leaves no output. */
  lemma DecideOutcome(input: Path, c: CompressionConfig, obs: Observed)
    ensures Decide(input, c, obs).0 == OutcomeOf(c, obs)
    ensures OutcomeOf(c, obs) == Failed <==>
              obs.origSize.None? || (!(c.skipExisting && obs.targetExists) && !c.dryRun
                                     && (obs.exitCode != 0 || obs.compSize.None?))
  {
  }

  /** A move happens exactly when the video is processed, which takes an
      existing input, no skip, FFmpeg exiting with 0 and its output
      existing. */
  lemma MovesOnlyOnSuccess(input: Path, c: CompressionConfig, obs: Observed)
    ensures (exists a <- Decide(input, c, obs).1 :: a.Move?) <==> Decide(input, c, obs).0.Processed?
    ensures Decide(input, c, obs).0.Processed? <==>
              obs.origSize.Some? && !(c.skipExisting && obs.targetExists) && !c.dryRun
              && obs.exitCode == 0 && obs.compSize.Some?
  {
    var (o, acts) := Decide(input, c, obs);
    if o.Processed? {
      assert acts[|acts| - 1 - (if c.keepLogs then 0 else 1)].Move?;
    }
  }

  /** A dry run never runs FFmpeg or moves a file; it only records a skip
      (or a failure for a missing input) and clears a stale temporary
      output. */
  lemma DryRunTouchesNothing(input: Path, c: CompressionConfig, obs: Observed)
    requires c.dryRun
    ensures Decide(input, c, obs).0 in {Skipped, Failed}
    ensures forall a <- Decide(input, c, obs).1 :: a == Discard(TempPath(input, c, obs))
  {
  }

  /** The actions of a processed video: clear the temporary output, run
      FFmpeg, then finish. */
  lemma DecideProcessed(input: Path, c: CompressionConfig, obs: Observed)
    requires Decide(input, c, obs).0.Processed?
    ensures Decide(input, c, obs).0 == Processed(obs.origSize.value, obs.compSize.value)
    ensures Decide(input, c, obs).1[2..] == Finish(input, c, obs)
    ensures Decide(input, c, obs).1[1].RunFfmpeg?
  {
  }

  /** A processed video ends with its temporary output moved over the
      final name, moves the original exactly when originals are moved,
      and counts the two sizes observed. */
  lemma ProcessedEffects(input: Path, c: CompressionConfig, obs: Observed)
    requires Decide(input, c, obs).0.Processed?
    ensures Decide(input, c, obs).0 == Processed(obs.origSize.value, obs.compSize.value)
    ensures Move(TempPath(input, c, obs), TargetOut(input, c)) in Decide(input, c, obs).1
    ensures (exists a <- Decide(input, c, obs).1 :: a.Move? && a.from == input) <==> c.moveOriginals
    ensures Name(TargetOut(input, c)) == Stem(Name(input)) + ".mp4"
  {
    DecideProcessed(input, c, obs);
    var acts := Decide(input, c, obs).1;
    assert forall a <- acts :: a in acts[2..] || a == acts[0] || a == acts[1];
    FinishMoves(input, c, obs);
  }

  /** The moves of `Finish`: the temporary output to the final name and,
      when configured, the original to the originals directory. */
  lemma FinishMoves(input: Path, c: CompressionConfig, obs: Observed)
    ensures Move(TempPath(input, c, obs), TargetOut(input, c)) in Finish(input, c, obs)
    ensures (exists a <- Finish(input, c, obs) :: a.Move? && a.from == input) <==> c.moveOriginals
  {
    var fin := Finish(input, c, obs);
    var k := if c.moveOriginals then 2 else 0;
    assert fin[k + 1] == Move(TempPath(input, c, obs), TargetOut(input, c));
    if c.moveOriginals {
      assert fin[1] == Move(input, Child(c.originalsDir, Name(input)));
    } else {
      TempNotInput(input, c, obs);
      assert forall a <- fin :: a.Move? ==> a.from == TempPath(input, c, obs);
    }
  }

  /** The temporary output is never the input it is produced from: its
      name is longer than the input's own name. */
  lemma TempNotInput(input: Path, c: CompressionConfig, obs: Observed)
    ensures TempPath(input, c, obs) != input
  {
    var name := Stem(Name(input)) + "_" + obs.timestamp + ".mp4";
    assert Name(Child(c.outputDir, name)) == name;
  }

  /** The counters as values. */
  datatype Counts = Counts(processed: int, skipped: int, failures: int, bytesBefore: int, bytesAfter: int)

  /** The counters after an outcome is recorded. */
  function Bump(k: Counts, o: Outcome): Counts {
    match o
    case Processed(original, compressed) =>
      k.(processed := k.processed + 1, bytesBefore := k.bytesBefore + original, bytesAfter := k.bytesAfter + compressed)
    case Skipped => k.(skipped := k.skipped + 1)
    case Failed => k.(failures := k.failures + 1)
  }

  function Total(k: Counts): int {
    k.processed + k.skipped + k.failures
  }

  /** Recording an outcome raises exactly one of the three counters, by
      one, and the byte totals only for a processed video. */
  lemma BumpExactlyOne(k: Counts, o: Outcome)
    ensures Total(Bump(k, o)) == Total(k) + 1
    ensures (Bump(k, o).processed != k.processed) ==> o.Processed?
    ensures (Bump(k, o).skipped != k.skipped) <==> o == Skipped
    ensures (Bump(k, o).failures != k.failures) <==> o == Failed
    ensures (Bump(k, o).processed != k.processed) <==> o.Processed?
    ensures !o.Processed? ==> Bump(k, o).bytesBefore == k.bytesBefore && Bump(k, o).bytesAfter == k.bytesAfter
  {
  }

  /** Counters over a sequence of outcomes. */
  function BumpAll(k: Counts, os: seq<Outcome>): Counts {
    if os == [] then k else Bump(BumpAll(k, os[..|os| - 1]), os[|os| - 1])
  }

  /** A run over `n` videos accounts for each of them once. */
  lemma {:induction false} BumpAllTotal(k: Counts, os: seq<Outcome>)
    ensures Total(BumpAll(k, os)) == Total(k) + |os|
  {
    if os != [] {
      BumpAllTotal(k, os[..|os| - 1]);
      BumpExactlyOne(BumpAll(k, os[..|os| - 1]), os[|os| - 1]);
    }
  }

  /** `process_video`: decide, act and bump one counter. */
  method ProcessVideo(input: Path, c: CompressionConfig, stats: CompressionStats, obs: Observed)
    returns (actions: seq<Action>)
    modifies stats
    ensures actions == Decide(input, c, obs).1
    ensures stats.Counters() == Bump(old(stats.Counters()), Decide(input, c, obs).0)
  {
    if obs.origSize.None? {
      stats.RecordFailure();
      return [];
    }
    if c.skipExisting && obs.targetExists {
      stats.RecordSkipped();
      return [];
    }
    var temp := TempPath(input, c, obs);
    var cmd := BuildFfmpegCommand(input, temp, c);
    if c.dryRun {
      stats.RecordSkipped();
      return [Discard(temp)];
    }
    actions := Encode(input, c, stats, obs, cmd);
  }

  /** `process_video` as `main` calls it: the video's outcome raises its
      counter, and the video is accounted for once. */
  method ProcessCounted(input: Path, c: CompressionConfig, stats: CompressionStats, obs: Observed)
    modifies stats
    ensures stats.Counters() == Bump(old(stats.Counters()), OutcomeOf(c, obs))
    ensures Total(stats.Counters()) == Total(old(stats.Counters())) + 1
  {
    ghost var before := stats.Counters();
    var _ := ProcessVideo(input, c, stats, obs);
    DecideOutcome(input, c, obs);
    BumpExactlyOne(before, OutcomeOf(c, obs));
  }

  /** The outcome of each video, in order. */
  function Outcomes(videos: seq<Path>, c: CompressionConfig, observe: Path -> Observed): (os: seq<Outcome>)
    ensures |os| == |videos|
    ensures forall i :: 0 <= i < |videos| ==> os[i] == OutcomeOf(c, observe(videos[i]))
  {
    seq(|videos|, i requires 0 <= i < |videos| => OutcomeOf(c, observe(videos[i])))
  }

  lemma OutcomesSnoc(videos: seq<Path>, i: nat, c: CompressionConfig, observe: Path -> Observed)
    requires i < |videos|
    ensures Outcomes(videos[..i + 1], c, observe) == Outcomes(videos[..i], c, observe) + [OutcomeOf(c, observe(videos[i]))]
  {
    assert videos[..i + 1][..i] == videos[..i];
  }

  lemma BumpAllSnoc(k: Counts, os: seq<Outcome>, o: Outcome)
    ensures BumpAll(k, os + [o]) == Bump(BumpAll(k, os), o)
  {
    assert (os + [o])[..|os|] == os;
  }

  /** After all the outcomes, each is counted once, and no failure was
      counted exactly when no outcome was a failure. */
  lemma {:induction false} AllCounted(os: seq<Outcome>)
    ensures Total(BumpAll(Counts(0, 0, 0, 0, 0), os)) == |os|
    ensures BumpAll(Counts(0, 0, 0, 0, 0), os).failures == 0 <==> forall i :: 0 <= i < |os| ==> os[i] != Failed
  {
    var zero := Counts(0, 0, 0, 0, 0);
    BumpAllTotal(zero, os);
    BumpAllFailures(zero, os);
    assert Total(zero) == 0 && zero.failures == 0;
  }

  /** The failure counter grows by the failed outcomes only: it stays
      where it was exactly when no outcome is a failure. */
  lemma {:induction false} BumpAllFailures(k: Counts, os: seq<Outcome>)
    ensures BumpAll(k, os).failures >= k.failures
    ensures BumpAll(k, os).failures == k.failures <==> forall i :: 0 <= i < |os| ==> os[i] != Failed
  {
    if os != [] {
      var init := os[..|os| - 1];
      BumpAllFailures(k, init);
      BumpExactlyOne(BumpAll(k, init), os[|os| - 1]);
      assert forall i :: 0 <= i < |init| ==> init[i] == os[i];
    }
  }

  /** Once FFmpeg runs, the video fails (the temporary output is cleared
      again) or is processed (the moves follow the run). */
  lemma EncodeDecided(input: Path, c: CompressionConfig, obs: Observed)
    requires obs.origSize.Some? && !(c.skipExisting && obs.targetExists) && !c.dryRun
    ensures var temp := TempPath(input, c, obs);
            var run := RunFfmpeg(BuildFfmpegCommand(input, temp, c), LogPath(input, c, obs));
            Decide(input, c, obs) ==
              if obs.exitCode != 0 || obs.compSize.None? then (Failed, [Discard(temp), run, Discard(temp)])
              else (Processed(obs.origSize.value, obs.compSize.value), [Discard(temp), run] + Finish(input, c, obs))
  {
  }

  /** The part of `process_video` from running FFmpeg on. */
  method Encode(input: Path, c: CompressionConfig, stats: CompressionStats, obs: Observed, cmd: seq<string>)
    returns (actions: seq<Action>)
    requires obs.origSize.Some? && !(c.skipExisting && obs.targetExists) && !c.dryRun
    requires cmd == BuildFfmpegCommand(input, TempPath(input, c, obs), c)
    modifies stats
    ensures actions == Decide(input, c, obs).1
    ensures stats.Counters() == Bump(old(stats.Counters()), Decide(input, c, obs).0)
  {
    var temp := TempPath(input, c, obs);
    actions := [Discard(temp), RunFfmpeg(cmd, LogPath(input, c, obs))];
    EncodeDecided(input, c, obs);
    if obs.exitCode != 0 {
      stats.RecordFailure();
      return actions + [Discard(temp)];
    }
    if obs.compSize.None? {
      stats.RecordFailure();
      return actions + [Discard(temp)];
    }
    var overTarget := Child(c.originalsDir, Name(input));
    var moves: seq<Action> := [];
    if c.moveOriginals {
      moves := [Discard(overTarget), Move(input, overTarget)];
    }
    var target := TargetOut(input, c);
    moves := moves + [Discard(target), Move(temp, target)];
    if !c.keepLogs {
      moves := moves + [Discard(LogPath(input, c, obs))];
    }
    assert moves == Finish(input, c, obs);
    actions := actions + moves;
    ghost var before := stats.Counters();
    stats.RecordProcessed(obs.origSize.value, obs.compSize.value);
    assert stats.Counters() == Bump(before, Processed(obs.origSize.value, obs.compSize.value));
  }

  // ---------------------------------------------------------------------
  // Command line and run
  // ---------------------------------------------------------------------

  /** The parsed command line. */
  datatype Arguments = Arguments(
    paths: seq<Path>,
    ffmpeg: string,
    threads: int,
    crf: int,
    gop: int,
    audioBitrate: string,
    metadataComment: string,
    extensions: Option<seq<string>>,
    outputDir: Path,
    originalsDir: Path,
    logDir: Path,
    keepLogs: bool,
    recursive: bool,
    skipExisting: bool,
    dryRun: bool,
    noMoveOriginals: bool)

  /** The command line with no arguments given, in `cwd`. */
  function DefaultArguments(cwd: Path): Arguments {
    Arguments([cwd], "ffmpeg", 8, 22, 240, "100k", "Encoded by Pradeep", None,
              ["output"], ["over"], ["logs"], false, false, false, false, false)
  }

  /** The configuration `parse_arguments` builds from the command line. */
  function ConfigOf(a: Arguments): (r: CompressionConfig)
    ensures r.skipExisting <==> a.skipExisting || a.dryRun
    ensures r.dryRun == a.dryRun && r.moveOriginals == !a.noMoveOriginals
    ensures r.videoExtensions == if a.extensions.Some? && a.extensions.value != [] then a.extensions.value
                                 else DEFAULT_VIDEO_EXTENSIONS
  {
    CompressionConfig(
      a.ffmpeg, a.threads, a.crf, a.gop, DEFAULT_CONFIG.svtParams, DEFAULT_CONFIG.pixFmt,
      a.audioBitrate, a.metadataComment,
      if a.extensions.Some? && a.extensions.value != [] then a.extensions.value else DEFAULT_VIDEO_EXTENSIONS,
      a.outputDir, a.originalsDir, a.logDir, a.keepLogs, a.recursive,
      a.dryRun, a.skipExisting || a.dryRun, !a.noMoveOriginals)
  }

  /** The command-line defaults give the configuration's own defaults. */
  lemma DefaultArgumentsGiveDefaultConfig(cwd: Path)
    ensures ConfigOf(DefaultArguments(cwd)) == DEFAULT_CONFIG
  {
  }

  /** A dry run is always also a skip-existing run. */
  lemma DryRunSkipsExisting(a: Arguments, input: Path, obs: Observed)
    requires a.dryRun && obs.origSize.Some? && obs.targetExists
    ensures Decide(input, ConfigOf(a), obs) == (Skipped, [])
  {
  }

  /** The paths a run scans: those given, or the working directory. */
  function ScanPaths(a: Arguments, cwd: Path): (r: seq<Path>)
    ensures r != []
    ensures a.paths != [] ==> r == a.paths
  {
    if a.paths != [] then a.paths else [cwd]
  }

  /** `main` after argument parsing, given what the file system shows of
      each scanned path and what happens to each video: the videos found,
      the counters and the exit code. */
  method Run(a: Arguments, cwd: Path, bases: seq<Base>, observe: Path -> Observed)
    returns (code: int, stats: CompressionStats, videos: seq<Path>)
    requires |bases| == |ScanPaths(a, cwd)|
    ensures Sorted(videos) && Distinct(videos)
    ensures forall p :: p in videos <==>
              p in AllCandidates(bases, a.recursive) && Wanted(p, set e <- NormalisedExtensions(ConfigOf(a)))
    ensures stats.Counters() == BumpAll(Counts(0, 0, 0, 0, 0), Outcomes(videos, ConfigOf(a), observe))
    ensures Total(stats.Counters()) == |videos|
    ensures code == (if stats.failures == 0 then 0 else 1)
    ensures code == 0 <==> forall i :: 0 <= i < |videos| ==> OutcomeOf(ConfigOf(a), observe(videos[i])) != Failed
  {
    var c := ConfigOf(a);
    videos := DiscoverVideoFiles(bases, c);
    code, stats := ProcessAll(videos, c, observe);
  }

  /** The loop of `main` over the videos found: the counters are those
      the videos' outcomes raise, in order, so every video is accounted
      for once, and the exit code is 0 exactly when no video failed (so
      also when there was nothing to do). */
  method ProcessAll(videos: seq<Path>, c: CompressionConfig, observe: Path -> Observed)
    returns (code: int, stats: CompressionStats)
    ensures stats.Counters() == BumpAll(Counts(0, 0, 0, 0, 0), Outcomes(videos, c, observe))
    ensures Total(stats.Counters()) == |videos|
    ensures code == (if stats.failures == 0 then 0 else 1)
    ensures code == 0 <==> forall i :: 0 <= i < |videos| ==> OutcomeOf(c, observe(videos[i])) != Failed
  {
    stats := new CompressionStats();
    if videos == [] {
      return 0, stats;
    }
    var i := 0;
    while i < |videos|
      invariant 0 <= i <= |videos|
      invariant stats.Counters() == BumpAll(Counts(0, 0, 0, 0, 0), Outcomes(videos[..i], c, observe))
    {
      ProcessCounted(videos[i], c, stats, observe(videos[i]));
      OutcomesSnoc(videos, i, c, observe);
      BumpAllSnoc(Counts(0, 0, 0, 0, 0), Outcomes(videos[..i], c, observe), OutcomeOf(c, observe(videos[i])));
      i := i + 1;
    }
    assert videos[..i] == videos;
    AllCounted(Outcomes(videos, c, observe));
    code := if stats.failures == 0 then 0 else 1;
  }
}
