/** The run of an encode plan, the per-file driver and the batch
    summary of av1conv.py: `execute_plan`, `process_file`,
    `process_batch` and the exit status of `main`. The file system is a
    map from paths to sizes; ffmpeg and ffprobe are replaced by what they
    report (an exit status, the size of the file written, a probe
    result). */
module Av1Batch {
  import opened Common
  import opened Av1Config
  import opened Av1Media
  import opened Av1Plan

  /** `EncodeResult`. */
  datatype EncodeResult = EncodeResult(
    source: FilePath,
    destination: FilePath,
    skipped: bool,
    reverted: bool,
    message: string,
    savingsBytes: int)

  type Files = map<FilePath, nat>

  /** The files that remain once `shutil.rmtree(dir)` has run. */
  function WithoutDir(files: Files, dir: string): (r: Files)
    ensures forall p :: p in r <==> p in files && p.dir != dir
    ensures forall p :: p in r ==> r[p] == files[p]
  {
    map p | p in files && p.dir != dir :: files[p]
  }

  /** The files on disk, with their sizes. */
  class Disk {
    var files: Files

    constructor (files: Files)
      ensures this.files == files
    {
      this.files := files;
    }

    /** A file written, or overwritten, with `size` bytes. */
    method Write(p: FilePath, size: nat)
      modifies this
      ensures files == old(files)[p := size]
    {
      files := files[p := size];
    }

    /** `Path.unlink`; unlinking a missing file changes nothing. */
    method Unlink(p: FilePath)
      modifies this
      ensures files == old(files) - {p}
    {
      files := files - {p};
    }

    /** `shutil.move(from, to)` onto a destination that does not exist. */
    method Move(from: FilePath, to: FilePath)
      requires from in files
      modifies this
      ensures files == (old(files) - {from})[to := old(files)[from]]
    {
      files := (files - {from})[to := files[from]];
    }

    /** `shutil.rmtree(dir, ignore_errors=True)`. */
    method RemoveTree(dir: string)
      modifies this
      ensures files == WithoutDir(old(files), dir)
    {
      files := WithoutDir(files, dir);
    }
  }

  // ---------------------------------------------------------------------
  // execute_plan
  // ---------------------------------------------------------------------

  /** What a step leaves: its result, or the message of the error it
      raises, and the files on disk afterwards. */
  datatype Outcome = Outcome(result: Result<EncodeResult, string>, files: Files)

  /** The temporary directory removed when `cleanup_on_exit` is set. */
  function Cleaned(files: Files, plan: EncodePlan, cfg: Config): Files
    requires Complete(cfg)
  {
    if Truthy(cfg[CleanupOnExit]) then WithoutDir(files, plan.tempDir) else files
  }

  const RevertedMessage := "Encoded file larger than source; reverted"

  /** The result reports a skip whenever it reports a revert, and a skip
      saves nothing. */
  predicate Consistent(r: EncodeResult) {
    (r.reverted ==> r.skipped) && (r.skipped ==> r.savingsBytes == 0)
  }

  /** The keep/revert rule once the encode is at its final place: an
      encode no smaller than the source is deleted unless larger files
      are allowed; a kept encode saves the difference in size and, with
      `remove_input_file`, the source is removed. */
  function Decide(placed: Files, plan: EncodePlan, cfg: Config): (o: Outcome)
    requires Complete(cfg) && plan.finalDestination in placed
    ensures o.result.Ok? && Consistent(o.result.value)
    ensures o.result.value.message in {RevertedMessage, "Success"}
  {
    var newSize := placed[plan.finalDestination];
    if newSize >= plan.sourceSize && !Truthy(cfg[AllowLargerFiles]) then
      Outcome(Ok(EncodeResult(plan.source, plan.source, true, true, RevertedMessage, 0)),
              placed - {plan.finalDestination})
    else
      var result := EncodeResult(plan.source, plan.finalDestination, false, false, "Success",
                                 plan.sourceSize - newSize);
      if Truthy(cfg[RemoveInputFile]) then Outcome(Ok(result), placed - {plan.source})
      else Outcome(Ok(result), placed)
  }

  /** Moving the temporary file over any existing final destination, then
      the clean-up; `stat` of the destination raises if the clean-up
      removed it. */
  function Place(ran: Files, plan: EncodePlan, cfg: Config): (o: Outcome)
    requires Complete(cfg)
    ensures o.result.Ok? ==> Consistent(o.result.value)
                             && o.result.value.message in {RevertedMessage, "Success"}
  {
    var cleared := ran - {plan.finalDestination};
    if plan.tempFile !in cleared then
      Outcome(Err("FileNotFoundError: " + PathText(plan.tempFile)), cleared)
    else
      var moved := (cleared - {plan.tempFile})[plan.finalDestination := cleared[plan.tempFile]];
      var placed := Cleaned(moved, plan, cfg);
      if plan.finalDestination !in placed then
        Outcome(Err("FileNotFoundError: " + PathText(plan.finalDestination)), placed)
      else Decide(placed, plan, cfg)
  }

  /** `str()` of the `CalledProcessError` that `subprocess.run` raises
      for a non-zero exit status: the command list and the status, or
      for a negative status the number of the signal that ended it. */
  function CalledProcessText(command: seq<string>, exitCode: int): string
    requires exitCode != 0
  {
    if exitCode > 0 then
      "Command '" + ListText(command) + "' returned non-zero exit status " + NatToString(exitCode) + "."
    else
      "Command '" + ListText(command) + "' died with signal " + NatToString(-exitCode) + "."
  }

  /** The message of a failed run: `ffmpeg failed: ` and the text of the
      exception. */
  function FfmpegFailed(command: seq<string>, exitCode: int): string
    requires exitCode != 0
  {
    "ffmpeg failed: " + CalledProcessText(command, exitCode)
  }

  /** `execute_plan`, given the exit status ffmpeg returns and the size of
      the temporary file it writes (`None` when it writes none). */
  function Execute(files: Files, plan: EncodePlan, cfg: Config, exitCode: int, written: Option<nat>): (o: Outcome)
    requires Complete(cfg)
    ensures exitCode != 0 ==> o.result == Err(FfmpegFailed(plan.command, exitCode))
    ensures o.result.Ok? ==> Consistent(o.result.value)
                             && o.result.value.message in {RevertedMessage, "Success"}
  {
    var ran := if written.Some? then files[plan.tempFile := written.value] else files;
    if exitCode != 0 then
      Outcome(Err(FfmpegFailed(plan.command, exitCode)), Cleaned(ran, plan, cfg))
    else if plan.tempFile !in ran then
      Outcome(Err("Temporary output missing after ffmpeg run"), Cleaned(ran, plan, cfg))
    else Place(ran, plan, cfg)
  }

  /** The end of `execute_plan`: keep the encode or revert to the source. */
  method KeepOrRevert(disk: Disk, plan: EncodePlan, cfg: Config) returns (r: Result<EncodeResult, string>)
    requires Complete(cfg) && plan.finalDestination in disk.files
    modifies disk
    ensures r == Decide(old(disk.files), plan, cfg).result
    ensures disk.files == Decide(old(disk.files), plan, cfg).files
  {
    var final := plan.finalDestination;
    var newSize := disk.files[final];
    var savings := plan.sourceSize - newSize;
    var reverted := false;
    if newSize >= plan.sourceSize {
      if !Truthy(cfg[AllowLargerFiles]) {
        disk.Unlink(final);
        reverted := true;
        savings := 0;
      }
    }
    if reverted {
      return Ok(EncodeResult(plan.source, plan.source, true, true, RevertedMessage, 0));
    }
    if Truthy(cfg[RemoveInputFile]) {
      disk.Unlink(plan.source);
    }
    return Ok(EncodeResult(plan.source, final, false, false, "Success", savings));
  }

  /** The middle of `execute_plan`: move the encode into place and clean up. */
  method PlaceOutput(disk: Disk, plan: EncodePlan, cfg: Config) returns (r: Result<EncodeResult, string>)
    requires Complete(cfg)
    modifies disk
    ensures r == Place(old(disk.files), plan, cfg).result
    ensures disk.files == Place(old(disk.files), plan, cfg).files
  {
    var final := plan.finalDestination;
    ghost var cleared := disk.files - {final};
    if final in disk.files {
      disk.Unlink(final);
    } else {
      assert disk.files == cleared;
    }
    if plan.tempFile !in disk.files {
      return Err("FileNotFoundError: " + PathText(plan.tempFile));
    }
    disk.Move(plan.tempFile, final);
    ghost var moved := disk.files;
    assert moved == (cleared - {plan.tempFile})[final := cleared[plan.tempFile]];
    if Truthy(cfg[CleanupOnExit]) {
      disk.RemoveTree(plan.tempDir);
    }
    assert disk.files == Cleaned(moved, plan, cfg);
    if final !in disk.files {
      return Err("FileNotFoundError: " + PathText(final));
    }
    r := KeepOrRevert(disk, plan, cfg);
  }

  /** `execute_plan`: run ffmpeg, check its output, move it into place,
      then keep it or revert to the source. */
  method ExecutePlan(disk: Disk, plan: EncodePlan, cfg: Config, exitCode: int, written: Option<nat>)
    returns (r: Result<EncodeResult, string>)
    requires Complete(cfg)
    modifies disk
    ensures r == Execute(old(disk.files), plan, cfg, exitCode, written).result
    ensures disk.files == Execute(old(disk.files), plan, cfg, exitCode, written).files
  {
    if written.Some? {
      disk.Write(plan.tempFile, written.value);
    }
    if exitCode != 0 {
      if Truthy(cfg[CleanupOnExit]) {
        disk.RemoveTree(plan.tempDir);
      }
      return Err(FfmpegFailed(plan.command, exitCode));
    }
    if plan.tempFile !in disk.files {
      if Truthy(cfg[CleanupOnExit]) {
        disk.RemoveTree(plan.tempDir);
      }
      return Err("Temporary output missing after ffmpeg run");
    }
    r := PlaceOutput(disk, plan, cfg);
  }

  /** What a plan from `build_encode_plan` satisfies once its temporary
      directory is fresh: the temporary file is inside it, and neither
      the source nor the final destination is, nor are they the same. */
  predicate Separate(plan: EncodePlan) {
    && plan.tempFile.dir == plan.tempDir
    && plan.source.dir != plan.tempDir
    && plan.finalDestination.dir != plan.tempDir
    && plan.finalDestination != plan.source
  }

  /** A suffix holds only its leading dot. */
  lemma SuffixHasOneDot(name: string)
    ensures Suffix(name) != [] ==> '.' !in Suffix(name)[1..]
  {
    match RFind(name, '.')
    case Some(i) =>
      if 0 < i < |name| - 1 {
        var rest := name[i + 1..];
        assert forall k :: 0 <= k < |rest| ==> rest[k] == name[i + 1 + k];
      }
    case None =>
  }

  /** The final destination is never the source: its name would need
      the two-dot suffix `.av1.mkv`. */
  lemma FinalIsNotSource(info: MediaInfo)
    ensures FinalDestination(info) != info.path
  {
    var name := info.path.name;
    var stem := Stem(name);
    SuffixHasOneDot(name);
    assert ".av1.mkv"[1..][3] == '.';
    assert (stem + ".av1.mkv")[|stem|..] == ".av1.mkv";
    assert (stem + Suffix(name))[|stem|..] == Suffix(name);
  }

  /** Every plan in a fresh temporary directory is separate. */
  lemma PlanIsSeparate(info: MediaInfo, cfg: Config, tool: Toolchain, tempDir: string)
    requires Complete(cfg)
    requires PlanFor(info, cfg, tool, tempDir).Ok?
    requires tempDir != info.path.dir
    ensures Separate(PlanFor(info, cfg, tool, tempDir).value)
  {
    PlanShape(info, cfg, tool, tempDir);
    FinalIsNotSource(info);
  }

  /** When the encode is no smaller and larger files are not allowed, the
      encode is deleted and the result is a reverted skip with no
      savings; the source stays exactly as it was. */
  lemma RevertRule(files: Files, plan: EncodePlan, cfg: Config, newSize: nat)
    requires Complete(cfg) && Separate(plan)
    requires newSize >= plan.sourceSize && !Truthy(cfg[AllowLargerFiles])
    ensures var o := Execute(files, plan, cfg, 0, Some(newSize));
      && o.result == Ok(EncodeResult(plan.source, plan.source, true, true, RevertedMessage, 0))
      && plan.finalDestination !in o.files
      && (plan.source in o.files <==> plan.source in files)
      && (plan.source in files ==> o.files[plan.source] == files[plan.source])
  {
  }

  /** Otherwise the encode is kept at its final place with the size
      ffmpeg wrote, the savings are the difference in size (negative for
      an allowed larger file), and the source is removed exactly when
      `remove_input_file` is set. */
  lemma KeepRule(files: Files, plan: EncodePlan, cfg: Config, newSize: nat)
    requires Complete(cfg) && Separate(plan)
    requires newSize < plan.sourceSize || Truthy(cfg[AllowLargerFiles])
    ensures var o := Execute(files, plan, cfg, 0, Some(newSize));
      && o.result == Ok(EncodeResult(plan.source, plan.finalDestination, false, false, "Success",
                                     plan.sourceSize - newSize))
      && plan.finalDestination in o.files && o.files[plan.finalDestination] == newSize
      && (plan.source in o.files <==> plan.source in files && !Truthy(cfg[RemoveInputFile]))
  {
  }

  /** A failed ffmpeg run or a missing output raises, and touches
      neither the source nor the final destination. */
  lemma FailureTouchesNothing(files: Files, plan: EncodePlan, cfg: Config, exitCode: int, written: Option<nat>)
    requires Complete(cfg) && Separate(plan)
    requires exitCode != 0 || written.None?
    requires plan.tempFile !in files
    ensures var o := Execute(files, plan, cfg, exitCode, written);
      && o.result.Err?
      && (forall p: FilePath :: p.dir != plan.tempDir ==> (p in o.files <==> p in files))
      && (forall p: FilePath :: p.dir != plan.tempDir && p in files ==> o.files[p] == files[p])
  {
  }

  // ---------------------------------------------------------------------
  // process_file
  // ---------------------------------------------------------------------

  /** What the outside world reports for one file: the ffprobe result (or
      its error), the directory `mkdtemp` creates, ffmpeg's exit status
      and the size of the temporary file it writes. */
  datatype Run = Run(probe: Result<MediaInfo, string>, tempDir: string, exitCode: int, written: Option<nat>)

  const FilteredMessage := "Filtered by heuristics"

  /** `process_file`: the skip filter (overridden by `force`), the probe,
      the plan and its run. */
  function ProcessOutcome(files: Files, path: FilePath, cfg: Config, tool: Toolchain, run: Run): (o: Outcome)
    requires Complete(cfg)
    ensures o.result.Ok? ==> Consistent(o.result.value)
  {
    var isFile := path in files;
    var size := if isFile then files[path] else 0;
    match ShouldSkipFile(path, isFile, size, cfg)
    case Err(e) => Outcome(Err(e), files)
    case Ok(skip) =>
      if skip && !Truthy(cfg[Force]) then
        Outcome(Ok(EncodeResult(path, path, true, false, FilteredMessage, 0)), files)
      else
        match run.probe
        case Err(e) => Outcome(Err(e), files)
        case Ok(info) =>
          match PlanFor(info, cfg, tool, run.tempDir)
          case Err(e) => Outcome(Err(e), files)
          case Ok(plan) => Execute(files, plan, cfg, run.exitCode, run.written)
  }

  method ProcessFile(disk: Disk, path: FilePath, cfg: Config, tool: Toolchain, run: Run)
    returns (r: Result<EncodeResult, string>)
    requires Complete(cfg)
    modifies disk
    ensures r == ProcessOutcome(old(disk.files), path, cfg, tool, run).result
    ensures disk.files == ProcessOutcome(old(disk.files), path, cfg, tool, run).files
  {
    var isFile := path in disk.files;
    var size := if isFile then disk.files[path] else 0;
    var skip := ShouldSkipFile(path, isFile, size, cfg);
    if skip.Err? {
      return Err(skip.error);
    }
    if skip.value && !Truthy(cfg[Force]) {
      return Ok(EncodeResult(path, path, true, false, FilteredMessage, 0));
    }
    if run.probe.Err? {
      return Err(run.probe.error);
    }
    var plan := BuildEncodePlan(run.probe.value, cfg, tool, run.tempDir);
    if plan.Err? {
      return Err(plan.error);
    }
    r := ExecutePlan(disk, plan.value, cfg, run.exitCode, run.written);
  }

  /** With `force` set the heuristics never filter a file out. */
  lemma ForceNeverFilters(files: Files, path: FilePath, cfg: Config, tool: Toolchain, run: Run)
    requires Complete(cfg) && Truthy(cfg[Force])
    ensures var r := ProcessOutcome(files, path, cfg, tool, run).result;
      r.Ok? ==> r.value.message != FilteredMessage
  {
  }

  /** A later run without `force` passes over an encode's final
      `.av1.mkv` file: it reports it filtered by the heuristics and
      leaves the disk as it was. */
  lemma OutputFilteredLater(files: Files, info: MediaInfo, cfg: Config, tool: Toolchain, run: Run)
    requires Complete(cfg) && !Truthy(cfg[Force])
    ensures var dest := FinalDestination(info);
      ProcessOutcome(files, dest, cfg, tool, run)
        == Outcome(Ok(EncodeResult(dest, dest, true, false, FilteredMessage, 0)), files)
  {
    var dest := FinalDestination(info);
    OutputIsSkippedLater(info, dest in files, if dest in files then files[dest] else 0, cfg);
  }

  // ---------------------------------------------------------------------
  // process_batch
  // ---------------------------------------------------------------------

  /** The results of processing `paths` one after another, each file
      seeing the disk the previous ones left, and the final disk. */
  function Batch(files: Files, paths: seq<FilePath>, runs: seq<Run>, cfg: Config, tool: Toolchain)
    : (r: (seq<Result<EncodeResult, string>>, Files))
    requires Complete(cfg) && |runs| == |paths|
    ensures |r.0| == |paths|
    ensures AllConsistent(r.0)
  {
    if paths == [] then ([], files)
    else
      var n := |paths| - 1;
      var prev := Batch(files, paths[..n], runs[..n], cfg, tool);
      var o := ProcessOutcome(prev.1, paths[n], cfg, tool, runs[n]);
      (prev.0 + [o.result], o.files)
  }

  lemma BatchSnoc(files: Files, paths: seq<FilePath>, runs: seq<Run>, cfg: Config, tool: Toolchain, k: nat)
    requires Complete(cfg) && |runs| == |paths| && k < |paths|
    ensures var prev := Batch(files, paths[..k], runs[..k], cfg, tool);
      var o := ProcessOutcome(prev.1, paths[k], cfg, tool, runs[k]);
      Batch(files, paths[..k + 1], runs[..k + 1], cfg, tool) == (prev.0 + [o.result], o.files)
  {
    assert paths[..k + 1][..k] == paths[..k];
    assert runs[..k + 1][..k] == runs[..k];
  }

  predicate AllConsistent(results: seq<Result<EncodeResult, string>>) {
    forall i :: 0 <= i < |results| && results[i].Ok? ==> Consistent(results[i].value)
  }

  /** `SessionReport`'s counters. */
  datatype Summary = Summary(processed: nat, skipped: nat, reverted: nat, totalSavings: int, failures: seq<string>)

  /** One worker's update of the report: an exception is a failure and a
      skip; otherwise a skip or a processed file with its savings, and a
      revert counted besides. */
  function Recorded(s: Summary, path: FilePath, r: Result<EncodeResult, string>): Summary {
    match r
    case Err(e) => s.(failures := s.failures + [PathText(path) + ": " + e], skipped := s.skipped + 1)
    case Ok(res) =>
      var counted :=
        if res.skipped then s.(skipped := s.skipped + 1)
        else s.(processed := s.processed + 1, totalSavings := s.totalSavings + res.savingsBytes);
      if res.reverted then counted.(reverted := counted.reverted + 1) else counted
  }

  /** The report after the workers for `results` (one per path) ran in order. */
  function Summarise(paths: seq<FilePath>, results: seq<Result<EncodeResult, string>>): Summary
    requires |results| == |paths|
  {
    if paths == [] then Summary(0, 0, 0, 0, [])
    else
      var n := |paths| - 1;
      Recorded(Summarise(paths[..n], results[..n]), paths[n], results[n])
  }

  lemma SummariseSnoc(paths: seq<FilePath>, results: seq<Result<EncodeResult, string>>, k: nat)
    requires |results| == |paths| && k < |paths|
    ensures Summarise(paths[..k + 1], results[..k + 1])
            == Recorded(Summarise(paths[..k], results[..k]), paths[k], results[k])
  {
    assert paths[..k + 1][..k] == paths[..k];
    assert results[..k + 1][..k] == results[..k];
  }

  class SessionReport {
    var processed: nat
    var skipped: nat
    var reverted: nat
    var totalSavings: int
    var failures: seq<string>

    constructor ()
      ensures Current() == Summary(0, 0, 0, 0, [])
    {
      processed, skipped, reverted, totalSavings, failures := 0, 0, 0, 0, [];
    }

    function Current(): Summary
      reads this
    {
      Summary(processed, skipped, reverted, totalSavings, failures)
    }

    /** The body of `worker` after `process_file` returned or raised. */
    method Record(path: FilePath, r: Result<EncodeResult, string>)
      modifies this
      ensures Current() == Recorded(old(Current()), path, r)
    {
      if r.Err? {
        failures := failures + [PathText(path) + ": " + r.error];
        skipped := skipped + 1;
        return;
      }
      if r.value.skipped {
        skipped := skipped + 1;
      } else {
        processed := processed + 1;
        totalSavings := totalSavings + r.value.savingsBytes;
      }
      if r.value.reverted {
        reverted := reverted + 1;
      }
    }
  }

  /** One turn of `process_batch`'s loop: the `k`-th file, then its
      worker's update of the report. */
  method BatchStep(disk: Disk, report: SessionReport, ghost files0: Files, paths: seq<FilePath>, runs: seq<Run>,
                   cfg: Config, tool: Toolchain, k: nat)
    requires Complete(cfg) && |runs| == |paths| && k < |paths|
    requires var b := Batch(files0, paths[..k], runs[..k], cfg, tool);
      disk.files == b.1 && report.Current() == Summarise(paths[..k], b.0)
    modifies disk, report
    ensures var b := Batch(files0, paths[..k + 1], runs[..k + 1], cfg, tool);
      disk.files == b.1 && report.Current() == Summarise(paths[..k + 1], b.0)
  {
    ghost var prev := Batch(files0, paths[..k], runs[..k], cfg, tool);
    BatchSnoc(files0, paths, runs, cfg, tool, k);
    var r := ProcessFile(disk, paths[k], cfg, tool, runs[k]);
    RecordStep(report, paths, prev.0, r, k);
  }

  /** The worker's update of the report, in the loop's terms. */
  method RecordStep(report: SessionReport, paths: seq<FilePath>, ghost results: seq<Result<EncodeResult, string>>,
                    r: Result<EncodeResult, string>, k: nat)
    requires k < |paths| && |results| == k
    requires report.Current() == Summarise(paths[..k], results)
    modifies report
    ensures report.Current() == Summarise(paths[..k + 1], results + [r])
  {
    SummariseSnoc(paths[..k + 1], results + [r], k);
    assert paths[..k + 1][..k] == paths[..k];
    assert (results + [r])[..k] == results;
    report.Record(paths[k], r);
  }

  /** `process_batch` with one worker: every path in order. */
  method ProcessBatch(disk: Disk, paths: seq<FilePath>, runs: seq<Run>, cfg: Config, tool: Toolchain)
    returns (report: SessionReport)
    requires Complete(cfg) && |runs| == |paths|
    modifies disk
    ensures var b := Batch(old(disk.files), paths, runs, cfg, tool);
      report.Current() == Summarise(paths, b.0) && disk.files == b.1
  {
    ghost var files0 := disk.files;
    report := new SessionReport();
    var k := 0;
    while k < |paths|
      invariant 0 <= k <= |paths| && fresh(report)
      invariant var b := Batch(files0, paths[..k], runs[..k], cfg, tool);
        disk.files == b.1 && report.Current() == Summarise(paths[..k], b.0)
    {
      BatchStep(disk, report, files0, paths, runs, cfg, tool, k);
      k := k + 1;
    }
    assert paths[..k] == paths;
    assert runs[..k] == runs;
  }

  // ---------------------------------------------------------------------
  // What the report adds up to
  // ---------------------------------------------------------------------

  /** The number of results that are errors. */
  function ErrorCount(results: seq<Result<EncodeResult, string>>): nat {
    if results == [] then 0 else (if results[0].Err? then 1 else 0) + ErrorCount(results[1..])
  }

  /** The savings of the results that were processed. */
  function SavingsSum(results: seq<Result<EncodeResult, string>>): int {
    if results == [] then 0
    else (if results[0].Ok? && !results[0].value.skipped then results[0].value.savingsBytes else 0)
         + SavingsSum(results[1..])
  }

  lemma {:induction false} ErrorCountSnoc(results: seq<Result<EncodeResult, string>>, r: Result<EncodeResult, string>)
    ensures ErrorCount(results + [r]) == ErrorCount(results) + (if r.Err? then 1 else 0)
  {
    if results != [] {
      assert (results + [r])[1..] == results[1..] + [r];
      ErrorCountSnoc(results[1..], r);
    } else {
      assert [] + [r] == [r];
    }
  }

  lemma {:induction false} SavingsSumSnoc(results: seq<Result<EncodeResult, string>>, r: Result<EncodeResult, string>)
    ensures SavingsSum(results + [r])
            == SavingsSum(results) + (if r.Ok? && !r.value.skipped then r.value.savingsBytes else 0)
  {
    if results != [] {
      assert (results + [r])[1..] == results[1..] + [r];
      SavingsSumSnoc(results[1..], r);
    } else {
      assert [] + [r] == [r];
    }
  }

  /** Every input adds exactly one to processed + skipped, every error
      one failure, the total savings are those of the processed files,
      and a revert is never counted without its skip. */
  lemma {:induction false} SummaryTotals(paths: seq<FilePath>, results: seq<Result<EncodeResult, string>>)
    requires |results| == |paths|
    requires AllConsistent(results)
    ensures var s := Summarise(paths, results);
      && s.processed + s.skipped == |paths|
      && |s.failures| == ErrorCount(results)
      && s.totalSavings == SavingsSum(results)
      && s.reverted <= s.skipped
  {
    if paths != [] {
      var n := |paths| - 1;
      SummaryTotals(paths[..n], results[..n]);
      assert results[..n] + [results[n]] == results;
      ErrorCountSnoc(results[..n], results[n]);
      SavingsSumSnoc(results[..n], results[n]);
    }
  }

  /** `main`'s status after a batch: 1 exactly when something failed. */
  function ExitStatus(report: Summary): (r: int)
    ensures r in {0, 1}
  {
    if report.failures == [] then 0 else 1
  }

  /** So, for a whole batch: the counters add up, and `main` fails
      exactly when some file raised. */
  lemma BatchReport(files: Files, paths: seq<FilePath>, runs: seq<Run>, cfg: Config, tool: Toolchain)
    requires Complete(cfg) && |runs| == |paths|
    ensures var rs := Batch(files, paths, runs, cfg, tool).0;
      var s := Summarise(paths, rs);
      && s.processed + s.skipped == |paths|
      && s.reverted <= s.skipped
      && s.totalSavings == SavingsSum(rs)
      && (ExitStatus(s) == 1 <==> exists i :: 0 <= i < |rs| && rs[i].Err?)
  {
    var rs := Batch(files, paths, runs, cfg, tool).0;
    SummaryTotals(paths, rs);
    ErrorCountPositive(rs);
  }

  lemma {:induction false} ErrorCountPositive(results: seq<Result<EncodeResult, string>>)
    ensures ErrorCount(results) > 0 <==> exists i :: 0 <= i < |results| && results[i].Err?
  {
    if results != [] {
      ErrorCountPositive(results[1..]);
      if results[0].Err? {
      } else {
        assert forall i :: 1 <= i < |results| ==> results[i] == results[1..][i - 1];
      }
    }
  }
}
