/** `apply_args_to_config` (av1conv.py): the parsed command line laid over
    the configuration. */
module Av1Args {
  import opened Common
  import opened Av1Config

  /** The `argparse` namespace. An option that was not given holds its
      default: `None` for the valued options, `False` for `store_true`
      flags, `True` for `store_false` flags, and `[]` for `--ignore`. */
  datatype Args = Args(
    directory: Option<string>,
    generateConfig: bool,
    configFile: Option<string>,
    verbose: bool,
    force: bool,
    forceReencode: bool,
    preset: Option<int>,
    crf: Option<int>,
    maxParallelJobs: Option<int>,
    gop: Option<int>,
    sizeThreshold: Option<string>,
    removeInputFile: bool,
    resize1080p: bool,
    resize720p: bool,
    allowLargerFiles: bool,
    tempRoot: Option<string>,
    cleanupOnExit: bool,
    stereoDownmix: bool,
    audioBitrateOverride: Option<string>,
    detectGrain: bool,
    detectGrainTest: Option<string>,
    skipDolbyVision: bool,
    extraIgnoreTerms: seq<string>,
    personalFfmpegPath: Option<string>,
    preferredAudioLanguage: Option<string>,
    preferredSubtitleLanguage: Option<string>,
    forcedSubtitlesOnly: bool,
    generateReport: bool)

  /** The command line with no option given. */
  const NoOptions: Args := Args(
    None, false, None, false, false, false, None, None, None, None, None,
    false, false, false, false, None, true, false, None, false, None, false,
    [], None, None, None, true, false)

  function IntOption(o: Option<int>): Option<Value> {
    if o.Some? then Some(VInt(o.value)) else None
  }

  function StrOption(o: Option<string>): Option<Value> {
    if o.Some? then Some(VStr(o.value)) else None
  }

  function PathOption(o: Option<string>): Option<Value> {
    if o.Some? then Some(VPath(o.value)) else None
  }

  /** The value `vars(args)` holds under an attribute's name; `None` for the
      attributes no destination names and for options left at `None`. The
      destinations `generate_config`, `config`, `resize_1080p`,
      `resize_720p` and `generate_report` name no attribute, so
      `hasattr(config, key)` drops them. The positional `directory` is a
      string, not a path. */
  function CommandLineValue(args: Args, f: Field): Option<Value> {
    match f
    case Directory => StrOption(args.directory)
    case Verbose => Some(VBool(args.verbose))
    case Force => Some(VBool(args.force))
    case ForceReencode => Some(VBool(args.forceReencode))
    case Preset => IntOption(args.preset)
    case Crf => IntOption(args.crf)
    case MaxParallelJobs => IntOption(args.maxParallelJobs)
    case Gop => IntOption(args.gop)
    case SizeThreshold => StrOption(args.sizeThreshold)
    case RemoveInputFile => Some(VBool(args.removeInputFile))
    case AllowLargerFiles => Some(VBool(args.allowLargerFiles))
    case TempRoot => PathOption(args.tempRoot)
    case CleanupOnExit => Some(VBool(args.cleanupOnExit))
    case StereoDownmix => Some(VBool(args.stereoDownmix))
    case AudioBitrateOverride => StrOption(args.audioBitrateOverride)
    case DetectGrain => Some(VBool(args.detectGrain))
    case DetectGrainTest => PathOption(args.detectGrainTest)
    case SkipDolbyVision => Some(VBool(args.skipDolbyVision))
    case ExtraIgnoreTerms => Some(VTuple(args.extraIgnoreTerms))
    case PersonalFfmpegPath => PathOption(args.personalFfmpegPath)
    case PreferredAudioLanguage => StrOption(args.preferredAudioLanguage)
    case PreferredSubtitleLanguage => StrOption(args.preferredSubtitleLanguage)
    case ForcedSubtitlesOnly => Some(VBool(args.forcedSubtitlesOnly))
    case _ => None
  }

  /** The entries of `vars(args)` the `setattr` loop applies: those that
      are not `None` and name an attribute. */
  function Given(args: Args): (g: map<Field, Value>)
    ensures forall f :: f in g <==> CommandLineValue(args, f).Some?
    ensures forall f :: f in g ==> g[f] == CommandLineValue(args, f).value
  {
    map f: Field | CommandLineValue(args, f).Some? :: CommandLineValue(args, f).value
  }

  /** The steps after the `setattr` loop: the resize flags (720p last, so it
      wins), the tuple conversion of the extra ignore terms (the value is
      already a tuple here), the grain test path, and `force_reencode`
      implying `force`. */
  function Finish(cfg: Config, args: Args): (r: Config)
    requires Complete(cfg)
    ensures Complete(r)
  {
    var c1 := if args.resize1080p then cfg[Resize := VBool(true)][ResizeTargetHeight := VInt(1080)] else cfg;
    var c2 := if args.resize720p then c1[Resize := VBool(true)][ResizeTargetHeight := VInt(720)] else c1;
    var c3 := if args.detectGrainTest.Some? then c2[DetectGrainTest := VPath(args.detectGrainTest.value)] else c2;
    if Truthy(c3[ForceReencode]) then c3[Force := VBool(true)] else c3
  }

  /** `apply_args_to_config` on values. */
  function ApplyArgs(cfg: Config, args: Args): (r: Config)
    requires Complete(cfg)
    ensures Complete(r)
  {
    Finish(cfg + Given(args), args)
  }

  /** `apply_args_to_config`: every given entry of the namespace is set on
      the configuration, then the derived settings are applied. */
  method ApplyArgsToConfig(args: Args, config: ConfigObject)
    requires config.Valid()
    modifies config
    ensures config.Valid()
    ensures config.values == ApplyArgs(old(config.values), args)
  {
    var given := Given(args);
    ghost var start := config.values;
    var todo := given.Keys;
    while todo != {}
      invariant todo <= given.Keys
      invariant config.Valid()
      invariant config.values == start + map f | f in given.Keys - todo :: given[f]
      decreases todo
    {
      var f :| f in todo;
      config.values := config.values[f := given[f]];
      todo := todo - {f};
    }
    assert config.values == start + given;
    if args.resize1080p {
      config.values := config.values[Resize := VBool(true)][ResizeTargetHeight := VInt(1080)];
    }
    if args.resize720p {
      config.values := config.values[Resize := VBool(true)][ResizeTargetHeight := VInt(720)];
    }
    if args.detectGrainTest.Some? {
      config.values := config.values[DetectGrainTest := VPath(args.detectGrainTest.value)];
    }
    if Truthy(config.values[ForceReencode]) {
      config.values := config.values[Force := VBool(true)];
    }
  }

  // ---------------------------------------------------------------------
  // What the command line decides
  // ---------------------------------------------------------------------

  /** The attributes set by flags (`store_true`, `store_false`) and by
      `--ignore`, all of which have a value in the namespace whether given
      or not. */
  predicate AlwaysInNamespace(f: Field) {
    f in {Verbose, Force, ForceReencode, RemoveInputFile, AllowLargerFiles, CleanupOnExit,
          StereoDownmix, DetectGrain, SkipDolbyVision, ExtraIgnoreTerms, ForcedSubtitlesOnly}
  }

  /** Those attributes are always set, given on the command line or not. */
  lemma FlagsAlwaysGiven(args: Args, f: Field)
    requires AlwaysInNamespace(f)
    ensures f in Given(args)
  {
  }

  /** A valued option is set exactly when it was given. */
  lemma ValuedOptionsGiven(args: Args)
    ensures Crf in Given(args) <==> args.crf.Some?
    ensures Preset in Given(args) <==> args.preset.Some?
    ensures Gop in Given(args) <==> args.gop.Some?
    ensures SizeThreshold in Given(args) <==> args.sizeThreshold.Some?
    ensures TempRoot in Given(args) <==> args.tempRoot.Some?
  {
  }

  /** The steps after the `setattr` loop touch only the resize settings,
      the grain test path and `force`. */
  lemma FinishKeeps(c: Config, args: Args, f: Field)
    requires Complete(c) && f != Force && f != Resize && f != ResizeTargetHeight
    ensures Finish(c, args)[f] == if f == DetectGrainTest && args.detectGrainTest.Some?
                                  then VPath(args.detectGrainTest.value) else c[f]
  {
    var c1 := if args.resize1080p then c[Resize := VBool(true)][ResizeTargetHeight := VInt(1080)] else c;
    var c2 := if args.resize720p then c1[Resize := VBool(true)][ResizeTargetHeight := VInt(720)] else c1;
    var c3 := if args.detectGrainTest.Some? then c2[DetectGrainTest := VPath(args.detectGrainTest.value)] else c2;
    assert c1[f] == c[f] && c2[f] == c[f];
    assert Finish(c, args)[f] == c3[f];
  }

  /** An attribute the namespace sets ends with that value, except `force`,
      which `force_reencode` can still switch on. */
  lemma GivenWins(cfg: Config, args: Args, f: Field)
    requires Complete(cfg)
    requires f in Given(args) && f != Force
    ensures ApplyArgs(cfg, args)[f] == Given(args)[f]
  {
    var c := cfg + Given(args);
    assert c[f] == Given(args)[f];
    FinishKeeps(c, args, f);
  }

  /** `force` ends as `--force` or `--force-reencode`. */
  lemma ForceDecided(cfg: Config, args: Args)
    requires Complete(cfg)
    ensures ApplyArgs(cfg, args)[Force] == VBool(args.force || args.forceReencode)
    ensures Truthy(ApplyArgs(cfg, args)[ForceReencode]) ==> ApplyArgs(cfg, args)[Force] == VBool(true)
  {
    FlagsAlwaysGiven(args, Force);
    FlagsAlwaysGiven(args, ForceReencode);
  }

  /** `--resize-720p` wins over `--resize-1080p`; with neither, the resize
      settings stay as the configuration file left them. */
  lemma ResizeDecided(cfg: Config, args: Args)
    requires Complete(cfg)
    ensures var r := ApplyArgs(cfg, args);
      (args.resize720p ==> r[Resize] == VBool(true) && r[ResizeTargetHeight] == VInt(720))
      && (args.resize1080p && !args.resize720p ==>
            r[Resize] == VBool(true) && r[ResizeTargetHeight] == VInt(1080))
      && (!args.resize1080p && !args.resize720p ==>
            r[Resize] == cfg[Resize] && r[ResizeTargetHeight] == cfg[ResizeTargetHeight])
  {
    assert Resize !in Given(args) && ResizeTargetHeight !in Given(args);
  }

  /** An attribute the namespace does not set keeps its value, except the
      ones the steps after the loop derive. */
  lemma NotGivenKept(cfg: Config, args: Args, f: Field)
    requires Complete(cfg)
    requires f !in Given(args) && f !in {Resize, ResizeTargetHeight, DetectGrainTest, Force}
    ensures ApplyArgs(cfg, args)[f] == cfg[f]
  {
  }

  // ---------------------------------------------------------------------
  // Flags at their defaults override the configuration file
  // ---------------------------------------------------------------------

  /** As written, every flag and `--ignore` left off the command line
      ends at its `argparse` default, whatever the configuration file
      set. */
  lemma FileFlagsIgnored(cfg: Config, f: Field)
    requires Complete(cfg) && AlwaysInNamespace(f) && f != Force
    ensures CommandLineValue(NoOptions, f).Some? && ApplyArgs(cfg, NoOptions)[f] == CommandLineValue(NoOptions, f).value
  {
    FlagsAlwaysGiven(NoOptions, f);
    GivenWins(cfg, NoOptions, f);
  }

  /** So a flag left off the command line still overwrites the
      configuration file: `verbose=true` in the file is lost. */
  lemma FileFlagOverridden()
    ensures Complete(Defaults)
    ensures var loaded := LoadLines(Defaults, ["verbose=true"]);
      loaded[Verbose] == VBool(true) && ApplyArgs(loaded, NoOptions)[Verbose] == VBool(false)
  {
    DefaultsComplete();
    VerboseLineLoaded();
    var loaded := LoadLines(Defaults, ["verbose=true"]);
    assert Verbose in Given(NoOptions);
    GivenWins(loaded, NoOptions, Verbose);
  }

  /** Reading `verbose=true` into the defaults switches `verbose` on. */
  lemma VerboseLineLoaded()
    ensures Complete(Defaults)
    ensures LoadLines(Defaults, ["verbose=true"])[Verbose] == VBool(true)
  {
    DefaultsComplete();
    VerboseLineClassified();
    VerboseEntryApplied();
    LoadLinesSnoc(Defaults, [], "verbose=true");
    assert [] + ["verbose=true"] == ["verbose=true"];
  }

  lemma VerboseLineClassified()
    ensures ClassifyLine("verbose=true") == Entry(Verbose, "true")
  {
    var key, text := "verbose", "true";
    assert key + "=" + text == "verbose=true";
    assert FieldNamed(key) == Some(Verbose);
    assert PlainKey(key) && Unpadded(text);
    EntryLineRoundTrip(key, Verbose, text);
  }

  /** A non-empty value for a `bool` attribute stores whether its
      lower-cased text is one of the true words. */
  lemma FlagEntryApplied(cfg: Config, f: Field, text: string)
    requires Complete(cfg) && cfg[f].VBool? && text != []
    ensures ApplyEntry(cfg, Entry(f, text))[f] == VBool(ParseBool(text))
  {
  }

  lemma VerboseEntryApplied()
    ensures Complete(Defaults)
    ensures ApplyEntry(Defaults, Entry(Verbose, "true"))[Verbose] == VBool(true)
  {
    DefaultsComplete();
    assert Lower("true") == "true";
  }

  /** The evident intent: an option counts as given only when it differs
      from its `argparse` default, so a flag or `--ignore` left off the
      command line leaves the configuration file's value alone. */
  function IntendedValue(args: Args, f: Field): (v: Option<Value>)
    ensures !AlwaysInNamespace(f) ==> v == CommandLineValue(args, f)
    ensures v.Some? ==> v == CommandLineValue(args, f)
  {
    if AlwaysInNamespace(f) && CommandLineValue(args, f) == CommandLineValue(NoOptions, f) then None
    else CommandLineValue(args, f)
  }

  function GivenIntended(args: Args): (g: map<Field, Value>)
    ensures forall f :: f in g <==> IntendedValue(args, f).Some?
    ensures forall f :: f in g ==> g[f] == IntendedValue(args, f).value
  {
    map f: Field | IntendedValue(args, f).Some? :: IntendedValue(args, f).value
  }

  /** `apply_args_to_config` as evidently intended. */
  function ApplyArgsIntended(cfg: Config, args: Args): (r: Config)
    requires Complete(cfg)
    ensures Complete(r)
  {
    Finish(cfg + GivenIntended(args), args)
  }

  /** With no option given, the intended version keeps every setting of the
      configuration file; only `force_reencode` still implies `force`. */
  lemma IntendedKeepsFile(cfg: Config)
    requires Complete(cfg)
    ensures ApplyArgsIntended(cfg, NoOptions)
            == if Truthy(cfg[ForceReencode]) then cfg[Force := VBool(true)] else cfg
  {
    assert GivenIntended(NoOptions) == map[];
    assert cfg + map[] == cfg;
  }

  /** An option the intended version counts as given wins, as in the
      source; which ones count is `IntendedValue`. */
  lemma IntendedGivenWins(cfg: Config, args: Args, f: Field)
    requires Complete(cfg) && f != Force
    requires f in GivenIntended(args)
    ensures ApplyArgsIntended(cfg, args)[f] == GivenIntended(args)[f]
  {
    var c := cfg + GivenIntended(args);
    assert c[f] == GivenIntended(args)[f];
    FinishKeeps(c, args, f);
  }

  /** The intended version keeps the file's value of every flag and of
      `--ignore` left off the command line (`force` aside, which
      `force_reencode` can still switch on). */
  lemma IntendedFlagsKept(cfg: Config, f: Field)
    requires Complete(cfg) && AlwaysInNamespace(f) && f != Force
    ensures ApplyArgsIntended(cfg, NoOptions)[f] == cfg[f]
  {
    IntendedKeepsFile(cfg);
  }

  /** The intended version keeps `verbose=true` from the file. */
  lemma IntendedFileFlagKept()
    ensures Complete(Defaults)
    ensures var loaded := LoadLines(Defaults, ["verbose=true"]);
      ApplyArgsIntended(loaded, NoOptions)[Verbose] == VBool(true)
  {
    DefaultsComplete();
    VerboseLineLoaded();
    IntendedKeepsFile(LoadLines(Defaults, ["verbose=true"]));
  }
}
