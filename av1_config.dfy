/** The run-time configuration of the AV1 batch encoder (av1conv.py): the
    `Config` record with its defaults, the size-threshold text, the
    `key=value` configuration file, and the command-line overrides. */
module Av1Config {
  import opened Common

  // ---------------------------------------------------------------------
  // Values and fields
  // ---------------------------------------------------------------------

  /** What a `Config` attribute can hold. The record's declared types are
      `bool`, `int`, `str`, `Path`, a tuple of strings and `None`, but the
      loader and the command-line overrides assign with `setattr`, so an
      attribute can change kind (an empty value in the file makes it
      `None`, after which a later line stores a plain string). */
  datatype Value =
    | VNone
    | VBool(b: bool)
    | VInt(i: int)
    | VStr(s: string)
    | VPath(p: string)
    | VTuple(items: seq<string>)

  /** Python truthiness of an attribute; a `Path` object is always true. */
  predicate Truthy(v: Value) {
    match v
    case VNone => false
    case VBool(b) => b
    case VInt(i) => i != 0
    case VStr(s) => s != ""
    case VPath(_) => true
    case VTuple(t) => t != []
  }

  /** `str(value)` as it appears on an ffmpeg command line; a tuple is
      its items' `repr()` between parentheses, with a trailing comma
      after a single item. */
  function PyStr(v: Value): string {
    match v
    case VNone => "None"
    case VBool(b) => if b then "True" else "False"
    case VInt(i) => IntToString(i)
    case VStr(s) => s
    case VPath(p) => p
    case VTuple(t) =>
      if |t| == 1 then "(" + Repr(t[0]) + ",)"
      else "(" + Join(Reprs(t), ", ") + ")"
  }

  /** The attributes of the `Config` dataclass, in declaration order. */
  datatype Field =
    | Directory | Verbose | Preset | AnimationPreset | TvPreset | FilmPreset
    | MaxParallelJobs | Crf | Gop | SizeThreshold | RemoveInputFile | Lazy
    | AllowLargerFiles | Force | IgnoreTerms | ExtraIgnoreTerms | ForceReencode
    | Resize | ResizeTargetHeight | FfmpegThreads | DetectGrain | DetectGrainTest
    | TempRoot | CleanupOnExit | ReencodedBy | SkipDolbyVision | StereoDownmix
    | AudioBitrateOverride | PreferredAudioLanguage | PreferredSubtitleLanguage
    | ForcedSubtitlesOnly | PersonalFfmpegPath | SvtTune | SvtEnableOverlays
    | SvtFastDecode | SvtLookahead | SvtEnableQm | SvtQmMin | SvtQmMax
    | SvtTileColumns | SvtFilmGrain | SvtAqMode | SvtSharpness | CrfAnimation
    | CrfFilm | CrfTv | ResizeHeuristic

  /** The attribute's Python name, which is also its configuration-file key. */
  function FieldName(f: Field): string {
    match f
    case Directory => "directory"
    case Verbose => "verbose"
    case Preset => "preset"
    case AnimationPreset => "animation_preset"
    case TvPreset => "tv_preset"
    case FilmPreset => "film_preset"
    case MaxParallelJobs => "max_parallel_jobs"
    case Crf => "crf"
    case Gop => "gop"
    case SizeThreshold => "size_threshold"
    case RemoveInputFile => "remove_input_file"
    case Lazy => "lazy"
    case AllowLargerFiles => "allow_larger_files"
    case Force => "force"
    case IgnoreTerms => "ignore_terms"
    case ExtraIgnoreTerms => "extra_ignore_terms"
    case ForceReencode => "force_reencode"
    case Resize => "resize"
    case ResizeTargetHeight => "resize_target_height"
    case FfmpegThreads => "ffmpeg_threads"
    case DetectGrain => "detect_grain"
    case DetectGrainTest => "detect_grain_test"
    case TempRoot => "temp_root"
    case CleanupOnExit => "cleanup_on_exit"
    case ReencodedBy => "reencoded_by"
    case SkipDolbyVision => "skip_dolby_vision"
    case StereoDownmix => "stereo_downmix"
    case AudioBitrateOverride => "audio_bitrate_override"
    case PreferredAudioLanguage => "preferred_audio_language"
    case PreferredSubtitleLanguage => "preferred_subtitle_language"
    case ForcedSubtitlesOnly => "forced_subtitles_only"
    case PersonalFfmpegPath => "personal_ffmpeg_path"
    case SvtTune => "svt_tune"
    case SvtEnableOverlays => "svt_enable_overlays"
    case SvtFastDecode => "svt_fast_decode"
    case SvtLookahead => "svt_lookahead"
    case SvtEnableQm => "svt_enable_qm"
    case SvtQmMin => "svt_qm_min"
    case SvtQmMax => "svt_qm_max"
    case SvtTileColumns => "svt_tile_columns"
    case SvtFilmGrain => "svt_film_grain"
    case SvtAqMode => "svt_aq_mode"
    case SvtSharpness => "svt_sharpness"
    case CrfAnimation => "crf_animation"
    case CrfFilm => "crf_film"
    case CrfTv => "crf_tv"
    case ResizeHeuristic => "resize_heuristic"
  }

  /** `hasattr(config, key)` together with the attribute it names; the
      names are compared in groups of equal length and last letter. */
  function FieldNamed(key: string): Option<Field> {
    var n := |key|;
    if n == 0 then None
    else if n == 3 then
      if key[n - 1] == 'f' then
        if key == "crf" then Some(Crf) else
        None
      else if key[n - 1] == 'p' then
        if key == "gop" then Some(Gop) else
        None
      else None
    else if n == 4 then
      if key[n - 1] == 'y' then
        if key == "lazy" then Some(Lazy) else
        None
      else None
    else if n == 5 then
      if key[n - 1] == 'e' then
        if key == "force" then Some(Force) else
        None
      else None
    else if n == 6 then
      if key[n - 1] == 'e' then
        if key == "resize" then Some(Resize) else
        None
      else if key[n - 1] == 't' then
        if key == "preset" then Some(Preset) else
        None
      else if key[n - 1] == 'v' then
        if key == "crf_tv" then Some(CrfTv) else
        None
      else None
    else if n == 7 then
      if key[n - 1] == 'e' then
        if key == "verbose" then Some(Verbose) else
        None
      else None
    else if n == 8 then
      if key[n - 1] == 'e' then
        if key == "svt_tune" then Some(SvtTune) else
        None
      else if key[n - 1] == 'm' then
        if key == "crf_film" then Some(CrfFilm) else
        None
      else None
    else if n == 9 then
      if key[n - 1] == 't' then
        if key == "tv_preset" then Some(TvPreset) else
        if key == "temp_root" then Some(TempRoot) else
        None
      else if key[n - 1] == 'y' then
        if key == "directory" then Some(Directory) else
        None
      else None
    else if n == 10 then
      if key[n - 1] == 'n' then
        if key == "svt_qm_min" then Some(SvtQmMin) else
        None
      else if key[n - 1] == 'x' then
        if key == "svt_qm_max" then Some(SvtQmMax) else
        None
      else None
    else if n == 11 then
      if key[n - 1] == 'e' then
        if key == "svt_aq_mode" then Some(SvtAqMode) else
        None
      else if key[n - 1] == 't' then
        if key == "film_preset" then Some(FilmPreset) else
        None
      else None
    else if n == 12 then
      if key[n - 1] == 'n' then
        if key == "detect_grain" then Some(DetectGrain) else
        None
      else if key[n - 1] == 's' then
        if key == "ignore_terms" then Some(IgnoreTerms) else
        None
      else if key[n - 1] == 'y' then
        if key == "reencoded_by" then Some(ReencodedBy) else
        None
      else None
    else if n == 13 then
      if key[n - 1] == 'd' then
        if key == "svt_lookahead" then Some(SvtLookahead) else
        None
      else if key[n - 1] == 'm' then
        if key == "svt_enable_qm" then Some(SvtEnableQm) else
        None
      else if key[n - 1] == 'n' then
        if key == "crf_animation" then Some(CrfAnimation) else
        None
      else if key[n - 1] == 's' then
        if key == "svt_sharpness" then Some(SvtSharpness) else
        None
      else None
    else if n == 14 then
      if key[n - 1] == 'd' then
        if key == "size_threshold" then Some(SizeThreshold) else
        None
      else if key[n - 1] == 'e' then
        if key == "force_reencode" then Some(ForceReencode) else
        None
      else if key[n - 1] == 'n' then
        if key == "svt_film_grain" then Some(SvtFilmGrain) else
        None
      else if key[n - 1] == 's' then
        if key == "ffmpeg_threads" then Some(FfmpegThreads) else
        None
      else if key[n - 1] == 'x' then
        if key == "stereo_downmix" then Some(StereoDownmix) else
        None
      else None
    else if n == 15 then
      if key[n - 1] == 'e' then
        if key == "svt_fast_decode" then Some(SvtFastDecode) else
        None
      else if key[n - 1] == 't' then
        if key == "cleanup_on_exit" then Some(CleanupOnExit) else
        None
      else None
    else if n == 16 then
      if key[n - 1] == 'c' then
        if key == "resize_heuristic" then Some(ResizeHeuristic) else
        None
      else if key[n - 1] == 's' then
        if key == "svt_tile_columns" then Some(SvtTileColumns) else
        None
      else if key[n - 1] == 't' then
        if key == "animation_preset" then Some(AnimationPreset) else
        None
      else None
    else if n == 17 then
      if key[n - 1] == 'e' then
        if key == "remove_input_file" then Some(RemoveInputFile) else
        None
      else if key[n - 1] == 'n' then
        if key == "skip_dolby_vision" then Some(SkipDolbyVision) else
        None
      else if key[n - 1] == 's' then
        if key == "max_parallel_jobs" then Some(MaxParallelJobs) else
        None
      else if key[n - 1] == 't' then
        if key == "detect_grain_test" then Some(DetectGrainTest) else
        None
      else None
    else if n == 18 then
      if key[n - 1] == 's' then
        if key == "allow_larger_files" then Some(AllowLargerFiles) else
        if key == "extra_ignore_terms" then Some(ExtraIgnoreTerms) else
        None
      else None
    else if n == 19 then
      if key[n - 1] == 's' then
        if key == "svt_enable_overlays" then Some(SvtEnableOverlays) else
        None
      else None
    else if n == 20 then
      if key[n - 1] == 'h' then
        if key == "personal_ffmpeg_path" then Some(PersonalFfmpegPath) else
        None
      else if key[n - 1] == 't' then
        if key == "resize_target_height" then Some(ResizeTargetHeight) else
        None
      else None
    else if n == 21 then
      if key[n - 1] == 'y' then
        if key == "forced_subtitles_only" then Some(ForcedSubtitlesOnly) else
        None
      else None
    else if n == 22 then
      if key[n - 1] == 'e' then
        if key == "audio_bitrate_override" then Some(AudioBitrateOverride) else
        None
      else None
    else if n == 24 then
      if key[n - 1] == 'e' then
        if key == "preferred_audio_language" then Some(PreferredAudioLanguage) else
        None
      else None
    else if n == 27 then
      if key[n - 1] == 'e' then
        if key == "preferred_subtitle_language" then Some(PreferredSubtitleLanguage) else
        None
      else None
    else None
  }

  /** A name the configuration file reads back unchanged as a key: it does
      not begin with `#`, holds no `=`, and has no white space at its ends. */
  predicate PlainKey(s: string) {
    s != [] && s[0] != '#' && '=' !in s && Unpadded(s)
  }

  /** A configuration: the value of each attribute of the record. */
  type Config = map<Field, Value>

  /** Every attribute has a value, as in any instance of the dataclass. */
  predicate Complete(cfg: Config) {
    forall f: Field :: f in cfg
  }

  /** The default the dataclass declares for each attribute. */
  function DefaultValue(f: Field): Value {
    match f
    case Directory => VPath("/mnt/movies")
    case Verbose => VBool(false)
    case Preset => VInt(5)
    case AnimationPreset => VInt(6)
    case TvPreset => VInt(5)
    case FilmPreset => VInt(4)
    case MaxParallelJobs => VInt(1)
    case Crf => VInt(28)
    case Gop => VInt(120)
    case SizeThreshold => VStr("1G")
    case RemoveInputFile => VBool(false)
    case Lazy => VBool(false)
    case AllowLargerFiles => VBool(false)
    case Force => VBool(false)
    case IgnoreTerms => VTuple(["CAM", "WORKPRINT", "TELESYNC"])
    case ExtraIgnoreTerms => VTuple([])
    case ForceReencode => VBool(false)
    case Resize => VBool(false)
    case ResizeTargetHeight => VInt(1080)
    case FfmpegThreads => VInt(6)
    case DetectGrain => VBool(false)
    case DetectGrainTest => VNone
    case TempRoot => VPath("/tmp")
    case CleanupOnExit => VBool(true)
    case ReencodedBy => VStr("geekphreek")
    case SkipDolbyVision => VBool(false)
    case StereoDownmix => VBool(false)
    case AudioBitrateOverride => VNone
    case PreferredAudioLanguage => VStr("eng")
    case PreferredSubtitleLanguage => VStr("eng")
    case ForcedSubtitlesOnly => VBool(true)
    case PersonalFfmpegPath => VNone
    case SvtTune => VInt(1)
    case SvtEnableOverlays => VInt(0)
    case SvtFastDecode => VInt(1)
    case SvtLookahead => VInt(32)
    case SvtEnableQm => VInt(1)
    case SvtQmMin => VInt(0)
    case SvtQmMax => VInt(15)
    case SvtTileColumns => VInt(2)
    case SvtFilmGrain => VInt(0)
    case SvtAqMode => VInt(2)
    case SvtSharpness => VInt(0)
    case CrfAnimation => VInt(29)
    case CrfFilm => VInt(22)
    case CrfTv => VInt(26)
    case ResizeHeuristic => VStr("downscale")
  }

  /** `Config()`: every attribute at its declared default. */
  const Defaults: Config := map f: Field | true :: DefaultValue(f)

  lemma DefaultsComplete()
    ensures Complete(Defaults)
  {
  }

  /** The configuration object that `load_config_file` and
      `apply_args_to_config` update in place. */
  class ConfigObject {
    var values: Config

    ghost predicate Valid()
      reads this
    {
      Complete(values)
    }

    constructor()
      ensures Valid() && values == Defaults
    {
      values := Defaults;
      DefaultsComplete();
    }

    /** One pass of the loader's loop body: `setattr` of the converted
        value of one `key=value` line; other lines change nothing. */
    method Apply(kind: LineKind)
      requires Valid()
      modifies this
      ensures Valid()
      ensures values == ApplyEntry(old(values), kind)
    {
      if kind.Entry? {
        var f := kind.field;
        if kind.text == [] {
          values := values[f := VNone];
        } else {
          var converted := Converted(values[f], kind.text);
          if converted.Some? {
            values := values[f := converted.value];
          }
        }
      }
    }
  }

  /** `Config.content_type_crf`: the CRF for a content kind, falling back
      to the general CRF for any kind without its own setting. */
  function ContentTypeCrf(cfg: Config, kind: string): (r: Value)
    requires Complete(cfg)
    ensures kind == "animation" ==> r == cfg[CrfAnimation]
    ensures kind == "film" ==> r == cfg[CrfFilm]
    ensures kind == "tv" ==> r == cfg[CrfTv]
    ensures kind !in {"animation", "film", "tv"} ==> r == cfg[Crf]
  {
    if kind == "animation" then cfg[CrfAnimation]
    else if kind == "film" then cfg[CrfFilm]
    else if kind == "tv" then cfg[CrfTv]
    else cfg[Crf]
  }

  /** `Config.content_type_preset`, with the same fallback. */
  function ContentTypePreset(cfg: Config, kind: string): (r: Value)
    requires Complete(cfg)
    ensures kind == "animation" ==> r == cfg[AnimationPreset]
    ensures kind == "film" ==> r == cfg[FilmPreset]
    ensures kind == "tv" ==> r == cfg[TvPreset]
    ensures kind !in {"animation", "film", "tv"} ==> r == cfg[Preset]
  {
    if kind == "animation" then cfg[AnimationPreset]
    else if kind == "film" then cfg[FilmPreset]
    else if kind == "tv" then cfg[TvPreset]
    else cfg[Preset]
  }

  // ---------------------------------------------------------------------
  // Size threshold text
  // ---------------------------------------------------------------------

  /** The power of 1024 that a size suffix letter stands for, either case. */
  function SuffixPower(c: char): Option<nat> {
    if c == 'k' || c == 'K' then Some(1)
    else if c == 'm' || c == 'M' then Some(2)
    else if c == 'g' || c == 'G' then Some(3)
    else if c == 't' || c == 'T' then Some(4)
    else None
  }

  function Pow1024(k: nat): (r: nat)
    ensures r >= 1
    ensures k > 0 ==> r >= 1024 && r % 1024 == 0
  {
    if k == 0 then 1 else 1024 * Pow1024(k - 1)
  }

  /** Each larger unit is at least 1024 times the smaller one, so the
      suffixes k, m, g and t are strictly ordered. */
  lemma {:induction false} Pow1024Grows(j: nat, k: nat)
    requires j < k
    ensures Pow1024(j) * 1024 <= Pow1024(k)
  {
    if j + 1 < k {
      Pow1024Grows(j, k - 1);
    }
  }

  /** What a suffix (empty or one letter) multiplies the number by. */
  function Multiplier(suffix: string): nat
    requires suffix == [] || (|suffix| == 1 && SuffixPower(suffix[0]).Some?)
  {
    if suffix == [] then 1 else Pow1024(SuffixPower(suffix[0]).value)
  }

  /** `_size_to_bytes`: after stripping, one or more digits and an optional
      k/m/g/t suffix of either case; the digits times 1024 to the suffix's
      power. Anything else is a ValueError, whose message is the error. */
  function SizeToBytes(value: string): (r: Result<nat, string>)
    ensures var v := Strip(value);
      r.Ok? <==> (|v| >= 1 && AllDigits(v))
                 || (|v| >= 2 && AllDigits(v[..|v| - 1]) && SuffixPower(v[|v| - 1]).Some?)
    ensures var v := Strip(value);
      r.Ok? && AllDigits(v) ==> r.value == DigitsValue(v)
    ensures var v := Strip(value);
      r.Ok? && !AllDigits(v) ==>
        |v| >= 2 && AllDigits(v[..|v| - 1])
        && r.value == DigitsValue(v[..|v| - 1]) * Multiplier(v[|v| - 1..])
    ensures r.Err? ==> r.error == "Invalid size value: " + Strip(value)
  {
    var v := Strip(value);
    if |v| >= 1 && AllDigits(v) then Ok(DigitsValue(v))
    else if |v| >= 2 && AllDigits(v[..|v| - 1]) && SuffixPower(v[|v| - 1]).Some? then
      Ok(DigitsValue(v[..|v| - 1]) * Pow1024(SuffixPower(v[|v| - 1]).value))
    else Err("Invalid size value: " + v)
  }

  /** Writing a number in decimal with a valid suffix and reading it back
      gives the number times the suffix's multiplier. */
  lemma SizeToBytesRoundTrip(n: nat, suffix: string)
    requires suffix == [] || (|suffix| == 1 && SuffixPower(suffix[0]).Some?)
    ensures SizeToBytes(NatToString(n) + suffix) == Ok(n * Multiplier(suffix))
  {
    var digits := NatToString(n);
    NatToStringDigits(n);
    NatToStringValue(n);
    if suffix == [] {
      PlainRoundTrip(digits);
      assert digits + suffix == digits;
    } else {
      var c := suffix[0];
      assert suffix == [c];
      SuffixedRoundTrip(digits, c);
    }
  }

  lemma PlainRoundTrip(digits: string)
    requires |digits| >= 1 && AllDigits(digits)
    ensures SizeToBytes(digits) == Ok(DigitsValue(digits))
  {
    assert IsDigit(digits[0]) && IsDigit(digits[|digits| - 1]);
    StripUnpadded(digits);
  }

  lemma SuffixedRoundTrip(digits: string, c: char)
    requires |digits| >= 1 && AllDigits(digits) && SuffixPower(c).Some?
    ensures SizeToBytes(digits + [c]) == Ok(DigitsValue(digits) * Pow1024(SuffixPower(c).value))
  {
    var text := digits + [c];
    assert text[0] == digits[0] && IsDigit(text[0]);
    assert text[|text| - 1] == c && !IsSpace(c);
    StripUnpadded(text);
    assert text[..|text| - 1] == digits;
    assert !AllDigits(text) by { assert !IsDigit(text[|text| - 1]); }
    assert |text| >= 2 && AllDigits(text[..|text| - 1]) && SuffixPower(text[|text| - 1]).Some?;
    assert SizeToBytes(text) == Ok(DigitsValue(text[..|text| - 1]) * Pow1024(SuffixPower(text[|text| - 1]).value));
  }

  /** The default threshold `1G` is 2^30 bytes. */
  lemma DefaultSizeThreshold()
    ensures SizeToBytes("1G") == Ok(1073741824)
  {
    assert Strip("1G") == "1G" by { StripUnpadded("1G"); }
    assert "1G"[..1] == "1";
  }

  // ---------------------------------------------------------------------
  // The key=value configuration file
  // ---------------------------------------------------------------------

  /** `_parse_bool`. */
  predicate ParseBool(value: string) {
    Lower(value) in {"1", "true", "yes", "on"}
  }

  /** The words are read without regard to case: a value and its
      lower-cased form are the same flag. */
  lemma ParseBoolIgnoresCase(value: string)
    ensures ParseBool(Lower(value)) == ParseBool(value)
  {
    LowerIdempotent(value);
  }

  /** How the loader reads one line of the file. */
  datatype LineKind =
    | Blank                          // empty, or a `#` comment
    | Malformed                      // no `=`: a warning
    | UnknownKey(key: string)        // not an attribute: a warning
    | Entry(field: Field, text: string)

  function ClassifyLine(raw: string): LineKind {
    var line := Strip(raw);
    if line == [] || line[0] == '#' then Blank
    else if '=' !in line then Malformed
    else
      var parts := SplitOnce(line, '=');
      var key := Strip(parts.0);
      match FieldNamed(key)
      case None => UnknownKey(key)
      case Some(f) => Entry(f, Strip(parts.1))
  }

  /** The comma-separated items of a tuple value, stripped, empty ones dropped. */
  function TupleItems(parts: seq<string>): (r: seq<string>)
    ensures forall k :: 0 <= k < |r| ==> r[k] != [] && Unpadded(r[k])
  {
    if parts == [] then []
    else
      var p := Strip(parts[0]);
      (if p == [] then [] else [p]) + TupleItems(parts[1..])
  }

  /** The new value of an attribute whose current value is `current` and
      whose (stripped, non-empty) text in the file is `text`, chosen by the
      kind of the current value; `None` when `int()` rejects the text,
      which leaves the attribute as it was. */
  function Converted(current: Value, text: string): Option<Value> {
    match current
    case VBool(_) => Some(VBool(ParseBool(text)))
    case VInt(_) =>
      (match ParseIntText(text)
       case Some(i) => Some(VInt(i))
       case None => None)
    case VPath(_) => Some(VPath(text))
    case VTuple(_) => Some(VTuple(TupleItems(Split(text, ','))))
    case _ => Some(VStr(text))
  }

  /** The effect of one classified line on the configuration. Only the
      attribute the line names can change; an empty value makes it `None`. */
  function ApplyEntry(cfg: Config, kind: LineKind): (r: Config)
    requires Complete(cfg)
    ensures Complete(r)
    ensures forall g :: r[g] != cfg[g] ==> kind.Entry? && kind.field == g
    ensures kind.Entry? && kind.text == [] ==> r[kind.field] == VNone
  {
    match kind
    case Entry(f, text) =>
      if text == [] then cfg[f := VNone]
      else
        (match Converted(cfg[f], text)
         case Some(v) => cfg[f := v]
         case None => cfg)
    case _ => cfg
  }

  /** The effect of one line of the file. */
  function ApplyLine(cfg: Config, raw: string): (r: Config)
    requires Complete(cfg)
  {
    ApplyEntry(cfg, ClassifyLine(raw))
  }

  /** The configuration after reading `lines` in order. */
  function LoadLines(cfg: Config, lines: seq<string>): (r: Config)
    requires Complete(cfg)
    ensures Complete(r)
    decreases |lines|
  {
    if lines == [] then cfg
    else ApplyLine(LoadLines(cfg, lines[..|lines| - 1]), lines[|lines| - 1])
  }

  lemma LoadLinesSnoc(cfg: Config, lines: seq<string>, raw: string)
    requires Complete(cfg)
    ensures LoadLines(cfg, lines + [raw]) == ApplyLine(LoadLines(cfg, lines), raw)
  {
    assert (lines + [raw])[..|lines|] == lines;
  }

  datatype LoadError = FileNotFound(path: string)

  /** `load_config_file`. The file's lines are given, or `None` when the
      path does not exist; the warnings are not modelled. */
  method LoadConfigFile(path: string, file: Option<seq<string>>, config: ConfigObject)
    returns (r: Result<(), LoadError>)
    requires config.Valid()
    modifies config
    ensures config.Valid()
    ensures file.None? ==> r == Err(FileNotFound(path)) && config.values == old(config.values)
    ensures file.Some? ==> r.Ok? && config.values == LoadLines(old(config.values), file.value)
  {
    if file.None? {
      return Err(FileNotFound(path));
    }
    var lines := file.value;
    ghost var start := config.values;
    var i := 0;
    while i < |lines|
      invariant 0 <= i <= |lines|
      invariant config.Valid()
      invariant config.values == LoadLines(start, lines[..i])
    {
      var kind := ClassifyLine(lines[i]);
      config.Apply(kind);
      LoadLinesSnoc(start, lines[..i], lines[i]);
      assert lines[..i + 1] == lines[..i] + [lines[i]];
      i := i + 1;
    }
    assert lines[..|lines|] == lines;
    return Ok(());
  }

  /** Reading two files one after the other is reading their lines joined. */
  lemma {:induction false} LoadLinesAppend(cfg: Config, a: seq<string>, b: seq<string>)
    requires Complete(cfg)
    ensures LoadLines(cfg, a + b) == LoadLines(LoadLines(cfg, a), b)
    decreases |b|
  {
    if b == [] {
      assert a + b == a;
    } else {
      assert (a + b)[..|a + b| - 1] == a + b[..|b| - 1];
      LoadLinesAppend(cfg, a, b[..|b| - 1]);
    }
  }

  /** Lines that each leave a configuration as it is leave it as it is
      when read together. */
  lemma {:induction false} LoadLinesFixed(cfg: Config, lines: seq<string>)
    requires Complete(cfg)
    requires Keeps(cfg, lines)
    ensures LoadLines(cfg, lines) == cfg
    decreases |lines|
  {
    if lines != [] {
      LoadLinesFixed(cfg, lines[..|lines| - 1]);
    }
  }

  /** A line `key=text` naming an attribute is read as that attribute
      with that text. */
  lemma EntryLineRoundTrip(key: string, f: Field, text: string)
    requires FieldNamed(key) == Some(f) && PlainKey(key)
    requires Unpadded(text)
    ensures ClassifyLine(key + "=" + text) == Entry(f, text)
  {
    var line := key + "=" + text;
    assert line == key + ['='] + text;
    assert line[0] == key[0];
    assert line[|line| - 1] == if text == [] then '=' else text[|text| - 1];
    StripUnpadded(line);
    SplitOnceUnique(key, '=', text);
    StripUnpadded(key);
    StripUnpadded(text);
  }

  /** White space around a line does not matter: the loader reads the
      stripped line. */
  lemma ClassifyStrippedLine(raw: string)
    ensures ClassifyLine(Strip(raw)) == ClassifyLine(raw)
  {
    StripUnpadded(Strip(raw));
  }

  /** A comment line is skipped whatever it says. */
  lemma CommentLineBlank(comment: string)
    requires comment != [] && comment[0] == '#' && Unpadded(comment)
    ensures ClassifyLine(comment) == Blank
  {
    StripUnpadded(comment);
  }

  /** The text that makes the loader store `v` again into an attribute
      that already holds `v`: the form in which the sample file writes
      each default. */
  predicate Renders(v: Value, text: string) {
    match v
    case VNone => text == []
    case VBool(b) => text == (if b then "true" else "false")
    case VInt(i) => text == IntToString(i)
    case VStr(s) => text == s && s != [] && Unpadded(s)
    case VPath(p) => text == p && p != [] && Unpadded(p)
    case VTuple(_) => false
  }

  /** A rendered value has no white space at its ends. */
  lemma RendersUnpadded(v: Value, text: string)
    requires Renders(v, text)
    ensures Unpadded(text)
  {
    if v.VInt? {
      IntToStringUnpadded(v.i);
    }
  }

  /** Storing the rendered form of an attribute's current value stores
      that value again. */
  lemma RenderedValueUnchanged(cfg: Config, f: Field, text: string)
    requires Complete(cfg)
    requires Renders(cfg[f], text)
    ensures ApplyEntry(cfg, Entry(f, text)) == cfg
  {
    var v := cfg[f];
    if v.VNone? {
      assert cfg[f := VNone] == cfg;
    } else {
      assert text != [];
      RenderedConverted(v, text);
      assert cfg[f := v] == cfg;
    }
  }

  /** The conversion of a rendered value gives that value back. */
  lemma RenderedConverted(v: Value, text: string)
    requires Renders(v, text) && !v.VNone?
    ensures Converted(v, text) == Some(v)
  {
    match v
    case VBool(b) =>
      assert Lower("true") == "true" && Lower("false") == "false";
    case VInt(i) =>
      ParseIntTextRoundTrip(i);
    case VStr(_) =>
    case VPath(_) =>
  }

  /** Writing an attribute's current value in its rendered form under the
      attribute's name and loading that line leaves the configuration
      unchanged. */
  lemma RenderedEntryUnchanged(cfg: Config, key: string, f: Field, text: string)
    requires Complete(cfg)
    requires FieldNamed(key) == Some(f) && PlainKey(key)
    requires Renders(cfg[f], text)
    ensures ApplyLine(cfg, key + "=" + text) == cfg
  {
    RendersUnpadded(cfg[f], text);
    EntryLineRoundTrip(key, f, text);
    RenderedValueUnchanged(cfg, f, text);
  }

  // ---------------------------------------------------------------------
  // The sample configuration file
  // ---------------------------------------------------------------------

  /** A comment line: `#` and the rest of the line. */
  function Comment(text: string): (r: string)
    ensures r != [] && r[0] == '#'
  {
    "#" + text
  }

  /** The opening comment block of the sample file, after the dedent. */
  const SampleHeader: seq<string> := [
    "",
    Comment(" Sample av1conv configuration file generated by av1conv.py"),
    Comment(" Comment lines begin with '#'.  Values mirror the defaults built into the"),
    Comment(" program and can be overridden individually."),
    Comment(""),
    Comment(" Example: override the default CRF and enable verbose logging"),
    Comment(" crf=26"),
    Comment(" verbose=true"),
    Comment("")
  ]

  /** The settings the sample file writes, one `key=value` line each, in
      the order of the file, in groups of a few lines. */
  const SampleSettings0: seq<(string, string)> := [
    ("directory", "/mnt/movies"),
    ("verbose", "false"),
    ("preset", "5")
  ]

  const SampleSettings1: seq<(string, string)> := [
    ("animation_preset", "6"),
    ("tv_preset", "5"),
    ("film_preset", "4")
  ]

  const SampleSettings2: seq<(string, string)> := [
    ("max_parallel_jobs", "1"),
    ("crf", "28"),
    ("gop", "120")
  ]

  const SampleSettings3: seq<(string, string)> := [
    ("size_threshold", "1G"),
    ("remove_input_file", "false"),
    ("lazy", "false")
  ]

  const SampleSettings4: seq<(string, string)> := [
    ("allow_larger_files", "false"),
    ("force", "false"),
    ("force_reencode", "false")
  ]

  const SampleSettings5: seq<(string, string)> := [
    ("resize", "false"),
    ("resize_target_height", "1080"),
    ("ffmpeg_threads", "6")
  ]

  const SampleSettings6: seq<(string, string)> := [
    ("detect_grain", "false"),
    ("temp_root", "/tmp"),
    ("cleanup_on_exit", "true")
  ]

  const SampleSettings7: seq<(string, string)> := [
    ("reencoded_by", "geekphreek"),
    ("skip_dolby_vision", "false"),
    ("stereo_downmix", "false")
  ]

  const SampleSettings8: seq<(string, string)> := [
    ("audio_bitrate_override", ""),
    ("preferred_audio_language", "eng"),
    ("preferred_subtitle_language", "eng")
  ]

  const SampleSettings9: seq<(string, string)> := [
    ("forced_subtitles_only", "true"),
    ("personal_ffmpeg_path", ""),
    ("svt_tune", "1")
  ]

  const SampleSettings10: seq<(string, string)> := [
    ("svt_enable_overlays", "0"),
    ("svt_fast_decode", "1"),
    ("svt_lookahead", "32")
  ]

  const SampleSettings11: seq<(string, string)> := [
    ("svt_enable_qm", "1"),
    ("svt_qm_min", "0"),
    ("svt_qm_max", "15")
  ]

  const SampleSettings12: seq<(string, string)> := [
    ("svt_tile_columns", "2"),
    ("svt_film_grain", "0"),
    ("svt_aq_mode", "2")
  ]

  const SampleSettings13: seq<(string, string)> := [
    ("svt_sharpness", "0"),
    ("crf_animation", "29"),
    ("crf_film", "22")
  ]

  const SampleSettings14: seq<(string, string)> := [
    ("crf_tv", "26")
  ]

  /** The closing comment of the sample file. */
  const SampleFooter: seq<string> := [
    Comment(" Additional values may be added in future releases. Unknown keys are"),
    Comment(" ignored with a warning when encountered.")
  ]

  /** The lines `key=value` for a list of settings. */
  function EntryLines(settings: seq<(string, string)>): (r: seq<string>)
    ensures |r| == |settings|
    ensures forall i :: 0 <= i < |r| ==> r[i] == settings[i].0 + "=" + settings[i].1
  {
    if settings == [] then [] else [settings[0].0 + "=" + settings[0].1] + EntryLines(settings[1..])
  }

  /** `_SAMPLE_CONFIG.splitlines()`: the lines `generate_sample_config`
      writes, in order. */
  const SampleConfigLines: seq<string> :=
    SampleHeader
    + EntryLines(SampleSettings0)
    + EntryLines(SampleSettings1)
    + EntryLines(SampleSettings2)
    + EntryLines(SampleSettings3)
    + EntryLines(SampleSettings4)
    + EntryLines(SampleSettings5)
    + EntryLines(SampleSettings6)
    + EntryLines(SampleSettings7)
    + EntryLines(SampleSettings8)
    + EntryLines(SampleSettings9)
    + EntryLines(SampleSettings10)
    + EntryLines(SampleSettings11)
    + EntryLines(SampleSettings12)
    + EntryLines(SampleSettings13)
    + EntryLines(SampleSettings14)
    + SampleFooter

  /** Every line of `lines`, read on its own into `cfg`, leaves it as it is. */
  ghost predicate Keeps(cfg: Config, lines: seq<string>)
    requires Complete(cfg)
  {
    forall k :: 0 <= k < |lines| ==> ApplyLine(cfg, lines[k]) == cfg
  }

  lemma KeepsAppend(cfg: Config, a: seq<string>, b: seq<string>)
    requires Complete(cfg) && Keeps(cfg, a) && Keeps(cfg, b)
    ensures Keeps(cfg, a + b)
  {
    forall k | 0 <= k < |a + b|
      ensures ApplyLine(cfg, (a + b)[k]) == cfg
    {
      if k >= |a| {
        assert (a + b)[k] == b[k - |a|];
      }
    }
  }

  /** The setting names an attribute by a plain key and writes that
      attribute's value in `cfg` in its rendered form. */
  predicate RendersSetting(cfg: Config, key: string, text: string)
    requires Complete(cfg)
  {
    FieldNamed(key).Some? && PlainKey(key) && Renders(cfg[FieldNamed(key).value], text)
  }

  /** Every setting from the `i`-th on renders its attribute's value. */
  predicate RendersFrom(cfg: Config, settings: seq<(string, string)>, i: nat)
    requires Complete(cfg) && i <= |settings|
    decreases |settings| - i
  {
    i == |settings| ||
    (RendersSetting(cfg, settings[i].0, settings[i].1) && RendersFrom(cfg, settings, i + 1))
  }

  /** Settings that render the current values are all read back unchanged. */
  lemma {:induction false} RendersFromKept(cfg: Config, settings: seq<(string, string)>, i: nat)
    requires Complete(cfg) && i <= |settings| && RendersFrom(cfg, settings, i)
    ensures Keeps(cfg, EntryLines(settings[i..]))
    decreases |settings| - i
  {
    if i < |settings| {
      var key, text := settings[i].0, settings[i].1;
      RenderedEntryUnchanged(cfg, key, FieldNamed(key).value, text);
      RendersFromKept(cfg, settings, i + 1);
      var lines := EntryLines(settings[i..]);
      var rest := EntryLines(settings[i + 1..]);
      assert lines[0] == key + "=" + text;
      forall k | 0 < k < |lines|
        ensures lines[k] == rest[k - 1]
      {
        assert settings[i..][k] == settings[i + k] == settings[i + 1..][k - 1];
      }
      assert forall k :: 0 < k < |lines| ==> ApplyLine(cfg, lines[k]) == cfg;
    }
  }

  /** Settings that render the current values are read back unchanged. */
  lemma RendersAllKept(cfg: Config, settings: seq<(string, string)>)
    requires Complete(cfg) && RendersFrom(cfg, settings, 0)
    ensures Keeps(cfg, EntryLines(settings))
  {
    RendersFromKept(cfg, settings, 0);
    assert settings[0..] == settings;
  }

  /** A comment line is skipped. */
  lemma CommentKept(cfg: Config, text: string)
    requires Complete(cfg)
    requires text == [] || !IsSpace(text[|text| - 1])
    ensures Keeps(cfg, [Comment(text)])
  {
    var c := Comment(text);
    assert c[|c| - 1] == if text == [] then '#' else text[|text| - 1];
    CommentLineBlank(c);
  }

  /** The comment lines of the sample file are skipped. */
  lemma SampleCommentsKept()
    ensures Complete(Defaults)
    ensures Keeps(Defaults, SampleHeader) && Keeps(Defaults, SampleFooter)
  {
    DefaultsComplete();
    assert ClassifyLine("") == Blank;
    CommentKept(Defaults, " Sample av1conv configuration file generated by av1conv.py");
    KeepsAppend(Defaults, [""], [Comment(" Sample av1conv configuration file generated by av1conv.py")]);
    CommentKept(Defaults, " Comment lines begin with '#'.  Values mirror the defaults built into the");
    KeepsAppend(Defaults, [""] + [Comment(" Sample av1conv configuration file generated by av1conv.py")], [Comment(" Comment lines begin with '#'.  Values mirror the defaults built into the")]);
    CommentKept(Defaults, " program and can be overridden individually.");
    KeepsAppend(Defaults, [""] + [Comment(" Sample av1conv configuration file generated by av1conv.py")] + [Comment(" Comment lines begin with '#'.  Values mirror the defaults built into the")], [Comment(" program and can be overridden individually.")]);
    CommentKept(Defaults, "");
    KeepsAppend(Defaults, [""] + [Comment(" Sample av1conv configuration file generated by av1conv.py")] + [Comment(" Comment lines begin with '#'.  Values mirror the defaults built into the")] + [Comment(" program and can be overridden individually.")], [Comment("")]);
    CommentKept(Defaults, " Example: override the default CRF and enable verbose logging");
    KeepsAppend(Defaults, [""] + [Comment(" Sample av1conv configuration file generated by av1conv.py")] + [Comment(" Comment lines begin with '#'.  Values mirror the defaults built into the")] + [Comment(" program and can be overridden individually.")] + [Comment("")], [Comment(" Example: override the default CRF and enable verbose logging")]);
    CommentKept(Defaults, " crf=26");
    KeepsAppend(Defaults, [""] + [Comment(" Sample av1conv configuration file generated by av1conv.py")] + [Comment(" Comment lines begin with '#'.  Values mirror the defaults built into the")] + [Comment(" program and can be overridden individually.")] + [Comment("")] + [Comment(" Example: override the default CRF and enable verbose logging")], [Comment(" crf=26")]);
    CommentKept(Defaults, " verbose=true");
    KeepsAppend(Defaults, [""] + [Comment(" Sample av1conv configuration file generated by av1conv.py")] + [Comment(" Comment lines begin with '#'.  Values mirror the defaults built into the")] + [Comment(" program and can be overridden individually.")] + [Comment("")] + [Comment(" Example: override the default CRF and enable verbose logging")] + [Comment(" crf=26")], [Comment(" verbose=true")]);
    CommentKept(Defaults, "");
    KeepsAppend(Defaults, [""] + [Comment(" Sample av1conv configuration file generated by av1conv.py")] + [Comment(" Comment lines begin with '#'.  Values mirror the defaults built into the")] + [Comment(" program and can be overridden individually.")] + [Comment("")] + [Comment(" Example: override the default CRF and enable verbose logging")] + [Comment(" crf=26")] + [Comment(" verbose=true")], [Comment("")]);
    assert SampleHeader == [""] + [Comment(" Sample av1conv configuration file generated by av1conv.py")] + [Comment(" Comment lines begin with '#'.  Values mirror the defaults built into the")] + [Comment(" program and can be overridden individually.")] + [Comment("")] + [Comment(" Example: override the default CRF and enable verbose logging")] + [Comment(" crf=26")] + [Comment(" verbose=true")] + [Comment("")];
    CommentKept(Defaults, " Additional values may be added in future releases. Unknown keys are");
    CommentKept(Defaults, " ignored with a warning when encountered.");
    KeepsAppend(Defaults, [Comment(" Additional values may be added in future releases. Unknown keys are")], [Comment(" ignored with a warning when encountered.")]);
    assert SampleFooter == [Comment(" Additional values may be added in future releases. Unknown keys are")] + [Comment(" ignored with a warning when encountered.")];
  }

  /** Each setting of the sample file writes its attribute's default. */
  lemma SampleDirectoryRenders()
    ensures Complete(Defaults) && RendersSetting(Defaults, "directory", "/mnt/movies")
  {
    DefaultsComplete();
  }

  lemma SampleVerboseRenders()
    ensures Complete(Defaults) && RendersSetting(Defaults, "verbose", "false")
  {
    DefaultsComplete();
  }

  lemma SamplePresetRenders()
    ensures Complete(Defaults) && RendersSetting(Defaults, "preset", "5")
  {
    DefaultsComplete();
  }

  lemma SampleAnimationPresetRenders()
    ensures Complete(Defaults) && RendersSetting(Defaults, "animation_preset", "6")
  {
    DefaultsComplete();
  }

  lemma SampleTvPresetRenders()
    ensures Complete(Defaults) && RendersSetting(Defaults, "tv_preset", "5")
  {
    DefaultsComplete();
  }

  lemma SampleFilmPresetRenders()
    ensures Complete(Defaults) && RendersSetting(Defaults, "film_preset", "4")
  {
    DefaultsComplete();
  }

  lemma SampleMaxParallelJobsRenders()
    ensures Complete(Defaults) && RendersSetting(Defaults, "max_parallel_jobs", "1")
  {
    DefaultsComplete();
  }

  lemma SampleCrfRenders()
    ensures Complete(Defaults) && RendersSetting(Defaults, "crf", "28")
  {
    DefaultsComplete();
  }

  lemma SampleGopRenders()
    ensures Complete(Defaults) && RendersSetting(Defaults, "gop", "120")
  {
    DefaultsComplete();
  }

  lemma SampleSizeThresholdRenders()
    ensures Complete(Defaults) && RendersSetting(Defaults, "size_threshold", "1G")
  {
    DefaultsComplete();
  }

  lemma SampleRemoveInputFileRenders()
    ensures Complete(Defaults) && RendersSetting(Defaults, "remove_input_file", "false")
  {
    DefaultsComplete();
  }

  lemma SampleLazyRenders()
    ensures Complete(Defaults) && RendersSetting(Defaults, "lazy", "false")
  {
    DefaultsComplete();
  }

  lemma SampleAllowLargerFilesRenders()
    ensures Complete(Defaults) && RendersSetting(Defaults, "allow_larger_files", "false")
  {
    DefaultsComplete();
  }

  lemma SampleForceRenders()
    ensures Complete(Defaults) && RendersSetting(Defaults, "force", "false")
  {
    DefaultsComplete();
  }

  lemma SampleForceReencodeRenders()
    ensures Complete(Defaults) && RendersSetting(Defaults, "force_reencode", "false")
  {
    DefaultsComplete();
  }

  lemma SampleResizeRenders()
    ensures Complete(Defaults) && RendersSetting(Defaults, "resize", "false")
  {
    DefaultsComplete();
  }

  lemma SampleResizeTargetHeightRenders()
    ensures Complete(Defaults) && RendersSetting(Defaults, "resize_target_height", "1080")
  {
    DefaultsComplete();
  }

  lemma SampleFfmpegThreadsRenders()
    ensures Complete(Defaults) && RendersSetting(Defaults, "ffmpeg_threads", "6")
  {
    DefaultsComplete();
  }

  lemma SampleDetectGrainRenders()
    ensures Complete(Defaults) && RendersSetting(Defaults, "detect_grain", "false")
  {
    DefaultsComplete();
  }

  lemma SampleTempRootRenders()
    ensures Complete(Defaults) && RendersSetting(Defaults, "temp_root", "/tmp")
  {
    DefaultsComplete();
  }

  lemma SampleCleanupOnExitRenders()
    ensures Complete(Defaults) && RendersSetting(Defaults, "cleanup_on_exit", "true")
  {
    DefaultsComplete();
  }

  lemma SampleReencodedByRenders()
    ensures Complete(Defaults) && RendersSetting(Defaults, "reencoded_by", "geekphreek")
  {
    DefaultsComplete();
  }

  lemma SampleSkipDolbyVisionRenders()
    ensures Complete(Defaults) && RendersSetting(Defaults, "skip_dolby_vision", "false")
  {
    DefaultsComplete();
  }

  lemma SampleStereoDownmixRenders()
    ensures Complete(Defaults) && RendersSetting(Defaults, "stereo_downmix", "false")
  {
    DefaultsComplete();
  }

  lemma SampleAudioBitrateOverrideRenders()
    ensures Complete(Defaults) && RendersSetting(Defaults, "audio_bitrate_override", "")
  {
    DefaultsComplete();
  }

  lemma SamplePreferredAudioLanguageRenders()
    ensures Complete(Defaults) && RendersSetting(Defaults, "preferred_audio_language", "eng")
  {
    DefaultsComplete();
  }

  lemma SamplePreferredSubtitleLanguageRenders()
    ensures Complete(Defaults) && RendersSetting(Defaults, "preferred_subtitle_language", "eng")
  {
    DefaultsComplete();
  }

  lemma SampleForcedSubtitlesOnlyRenders()
    ensures Complete(Defaults) && RendersSetting(Defaults, "forced_subtitles_only", "true")
  {
    DefaultsComplete();
  }

  lemma SamplePersonalFfmpegPathRenders()
    ensures Complete(Defaults) && RendersSetting(Defaults, "personal_ffmpeg_path", "")
  {
    DefaultsComplete();
  }

  lemma SampleSvtTuneRenders()
    ensures Complete(Defaults) && RendersSetting(Defaults, "svt_tune", "1")
  {
    DefaultsComplete();
  }

  lemma SampleSvtEnableOverlaysRenders()
    ensures Complete(Defaults) && RendersSetting(Defaults, "svt_enable_overlays", "0")
  {
    DefaultsComplete();
  }

  lemma SampleSvtFastDecodeRenders()
    ensures Complete(Defaults) && RendersSetting(Defaults, "svt_fast_decode", "1")
  {
    DefaultsComplete();
  }

  lemma SampleSvtLookaheadRenders()
    ensures Complete(Defaults) && RendersSetting(Defaults, "svt_lookahead", "32")
  {
    DefaultsComplete();
  }

  lemma SampleSvtEnableQmRenders()
    ensures Complete(Defaults) && RendersSetting(Defaults, "svt_enable_qm", "1")
  {
    DefaultsComplete();
  }

  lemma SampleSvtQmMinRenders()
    ensures Complete(Defaults) && RendersSetting(Defaults, "svt_qm_min", "0")
  {
    DefaultsComplete();
  }

  lemma SampleSvtQmMaxRenders()
    ensures Complete(Defaults) && RendersSetting(Defaults, "svt_qm_max", "15")
  {
    DefaultsComplete();
  }

  lemma SampleSvtTileColumnsRenders()
    ensures Complete(Defaults) && RendersSetting(Defaults, "svt_tile_columns", "2")
  {
    DefaultsComplete();
  }

  lemma SampleSvtFilmGrainRenders()
    ensures Complete(Defaults) && RendersSetting(Defaults, "svt_film_grain", "0")
  {
    DefaultsComplete();
  }

  lemma SampleSvtAqModeRenders()
    ensures Complete(Defaults) && RendersSetting(Defaults, "svt_aq_mode", "2")
  {
    DefaultsComplete();
  }

  lemma SampleSvtSharpnessRenders()
    ensures Complete(Defaults) && RendersSetting(Defaults, "svt_sharpness", "0")
  {
    DefaultsComplete();
  }

  lemma SampleCrfAnimationRenders()
    ensures Complete(Defaults) && RendersSetting(Defaults, "crf_animation", "29")
  {
    DefaultsComplete();
  }

  lemma SampleCrfFilmRenders()
    ensures Complete(Defaults) && RendersSetting(Defaults, "crf_film", "22")
  {
    DefaultsComplete();
  }

  lemma SampleCrfTvRenders()
    ensures Complete(Defaults) && RendersSetting(Defaults, "crf_tv", "26")
  {
    DefaultsComplete();
  }

  lemma SampleSettings0Kept()
    ensures Complete(Defaults)
    ensures Keeps(Defaults, EntryLines(SampleSettings0))
  {
    SampleDirectoryRenders();
    SampleVerboseRenders();
    SamplePresetRenders();
    assert RendersFrom(Defaults, SampleSettings0, 0);
    RendersAllKept(Defaults, SampleSettings0);
  }

  lemma SampleSettings1Kept()
    ensures Complete(Defaults)
    ensures Keeps(Defaults, EntryLines(SampleSettings1))
  {
    SampleAnimationPresetRenders();
    SampleTvPresetRenders();
    SampleFilmPresetRenders();
    assert RendersFrom(Defaults, SampleSettings1, 0);
    RendersAllKept(Defaults, SampleSettings1);
  }

  lemma SampleSettings2Kept()
    ensures Complete(Defaults)
    ensures Keeps(Defaults, EntryLines(SampleSettings2))
  {
    SampleMaxParallelJobsRenders();
    SampleCrfRenders();
    SampleGopRenders();
    assert RendersFrom(Defaults, SampleSettings2, 0);
    RendersAllKept(Defaults, SampleSettings2);
  }

  lemma SampleSettings3Kept()
    ensures Complete(Defaults)
    ensures Keeps(Defaults, EntryLines(SampleSettings3))
  {
    SampleSizeThresholdRenders();
    SampleRemoveInputFileRenders();
    SampleLazyRenders();
    assert RendersFrom(Defaults, SampleSettings3, 0);
    RendersAllKept(Defaults, SampleSettings3);
  }

  lemma SampleSettings4Kept()
    ensures Complete(Defaults)
    ensures Keeps(Defaults, EntryLines(SampleSettings4))
  {
    SampleAllowLargerFilesRenders();
    SampleForceRenders();
    SampleForceReencodeRenders();
    assert RendersFrom(Defaults, SampleSettings4, 0);
    RendersAllKept(Defaults, SampleSettings4);
  }

  lemma SampleSettings5Kept()
    ensures Complete(Defaults)
    ensures Keeps(Defaults, EntryLines(SampleSettings5))
  {
    SampleResizeRenders();
    SampleResizeTargetHeightRenders();
    SampleFfmpegThreadsRenders();
    assert RendersFrom(Defaults, SampleSettings5, 0);
    RendersAllKept(Defaults, SampleSettings5);
  }

  lemma SampleSettings6Kept()
    ensures Complete(Defaults)
    ensures Keeps(Defaults, EntryLines(SampleSettings6))
  {
    SampleDetectGrainRenders();
    SampleTempRootRenders();
    SampleCleanupOnExitRenders();
    assert RendersFrom(Defaults, SampleSettings6, 0);
    RendersAllKept(Defaults, SampleSettings6);
  }

  lemma SampleSettings7Kept()
    ensures Complete(Defaults)
    ensures Keeps(Defaults, EntryLines(SampleSettings7))
  {
    SampleReencodedByRenders();
    SampleSkipDolbyVisionRenders();
    SampleStereoDownmixRenders();
    assert RendersFrom(Defaults, SampleSettings7, 0);
    RendersAllKept(Defaults, SampleSettings7);
  }

  lemma SampleSettings8Kept()
    ensures Complete(Defaults)
    ensures Keeps(Defaults, EntryLines(SampleSettings8))
  {
    SampleAudioBitrateOverrideRenders();
    SamplePreferredAudioLanguageRenders();
    SamplePreferredSubtitleLanguageRenders();
    assert RendersFrom(Defaults, SampleSettings8, 0);
    RendersAllKept(Defaults, SampleSettings8);
  }

  lemma SampleSettings9Kept()
    ensures Complete(Defaults)
    ensures Keeps(Defaults, EntryLines(SampleSettings9))
  {
    SampleForcedSubtitlesOnlyRenders();
    SamplePersonalFfmpegPathRenders();
    SampleSvtTuneRenders();
    assert RendersFrom(Defaults, SampleSettings9, 0);
    RendersAllKept(Defaults, SampleSettings9);
  }

  lemma SampleSettings10Kept()
    ensures Complete(Defaults)
    ensures Keeps(Defaults, EntryLines(SampleSettings10))
  {
    SampleSvtEnableOverlaysRenders();
    SampleSvtFastDecodeRenders();
    SampleSvtLookaheadRenders();
    assert RendersFrom(Defaults, SampleSettings10, 0);
    RendersAllKept(Defaults, SampleSettings10);
  }

  lemma SampleSettings11Kept()
    ensures Complete(Defaults)
    ensures Keeps(Defaults, EntryLines(SampleSettings11))
  {
    SampleSvtEnableQmRenders();
    SampleSvtQmMinRenders();
    SampleSvtQmMaxRenders();
    assert RendersFrom(Defaults, SampleSettings11, 0);
    RendersAllKept(Defaults, SampleSettings11);
  }

  lemma SampleSettings12Kept()
    ensures Complete(Defaults)
    ensures Keeps(Defaults, EntryLines(SampleSettings12))
  {
    SampleSvtTileColumnsRenders();
    SampleSvtFilmGrainRenders();
    SampleSvtAqModeRenders();
    assert RendersFrom(Defaults, SampleSettings12, 0);
    RendersAllKept(Defaults, SampleSettings12);
  }

  lemma SampleSettings13Kept()
    ensures Complete(Defaults)
    ensures Keeps(Defaults, EntryLines(SampleSettings13))
  {
    SampleSvtSharpnessRenders();
    SampleCrfAnimationRenders();
    SampleCrfFilmRenders();
    assert RendersFrom(Defaults, SampleSettings13, 0);
    RendersAllKept(Defaults, SampleSettings13);
  }

  lemma SampleSettings14Kept()
    ensures Complete(Defaults)
    ensures Keeps(Defaults, EntryLines(SampleSettings14))
  {
    SampleCrfTvRenders();
    assert RendersFrom(Defaults, SampleSettings14, 0);
    RendersAllKept(Defaults, SampleSettings14);
  }

  /** Loading the generated sample file into a default configuration
      changes no attribute: every value it writes is the default. */
  lemma SampleConfigKeepsDefaults()
    ensures Complete(Defaults)
    ensures LoadLines(Defaults, SampleConfigLines) == Defaults
  {
    DefaultsComplete();
    SampleCommentsKept();
    SampleSettings0Kept();
    KeepsAppend(Defaults, SampleHeader, EntryLines(SampleSettings0));
    SampleSettings1Kept();
    KeepsAppend(Defaults, SampleHeader + EntryLines(SampleSettings0), EntryLines(SampleSettings1));
    SampleSettings2Kept();
    KeepsAppend(Defaults, SampleHeader + EntryLines(SampleSettings0) + EntryLines(SampleSettings1), EntryLines(SampleSettings2));
    SampleSettings3Kept();
    KeepsAppend(Defaults, SampleHeader + EntryLines(SampleSettings0) + EntryLines(SampleSettings1) + EntryLines(SampleSettings2), EntryLines(SampleSettings3));
    SampleSettings4Kept();
    KeepsAppend(Defaults, SampleHeader + EntryLines(SampleSettings0) + EntryLines(SampleSettings1) + EntryLines(SampleSettings2) + EntryLines(SampleSettings3), EntryLines(SampleSettings4));
    SampleSettings5Kept();
    KeepsAppend(Defaults, SampleHeader + EntryLines(SampleSettings0) + EntryLines(SampleSettings1) + EntryLines(SampleSettings2) + EntryLines(SampleSettings3) + EntryLines(SampleSettings4), EntryLines(SampleSettings5));
    SampleSettings6Kept();
    KeepsAppend(Defaults, SampleHeader + EntryLines(SampleSettings0) + EntryLines(SampleSettings1) + EntryLines(SampleSettings2) + EntryLines(SampleSettings3) + EntryLines(SampleSettings4) + EntryLines(SampleSettings5), EntryLines(SampleSettings6));
    SampleSettings7Kept();
    KeepsAppend(Defaults, SampleHeader + EntryLines(SampleSettings0) + EntryLines(SampleSettings1) + EntryLines(SampleSettings2) + EntryLines(SampleSettings3) + EntryLines(SampleSettings4) + EntryLines(SampleSettings5) + EntryLines(SampleSettings6), EntryLines(SampleSettings7));
    SampleSettings8Kept();
    KeepsAppend(Defaults, SampleHeader + EntryLines(SampleSettings0) + EntryLines(SampleSettings1) + EntryLines(SampleSettings2) + EntryLines(SampleSettings3) + EntryLines(SampleSettings4) + EntryLines(SampleSettings5) + EntryLines(SampleSettings6) + EntryLines(SampleSettings7), EntryLines(SampleSettings8));
    SampleSettings9Kept();
    KeepsAppend(Defaults, SampleHeader + EntryLines(SampleSettings0) + EntryLines(SampleSettings1) + EntryLines(SampleSettings2) + EntryLines(SampleSettings3) + EntryLines(SampleSettings4) + EntryLines(SampleSettings5) + EntryLines(SampleSettings6) + EntryLines(SampleSettings7) + EntryLines(SampleSettings8), EntryLines(SampleSettings9));
    SampleSettings10Kept();
    KeepsAppend(Defaults, SampleHeader + EntryLines(SampleSettings0) + EntryLines(SampleSettings1) + EntryLines(SampleSettings2) + EntryLines(SampleSettings3) + EntryLines(SampleSettings4) + EntryLines(SampleSettings5) + EntryLines(SampleSettings6) + EntryLines(SampleSettings7) + EntryLines(SampleSettings8) + EntryLines(SampleSettings9), EntryLines(SampleSettings10));
    SampleSettings11Kept();
    KeepsAppend(Defaults, SampleHeader + EntryLines(SampleSettings0) + EntryLines(SampleSettings1) + EntryLines(SampleSettings2) + EntryLines(SampleSettings3) + EntryLines(SampleSettings4) + EntryLines(SampleSettings5) + EntryLines(SampleSettings6) + EntryLines(SampleSettings7) + EntryLines(SampleSettings8) + EntryLines(SampleSettings9) + EntryLines(SampleSettings10), EntryLines(SampleSettings11));
    SampleSettings12Kept();
    KeepsAppend(Defaults, SampleHeader + EntryLines(SampleSettings0) + EntryLines(SampleSettings1) + EntryLines(SampleSettings2) + EntryLines(SampleSettings3) + EntryLines(SampleSettings4) + EntryLines(SampleSettings5) + EntryLines(SampleSettings6) + EntryLines(SampleSettings7) + EntryLines(SampleSettings8) + EntryLines(SampleSettings9) + EntryLines(SampleSettings10) + EntryLines(SampleSettings11), EntryLines(SampleSettings12));
    SampleSettings13Kept();
    KeepsAppend(Defaults, SampleHeader + EntryLines(SampleSettings0) + EntryLines(SampleSettings1) + EntryLines(SampleSettings2) + EntryLines(SampleSettings3) + EntryLines(SampleSettings4) + EntryLines(SampleSettings5) + EntryLines(SampleSettings6) + EntryLines(SampleSettings7) + EntryLines(SampleSettings8) + EntryLines(SampleSettings9) + EntryLines(SampleSettings10) + EntryLines(SampleSettings11) + EntryLines(SampleSettings12), EntryLines(SampleSettings13));
    SampleSettings14Kept();
    KeepsAppend(Defaults, SampleHeader + EntryLines(SampleSettings0) + EntryLines(SampleSettings1) + EntryLines(SampleSettings2) + EntryLines(SampleSettings3) + EntryLines(SampleSettings4) + EntryLines(SampleSettings5) + EntryLines(SampleSettings6) + EntryLines(SampleSettings7) + EntryLines(SampleSettings8) + EntryLines(SampleSettings9) + EntryLines(SampleSettings10) + EntryLines(SampleSettings11) + EntryLines(SampleSettings12) + EntryLines(SampleSettings13), EntryLines(SampleSettings14));
    KeepsAppend(Defaults, SampleHeader + EntryLines(SampleSettings0) + EntryLines(SampleSettings1) + EntryLines(SampleSettings2) + EntryLines(SampleSettings3) + EntryLines(SampleSettings4) + EntryLines(SampleSettings5) + EntryLines(SampleSettings6) + EntryLines(SampleSettings7) + EntryLines(SampleSettings8) + EntryLines(SampleSettings9) + EntryLines(SampleSettings10) + EntryLines(SampleSettings11) + EntryLines(SampleSettings12) + EntryLines(SampleSettings13) + EntryLines(SampleSettings14), SampleFooter);
    LoadLinesFixed(Defaults, SampleConfigLines);
  }
}
