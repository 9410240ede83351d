/** What the AV1 batch encoder (av1conv.py) reads off a probed file: the
    stream records, the HDR and Dolby Vision tests, the content-type and
    grain heuristics, the audio and subtitle choice, and the skip filter. */
module Av1Media {
  import opened Common
  import Json
  import opened Av1Config

  // ---------------------------------------------------------------------
  // Paths
  // ---------------------------------------------------------------------

  /** A file path as its parent directory and its final component. */
  datatype FilePath = FilePath(dir: string, name: string)

  /** `str(path)`. */
  function PathText(p: FilePath): string {
    p.dir + "/" + p.name
  }

  /** `PurePath.suffix`: from the last dot of the name, when that dot is
      neither the first nor the last character. */
  function Suffix(name: string): (r: string)
    ensures r == [] || (r[0] == '.' && EndsWith(name, r))
  {
    match RFind(name, '.')
    case Some(i) => if 0 < i < |name| - 1 then name[i..] else ""
    case None => ""
  }

  /** `PurePath.stem`: the name without its suffix. */
  function Stem(name: string): (r: string)
    ensures r + Suffix(name) == name
  {
    match RFind(name, '.')
    case Some(i) => if 0 < i < |name| - 1 then name[..i] else name
    case None => name
  }

  // ---------------------------------------------------------------------
  // Stream records
  // ---------------------------------------------------------------------

  /** One entry of a video stream's `side_data_list`: its
      `side_data_type` ("" when absent), its `dv_profile` entry when the
      key is present (the value may be null), and its `metadata` mapping
      with each value as `str()` renders it. */
  datatype SideData = SideData(
    kind: string,
    dvProfile: Option<Json.Json>,
    metadata: map<string, string>)

  /** `StreamInfo` as `_build_stream_info` fills it. Only the
      `codec_tag_string` tag is carried; `sample_rate` and `color_range`
      are read by nothing in the encoder. */
  datatype StreamInfo = StreamInfo(
    index: int,
    codec: Option<string>,
    language: Option<string>,
    channels: Option<int>,
    codecTag: Option<string>,
    disposition: map<string, Json.Json>,
    bitRate: Option<real>,
    height: Option<int>,
    pixFmt: Option<string>,
    bitsPerRawSample: Option<int>,
    colorTransfer: Option<string>,
    colorSpace: Option<string>,
    colorPrimaries: Option<string>,
    sideData: seq<SideData>)

  /** `MediaInfo`: the path, the container's `title` tag, the first video
      stream, the audio and subtitle streams, the duration in seconds and
      the size in bytes. */
  datatype MediaInfo = MediaInfo(
    path: FilePath,
    title: Option<string>,
    video: StreamInfo,
    audioStreams: seq<StreamInfo>,
    subtitleStreams: seq<StreamInfo>,
    duration: real,
    sizeBytes: int)

  /** `value or ""` for an optional string. */
  function OrEmpty(o: Option<string>): (r: string)
    ensures o.Some? ==> r == o.value
    ensures o.None? ==> r == ""
  {
    if o.Some? then o.value else ""
  }

  /** `value or fallback` for an optional string: the fallback replaces a
      missing value and an empty one. */
  function OrElse(o: Option<string>, fallback: string): (r: string)
    ensures o.Some? && o.value != "" ==> r == o.value
    ensures o.None? || o.value == "" ==> r == fallback
  {
    if o.Some? && o.value != "" then o.value else fallback
  }

  /** `stream.disposition.get(key)` is truthy. */
  predicate DispositionSet(s: StreamInfo, key: string) {
    Json.Truthy(Json.Get(s.disposition, key))
  }

  // ---------------------------------------------------------------------
  // HDR and Dolby Vision
  // ---------------------------------------------------------------------

  const HdrTransfers: set<string> := {"smpte2084", "arib-std-b67", "iec61966-2-4"}

  /** A side-data entry that marks HDR: mastering-display or content-light
      metadata. */
  predicate HdrSideData(d: SideData) {
    Contains(Lower(d.kind), "mastering display") || Contains(Lower(d.kind), "content light")
  }

  /** Some entry of `list` satisfies the HDR test. */
  function AnyHdrSideData(list: seq<SideData>): (r: bool)
    ensures r <==> exists i :: 0 <= i < |list| && HdrSideData(list[i])
  {
    if list == [] then false
    else HdrSideData(list[0]) || AnyHdrSideData(list[1..])
  }

  /** `MediaInfo.is_hdr`: an HDR transfer function, or HDR side data. */
  function IsHdr(v: StreamInfo): (r: bool)
    ensures r <==> Lower(OrEmpty(v.colorTransfer)) in HdrTransfers
                   || exists i :: 0 <= i < |v.sideData| && HdrSideData(v.sideData[i])
  {
    Lower(OrEmpty(v.colorTransfer)) in HdrTransfers || AnyHdrSideData(v.sideData)
  }

  /** A side-data entry of Dolby Vision configuration type. */
  predicate DolbySideData(d: SideData) {
    StartsWith(Lower(d.kind), "dolby vision")
  }

  function AnyDolbySideData(list: seq<SideData>): (r: bool)
    ensures r <==> exists i :: 0 <= i < |list| && DolbySideData(list[i])
  {
    if list == [] then false
    else DolbySideData(list[0]) || AnyDolbySideData(list[1..])
  }

  /** The `dv_profile` the source's second loop ends with: that of the last
      entry holding the key, `None` when no entry does. */
  function LastProfile(list: seq<SideData>): (r: Option<Json.Json>)
    ensures r.Some? <==> exists i :: 0 <= i < |list| && list[i].dvProfile.Some?
    ensures r.Some? ==> exists i :: 0 <= i < |list| && list[i].dvProfile == r
                          && forall j :: i < j < |list| ==> list[j].dvProfile.None?
  {
    if list == [] then None
    else if list[|list| - 1].dvProfile.Some? then list[|list| - 1].dvProfile
    else LastProfile(list[..|list| - 1])
  }

  /** `MediaInfo.has_dolby_vision`: Dolby Vision side data, a truthy last
      `dv_profile`, or a codec tag starting with "dv". */
  function HasDolbyVision(v: StreamInfo): (r: bool)
    ensures r <==> (exists i :: 0 <= i < |v.sideData| && DolbySideData(v.sideData[i]))
                   || (LastProfile(v.sideData).Some? && Json.Truthy(LastProfile(v.sideData).value))
                   || StartsWith(Lower(OrEmpty(v.codecTag)), "dv")
  {
    if AnyDolbySideData(v.sideData) then true
    else
      var profile := LastProfile(v.sideData);
      if profile.Some? && Json.Truthy(profile.value) then true
      else StartsWith(Lower(OrEmpty(v.codecTag)), "dv")
  }

  /** Only the last entry holding `dv_profile` is consulted: a later
      entry with the key replaces every earlier profile, and one without
      it leaves the profile as it was. */
  lemma LaterProfileWins(list: seq<SideData>, later: SideData)
    ensures later.dvProfile.Some? ==> LastProfile(list + [later]) == later.dvProfile
    ensures later.dvProfile.None? ==> LastProfile(list + [later]) == LastProfile(list)
  {
    assert (list + [later])[..|list|] == list;
  }

  /** So a falsy profile in a later entry hides truthy ones in earlier
      entries: without Dolby Vision side data, the stream then counts as
      Dolby Vision only by its codec tag. */
  lemma FalsyProfileHides(v: StreamInfo, list: seq<SideData>, later: SideData)
    requires v.sideData == list + [later]
    requires later.dvProfile.Some? && !Json.Truthy(later.dvProfile.value)
    requires forall i :: 0 <= i < |v.sideData| ==> !DolbySideData(v.sideData[i])
    ensures HasDolbyVision(v) <==> StartsWith(Lower(OrEmpty(v.codecTag)), "dv")
  {
    LaterProfileWins(list, later);
  }

  // ---------------------------------------------------------------------
  // Content type
  // ---------------------------------------------------------------------

  /** The source looks like episodic television: by file name, then title. */
  predicate TvKeywords(info: MediaInfo) {
    var name := Lower(info.path.name);
    var title := Lower(OrEmpty(info.title));
    Contains(name, ".s0") || Contains(name, "episode") || Contains(name, "season")
    || Contains(title, "episode") || Contains(title, "series")
  }

  /** The source looks like animation: by file name, then title. */
  predicate AnimationKeywords(info: MediaInfo) {
    var name := Lower(info.path.name);
    var title := Lower(OrEmpty(info.title));
    Contains(name, "animation") || Contains(name, "anime") || Contains(name, "cartoon")
    || Contains(title, "animation") || Contains(title, "anime")
  }

  /** 8-bit 4:2:0 video, which the heuristic takes for animation. */
  predicate EightBit420(v: StreamInfo) {
    v.pixFmt.Some? && v.pixFmt.value != "" && Contains(v.pixFmt.value, "yuv420p")
    && v.bitsPerRawSample == Some(8)
  }

  /** `detect_content_type`: the television keywords are checked before the
      animation keywords; failing both, 8-bit 4:2:0 video is animation and
      anything else film. */
  function DetectContentType(info: MediaInfo): (r: string)
    ensures r in {"tv", "animation", "film"}
    ensures r == "tv" <==> TvKeywords(info)
    ensures r == "animation" <==>
              !TvKeywords(info) && (AnimationKeywords(info) || EightBit420(info.video))
    ensures r == "film" <==>
              !TvKeywords(info) && !AnimationKeywords(info) && !EightBit420(info.video)
  {
    var name := Lower(info.path.name);
    var title := Lower(OrEmpty(info.title));
    if Contains(name, ".s0") || Contains(name, "episode") || Contains(name, "season") then "tv"
    else if Contains(title, "episode") || Contains(title, "series") then "tv"
    else if Contains(name, "animation") || Contains(name, "anime") || Contains(name, "cartoon") then "animation"
    else if Contains(title, "animation") || Contains(title, "anime") then "animation"
    else if EightBit420(info.video) then "animation"
    else "film"
  }

  /** The detected label always has its own CRF and preset settings, so
      the general `crf` and `preset` are never the fallback in this path. */
  lemma DetectedTypeHasSettings(info: MediaInfo, cfg: Config)
    requires Complete(cfg)
    ensures var kind := DetectContentType(info);
      ContentTypeCrf(cfg, kind) in {cfg[CrfAnimation], cfg[CrfFilm], cfg[CrfTv]}
      && ContentTypePreset(cfg, kind) in {cfg[AnimationPreset], cfg[FilmPreset], cfg[TvPreset]}
  {
  }

  // ---------------------------------------------------------------------
  // Grain estimate
  // ---------------------------------------------------------------------

  /** The grain strength for a bit rate in bits per second. */
  function GrainForRate(bps: real): (r: int)
    ensures r in {0, 8, 12, 20}
  {
    if bps > 14000000.0 then 20
    else if bps > 10000000.0 then 12
    else if bps > 6000000.0 then 8
    else 0
  }

  /** A denser source never gets less grain. */
  lemma GrainForRateMonotone(a: real, b: real)
    requires a <= b
    ensures GrainForRate(a) <= GrainForRate(b)
  {
  }

  /** `estimate_grain_level`: no grain for HDR or for a zero duration or
      size; otherwise the strength for size * 8 / duration. */
  function EstimateGrainLevel(info: MediaInfo): (r: int)
    ensures r in {0, 8, 12, 20}
    ensures IsHdr(info.video) || info.duration == 0.0 || info.sizeBytes == 0 ==> r == 0
    ensures !IsHdr(info.video) && info.duration != 0.0 && info.sizeBytes != 0 ==>
              r == GrainForRate((info.sizeBytes * 8) as real / info.duration)
  {
    if IsHdr(info.video) then 0
    else if info.duration == 0.0 || info.sizeBytes == 0 then 0
    else GrainForRate((info.sizeBytes * 8) as real / info.duration)
  }

  /** For two SDR files of the same length, the larger one gets at least
      as much grain. */
  lemma EstimateMonotoneInSize(a: MediaInfo, b: MediaInfo)
    requires !IsHdr(a.video) && !IsHdr(b.video)
    requires a.duration == b.duration && a.duration > 0.0
    requires 0 < a.sizeBytes <= b.sizeBytes
    ensures EstimateGrainLevel(a) <= EstimateGrainLevel(b)
  {
    var ra := (a.sizeBytes * 8) as real / a.duration;
    var rb := (b.sizeBytes * 8) as real / b.duration;
    assert ra <= rb by {
      assert (a.sizeBytes * 8) as real <= (b.sizeBytes * 8) as real;
      DivideMonotone((a.sizeBytes * 8) as real, (b.sizeBytes * 8) as real, a.duration);
    }
    GrainForRateMonotone(ra, rb);
  }

  lemma DivideMonotone(x: real, y: real, d: real)
    requires x <= y && d > 0.0
    ensures x / d <= y / d
  {
    assert y / d - x / d == (y - x) / d;
  }

  // ---------------------------------------------------------------------
  // Audio stream choice
  // ---------------------------------------------------------------------

  /** The key `choose_audio_stream` maximises, compared lexicographically:
      default flag, commentary penalty, codec preference, fewer channels,
      lower bit rate. */
  datatype AudioScore = AudioScore(default: int, commentary: int, codec: int, channels: int, bitRate: real)

  predicate Above(a: AudioScore, b: AudioScore) {
    a.default > b.default
    || (a.default == b.default && a.commentary > b.commentary)
    || (a.default == b.default && a.commentary == b.commentary && a.codec > b.codec)
    || (a.default == b.default && a.commentary == b.commentary && a.codec == b.codec
        && a.channels > b.channels)
    || (a.default == b.default && a.commentary == b.commentary && a.codec == b.codec
        && a.channels == b.channels && a.bitRate > b.bitRate)
  }

  lemma AboveTransitive(a: AudioScore, b: AudioScore, c: AudioScore)
    requires Above(a, b) && Above(b, c)
    ensures Above(a, c)
  {
  }

  lemma AboveTotal(a: AudioScore, b: AudioScore)
    ensures Above(a, b) || Above(b, a) || a == b
  {
  }

  /** `score(stream)`: a missing or zero channel count counts as 2, a
      missing or zero bit rate as 0. */
  function Score(s: StreamInfo): AudioScore {
    var channels := if s.channels.Some? && s.channels.value != 0 then s.channels.value else 2;
    var rate := if s.bitRate.Some? then s.bitRate.value else 0.0;
    AudioScore(
      if DispositionSet(s, "default") then 1 else 0,
      if DispositionSet(s, "commentary") then -1 else 0,
      if s.codec == Some("opus") || s.codec == Some("libopus") then 2
      else if s.codec == Some("aac") || s.codec == Some("libfdk_aac") then 1
      else 0,
      -channels,
      -rate)
  }

  /** The position `max(..., key=score)` picks: it keeps the first element
      and replaces it only by one with a strictly greater key. */
  function BestIndex(streams: seq<StreamInfo>): (r: nat)
    requires streams != []
    ensures r < |streams|
    ensures forall j :: 0 <= j < |streams| ==> !Above(Score(streams[j]), Score(streams[r]))
    ensures forall j :: 0 <= j < r ==> Above(Score(streams[r]), Score(streams[j]))
  {
    if |streams| == 1 then 0
    else
      var front := streams[..|streams| - 1];
      var b := BestIndex(front);
      var last := |streams| - 1;
      assert forall j :: 0 <= j < last ==> front[j] == streams[j];
      if Above(Score(streams[last]), Score(streams[b])) then
        forall j | 0 <= j < last
          ensures Above(Score(streams[last]), Score(streams[j]))
        {
          AboveTotal(Score(streams[b]), Score(streams[j]));
          if Above(Score(streams[b]), Score(streams[j])) {
            AboveTransitive(Score(streams[last]), Score(streams[b]), Score(streams[j]));
          }
        }
        last
      else
        AboveTotal(Score(streams[last]), Score(streams[b]));
        b
  }

  /** The streams whose language, lower-cased, equals `lang`. */
  function WithLanguage(streams: seq<StreamInfo>, lang: string): (r: seq<StreamInfo>)
    ensures |r| <= |streams|
  {
    if streams == [] then []
    else
      (if Lower(OrEmpty(streams[0].language)) == lang then [streams[0]] else [])
      + WithLanguage(streams[1..], lang)
  }

  lemma {:induction false} WithLanguageMembers(streams: seq<StreamInfo>, lang: string)
    ensures forall s :: s in WithLanguage(streams, lang) <==>
              s in streams && Lower(OrEmpty(s.language)) == lang
  {
    if streams != [] {
      WithLanguageMembers(streams[1..], lang);
      assert streams == [streams[0]] + streams[1..];
    }
  }

  /** The streams `choose_audio_stream` picks from: those in the preferred
      language, or all of them when none is. */
  function AudioCandidates(streams: seq<StreamInfo>, lang: string): (r: seq<StreamInfo>)
    ensures streams != [] ==> r != []
  {
    var matching := WithLanguage(streams, lang);
    if matching != [] then matching else streams
  }

  /** `choose_audio_stream`: among the streams in the preferred language
      (all streams when none is), the first with the greatest score. It
      fails for a file without audio and for a preferred language that is
      not a string. */
  function ChooseAudioStream(info: MediaInfo, cfg: Config): (r: Result<StreamInfo, string>)
    requires Complete(cfg)
    ensures info.audioStreams == [] ==> r == Err("No audio streams found in " + PathText(info.path))
    ensures info.audioStreams != [] ==> (r.Ok? <==> cfg[PreferredAudioLanguage].VStr?)
  {
    if info.audioStreams == [] then Err("No audio streams found in " + PathText(info.path))
    else if !cfg[PreferredAudioLanguage].VStr? then
      Err("AttributeError: preferred_audio_language has no lower()")
    else
      var candidates := AudioCandidates(info.audioStreams, Lower(cfg[PreferredAudioLanguage].s));
      Ok(candidates[BestIndex(candidates)])
  }

  /** The chosen stream is an audio stream, in the preferred language
      whenever one is; no candidate scores higher, and every candidate
      before it scores lower. */
  lemma ChosenAudioIsBest(info: MediaInfo, cfg: Config)
    requires Complete(cfg)
    requires info.audioStreams != [] && cfg[PreferredAudioLanguage].VStr?
    ensures var preferred := Lower(cfg[PreferredAudioLanguage].s);
      var candidates := AudioCandidates(info.audioStreams, preferred);
      var r := ChooseAudioStream(info, cfg).value;
      && r in info.audioStreams
      && ((exists s :: s in info.audioStreams && Lower(OrEmpty(s.language)) == preferred)
          ==> Lower(OrEmpty(r.language)) == preferred)
      && (forall s :: s in candidates ==> !Above(Score(s), Score(r)))
      && exists i :: 0 <= i < |candidates| && candidates[i] == r
                     && forall j :: 0 <= j < i ==> Above(Score(r), Score(candidates[j]))
  {
    var preferred := Lower(cfg[PreferredAudioLanguage].s);
    var candidates := AudioCandidates(info.audioStreams, preferred);
    WithLanguageMembers(info.audioStreams, preferred);
    var i := BestIndex(candidates);
    var r := candidates[i];
    assert r == ChooseAudioStream(info, cfg).value;
    assert r in candidates;
    if exists s :: s in info.audioStreams && Lower(OrEmpty(s.language)) == preferred {
      var s :| s in info.audioStreams && Lower(OrEmpty(s.language)) == preferred;
      assert s in WithLanguage(info.audioStreams, preferred);
    }
  }

  // ---------------------------------------------------------------------
  // Subtitle streams
  // ---------------------------------------------------------------------

  /** The loop's test in `choose_subtitle_streams`: the language matches
      (any language when none is preferred) and, in forced-only mode, the
      stream is flagged forced. */
  predicate WantedSubtitle(s: StreamInfo, lang: string, forcedOnly: bool) {
    (lang == "" || Lower(OrEmpty(s.language)) == lang)
    && (!forcedOnly || DispositionSet(s, "forced"))
  }

  /** The wanted subtitle streams, in file order. */
  function WantedSubtitles(streams: seq<StreamInfo>, lang: string, forcedOnly: bool): (r: seq<StreamInfo>)
    ensures |r| <= |streams|
  {
    if streams == [] then []
    else
      (if WantedSubtitle(streams[0], lang, forcedOnly) then [streams[0]] else [])
      + WantedSubtitles(streams[1..], lang, forcedOnly)
  }

  lemma {:induction false} WantedSubtitlesMembers(streams: seq<StreamInfo>, lang: string, forcedOnly: bool)
    ensures forall s :: s in WantedSubtitles(streams, lang, forcedOnly) <==>
              s in streams && WantedSubtitle(s, lang, forcedOnly)
  {
    if streams != [] {
      WantedSubtitlesMembers(streams[1..], lang, forcedOnly);
      assert streams == [streams[0]] + streams[1..];
    }
  }

  lemma {:induction false} WantedSubtitlesSnoc(streams: seq<StreamInfo>, s: StreamInfo, lang: string, forcedOnly: bool)
    ensures WantedSubtitles(streams + [s], lang, forcedOnly)
            == WantedSubtitles(streams, lang, forcedOnly)
               + (if WantedSubtitle(s, lang, forcedOnly) then [s] else [])
    decreases |streams|
  {
    if streams == [] {
      assert [s] + [] == [s];
    } else {
      var longer := streams + [s];
      assert longer[0] == streams[0];
      assert longer[1..] == streams[1..] + [s];
      WantedSubtitlesSnoc(streams[1..], s, lang, forcedOnly);
      var head := if WantedSubtitle(streams[0], lang, forcedOnly) then [streams[0]] else [];
      assert WantedSubtitles(longer, lang, forcedOnly) == head + WantedSubtitles(longer[1..], lang, forcedOnly);
      assert WantedSubtitles(streams, lang, forcedOnly) == head + WantedSubtitles(streams[1..], lang, forcedOnly);
    }
  }

  /** The fallback of `choose_subtitle_streams` never adds anything: when
      the loop selected nothing outside forced-only mode, no stream has
      the preferred language either. */
  lemma FallbackFindsNothing(streams: seq<StreamInfo>, lang: string)
    requires streams != []
    requires WantedSubtitles(streams, lang, false) == []
    ensures WithLanguage(streams, lang) == []
  {
    var head := streams[0];
    assert head in streams;
    WantedSubtitlesMembers(streams, lang, false);
    WithLanguageMembers(streams, lang);
    assert !WantedSubtitle(head, lang, false);
    assert lang != "";
  }

  /** What `choose_subtitle_streams` returns: the wanted streams. A
      preferred language that is not a string fails, once there are
      subtitle streams at all. */
  function SubtitleChoice(info: MediaInfo, cfg: Config): (r: Result<seq<StreamInfo>, string>)
    requires Complete(cfg)
  {
    if info.subtitleStreams == [] then Ok([])
    else if !cfg[PreferredSubtitleLanguage].VStr? then
      Err("AttributeError: preferred_subtitle_language has no lower()")
    else
      Ok(WantedSubtitles(info.subtitleStreams, Lower(cfg[PreferredSubtitleLanguage].s),
                         Truthy(cfg[ForcedSubtitlesOnly])))
  }

  /** `choose_subtitle_streams`: the loop over the subtitle streams, and the
      language fallback after it. */
  method ChooseSubtitleStreams(info: MediaInfo, cfg: Config) returns (r: Result<seq<StreamInfo>, string>)
    requires Complete(cfg)
    ensures r == SubtitleChoice(info, cfg)
    ensures r.Ok? ==> forall s :: s in r.value <==>
              s in info.subtitleStreams
              && WantedSubtitle(s, Lower(cfg[PreferredSubtitleLanguage].s), Truthy(cfg[ForcedSubtitlesOnly]))
  {
    if info.subtitleStreams == [] {
      return Ok([]);
    }
    if !cfg[PreferredSubtitleLanguage].VStr? {
      return Err("AttributeError: preferred_subtitle_language has no lower()");
    }
    var preferred := Lower(cfg[PreferredSubtitleLanguage].s);
    var forcedOnly := Truthy(cfg[ForcedSubtitlesOnly]);
    var streams := info.subtitleStreams;
    var selected: seq<StreamInfo> := [];
    var i := 0;
    while i < |streams|
      invariant 0 <= i <= |streams|
      invariant selected == WantedSubtitles(streams[..i], preferred, forcedOnly)
    {
      var stream := streams[i];
      var lang := Lower(OrEmpty(stream.language));
      WantedSubtitlesSnoc(streams[..i], stream, preferred, forcedOnly);
      assert streams[..i + 1] == streams[..i] + [stream];
      i := i + 1;
      if preferred != "" && lang != preferred {
        continue;
      }
      if forcedOnly && !DispositionSet(stream, "forced") {
        continue;
      }
      selected := selected + [stream];
    }
    assert streams[..i] == streams;
    if selected == [] && !forcedOnly {
      FallbackFindsNothing(streams, preferred);
      selected := WithLanguage(streams, preferred);
    }
    WantedSubtitlesMembers(streams, preferred, forcedOnly);
    return Ok(selected);
  }

  // ---------------------------------------------------------------------
  // Skip filter
  // ---------------------------------------------------------------------

  /** `_VIDEO_EXTENSIONS`. */
  const VideoExtensions: set<string> := {
    ".mkv", ".mp4", ".mov", ".avi", ".ts", ".m2ts", ".wmv", ".flv", ".mpg",
    ".mpeg", ".vob", ".mxf", ".webm", ".3gp", ".asf", ".rm", ".rmvb"}

  /** Each character of a string as a one-character string: what iterating
      over a string yields. */
  function Chars(s: string): (r: seq<string>)
    ensures |r| == |s|
    ensures forall i :: 0 <= i < |s| ==> r[i] == [s[i]]
  {
    if s == [] then [] else [[s[0]]] + Chars(s[1..])
  }

  /** `config.ignore_terms + config.extra_ignore_terms`: two tuples give
      their items, two strings give the characters of their concatenation,
      any other pair is a TypeError. */
  function IgnoreKeywords(cfg: Config): (r: Option<seq<string>>)
    requires Complete(cfg)
    ensures cfg[IgnoreTerms].VTuple? && cfg[ExtraIgnoreTerms].VTuple? ==>
              r == Some(cfg[IgnoreTerms].items + cfg[ExtraIgnoreTerms].items)
  {
    match (cfg[IgnoreTerms], cfg[ExtraIgnoreTerms])
    case (VTuple(a), VTuple(b)) => Some(a + b)
    case (VStr(a), VStr(b)) => Some(Chars(a + b))
    case _ => None
  }

  /** Some keyword, upper-cased, occurs in the upper-cased name. */
  function AnyKeywordIn(keywords: seq<string>, name: string): (r: bool)
    ensures r <==> exists i :: 0 <= i < |keywords| && Contains(Upper(name), Upper(keywords[i]))
  {
    if keywords == [] then false
    else Contains(Upper(name), Upper(keywords[0])) || AnyKeywordIn(keywords[1..], name)
  }

  /** `should_skip_file` for a path whose `is_file()` and size are given:
      not a regular file, not a video extension, an earlier output, below
      the size threshold without `force`, or an ignore keyword in the name.
      A threshold text `_size_to_bytes` rejects, or ignore lists that do
      not concatenate, raise. */
  function ShouldSkipFile(path: FilePath, isFile: bool, size: int, cfg: Config): (r: Result<bool, string>)
    requires Complete(cfg)
  {
    if !isFile then Ok(true)
    else if Lower(Suffix(path.name)) !in VideoExtensions then Ok(true)
    else if EndsWith(Lower(path.name), ".av1.mkv") then Ok(true)
    else if !cfg[SizeThreshold].VStr? then Err("AttributeError: size_threshold has no strip()")
    else
      match SizeToBytes(cfg[SizeThreshold].s)
      case Err(e) => Err(e)
      case Ok(threshold) =>
        if size < threshold && !Truthy(cfg[Force]) then Ok(true)
        else
          match IgnoreKeywords(cfg)
          case None => Err("TypeError: cannot concatenate the ignore lists")
          case Some(keywords) => Ok(AnyKeywordIn(keywords, path.name))
  }

  /** A regular file with a video extension that is not an earlier output
      is skipped exactly when it is below the threshold without `force`
      or carries an ignore keyword. */
  lemma SkipRule(path: FilePath, size: int, cfg: Config)
    requires Complete(cfg)
    requires Lower(Suffix(path.name)) in VideoExtensions
    requires !EndsWith(Lower(path.name), ".av1.mkv")
    requires cfg[SizeThreshold].VStr? && SizeToBytes(cfg[SizeThreshold].s).Ok?
    requires cfg[IgnoreTerms].VTuple? && cfg[ExtraIgnoreTerms].VTuple?
    ensures var threshold := SizeToBytes(cfg[SizeThreshold].s).value;
      var keywords := cfg[IgnoreTerms].items + cfg[ExtraIgnoreTerms].items;
      ShouldSkipFile(path, true, size, cfg)
      == Ok((size < threshold && !Truthy(cfg[Force]))
            || exists i :: 0 <= i < |keywords| && Contains(Upper(path.name), Upper(keywords[i])))
  {
    var threshold := SizeToBytes(cfg[SizeThreshold].s).value;
    var keywords := cfg[IgnoreTerms].items + cfg[ExtraIgnoreTerms].items;
    assert IgnoreKeywords(cfg) == Some(keywords);
    var hit := AnyKeywordIn(keywords, path.name);
    assert ShouldSkipFile(path, true, size, cfg)
           == Ok((size < threshold && !Truthy(cfg[Force])) || hit);
  }

  /** Skips that do not depend on the configuration: a missing file, a
      foreign extension, and the encoder's own `.av1.mkv` outputs. */
  lemma AlwaysSkipped(path: FilePath, isFile: bool, size: int, cfg: Config)
    requires Complete(cfg)
    requires !isFile || Lower(Suffix(path.name)) !in VideoExtensions
             || EndsWith(Lower(path.name), ".av1.mkv")
    ensures ShouldSkipFile(path, isFile, size, cfg) == Ok(true)
  {
  }
}
