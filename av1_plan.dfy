/** `build_encode_plan` (av1conv.py): the checks that refuse a source, the
    encoder settings chosen for it, and the ffmpeg argument list. */
module Av1Plan {
  import opened Common
  import opened Av1Config
  import opened Av1Media

  /** The parts of `FFmpegToolchain` the plan reads. */
  datatype Toolchain = Toolchain(ffmpeg: string, supportsLibopus: bool, supportsAac: bool)

  /** `EncodePlan`. */
  datatype EncodePlan = EncodePlan(
    source: FilePath,
    command: seq<string>,
    tempDir: string,
    tempFile: FilePath,
    finalDestination: FilePath,
    sourceSize: int)

  /** The integer a `bool` or `int` attribute compares as; anything else
      makes an ordering comparison with an `int` a TypeError. */
  function IntLike(v: Value): (r: Option<int>)
    ensures v.VInt? ==> r == Some(v.i)
    ensures !v.VInt? && !v.VBool? ==> r == None
  {
    match v
    case VInt(i) => Some(i)
    case VBool(b) => Some(if b then 1 else 0)
    case _ => None
  }

  // ---------------------------------------------------------------------
  // Settings chosen for the source
  // ---------------------------------------------------------------------

  /** The CRF: per content type with grain detection on, else the general one. */
  function ChosenCrf(info: MediaInfo, cfg: Config): Value
    requires Complete(cfg)
  {
    if Truthy(cfg[DetectGrain]) then ContentTypeCrf(cfg, DetectContentType(info)) else cfg[Crf]
  }

  /** The preset, chosen the same way. */
  function ChosenPreset(info: MediaInfo, cfg: Config): Value
    requires Complete(cfg)
  {
    if Truthy(cfg[DetectGrain]) then ContentTypePreset(cfg, DetectContentType(info)) else cfg[Preset]
  }

  /** The film-grain setting: the configured one, raised to the estimate by
      `max` when grain detection is on. `max` keeps its first argument
      unless the second is greater, and comparing a value that is neither
      `bool` nor `int` with the estimate is a TypeError. */
  function FilmGrain(info: MediaInfo, cfg: Config): (r: Result<Value, string>)
    requires Complete(cfg)
    ensures !Truthy(cfg[DetectGrain]) ==> r == Ok(cfg[SvtFilmGrain])
    ensures Truthy(cfg[DetectGrain]) ==> (r.Ok? <==> IntLike(cfg[SvtFilmGrain]).Some?)
    ensures Truthy(cfg[DetectGrain]) && r.Ok? ==>
              var configured := IntLike(cfg[SvtFilmGrain]).value;
              var chosen := IntLike(r.value);
              chosen.Some? && chosen.value >= configured
              && chosen.value >= EstimateGrainLevel(info)
              && (chosen.value == configured || chosen.value == EstimateGrainLevel(info))
  {
    var configured := cfg[SvtFilmGrain];
    if !Truthy(cfg[DetectGrain]) then Ok(configured)
    else match IntLike(configured)
      case None => Err("TypeError: '>' not supported for svt_film_grain")
      case Some(g) =>
        var estimate := EstimateGrainLevel(info);
        if estimate > g then Ok(VInt(estimate)) else Ok(configured)
  }

  /** `yuv420p10le` for HDR or for more than 8 bits per sample (a missing
      or zero depth counts as 8), `yuv420p` otherwise. */
  function PixelFormat(info: MediaInfo): (r: string)
    ensures r in {"yuv420p10le", "yuv420p"}
  {
    var bits := if info.video.bitsPerRawSample.Some? && info.video.bitsPerRawSample.value != 0
      then info.video.bitsPerRawSample.value else 8;
    if IsHdr(info.video) || bits > 8 then "yuv420p10le" else "yuv420p"
  }

  /** The audio encoder: libopus when the build has it, else AAC. */
  function AudioCodec(tool: Toolchain): (r: Option<string>)
    ensures r.None? <==> !tool.supportsLibopus && !tool.supportsAac
    ensures tool.supportsLibopus ==> r == Some("libopus")
    ensures !tool.supportsLibopus && tool.supportsAac ==> r == Some("aac")
  {
    if tool.supportsLibopus then Some("libopus")
    else if tool.supportsAac then Some("aac")
    else None
  }

  // ---------------------------------------------------------------------
  // The argument list, piece by piece
  // ---------------------------------------------------------------------

  /** The program, run under `nice -n 10` in lazy mode. */
  function LeadArgs(cfg: Config, tool: Toolchain): (r: seq<string>)
    requires Complete(cfg)
    ensures |r| == if Truthy(cfg[Lazy]) then 4 else 1
  {
    if Truthy(cfg[Lazy]) then ["nice", "-n", "10", tool.ffmpeg] else [tool.ffmpeg]
  }

  /** Input, stream mapping, encoder, preset, CRF, GOP, pixel format and
      threads. */
  function CoreArgs(info: MediaInfo, audio: StreamInfo, cfg: Config): (r: seq<string>)
    requires Complete(cfg)
    ensures |r| == 20
  {
    ["-hide_banner", "-y", "-i", PathText(info.path),
     "-map", "0:" + IntToString(info.video.index),
     "-map", "0:" + IntToString(audio.index),
     "-c:v", "libsvtav1",
     "-preset", PyStr(ChosenPreset(info, cfg)),
     "-crf", PyStr(ChosenCrf(info, cfg)),
     "-g", PyStr(cfg[Gop]),
     "-pix_fmt", PixelFormat(info),
     "-threads", PyStr(cfg[FfmpegThreads])]
  }

  /** The six mastering-display keys, in the order they are joined. */
  const MasterKeys: seq<string> := [
    "display_primaries_x", "display_primaries_y", "white_point_x",
    "white_point_y", "min_luminance", "max_luminance"]

  /** The values of the keys of `keys` that `master` has, in key order. */
  function MasterValues(master: map<string, string>, keys: seq<string>): (r: seq<string>)
    ensures |r| <= |keys|
  {
    if keys == [] then []
    else
      var k := keys[|keys| - 1];
      MasterValues(master, keys[..|keys| - 1]) + (if k in master then [master[k]] else [])
  }

  /** The HDR metadata flags one side-data entry contributes. */
  function SideDataArgs(d: SideData): (r: seq<string>)
  {
    var kind := Lower(d.kind);
    var values := MasterValues(d.metadata, MasterKeys);
    (if kind == "mastering display metadata" && values != []
     then ["-master_display", Join(values, ":")] else [])
    + (if kind == "content light level" && "max_content" in d.metadata && "max_average" in d.metadata
       then ["-content_light", d.metadata["max_content"] + ":" + d.metadata["max_average"]] else [])
  }

  /** The HDR metadata flags of a side-data list, entry by entry. */
  function HdrMetadataArgs(list: seq<SideData>): (r: seq<string>)
  {
    if list == [] then []
    else HdrMetadataArgs(list[..|list| - 1]) + SideDataArgs(list[|list| - 1])
  }

  lemma HdrMetadataArgsSnoc(list: seq<SideData>, i: nat)
    requires i < |list|
    ensures HdrMetadataArgs(list[..i + 1]) == HdrMetadataArgs(list[..i]) + SideDataArgs(list[i])
  {
    assert list[..i + 1][..i] == list[..i];
  }

  /** A colour tag the source carries (a non-empty string). */
  predicate Present(o: Option<string>) {
    o.Some? && o.value != ""
  }

  /** Colour tags: for HDR all three, with BT.2020/PQ defaults, then the
      mastering and light-level metadata; otherwise only those the source
      has. */
  function ColourArgs(v: StreamInfo): (r: seq<string>)
  {
    if IsHdr(v) then
      ["-color_primaries", OrElse(v.colorPrimaries, "bt2020"),
       "-colorspace", OrElse(v.colorSpace, "bt2020nc"),
       "-color_trc", OrElse(v.colorTransfer, "smpte2084")]
      + HdrMetadataArgs(v.sideData)
    else
      (if Present(v.colorPrimaries) then ["-color_primaries", v.colorPrimaries.value] else [])
      + (if Present(v.colorTransfer) then ["-color_trc", v.colorTransfer.value] else [])
      + (if Present(v.colorSpace) then ["-colorspace", v.colorSpace.value] else [])
  }

  /** The scale filter, for a source taller than the target when resizing
      is on. Comparing the height with a target that is neither `bool`
      nor `int` is a TypeError. */
  function ResizeArgs(info: MediaInfo, cfg: Config): (r: Result<seq<string>, string>)
    requires Complete(cfg)
  {
    var h := info.video.height;
    if !Truthy(cfg[Resize]) || h.None? || h.value == 0 then Ok([])
    else match IntLike(cfg[ResizeTargetHeight])
      case None => Err("TypeError: '>' not supported for resize_target_height")
      case Some(target) =>
        if h.value > target then Ok(["-vf", "scale=-2:" + PyStr(cfg[ResizeTargetHeight])])
        else Ok([])
  }

  /** The film-grain flag, present only for a truthy strength. */
  function GrainArgs(grain: Value): (r: seq<string>)
    ensures r == [] <==> !Truthy(grain)
  {
    if Truthy(grain) then ["-svtav1-film-grain", PyStr(grain)] else []
  }

  /** The SVT-AV1 tuning flags, each with its configured value. */
  function SvtArgs(cfg: Config): (r: seq<string>)
    requires Complete(cfg)
    ensures |r| == 20
  {
    ["-svtav1-tune", PyStr(cfg[SvtTune]),
     "-svtav1-enable-overlays", PyStr(cfg[SvtEnableOverlays]),
     "-svtav1-fast-decode", PyStr(cfg[SvtFastDecode]),
     "-svtav1-lookahead", PyStr(cfg[SvtLookahead]),
     "-svtav1-enable-qm", PyStr(cfg[SvtEnableQm]),
     "-svtav1-qm-min", PyStr(cfg[SvtQmMin]),
     "-svtav1-qm-max", PyStr(cfg[SvtQmMax]),
     "-svtav1-tile-columns", PyStr(cfg[SvtTileColumns]),
     "-svtav1-aq-mode", PyStr(cfg[SvtAqMode]),
     "-svtav1-sharpness", PyStr(cfg[SvtSharpness])]
  }

  /** Stereo downmix, a bit-rate override, the encoder and the default flag. */
  function AudioArgs(cfg: Config, codec: string): (r: seq<string>)
    requires Complete(cfg)
  {
    (if Truthy(cfg[StereoDownmix]) then ["-ac", "2"] else [])
    + (if Truthy(cfg[AudioBitrateOverride]) then ["-b:a", PyStr(cfg[AudioBitrateOverride])] else [])
    + ["-c:a", codec, "-disposition:a:0", "default"]
  }

  /** The flags for the `k`-th chosen subtitle stream: its mapping, a text
      conversion for MP4 timed text and a copy otherwise, and the forced
      flag when the stream has it. */
  function SubtitleStreamArgs(s: StreamInfo, k: nat): (r: seq<string>)
    ensures |r| == 4 || |r| == 6
  {
    ["-map", "0:" + IntToString(s.index),
     "-c:s:" + NatToString(k),
     if s.codec == Some("mov_text") || s.codec == Some("tx3g") then "srt" else "copy"]
    + (if DispositionSet(s, "forced") then ["-disposition:s:" + NatToString(k), "forced"] else [])
  }

  function SubtitleArgs(subs: seq<StreamInfo>): (r: seq<string>)
    ensures 4 * |subs| <= |r| <= 6 * |subs|
  {
    if subs == [] then []
    else SubtitleArgs(subs[..|subs| - 1]) + SubtitleStreamArgs(subs[|subs| - 1], |subs| - 1)
  }

  lemma SubtitleArgsSnoc(subs: seq<StreamInfo>, k: nat)
    requires k < |subs|
    ensures SubtitleArgs(subs[..k + 1]) == SubtitleArgs(subs[..k]) + SubtitleStreamArgs(subs[k], k)
  {
    assert subs[..k + 1][..k] == subs[..k];
  }

  /** The metadata tags and the output file. */
  function TrailerArgs(cfg: Config, tempFile: FilePath): (r: seq<string>)
    requires Complete(cfg)
  {
    ["-metadata", "encoding_tool=av1conv.py (" + PyStr(cfg[ReencodedBy]) + ")",
     "-metadata", "encoder=libsvtav1", PathText(tempFile)]
  }

  /** Where the encode is written first, inside the fresh temporary directory. */
  function TempFile(info: MediaInfo, tempDir: string): FilePath {
    FilePath(tempDir, Stem(info.path.name) + ".tmp.mkv")
  }

  /** Where the encode ends up: next to the source, as `<stem>.av1.mkv`. */
  function FinalDestination(info: MediaInfo): FilePath {
    FilePath(info.path.dir, Stem(info.path.name) + ".av1.mkv")
  }

  // ---------------------------------------------------------------------
  // The plan
  // ---------------------------------------------------------------------

  /** The argument list around its two looped sections, the colour tags
      and the subtitle streams; the resize comparison and a build without
      an audio encoder can still fail. */
  function CommandAround(info: MediaInfo, cfg: Config, tool: Toolchain, audio: StreamInfo,
                         grain: Value, tempFile: FilePath, colour: seq<string>, subtitles: seq<string>)
    : (r: Result<seq<string>, string>)
    requires Complete(cfg)
  {
    match ResizeArgs(info, cfg)
    case Err(e) => Err(e)
    case Ok(resize) =>
      match AudioCodec(tool)
      case None => Err("FFmpeg build lacks both libopus and AAC encoders")
      case Some(codec) =>
        Ok(LeadArgs(cfg, tool) + CoreArgs(info, audio, cfg) + colour + resize
           + GrainArgs(grain) + SvtArgs(cfg) + AudioArgs(cfg, codec) + subtitles
           + TrailerArgs(cfg, tempFile))
  }

  /** The argument list for the chosen audio and subtitle streams and
      grain setting. */
  function CommandFor(info: MediaInfo, cfg: Config, tool: Toolchain, audio: StreamInfo,
                      subs: seq<StreamInfo>, grain: Value, tempFile: FilePath): (r: Result<seq<string>, string>)
    requires Complete(cfg)
  {
    CommandAround(info, cfg, tool, audio, grain, tempFile, ColourArgs(info.video), SubtitleArgs(subs))
  }

  /** What `build_encode_plan` returns for a source, or the message of the
      error it raises, given the temporary directory `mkdtemp` creates. */
  function PlanFor(info: MediaInfo, cfg: Config, tool: Toolchain, tempDir: string): (r: Result<EncodePlan, string>)
    requires Complete(cfg)
  {
    match ChooseAudioStream(info, cfg)
    case Err(e) => Err(e)
    case Ok(audio) =>
      match SubtitleChoice(info, cfg)
      case Err(e) => Err(e)
      case Ok(subs) =>
        if info.video.codec == Some("av1") && !Truthy(cfg[ForceReencode]) then
          Err("Source already encoded with AV1. Use --force-reencode to override.")
        else if Truthy(cfg[SkipDolbyVision]) && HasDolbyVision(info.video) then
          Err("Dolby Vision stream skipped as per configuration")
        else match FilmGrain(info, cfg)
          case Err(e) => Err(e)
          case Ok(grain) =>
            var tempFile := TempFile(info, tempDir);
            match CommandFor(info, cfg, tool, audio, subs, grain, tempFile)
            case Err(e) => Err(e)
            case Ok(command) =>
              Ok(EncodePlan(info.path, command, tempDir, tempFile,
                            FinalDestination(info), info.sizeBytes))
  }

  /** The flags of one side-data entry: the loop over the six
      mastering-display keys, and the light levels. */
  method SideDataSection(d: SideData) returns (out: seq<string>)
    ensures out == SideDataArgs(d)
  {
    out := [];
    var kind := Lower(d.kind);
    if kind == "mastering display metadata" {
      var master := d.metadata;
      var metadata: seq<string> := [];
      var i := 0;
      while i < |MasterKeys|
        invariant 0 <= i <= |MasterKeys|
        invariant metadata == MasterValues(master, MasterKeys[..i])
      {
        var key := MasterKeys[i];
        assert MasterKeys[..i + 1][..i] == MasterKeys[..i];
        if key in master {
          metadata := metadata + [master[key]];
        }
        i := i + 1;
      }
      assert MasterKeys[..i] == MasterKeys;
      if metadata != [] {
        out := out + ["-master_display", Join(metadata, ":")];
      }
    }
    if kind == "content light level" {
      var values := d.metadata;
      if "max_content" in values && "max_average" in values {
        out := out + ["-content_light", values["max_content"] + ":" + values["max_average"]];
      }
    }
  }

  /** The HDR colour section: the three tags with their defaults, then
      the side-data loop. */
  method HdrSection(v: StreamInfo) returns (out: seq<string>)
    requires IsHdr(v)
    ensures out == ColourArgs(v)
  {
    var tags := ["-color_primaries", OrElse(v.colorPrimaries, "bt2020"),
                 "-colorspace", OrElse(v.colorSpace, "bt2020nc"),
                 "-color_trc", OrElse(v.colorTransfer, "smpte2084")];
    var metadata: seq<string> := [];
    var i := 0;
    while i < |v.sideData|
      invariant 0 <= i <= |v.sideData|
      invariant metadata == HdrMetadataArgs(v.sideData[..i])
    {
      var flags := SideDataSection(v.sideData[i]);
      metadata := metadata + flags;
      HdrMetadataArgsSnoc(v.sideData, i);
      i := i + 1;
    }
    assert v.sideData[..i] == v.sideData;
    out := tags + metadata;
  }

  /** The SDR colour section: only the tags the source carries. */
  method SdrSection(v: StreamInfo) returns (out: seq<string>)
    requires !IsHdr(v)
    ensures out == ColourArgs(v)
  {
    out := [];
    if Present(v.colorPrimaries) {
      out := out + ["-color_primaries", v.colorPrimaries.value];
    }
    if Present(v.colorTransfer) {
      out := out + ["-color_trc", v.colorTransfer.value];
    }
    if Present(v.colorSpace) {
      out := out + ["-colorspace", v.colorSpace.value];
    }
  }

  /** The colour section of the argument list. */
  method ColourSection(v: StreamInfo) returns (out: seq<string>)
    ensures out == ColourArgs(v)
  {
    if IsHdr(v) {
      out := HdrSection(v);
    } else {
      out := SdrSection(v);
    }
  }

  /** The `enumerate` loop over the chosen subtitle streams. */
  method SubtitleSection(subs: seq<StreamInfo>) returns (out: seq<string>)
    ensures out == SubtitleArgs(subs)
  {
    out := [];
    var k := 0;
    while k < |subs|
      invariant 0 <= k <= |subs|
      invariant out == SubtitleArgs(subs[..k])
    {
      out := out + SubtitleStreamArgs(subs[k], k);
      SubtitleArgsSnoc(subs, k);
      k := k + 1;
    }
    assert subs[..k] == subs;
  }

  /** `build_encode_plan`: the refusals, then the argument list. */
  method BuildEncodePlan(info: MediaInfo, cfg: Config, tool: Toolchain, tempDir: string)
    returns (r: Result<EncodePlan, string>)
    requires Complete(cfg)
    ensures r == PlanFor(info, cfg, tool, tempDir)
  {
    var audio := ChooseAudioStream(info, cfg);
    if audio.Err? {
      return Err(audio.error);
    }
    var subs := ChooseSubtitleStreams(info, cfg);
    if subs.Err? {
      return Err(subs.error);
    }
    if info.video.codec == Some("av1") && !Truthy(cfg[ForceReencode]) {
      return Err("Source already encoded with AV1. Use --force-reencode to override.");
    }
    if Truthy(cfg[SkipDolbyVision]) && HasDolbyVision(info.video) {
      return Err("Dolby Vision stream skipped as per configuration");
    }
    var grain := FilmGrain(info, cfg);
    if grain.Err? {
      return Err(grain.error);
    }
    var tempFile := TempFile(info, tempDir);
    var colour := ColourSection(info.video);
    var subtitles := SubtitleSection(subs.value);
    var command := CommandAround(info, cfg, tool, audio.value, grain.value, tempFile, colour, subtitles);
    if command.Err? {
      return Err(command.error);
    }
    return Ok(EncodePlan(info.path, command.value, tempDir, tempFile, FinalDestination(info), info.sizeBytes));
  }

  // ---------------------------------------------------------------------
  // Decision rules of the plan
  // ---------------------------------------------------------------------

  /** A plan exists only for a source that is not AV1 (unless re-encoding
      is forced) and not Dolby Vision while those are skipped; once the
      streams are chosen, each of those conditions is the error raised. */
  lemma PlanRefusals(info: MediaInfo, cfg: Config, tool: Toolchain, tempDir: string)
    requires Complete(cfg)
    ensures PlanFor(info, cfg, tool, tempDir).Ok? ==>
              (info.video.codec != Some("av1") || Truthy(cfg[ForceReencode]))
              && !(Truthy(cfg[SkipDolbyVision]) && HasDolbyVision(info.video))
    ensures ChooseAudioStream(info, cfg).Ok? && SubtitleChoice(info, cfg).Ok? ==>
              var r := PlanFor(info, cfg, tool, tempDir);
              && (info.video.codec == Some("av1") && !Truthy(cfg[ForceReencode]) ==>
                    r == Err("Source already encoded with AV1. Use --force-reencode to override."))
              && (info.video.codec != Some("av1") && Truthy(cfg[SkipDolbyVision]) && HasDolbyVision(info.video) ==>
                    r == Err("Dolby Vision stream skipped as per configuration"))
  {
  }

  /** The front of a list of nine pieces is its first piece. */
  lemma FrontPiece(p: seq<string>, q1: seq<string>, q2: seq<string>, q3: seq<string>, q4: seq<string>,
                   q5: seq<string>, q6: seq<string>, q7: seq<string>, q8: seq<string>)
    ensures (p + q1 + q2 + q3 + q4 + q5 + q6 + q7 + q8)[..|p|] == p
  {
    var x := p + q1 + q2 + q3 + q4 + q5 + q6 + q7;
    assert forall i :: 0 <= i < |p| ==> (x + q8)[i] == p[i];
  }


  /** The command around the sections starts with the program and its
      core arguments and ends with the temporary file. */
  lemma CommandEnds(info: MediaInfo, cfg: Config, tool: Toolchain, audio: StreamInfo,
                    grain: Value, tempFile: FilePath, colour: seq<string>, subtitles: seq<string>)
    requires Complete(cfg)
    requires CommandAround(info, cfg, tool, audio, grain, tempFile, colour, subtitles).Ok?
    ensures var c := CommandAround(info, cfg, tool, audio, grain, tempFile, colour, subtitles).value;
      var pre := LeadArgs(cfg, tool) + CoreArgs(info, audio, cfg);
      && |c| > |pre| && c[..|pre|] == pre && c[|c| - 1] == PathText(tempFile)
  {
    var resize := ResizeArgs(info, cfg).value;
    var codec := AudioCodec(tool).value;
    var trailer := TrailerArgs(cfg, tempFile);
    var pre := LeadArgs(cfg, tool) + CoreArgs(info, audio, cfg);
    FrontPiece(pre, colour, resize, GrainArgs(grain), SvtArgs(cfg), AudioArgs(cfg, codec), subtitles, trailer, []);
  }

  /** Where the core arguments put the input, preset, CRF and pixel format. */
  lemma CoreArgsSettings(info: MediaInfo, audio: StreamInfo, cfg: Config)
    requires Complete(cfg)
    ensures var r := CoreArgs(info, audio, cfg);
      && r[3] == PathText(info.path)
      && r[11] == PyStr(ChosenPreset(info, cfg))
      && r[13] == PyStr(ChosenCrf(info, cfg))
      && r[17] == PixelFormat(info)
  {
  }

  /** A plan is the command around the chosen streams' sections, with
      the temporary file inside the temporary directory and the final
      destination next to the source. */
  lemma PlanShape(info: MediaInfo, cfg: Config, tool: Toolchain, tempDir: string)
    requires Complete(cfg)
    requires PlanFor(info, cfg, tool, tempDir).Ok?
    ensures ChooseAudioStream(info, cfg).Ok? && SubtitleChoice(info, cfg).Ok? && FilmGrain(info, cfg).Ok?
    ensures var command := CommandAround(info, cfg, tool, ChooseAudioStream(info, cfg).value,
                                         FilmGrain(info, cfg).value, TempFile(info, tempDir),
                                         ColourArgs(info.video), SubtitleArgs(SubtitleChoice(info, cfg).value));
      && command.Ok?
      && PlanFor(info, cfg, tool, tempDir).value
         == EncodePlan(info.path, command.value, tempDir, TempFile(info, tempDir),
                       FinalDestination(info), info.sizeBytes)
  {
  }

  /** So a command starts with the program and then the input. */
  lemma CommandInput(c: seq<string>, info: MediaInfo, cfg: Config, tool: Toolchain, audio: StreamInfo)
    requires Complete(cfg)
    requires var pre := LeadArgs(cfg, tool) + CoreArgs(info, audio, cfg);
      |c| > |pre| && c[..|pre|] == pre
    ensures var k := |LeadArgs(cfg, tool)|;
      |c| > k + 20 && c[k - 1] == tool.ffmpeg && c[k + 3] == PathText(info.path)
  {
    CoreArgsSettings(info, audio, cfg);
    var lead, core := LeadArgs(cfg, tool), CoreArgs(info, audio, cfg);
    var k := |lead|;
    var pre := lead + core;
    assert c[k - 1] == c[..|pre|][k - 1] == pre[k - 1] == lead[k - 1];
    assert c[k + 3] == c[..|pre|][k + 3] == pre[k + 3] == core[3];
  }

  /** ... and then preset, CRF and pixel format at fixed places after it. */
  lemma CommandSettings(c: seq<string>, info: MediaInfo, cfg: Config, tool: Toolchain, audio: StreamInfo)
    requires Complete(cfg)
    requires var pre := LeadArgs(cfg, tool) + CoreArgs(info, audio, cfg);
      |c| > |pre| && c[..|pre|] == pre
    ensures var k := |LeadArgs(cfg, tool)|;
      && |c| > k + 20
      && c[k + 11] == PyStr(ChosenPreset(info, cfg))
      && c[k + 13] == PyStr(ChosenCrf(info, cfg))
      && c[k + 17] == PixelFormat(info)
  {
    CoreArgsSettings(info, audio, cfg);
    var lead, core := LeadArgs(cfg, tool), CoreArgs(info, audio, cfg);
    var k := |lead|;
    var pre := lead + core;
    forall j | 0 <= j < 20
      ensures c[k + j] == core[j]
    {
      assert c[k + j] == c[..|pre|][k + j] == pre[k + j];
    }
  }

  /** The plan's command has that layout and ends with the temporary
      file; the plan writes next to the source and records the source's
      own size. */
  lemma PlanCommandLayout(info: MediaInfo, cfg: Config, tool: Toolchain, tempDir: string)
    requires Complete(cfg)
    requires PlanFor(info, cfg, tool, tempDir).Ok?
    ensures var plan := PlanFor(info, cfg, tool, tempDir).value;
      var c := plan.command;
      var k := |LeadArgs(cfg, tool)|;
      && |c| > k + 20
      && c[k - 1] == tool.ffmpeg
      && c[k + 3] == PathText(info.path)
      && c[k + 11] == PyStr(ChosenPreset(info, cfg))
      && c[k + 13] == PyStr(ChosenCrf(info, cfg))
      && c[k + 17] == PixelFormat(info)
      && c[|c| - 1] == PathText(plan.tempFile)
      && plan.tempFile == FilePath(tempDir, Stem(info.path.name) + ".tmp.mkv")
      && plan.finalDestination == FilePath(info.path.dir, Stem(info.path.name) + ".av1.mkv")
      && plan.source == info.path && plan.sourceSize == info.sizeBytes
  {
    PlanShape(info, cfg, tool, tempDir);
    var audio := ChooseAudioStream(info, cfg).value;
    var subs := SubtitleChoice(info, cfg).value;
    var grain := FilmGrain(info, cfg).value;
    var tempFile := TempFile(info, tempDir);
    CommandEnds(info, cfg, tool, audio, grain, tempFile, ColourArgs(info.video), SubtitleArgs(subs));
    var c := CommandAround(info, cfg, tool, audio, grain, tempFile, ColourArgs(info.video), SubtitleArgs(subs)).value;
    CommandInput(c, info, cfg, tool, audio);
    CommandSettings(c, info, cfg, tool, audio);
  }

  /** The scale filter is added exactly for a source taller than a
      numeric target with resizing on; a non-numeric target is an error
      there and only there. */
  lemma ResizeRule(info: MediaInfo, cfg: Config)
    requires Complete(cfg)
    ensures var r := ResizeArgs(info, cfg);
      var h := info.video.height;
      var on := Truthy(cfg[Resize]) && h.Some? && h.value != 0;
      var target := IntLike(cfg[ResizeTargetHeight]);
      && (r.Err? <==> on && target.None?)
      && (r.Ok? && r.value != [] <==> on && target.Some? && h.value > target.value)
      && (r.Ok? && r.value != [] ==> r.value == ["-vf", "scale=-2:" + PyStr(cfg[ResizeTargetHeight])])
  {
  }

  /** The pixel format is 10-bit exactly for HDR or for a depth above 8
      bits, a missing or zero depth counting as 8. */
  lemma PixelFormatRule(info: MediaInfo)
    ensures PixelFormat(info) == "yuv420p10le" <==>
              IsHdr(info.video)
              || (info.video.bitsPerRawSample.Some? && info.video.bitsPerRawSample.value > 8)
  {
  }

  /** Without grain detection the general CRF and preset apply; with it,
      those of the detected content type, which always has its own. */
  lemma CrfPresetRule(info: MediaInfo, cfg: Config)
    requires Complete(cfg)
    ensures !Truthy(cfg[DetectGrain]) ==>
              ChosenCrf(info, cfg) == cfg[Crf] && ChosenPreset(info, cfg) == cfg[Preset]
    ensures Truthy(cfg[DetectGrain]) && DetectContentType(info) == "tv" ==>
              ChosenCrf(info, cfg) == cfg[CrfTv] && ChosenPreset(info, cfg) == cfg[TvPreset]
    ensures Truthy(cfg[DetectGrain]) && DetectContentType(info) == "animation" ==>
              ChosenCrf(info, cfg) == cfg[CrfAnimation] && ChosenPreset(info, cfg) == cfg[AnimationPreset]
    ensures Truthy(cfg[DetectGrain]) && DetectContentType(info) == "film" ==>
              ChosenCrf(info, cfg) == cfg[CrfFilm] && ChosenPreset(info, cfg) == cfg[FilmPreset]
  {
  }

  /** The grain flag is emitted exactly for a nonzero strength, and
      without grain detection that is the configured strength. */
  lemma GrainFlagRule(info: MediaInfo, cfg: Config)
    requires Complete(cfg)
    requires FilmGrain(info, cfg).Ok?
    ensures var grain := FilmGrain(info, cfg).value;
      (GrainArgs(grain) != [] <==> Truthy(grain))
      && (!Truthy(cfg[DetectGrain]) ==> grain == cfg[SvtFilmGrain])
  {
  }

  // ---------------------------------------------------------------------
  // Colour tags as flag/value pairs
  // ---------------------------------------------------------------------

  /** An argument list read as consecutive flag/value pairs. */
  function Pairs(args: seq<string>): (r: seq<(string, string)>)
    requires |args| % 2 == 0
    ensures |r| == |args| / 2
  {
    if args == [] then [] else [(args[0], args[1])] + Pairs(args[2..])
  }

  lemma {:induction false} PairsAppend(a: seq<string>, b: seq<string>)
    requires |a| % 2 == 0 && |b| % 2 == 0
    ensures Pairs(a + b) == Pairs(a) + Pairs(b)
    decreases |a|
  {
    if a != [] {
      assert (a + b)[2..] == a[2..] + b;
      PairsAppend(a[2..], b);
    } else {
      assert a + b == b;
    }
  }

  /** An SDR source gets exactly the colour tags it carries, each with its
      own value, and no others. */
  lemma SdrColourTags(v: StreamInfo)
    requires !IsHdr(v)
    ensures |ColourArgs(v)| % 2 == 0
    ensures forall p :: p in Pairs(ColourArgs(v)) <==>
              (Present(v.colorPrimaries) && p == ("-color_primaries", v.colorPrimaries.value))
              || (Present(v.colorTransfer) && p == ("-color_trc", v.colorTransfer.value))
              || (Present(v.colorSpace) && p == ("-colorspace", v.colorSpace.value))
  {
    var a := if Present(v.colorPrimaries) then ["-color_primaries", v.colorPrimaries.value] else [];
    var b := if Present(v.colorTransfer) then ["-color_trc", v.colorTransfer.value] else [];
    var c := if Present(v.colorSpace) then ["-colorspace", v.colorSpace.value] else [];
    assert ColourArgs(v) == a + b + c;
    PairsAppend(a, b);
    PairsAppend(a + b, c);
  }

  /** An HDR source always gets all three colour tags, the missing ones
      filled in as BT.2020 primaries, BT.2020 non-constant-luminance
      matrix and PQ transfer. */
  lemma HdrColourTags(v: StreamInfo)
    requires IsHdr(v)
    ensures |ColourArgs(v)| >= 6
    ensures var t := Pairs(ColourArgs(v)[..6]);
      && ("-color_primaries", OrElse(v.colorPrimaries, "bt2020")) in t
      && ("-colorspace", OrElse(v.colorSpace, "bt2020nc")) in t
      && ("-color_trc", OrElse(v.colorTransfer, "smpte2084")) in t
  {
    var t := ColourArgs(v)[..6];
    assert t == ["-color_primaries", OrElse(v.colorPrimaries, "bt2020"),
                 "-colorspace", OrElse(v.colorSpace, "bt2020nc"),
                 "-color_trc", OrElse(v.colorTransfer, "smpte2084")];
    assert t[2..][2..][2..] == [];
    assert Pairs(t[2..][2..]) == [(t[4], t[5])];
    assert Pairs(t[2..]) == [(t[2], t[3]), (t[4], t[5])];
    assert Pairs(t) == [(t[0], t[1]), (t[2], t[3]), (t[4], t[5])];
  }

  // ---------------------------------------------------------------------
  // The output is not picked up again
  // ---------------------------------------------------------------------

  /** The encode's final name ends in `.av1.mkv`, so a later run's skip
      filter selects it whatever the configuration; `process_file` then
      passes over it unless `force` is set (see
      `Av1Batch.OutputFilteredLater`). */
  lemma OutputIsSkippedLater(info: MediaInfo, isFile: bool, size: int, cfg: Config)
    requires Complete(cfg)
    ensures ShouldSkipFile(FinalDestination(info), isFile, size, cfg) == Ok(true)
  {
    var name := FinalDestination(info).name;
    var stem := Stem(info.path.name);
    LowerAppend(stem, ".av1.mkv");
    assert Lower(".av1.mkv") == ".av1.mkv";
    assert EndsWith(Lower(name), ".av1.mkv");
    AlwaysSkipped(FinalDestination(info), isFile, size, cfg);
  }
}
