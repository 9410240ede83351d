/** findOptimumBitrate.py: reading the ffprobe report of a video into a
    probe record and recommending a bitrate from a bits-per-pixel
    target, clamped to optional bounds.  Rates, frame rates and durations
    are exact reals; IEEE rounding is not modelled. */
module Bitrate {
  import opened Common
  import opened Json

  /** `VideoStream` (findOptimumBitrate.py:64-72); `codec` is whatever
      `codec_name` holds. */
  datatype VideoStream = VideoStream(width: int, height: int, codec: Json, fps: Option<real>, bitrate: Option<int>)

  /** `VideoProbe` (findOptimumBitrate.py:75-83). */
  datatype VideoProbe = VideoProbe(path: string, duration: Option<real>, sizeBytes: Option<int>,
                                   formatBitrate: Option<int>, video: Option<VideoStream>)

  /** The exceptions that leave these functions, by class name. */
  const ATTRIBUTE_ERROR := "AttributeError"

  /** The messages of the ValueErrors the rate formulas raise; `str()`
      of the exception is the message. */
  const DIMENSIONS_ERROR := "Video dimensions must be positive"
  const FPS_ERROR := "Frame rate must be positive"
  const BPP_ERROR := "bits_per_pixel must be positive"
  const BITRATE_ERROR := "Bitrate must be positive"

  /** The placeholders ffprobe writes for a missing value. */
  predicate Placeholder(j: Json) {
    j == JNull || j == JStr("N/A") || j == JStr("")
  }

  // ---------------------------------------------------------------------
  // _safe_int and parse_fraction
  // ---------------------------------------------------------------------

  /** `_safe_int` (findOptimumBitrate.py:118-130). */
  function SafeInt(j: Json): (r: Option<int>)
    ensures Placeholder(j) ==> r == None
    ensures !Placeholder(j) ==> r == PyInt(j)
  {
    if Placeholder(j) then None else PyInt(j)
  }

  /** Whatever `str(i)` prints, `_safe_int` reads back. */
  lemma SafeIntRoundTrip(i: int)
    ensures SafeInt(JStr(IntToString(i))) == Some(i)
    ensures SafeInt(JInt(i)) == Some(i)
  {
    var s := IntToString(i);
    IntToStringDigits(i);
    assert s != "N/A" by {
      if i >= 0 {
        assert IsDigit(s[0]);
      } else if |s| == 3 {
        assert IsDigit(s[1]);
      }
    }
    ParseIntTextRoundTrip(i);
  }

  /** `str.isdigit()` on ASCII text. */
  predicate IsDigits(s: string) {
    s != [] && AllDigits(s)
  }

  /** `parse_fraction` (findOptimumBitrate.py:95-115).  A truthy value
      that is not text has no `isdigit` and raises AttributeError. */
  function ParseFraction(value: Json): (r: Result<Option<real>, string>)
    ensures !Truthy(value) ==> r == Ok(None)
    ensures Truthy(value) && !value.JStr? ==> r == Err(ATTRIBUTE_ERROR)
    ensures r.Ok? && r.value.Some? ==> value.JStr?
  {
    if !Truthy(value) then Ok(None)
    else if !value.JStr? then Err(ATTRIBUTE_ERROR)
    else
      var s := value.s;
      if IsDigits(s) then Ok(ParseFloatText(s))
      else if '/' !in s then Ok(ParseFloatText(s))
      else
        var (numerator, denominator) := SplitOnce(s, '/');
        match (ParseFloatText(numerator), ParseFloatText(denominator))
        case (Some(num), Some(den)) => if den == 0.0 then Ok(None) else Ok(Some(num / den))
        case _ => Ok(None)
  }

  /** Digits read through `float()` as their decimal value. */
  lemma DigitsFloat(s: string)
    requires IsDigits(s)
    ensures ParseFloatText(s) == Some(DigitsValue(s) as real)
    ensures '/' !in s
  {
    assert !IsSpace(s[0]) && !IsSpace(s[|s| - 1]) by {
      assert IsDigit(s[0]) && IsDigit(s[|s| - 1]);
    }
    StripUnpadded(s);
    AllDigitsIsDigitPart(s);
    DropUnderscoresDigits(s);
    DigitPartIsDecimal(s);
    assert forall k :: 0 <= k < |s| ==> s[k] != '/' by {
      forall k | 0 <= k < |s| ensures s[k] != '/' {
        assert IsDigit(s[k]);
      }
    }
  }

  /** Text with a slash is split at the first one, and each side is
      read by `float()`; the quotient is taken unless a side is refused or
      the denominator is zero. */
  lemma ParseFractionSplit(numerator: string, denominator: string)
    requires '/' !in numerator
    ensures ParseFraction(JStr(numerator + "/" + denominator))
            == match (ParseFloatText(numerator), ParseFloatText(denominator))
               case (Some(num), Some(den)) => if den == 0.0 then Ok(None) else Ok(Some(num / den))
               case _ => Ok(None)
  {
    var s := numerator + "/" + denominator;
    assert s == numerator + ['/'] + denominator;
    SplitOnceUnique(numerator, '/', denominator);
    assert s[|numerator|] == '/';
    assert !IsDigits(s) by {
      assert !IsDigit(s[|numerator|]);
    }
    assert Truthy(JStr(s));
  }

  /** A rational of two digit strings with a non-zero denominator is
      their quotient, as ffprobe's `"30000/1001"`. */
  lemma ParseFractionRatio(numerator: string, denominator: string)
    requires IsDigits(numerator) && IsDigits(denominator) && DigitsValue(denominator) > 0
    ensures ParseFraction(JStr(numerator + "/" + denominator))
            == Ok(Some(DigitsValue(numerator) as real / DigitsValue(denominator) as real))
  {
    DigitsFloat(numerator);
    DigitsFloat(denominator);
    ParseFractionSplit(numerator, denominator);
  }

  /** A zero denominator gives no rate. */
  lemma ParseFractionZero(numerator: string, denominator: string)
    requires IsDigits(numerator) && ParseFloatText(denominator) == Some(0.0)
    ensures ParseFraction(JStr(numerator + "/" + denominator)) == Ok(None)
  {
    DigitsFloat(numerator);
    ParseFractionSplit(numerator, denominator);
  }

  /** Text without a slash is read by `float()` alone. */
  lemma ParseFractionPlain(s: string)
    requires s != [] && '/' !in s
    ensures ParseFraction(JStr(s)) == Ok(ParseFloatText(s))
  {
  }

  // ---------------------------------------------------------------------
  // parse_video_stream
  // ---------------------------------------------------------------------

  /** A stream entry `parse_video_stream` accepts: typed video, with a
      width and a height that `_safe_int` reads. */
  predicate IsVideo(stream: Json) {
    && stream.JObject?
    && Get(stream.fields, "codec_type") == JStr("video")
    && SafeInt(Get(stream.fields, "width")).Some?
    && SafeInt(Get(stream.fields, "height")).Some?
  }

  /** One pass of the loop of `parse_video_stream`
      (findOptimumBitrate.py:137-151): `Ok(None)` to go on with the next
      entry; an entry that is not a mapping has no `get`. */
  function StreamEntry(stream: Json): (r: Result<Option<VideoStream>, string>)
    ensures r == Ok(None) <==> stream.JObject? && !IsVideo(stream)
    ensures r.Ok? && r.value.Some? ==>
      && IsVideo(stream)
      && r.value.value.width == SafeInt(Get(stream.fields, "width")).value
      && r.value.value.height == SafeInt(Get(stream.fields, "height")).value
      && ParseFraction(Get(stream.fields, "avg_frame_rate")) == Ok(r.value.value.fps)
      && r.value.value.bitrate == SafeInt(Get(stream.fields, "bit_rate"))
      && r.value.value.codec == Get(stream.fields, "codec_name")
    ensures IsVideo(stream) ==> (r.Err? <==> ParseFraction(Get(stream.fields, "avg_frame_rate")).Err?)
  {
    if !stream.JObject? then Err(ATTRIBUTE_ERROR)
    else
      var f := stream.fields;
      if Get(f, "codec_type") != JStr("video") then Ok(None)
      else
        var width := SafeInt(Get(f, "width"));
        var height := SafeInt(Get(f, "height"));
        if width.None? || height.None? then Ok(None)
        else match ParseFraction(Get(f, "avg_frame_rate"))
          case Err(e) => Err(e)
          case Ok(fps) =>
            Ok(Some(VideoStream(width.value, height.value, Get(f, "codec_name"), fps, SafeInt(Get(f, "bit_rate")))))
  }

  /** The stream `parse_video_stream` returns from `streams`. */
  function FirstVideo(streams: seq<Json>): Result<Option<VideoStream>, string> {
    if streams == [] then Ok(None)
    else match StreamEntry(streams[0])
      case Err(e) => Err(e)
      case Ok(Some(v)) => Ok(Some(v))
      case Ok(None) => FirstVideo(streams[1..])
  }

  /** The first video entry is the one returned, whatever follows it. */
  lemma {:induction false} FirstVideoFound(streams: seq<Json>, i: nat)
    requires i < |streams| && IsVideo(streams[i])
    requires forall j :: 0 <= j < i ==> streams[j].JObject? && !IsVideo(streams[j])
    ensures FirstVideo(streams) == StreamEntry(streams[i])
  {
    if i > 0 {
      FirstVideoFound(streams[1..], i - 1);
    }
  }

  /** With no video entry among mappings, there is no stream. */
  lemma {:induction false} FirstVideoNone(streams: seq<Json>)
    requires forall j :: 0 <= j < |streams| ==> streams[j].JObject? && !IsVideo(streams[j])
    ensures FirstVideo(streams) == Ok(None)
  {
    if streams != [] {
      FirstVideoNone(streams[1..]);
    }
  }

  /** A stream returned comes from a video entry before which every entry
      was a mapping that is not one. */
  lemma {:induction false} FirstVideoSource(streams: seq<Json>)
    requires FirstVideo(streams).Ok? && FirstVideo(streams).value.Some?
    ensures exists i :: 0 <= i < |streams| && IsVideo(streams[i]) && FirstVideo(streams) == StreamEntry(streams[i])
                        && forall j :: 0 <= j < i ==> streams[j].JObject? && !IsVideo(streams[j])
  {
    if StreamEntry(streams[0]) == Ok(None) {
      var rest := streams[1..];
      FirstVideoSource(rest);
      var i :| 0 <= i < |rest| && IsVideo(rest[i]) && FirstVideo(rest) == StreamEntry(rest[i])
               && forall j :: 0 <= j < i ==> rest[j].JObject? && !IsVideo(rest[j]);
      assert streams[i + 1] == rest[i];
      forall j | 0 <= j < i + 1
        ensures streams[j].JObject? && !IsVideo(streams[j])
      {
        if j > 0 {
          assert streams[j] == rest[j - 1];
        }
      }
      assert FirstVideo(streams) == FirstVideo(rest) == StreamEntry(streams[i + 1]);
    } else {
      assert FirstVideo(streams) == StreamEntry(streams[0]);
      assert IsVideo(streams[0]);
    }
  }

  /** `parse_video_stream` (findOptimumBitrate.py:133-152): the `for`
      loop with its early return. */
  method ParseVideoStream(streams: seq<Json>) returns (r: Result<Option<VideoStream>, string>)
    ensures r == FirstVideo(streams)
  {
    for i := 0 to |streams|
      invariant FirstVideo(streams) == FirstVideo(streams[i..])
    {
      assert streams[i..][1..] == streams[i + 1..];
      var entry := StreamEntry(streams[i]);
      if entry.Err? || entry.value.Some? {
        return entry;
      }
    }
    return Ok(None);
  }

  // ---------------------------------------------------------------------
  // parse_ffprobe_output
  // ---------------------------------------------------------------------

  /** The entries `for stream in streams` visits for each kind of value
      that is iterable (a list, the characters of a text, the keys of a
      mapping); `None` for one that is not. */
  function StreamsOf(streams: Json): (r: Result<Option<VideoStream>, string>)
    ensures !(streams.JArray? || streams.JStr? || streams.JObject?) ==> r == Ok(None)
    ensures streams.JArray? ==> r == FirstVideo(streams.items)
  {
    match streams
    case JArray(items) => FirstVideo(items)
    case JStr(s) => if s == [] then Ok(None) else Err(ATTRIBUTE_ERROR)
    case JObject(o) => if o == map[] then Ok(None) else Err(ATTRIBUTE_ERROR)
    case _ => Ok(None)
  }

  /** The duration of the format section: kept unless it is a
      placeholder or `float()` refuses it. */
  function Duration(format: map<string, Json>): (r: Option<real>)
    ensures Placeholder(Get(format, "duration")) ==> r == None
    ensures !Placeholder(Get(format, "duration")) ==> r == PyFloat(format["duration"])
  {
    var d := Get(format, "duration");
    if Placeholder(d) then None else PyFloat(format["duration"])
  }

  /** `parse_ffprobe_output` (findOptimumBitrate.py:155-183). */
  function ParseFfprobeOutput(path: string, payload: map<string, Json>): (r: Result<VideoProbe, string>)
    ensures r.Ok? <==> StreamsOf(Get(payload, "streams")).Ok?
    ensures r.Ok? ==> r.value.path == path && r.value.video == StreamsOf(Get(payload, "streams")).value
    ensures r.Ok? && !Get(payload, "format").JObject? ==>
              r.value.duration.None? && r.value.sizeBytes.None? && r.value.formatBitrate.None?
    ensures r.Ok? && Get(payload, "format").JObject? ==>
              && r.value.duration == Duration(Get(payload, "format").fields)
              && r.value.sizeBytes == SafeInt(Get(Get(payload, "format").fields, "size"))
              && r.value.formatBitrate == SafeInt(Get(Get(payload, "format").fields, "bit_rate"))
  {
    var format := Get(payload, "format");
    var duration := if format.JObject? then Duration(format.fields) else None;
    var size := if format.JObject? then SafeInt(Get(format.fields, "size")) else None;
    var rate := if format.JObject? then SafeInt(Get(format.fields, "bit_rate")) else None;
    match StreamsOf(Get(payload, "streams"))
    case Err(e) => Err(e)
    case Ok(video) => Ok(VideoProbe(path, duration, size, rate, video))
  }

  /** A placeholder duration leaves the duration unset, whatever the
      size and bit rate. */
  lemma PlaceholderDuration(path: string, payload: map<string, Json>)
    requires Get(payload, "format").JObject? && Placeholder(Get(Get(payload, "format").fields, "duration"))
    requires ParseFfprobeOutput(path, payload).Ok?
    ensures ParseFfprobeOutput(path, payload).value.duration == None
  {
  }

  // ---------------------------------------------------------------------
  // Bitrates
  // ---------------------------------------------------------------------

  /** `VideoProbe.average_bitrate` (findOptimumBitrate.py:85-92). */
  function AverageBitrate(probe: VideoProbe): (r: Option<real>)
    ensures probe.formatBitrate.Some? ==> r == Some(probe.formatBitrate.value as real)
    ensures probe.formatBitrate.None? ==>
              (r.Some? <==> probe.sizeBytes.Some? && probe.duration.Some? && probe.duration.value != 0.0)
    ensures probe.formatBitrate.None? && r.Some? ==>
              r.value * probe.duration.value == (probe.sizeBytes.value * 8) as real
  {
    if probe.formatBitrate.Some? then Some(probe.formatBitrate.value as real)
    else if probe.sizeBytes.None? || probe.duration.None? || probe.duration.value == 0.0 then None
    else Some((probe.sizeBytes.value * 8) as real / probe.duration.value)
  }

  /** `bitrate_from_bits_per_pixel` (findOptimumBitrate.py:211-225): the
      smallest whole rate that is at least pixels x frames x bits. */
  function BitrateFromBitsPerPixel(width: int, height: int, fps: real, bpp: real): (r: Result<int, string>)
    ensures r.Ok? <==> width > 0 && height > 0 && fps > 0.0 && bpp > 0.0
    ensures width <= 0 || height <= 0 ==> r == Err(DIMENSIONS_ERROR)
    ensures width > 0 && height > 0 && fps <= 0.0 ==> r == Err(FPS_ERROR)
    ensures width > 0 && height > 0 && fps > 0.0 && bpp <= 0.0 ==> r == Err(BPP_ERROR)
    ensures r.Ok? ==> var exact := (width * height) as real * fps * bpp;
                      exact <= r.value as real < exact + 1.0
  {
    if width <= 0 || height <= 0 then Err(DIMENSIONS_ERROR)
    else if fps <= 0.0 then Err(FPS_ERROR)
    else if bpp <= 0.0 then Err(BPP_ERROR)
    else Ok(Ceil((width * height) as real * fps * bpp))
  }

  /** `bits_per_pixel` (findOptimumBitrate.py:228-237): the bits each
      pixel of each frame gets at `bitrate`. */
  function BitsPerPixel(bitrate: real, width: int, height: int, fps: real): (r: Result<real, string>)
    ensures r.Ok? <==> width > 0 && height > 0 && fps > 0.0 && bitrate > 0.0
    ensures width <= 0 || height <= 0 ==> r == Err(DIMENSIONS_ERROR)
    ensures width > 0 && height > 0 && fps <= 0.0 ==> r == Err(FPS_ERROR)
    ensures width > 0 && height > 0 && fps > 0.0 && bitrate <= 0.0 ==> r == Err(BITRATE_ERROR)
    ensures r.Ok? ==> r.value > 0.0 && r.value * ((width * height) as real * fps) == bitrate
  {
    if width <= 0 || height <= 0 then Err(DIMENSIONS_ERROR)
    else if fps <= 0.0 then Err(FPS_ERROR)
    else if bitrate <= 0.0 then Err(BITRATE_ERROR)
    else
      var pixels := (width * height) as real * fps;
      assert pixels > 0.0 by {
        assert (width * height) > 0;
      }
      Ok(bitrate / pixels)
  }

  /** The two are inverse: the bits per pixel of a rate give back that
      rate, rounded up. */
  lemma BitsPerPixelInverse(bitrate: real, width: int, height: int, fps: real)
    requires BitsPerPixel(bitrate, width, height, fps).Ok?
    ensures BitrateFromBitsPerPixel(width, height, fps, BitsPerPixel(bitrate, width, height, fps).value)
            == Ok(Ceil(bitrate))
  {
    var bpp := BitsPerPixel(bitrate, width, height, fps).value;
    var pixels := (width * height) as real * fps;
    assert pixels * bpp == bitrate;
    assert (width * height) as real * fps * bpp == pixels * bpp;
  }

  /** `candidate = max(candidate, minimum)`, then `min(candidate, maximum)`. */
  function Clamp(candidate: int, minimum: Option<int>, maximum: Option<int>): (r: int)
    ensures maximum.Some? ==> r <= maximum.value
    ensures minimum.Some? && (maximum.None? || minimum.value <= maximum.value) ==> r >= minimum.value
    ensures (minimum.None? || candidate >= minimum.value) && (maximum.None? || candidate <= maximum.value)
            ==> r == candidate
    ensures r == candidate || (minimum.Some? && r == minimum.value) || (maximum.Some? && r == maximum.value)
  {
    var low := if minimum.Some? && minimum.value > candidate then minimum.value else candidate;
    if maximum.Some? && maximum.value < low then maximum.value else low
  }

  /** `stream.fps or fallback_fps`: a missing or zero frame rate falls
      back. */
  function FrameRate(stream: VideoStream, fallbackFps: real): (r: real)
    ensures stream.fps.None? || stream.fps == Some(0.0) ==> r == fallbackFps
    ensures stream.fps.Some? && stream.fps.value != 0.0 ==> r == stream.fps.value
  {
    if stream.fps.None? || stream.fps.value == 0.0 then fallbackFps else stream.fps.value
  }

  const INSUFFICIENT := "Insufficient information to determine bitrate"

  /** `recommend_bitrate` (findOptimumBitrate.py:240-274).  The video
      stream decides when there is one; otherwise the average bitrate,
      truncated to an integer. */
  function RecommendBitrate(probe: VideoProbe, targetBpp: real, fallbackFps: real,
                            minimum: Option<int>, maximum: Option<int>): (r: Result<int, string>)
    ensures probe.video.None? ==> (r.Err? <==> AverageBitrate(probe).None?)
    ensures probe.video.None? && r.Ok? ==> r.value == Clamp(Trunc(AverageBitrate(probe).value), minimum, maximum)
    ensures probe.video.Some? ==>
              var v := probe.video.value;
              var base := BitrateFromBitsPerPixel(v.width, v.height, FrameRate(v, fallbackFps), targetBpp);
              (r.Err? <==> base.Err?) && (r.Ok? ==> r.value == Clamp(base.value, minimum, maximum))
    ensures r.Err? ==> r.error in {INSUFFICIENT, DIMENSIONS_ERROR, FPS_ERROR, BPP_ERROR}
  {
    var candidate :=
      if probe.video.None? then
        match AverageBitrate(probe)
        case None => Err(INSUFFICIENT)
        case Some(avg) => Ok(Trunc(avg))
      else
        var v := probe.video.value;
        BitrateFromBitsPerPixel(v.width, v.height, FrameRate(v, fallbackFps), targetBpp);
    match candidate
    case Err(e) => Err(e)
    case Ok(c) => Ok(Clamp(c, minimum, maximum))
  }

  /** A recommendation is never above the maximum, and is at least the
      minimum unless the minimum exceeds the maximum (the maximum wins). */
  lemma RecommendBounds(probe: VideoProbe, targetBpp: real, fallbackFps: real, minimum: Option<int>, maximum: Option<int>)
    requires RecommendBitrate(probe, targetBpp, fallbackFps, minimum, maximum).Ok?
    ensures var r := RecommendBitrate(probe, targetBpp, fallbackFps, minimum, maximum).value;
            && (maximum.Some? ==> r <= maximum.value)
            && (minimum.Some? && maximum.Some? && minimum.value > maximum.value ==> r == maximum.value)
            && (minimum.Some? && (maximum.None? || minimum.value <= maximum.value) ==> r >= minimum.value)
  {
  }

  /** With a video stream and no bounds, the recommendation covers the
      target bits per pixel at the frame rate used. */
  lemma RecommendCoversTarget(probe: VideoProbe, targetBpp: real, fallbackFps: real)
    requires probe.video.Some? && RecommendBitrate(probe, targetBpp, fallbackFps, None, None).Ok?
    ensures var v := probe.video.value;
            RecommendBitrate(probe, targetBpp, fallbackFps, None, None).value as real
            >= (v.width * v.height) as real * FrameRate(v, fallbackFps) * targetBpp
  {
  }

  /** A missing frame rate and a zero one both give the fallback's result. */
  lemma RecommendFallbackFps(probe: VideoProbe, targetBpp: real, fallbackFps: real,
                             minimum: Option<int>, maximum: Option<int>)
    requires probe.video.Some? && (probe.video.value.fps.None? || probe.video.value.fps == Some(0.0))
    ensures RecommendBitrate(probe, targetBpp, fallbackFps, minimum, maximum)
            == RecommendBitrate(probe.(video := Some(probe.video.value.(fps := Some(fallbackFps)))),
                                targetBpp, fallbackFps, minimum, maximum)
  {
  }

  /** With a stream, the format section plays no part. */
  lemma RecommendIgnoresFormat(probe: VideoProbe, other: VideoProbe, targetBpp: real, fallbackFps: real,
                               minimum: Option<int>, maximum: Option<int>)
    requires probe.video.Some? && other.video == probe.video
    ensures RecommendBitrate(probe, targetBpp, fallbackFps, minimum, maximum)
            == RecommendBitrate(other, targetBpp, fallbackFps, minimum, maximum)
  {
  }

  // ---------------------------------------------------------------------
  // analyse_paths
  // ---------------------------------------------------------------------

  /** `AnalysisConfig` (findOptimumBitrate.py:287-295); `ffprobe` is the
      FFPROBE environment variable when it is set. */
  datatype AnalysisConfig = AnalysisConfig(targetBpp: real, fallbackFps: real, minimum: Option<int>,
                                           maximum: Option<int>, ffprobe: string)

  function DefaultConfig(environment: Option<string>): (c: AnalysisConfig)
    ensures c.targetBpp == 0.085 && c.fallbackFps == 30.0 && c.minimum.None? && c.maximum.None?
    ensures c.ffprobe == (if environment.Some? then environment.value else "ffprobe")
  {
    AnalysisConfig(0.085, 30.0, None, None, if environment.Some? then environment.value else "ffprobe")
  }

  /** `AnalysisResult` (findOptimumBitrate.py:298-304). */
  datatype AnalysisResult = AnalysisResult(probe: VideoProbe, recommendation: Option<int>, error: Option<string>)

  /** The result for one probed path (findOptimumBitrate.py:341-352): the
      message of the ValueError of `recommend_bitrate` becomes the error
      text. */
  function Analysis(probe: VideoProbe, config: AnalysisConfig): (a: AnalysisResult)
    ensures a.probe == probe
    ensures a.recommendation.None? <==> a.error.Some?
    ensures a.recommendation.Some? <==>
              RecommendBitrate(probe, config.targetBpp, config.fallbackFps, config.minimum, config.maximum).Ok?
    ensures a.error.Some? ==>
              a.error.value == RecommendBitrate(probe, config.targetBpp, config.fallbackFps, config.minimum, config.maximum).error
              && a.error.value in {INSUFFICIENT, DIMENSIONS_ERROR, FPS_ERROR, BPP_ERROR}
  {
    match RecommendBitrate(probe, config.targetBpp, config.fallbackFps, config.minimum, config.maximum)
    case Ok(rate) => AnalysisResult(probe, Some(rate), None)
    case Err(e) => AnalysisResult(probe, None, Some(e))
  }

  /** `analyse_paths` (findOptimumBitrate.py:328-353) over the outcome
      of running ffprobe on each path in turn: the first failure of
      `run_ffprobe` is not caught and ends the call. */
  method AnalysePaths(probes: seq<Result<VideoProbe, string>>, config: AnalysisConfig)
      returns (r: Result<seq<AnalysisResult>, string>)
    ensures r.Ok? <==> forall i :: 0 <= i < |probes| ==> probes[i].Ok?
    ensures r.Ok? ==> |r.value| == |probes|
                      && forall i :: 0 <= i < |probes| ==> r.value[i] == Analysis(probes[i].value, config)
    ensures r.Err? ==> exists i :: 0 <= i < |probes| && probes[i] == Err(r.error)
                                   && forall j :: 0 <= j < i ==> probes[j].Ok?
  {
    var results: seq<AnalysisResult> := [];
    for i := 0 to |probes|
      invariant |results| == i
      invariant forall j :: 0 <= j < i ==> probes[j].Ok? && results[j] == Analysis(probes[j].value, config)
    {
      if probes[i].Err? {
        return Err(probes[i].error);
      }
      results := results + [Analysis(probes[i].value, config)];
    }
    return Ok(results);
  }
}
