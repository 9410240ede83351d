/** `extract_summary` of 2pass_compress.py and batch_compress_and_compare.py:
    the reduction of an ffprobe result to duration, bit rate, size, the
    first video stream's codec and dimensions and the first audio
    stream's codec. The two scripts differ only in when a format field
    counts as present (`Gate`). A Python exception raised on the way is
    an `Err`. */
module ProbeSummary {
  import opened Common
  import opened Json

  const TYPE_ERROR := "TypeError"
  const ATTRIBUTE_ERROR := "AttributeError"
  const VALUE_ERROR := "ValueError"

  /** The summary; `JNull` stands for a field left at None. */
  datatype Summary = Summary(
    duration: Option<real>,
    bitRate: Option<int>,
    fileSize: Option<int>,
    videoCodec: Json,
    width: Json,
    height: Json,
    audioCodec: Json)

  /** `format` fields are read when `is not None` holds of them
      (2pass_compress.py) or when they are truthy
      (batch_compress_and_compare.py). */
  datatype Gate = NotNone | Truthiness

  predicate Present(v: Json, g: Gate) {
    match g
    case NotNone => !v.JNull?
    case Truthiness => Truthy(v)
  }

  /** The exception `int()` or `float()` raises for a value it refuses:
      TypeError for a list or a mapping, ValueError for text that is not
      a number. */
  function ConversionError(v: Json): string {
    if v.JArray? || v.JObject? then TYPE_ERROR else VALUE_ERROR
  }

  /** `float(v)` of a present field. */
  function FloatField(v: Json, g: Gate): (r: Result<Option<real>, string>)
    ensures r.Ok? && r.value.Some? ==> Present(v, g) && PyFloat(v) == r.value
    ensures r.Ok? && r.value.None? <==> !Present(v, g)
    ensures r.Err? <==> Present(v, g) && PyFloat(v).None?
    ensures r.Err? && (v.JArray? || v.JObject?) ==> r.error == TYPE_ERROR
    ensures r.Err? && v.JStr? ==> r.error == VALUE_ERROR
  {
    if !Present(v, g) then Ok(None)
    else match PyFloat(v)
      case None => Err(ConversionError(v))
      case Some(x) => Ok(Some(x))
  }

  /** `int(v)` of a present field. */
  function IntField(v: Json, g: Gate): (r: Result<Option<int>, string>)
    ensures r.Ok? && r.value.Some? ==> Present(v, g) && PyInt(v) == r.value
    ensures r.Ok? && r.value.None? <==> !Present(v, g)
    ensures r.Err? <==> Present(v, g) && PyInt(v).None?
    ensures r.Err? && (v.JArray? || v.JObject?) ==> r.error == TYPE_ERROR
    ensures r.Err? && v.JStr? ==> r.error == VALUE_ERROR
  {
    if !Present(v, g) then Ok(None)
    else match PyInt(v)
      case None => Err(ConversionError(v))
      case Some(x) => Ok(Some(x))
  }

  /** The summary before the streams are looked at: the format fields
      read (when the format section is truthy) and no codec. */
  function ReadFormat(fmt: Json, g: Gate): (r: Result<Summary, string>)
    ensures !Truthy(fmt) ==> r == Ok(EMPTY)
    ensures Truthy(fmt) && !fmt.JObject? ==> r == Err(ATTRIBUTE_ERROR)
    ensures r.Ok? ==> r.value.videoCodec.JNull? && r.value.width.JNull?
                      && r.value.height.JNull? && r.value.audioCodec.JNull?
  {
    if !Truthy(fmt) then Ok(EMPTY)
    else if !fmt.JObject? then Err(ATTRIBUTE_ERROR)
    else
      var d := FloatField(Get(fmt.fields, "duration"), g);
      var b := IntField(Get(fmt.fields, "bit_rate"), g);
      var s := IntField(Get(fmt.fields, "size"), g);
      if d.Err? then Err(d.error)
      else if b.Err? then Err(b.error)
      else if s.Err? then Err(s.error)
      else Ok(Summary(d.value, b.value, s.value, JNull, JNull, JNull, JNull))
  }

  /** Every field None. */
  const EMPTY := Summary(None, None, None, JNull, JNull, JNull, JNull)

  /** What `for s in probe_info.get("streams", [])` visits: the items of
      a list, nothing for a missing key or an empty text or mapping; a
      non-empty text or mapping yields strings, which have no `.get`, and
      any other value is not iterable. */
  function StreamItems(probe: map<string, Json>): (r: Result<seq<Json>, string>)
    ensures "streams" !in probe ==> r == Ok([])
    ensures "streams" in probe && probe["streams"].JArray? ==> r == Ok(probe["streams"].items)
  {
    var s := if "streams" in probe then probe["streams"] else JArray([]);
    match s
    case JArray(items) => Ok(items)
    case JStr(t) => if t == [] then Ok([]) else Err(ATTRIBUTE_ERROR)
    case JObject(o) => if o == map[] then Ok([]) else Err(ATTRIBUTE_ERROR)
    case _ => Err(TYPE_ERROR)
  }

  /** A stream with `codec_type` equal to `kind`. */
  predicate OfType(s: Json, kind: string) {
    s.JObject? && Get(s.fields, "codec_type") == JStr(kind)
  }

  /** The body of the loop over the streams, without the break: the
      first branch takes a video stream while no video codec is known, the
      second an audio stream while no audio codec is known. */
  function Step(sum: Summary, s: Json): (r: Result<Summary, string>)
    ensures r.Err? <==> !s.JObject?
  {
    if !s.JObject? then Err(ATTRIBUTE_ERROR)
    else if OfType(s, "video") && sum.videoCodec.JNull? then
      Ok(sum.(videoCodec := Get(s.fields, "codec_name"), width := Get(s.fields, "width"),
              height := Get(s.fields, "height")))
    else if OfType(s, "audio") && sum.audioCodec.JNull? then
      Ok(sum.(audioCodec := Get(s.fields, "codec_name")))
    else Ok(sum)
  }

  /** The condition of the break: both codecs known and truthy. */
  predicate Complete(sum: Summary) {
    Truthy(sum.videoCodec) && Truthy(sum.audioCodec)
  }

  /** The loop over the streams, with its break. */
  function Scan(sum: Summary, items: seq<Json>): Result<Summary, string>
    decreases |items|
  {
    if items == [] then Ok(sum)
    else match Step(sum, items[0])
      case Err(e) => Err(e)
      case Ok(next) => if Complete(next) then Ok(next) else Scan(next, items[1..])
  }

  /** The loop without its break: every stream visited. */
  function Fold(sum: Summary, items: seq<Json>): Result<Summary, string>
    decreases |items|
  {
    if items == [] then Ok(sum)
    else match Step(sum, items[0])
      case Err(e) => Err(e)
      case Ok(next) => Fold(next, items[1..])
  }

  /** `extract_summary(probe_info)`. */
  function ExtractSummaryOf(probe: map<string, Json>, g: Gate): Result<Summary, string> {
    match ReadFormat(Get(probe, "format"), g)
    case Err(e) => Err(e)
    case Ok(start) =>
      match StreamItems(probe)
      case Err(e) => Err(e)
      case Ok(items) => Scan(start, items)
  }

  /** `extract_summary`, loop and all. */
  method ExtractSummary(probe: map<string, Json>, g: Gate) returns (r: Result<Summary, string>)
    ensures r == ExtractSummaryOf(probe, g)
  {
    var start := ReadFormat(Get(probe, "format"), g);
    if start.Err? {
      return Err(start.error);
    }
    var streams := StreamItems(probe);
    if streams.Err? {
      return Err(streams.error);
    }
    var items := streams.value;
    var sum := start.value;
    var i := 0;
    while i < |items|
      invariant 0 <= i <= |items|
      invariant Scan(sum, items[i..]) == ExtractSummaryOf(probe, g)
    {
      var s := items[i];
      assert items[i..][0] == s && items[i..][1..] == items[i + 1..];
      if !s.JObject? {
        return Err(ATTRIBUTE_ERROR);
      }
      var kind := Get(s.fields, "codec_type");
      if kind == JStr("video") && sum.videoCodec == JNull {
        sum := sum.(videoCodec := Get(s.fields, "codec_name"));
        sum := sum.(width := Get(s.fields, "width"));
        sum := sum.(height := Get(s.fields, "height"));
      } else if kind == JStr("audio") && sum.audioCodec == JNull {
        sum := sum.(audioCodec := Get(s.fields, "codec_name"));
      }
      if Truthy(sum.videoCodec) && Truthy(sum.audioCodec) {
        return Ok(sum);
      }
      i := i + 1;
    }
    return Ok(sum);
  }

  // ---------------------------------------------------------------------
  // Properties
  // ---------------------------------------------------------------------

  /** A failed probe gives `{}`, whose summary has every field None. */
  lemma FailedProbeIsEmpty(g: Gate)
    ensures ExtractSummaryOf(map[], g) == Ok(EMPTY)
  {
  }

  /** One stream changes the video fields or the audio codec, never both,
      each only while it is still None, and never the format fields. */
  lemma StepChangesOneSide(sum: Summary, s: Json)
    requires Step(sum, s).Ok?
    ensures var next := Step(sum, s).value;
            && next.duration == sum.duration && next.bitRate == sum.bitRate && next.fileSize == sum.fileSize
            && (next.audioCodec == sum.audioCodec
                || (next.videoCodec == sum.videoCodec && next.width == sum.width && next.height == sum.height))
            && (!sum.videoCodec.JNull? ==> next.videoCodec == sum.videoCodec && next.width == sum.width && next.height == sum.height)
            && (!sum.audioCodec.JNull? ==> next.audioCodec == sum.audioCodec)
  {
  }

  /** Once both codecs are known, no stream changes the summary. */
  lemma {:induction false} FoldComplete(sum: Summary, items: seq<Json>)
    requires Complete(sum) && Fold(sum, items).Ok?
    ensures Fold(sum, items) == Ok(sum)
    decreases |items|
  {
    if items != [] {
      assert Step(sum, items[0]) == Ok(sum);
      FoldComplete(sum, items[1..]);
    }
  }

  /** The break saves work and nothing else: where visiting every stream
      succeeds, stopping early gives the same summary. It can only turn a
      malformed later stream from an error into no error. */
  lemma {:induction false} BreakKeepsResult(sum: Summary, items: seq<Json>)
    requires Fold(sum, items).Ok?
    ensures Scan(sum, items) == Fold(sum, items)
    decreases |items|
  {
    if items != [] {
      var next := Step(sum, items[0]).value;
      if Complete(next) {
        FoldComplete(next, items[1..]);
      } else {
        BreakKeepsResult(next, items[1..]);
      }
    }
  }

  /** The video fields come from one stream: the first video stream
      whose codec name is not None, or, when there is none, they stay as
      they were or come from a video stream with no codec name. */
  lemma {:induction false} VideoFromOneStream(sum: Summary, items: seq<Json>)
    requires Scan(sum, items).Ok?
    ensures var r := Scan(sum, items).value;
            || (r.videoCodec == sum.videoCodec && r.width == sum.width && r.height == sum.height)
            || exists k :: 0 <= k < |items| && OfType(items[k], "video")
                 && r.videoCodec == Get(items[k].fields, "codec_name")
                 && r.width == Get(items[k].fields, "width") && r.height == Get(items[k].fields, "height")
    ensures sum.videoCodec.JNull? && Scan(sum, items).value.videoCodec != JNull ==>
              exists k :: 0 <= k < |items| && OfType(items[k], "video")
                && Scan(sum, items).value.videoCodec == Get(items[k].fields, "codec_name")
                && Scan(sum, items).value.width == Get(items[k].fields, "width")
                && Scan(sum, items).value.height == Get(items[k].fields, "height")
                && forall j :: 0 <= j < k && OfType(items[j], "video") ==> Get(items[j].fields, "codec_name") == JNull
    decreases |items|
  {
    if items != [] {
      var next := Step(sum, items[0]).value;
      var r := Scan(sum, items).value;
      if !Complete(next) {
        VideoFromOneStream(next, items[1..]);
        assert Scan(sum, items) == Scan(next, items[1..]);
        if r.videoCodec != sum.videoCodec || r.width != sum.width || r.height != sum.height {
          if next.videoCodec == sum.videoCodec && next.width == sum.width && next.height == sum.height {
            var k :| 0 <= k < |items[1..]| && OfType(items[1..][k], "video")
                 && r.videoCodec == Get(items[1..][k].fields, "codec_name")
                 && r.width == Get(items[1..][k].fields, "width") && r.height == Get(items[1..][k].fields, "height");
            assert items[k + 1] == items[1..][k];
          }
        }
        if sum.videoCodec.JNull? && r.videoCodec != JNull {
          if next.videoCodec.JNull? {
            var k :| 0 <= k < |items[1..]| && OfType(items[1..][k], "video")
                && r.videoCodec == Get(items[1..][k].fields, "codec_name")
                && r.width == Get(items[1..][k].fields, "width")
                && r.height == Get(items[1..][k].fields, "height")
                && forall j :: 0 <= j < k && OfType(items[1..][j], "video") ==> Get(items[1..][j].fields, "codec_name") == JNull;
            assert items[k + 1] == items[1..][k];
            forall j | 0 <= j < k + 1 && OfType(items[j], "video")
              ensures Get(items[j].fields, "codec_name") == JNull
            {
              if j > 0 {
                assert items[j] == items[1..][j - 1];
              }
            }
          } else {
            StepChangesOneSide(sum, items[0]);
            ScanKeepsKnownVideo(next, items[1..]);
            assert OfType(items[0], "video");
          }
        }
      } else {
        StepChangesOneSide(sum, items[0]);
      }
    }
  }

  /** A known video codec is never replaced. */
  lemma {:induction false} ScanKeepsKnownVideo(sum: Summary, items: seq<Json>)
    requires !sum.videoCodec.JNull? && Scan(sum, items).Ok?
    ensures var r := Scan(sum, items).value;
            r.videoCodec == sum.videoCodec && r.width == sum.width && r.height == sum.height
    decreases |items|
  {
    if items != [] {
      StepChangesOneSide(sum, items[0]);
      var next := Step(sum, items[0]).value;
      if !Complete(next) {
        ScanKeepsKnownVideo(next, items[1..]);
      }
    }
  }
}
