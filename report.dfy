/** The comparison table printed by 2pass_compress.py and
    batch_compress_and_compare.py after an encode: durations as
    `HH:MM:SS`, bit rates and sizes with two decimals, the codec cells and
    the column layout. */
module Report {
  import opened Common
  import opened Json
  import opened ProbeSummary

  // ---------------------------------------------------------------------
  // Durations
  // ---------------------------------------------------------------------

  /** `f"{n:02d}"`: at least two digits, zero-padded after the sign. */
  function Pad2(n: int): (r: string)
    ensures |r| >= 2
  {
    if n < 0 then "-" + NatToString(-n)
    else if n < 10 then "0" + NatToString(n)
    else NatToString(n)
  }

  /** The text of a non-negative field is digits with its value, two of
      them below 100. */
  lemma Pad2Value(n: nat)
    ensures AllDigits(Pad2(n)) && DigitsValue(Pad2(n)) == n
    ensures n < 100 ==> |Pad2(n)| == 2
  {
    NatToStringValue(n);
    if n < 10 {
      var t := Pad2(n);
      assert t[..1] == "0" && t[1] == DigitChar(n);
      assert DigitsValue(t[..1]) == 0;
    } else if n < 100 {
      NatToStringValue(n / 10);
    }
  }

  /** Hours, minutes and seconds of a whole number of seconds. */
  function Hms(n: int): (r: (int, int, int))
    ensures 0 <= r.1 < 60 && 0 <= r.2 < 60
    ensures 3600 * r.0 + 60 * r.1 + r.2 == n
  {
    (n / 3600, (n % 3600) / 60, n % 60)
  }

  /** Hours, minutes below 60 and seconds below 60 are determined by the
      seconds they add up to. */
  lemma HmsUnique(n: int, h: int, m: int, s: int)
    requires 0 <= m < 60 && 0 <= s < 60 && 3600 * h + 60 * m + s == n
    ensures Hms(n) == (h, m, s)
  {
    var (h', m', s') := Hms(n);
    assert 0 <= 60 * m + s < 3600 && 0 <= 60 * m' + s' < 3600;
    assert h == h';
    assert m == m';
  }

  /** `x // d` for a float and a positive whole divisor. */
  function FloorDiv(x: real, d: int): int
    requires d > 0
  {
    (x / d as real).Floor
  }

  /** `x % d` for a float and a positive whole divisor. */
  function FloorMod(x: real, d: int): real
    requires d > 0
  {
    x - d as real * FloorDiv(x, d) as real
  }

  /** `format_duration` (2pass_compress.py) and `format_dur`
      (batch_compress_and_compare.py). */
  function FormatDuration(seconds: Option<real>): string {
    match seconds
    case None => "N/A"
    case Some(x) =>
      var h := FloorDiv(x, 3600);
      var m := FloorDiv(FloorMod(x, 3600), 60);
      var s := Trunc(FloorMod(x, 60));
      Pad2(h) + ":" + Pad2(m) + ":" + Pad2(s)
  }

  /** Dividing a float by a whole number and flooring is flooring first. */
  lemma FloorDivOfFloor(x: real, d: int)
    requires d > 0
    ensures FloorDiv(x, d) == x.Floor / d
  {
    var n := x.Floor;
    var q := n / d;
    assert q * d <= n < q * d + d;
    var y := x / d as real;
    assert y * d as real == x;
    assert (q as real) * d as real <= x < (q + 1) as real * d as real;
    assert q as real <= y < (q + 1) as real;
  }

  /** The duration text of any number of seconds: its whole seconds in
      hours, minutes and seconds, each at least two digits. */
  lemma FormatDurationHms(x: real)
    ensures var (h, m, s) := Hms(x.Floor);
            FormatDuration(Some(x)) == Pad2(h) + ":" + Pad2(m) + ":" + Pad2(s)
  {
    var n := x.Floor;
    FloorDivOfFloor(x, 3600);
    var h := FloorDiv(x, 3600);
    var r := FloorMod(x, 3600);
    assert r.Floor == n - 3600 * h;
    FloorDivOfFloor(r, 60);
    FloorDivOfFloor(x, 60);
    var t := FloorMod(x, 60);
    assert t == x - 60 as real * (n / 60) as real;
    assert t.Floor == n - 60 * (n / 60);
    assert t >= 0.0;
  }

  /** For a duration under 100 hours the text is `HH:MM:SS`: eight
      characters, colons at 2 and 5, and fields whose values give back
      the whole seconds. */
  lemma FormatDurationLayout(x: real)
    requires 0.0 <= x < 360000.0
    ensures var t := FormatDuration(Some(x));
            |t| == 8 && t[2] == ':' && t[5] == ':'
            && AllDigits(t[..2]) && AllDigits(t[3..5]) && AllDigits(t[6..])
            && 3600 * DigitsValue(t[..2]) + 60 * DigitsValue(t[3..5]) + DigitsValue(t[6..]) == x.Floor
  {
    FormatDurationHms(x);
    var n := x.Floor;
    assert 0 <= n < 360000;
    var (h, m, s) := Hms(n);
    assert 0 <= h < 100 by { assert 3600 * h <= n < 3600 * h + 3600; }
    Pad2Value(h);
    Pad2Value(m);
    Pad2Value(s);
    ColonFields(Pad2(h), Pad2(m), Pad2(s));
  }

  /** Three two-character fields joined by colons sit at 0, 3 and 6. */
  lemma ColonFields(a: string, b: string, c: string)
    requires |a| == 2 && |b| == 2 && |c| == 2
    ensures var t := a + ":" + b + ":" + c;
            |t| == 8 && t[2] == ':' && t[5] == ':' && t[..2] == a && t[3..5] == b && t[6..] == c
  {
    var t := a + ":" + b + ":" + c;
    assert t[..2] == a && t[3..5] == b && t[6..] == c;
  }

  // ---------------------------------------------------------------------
  // Numbers with two decimals
  // ---------------------------------------------------------------------

  /** `num / unit` in hundredths, rounded to the nearest (halves up). */
  function Cents(num: nat, unit: nat): nat
    requires unit > 0
  {
    (200 * num + unit) / (2 * unit)
  }

  /** `f"{num / unit:.2f}"`. */
  function Fixed2(num: int, unit: nat): string
    requires unit > 0
  {
    var c := Cents(if num < 0 then -num else num, unit);
    (if num < 0 then "-" else "") + NatToString(c / 100) + "." + Pad2(c % 100)
  }

  /** The hundredths are within half a hundredth of the quotient. */
  lemma CentsNearest(num: nat, unit: nat)
    requires unit > 0
    ensures -(unit as int) <= 2 * ((100 * num) as int - (Cents(num, unit) * unit) as int) <= unit
  {
    var c := Cents(num, unit);
    assert c * (2 * unit) <= 200 * num + unit < (c + 1) * (2 * unit);
  }

  /** `format_bitrate`: "N/A" for None, else megabits per second. */
  function FormatBitrate(bitsPerSec: Option<int>): (r: string)
    ensures bitsPerSec.None? <==> r == "N/A"
  {
    match bitsPerSec
    case None => "N/A"
    case Some(b) => Fixed2(b, 1_000_000) + " Mbps"
  }

  /** `human_readable_size`: mebibytes with two decimals. */
  function HumanReadableSize(bytes: int): string {
    Fixed2(bytes, 1024 * 1024) + " MB"
  }

  // ---------------------------------------------------------------------
  // Cells
  // ---------------------------------------------------------------------

  /** `str(v)` of a decoded value, for the kinds ffprobe gives codecs and
      dimensions as. */
  function Text(v: Json): string {
    match v
    case JStr(s) => s
    case JInt(i) => IntToString(i)
    case JBool(b) => if b then "True" else "False"
    case JNull => "None"
    case _ => "?"
  }

  /** `vf` (2pass_compress.py) and `format_video_codec`
      (batch_compress_and_compare.py). */
  function VideoCell(codec: Json, w: Json, h: Json): (r: string)
    ensures codec.JNull? ==> r == "N/A"
    ensures !codec.JNull? ==> |Text(codec)| <= |r| && r[..|Text(codec)|] == Text(codec)
    ensures !codec.JNull? ==> (|r| > |Text(codec)| <==> Truthy(w) && Truthy(h))
  {
    if codec.JNull? then "N/A"
    else if Truthy(w) && Truthy(h) then Text(codec) + " (" + Text(w) + "×" + Text(h) + ")"
    else Text(codec)
  }

  /** `codec or "N/A"`. */
  function AudioCell(codec: Json): string {
    if Truthy(codec) then Text(codec) else "N/A"
  }

  /** `human_readable_size(size) if size else "N/A"`. */
  function SizeCell(size: Option<int>): string {
    if size.None? || size.value == 0 then "N/A" else HumanReadableSize(size.value)
  }

  /** The labels of the five rows. */
  const LABELS: seq<string> := ["Duration", "Bitrate", "File size", "Video codec & res", "Audio codec"]

  /** The five value cells of one summary's column. */
  function Cells(s: Summary): (r: seq<string>)
    ensures |r| == 5
  {
    [FormatDuration(s.duration), FormatBitrate(s.bitRate), SizeCell(s.fileSize),
     VideoCell(s.videoCodec, s.width, s.height), AudioCell(s.audioCodec)]
  }

  /** The five rows of the table for two summaries: the label, then the
      original's cell, then the compressed one's. */
  function Rows(orig: Summary, comp: Summary): (r: seq<seq<string>>)
    ensures |r| == 5 && forall row <- r :: |row| == 3
    ensures forall k :: 0 <= k < 5 ==> r[k] == [LABELS[k], Cells(orig)[k], Cells(comp)[k]]
  {
    seq(5, k requires 0 <= k < 5 => [LABELS[k], Cells(orig)[k], Cells(comp)[k]])
  }

  const HEADER: seq<string> := ["Property", "Original", "Compressed"]

  /** The cells of a summary's column that are not text: `vf` and
      `codec or "N/A"` hand back a codec that is not a string as it is,
      the first when the dimensions are not both truthy. */
  function RawCells(s: Summary): (r: seq<Json>)
    ensures forall v <- r :: !v.JStr? && !v.JNull?
  {
    (if !s.videoCodec.JNull? && !s.videoCodec.JStr? && !(Truthy(s.width) && Truthy(s.height)) then [s.videoCodec] else [])
    + (if Truthy(s.audioCodec) && !s.audioCodec.JStr? then [s.audioCodec] else [])
  }

  /** A value `len()` refuses with a TypeError: a bool or a number. */
  predicate Unsized(v: Json) {
    v.JBool? || v.JInt? || v.JReal?
  }

  /** The table printed for two summaries, or the exception that stops
      the printing: every column's width is taken with `len()` before any
      cell is padded with `ljust`, so a cell that is a bool or a number
      raises TypeError, and otherwise a list or mapping cell raises
      AttributeError. */
  function Table(orig: Summary, comp: Summary): (r: Result<seq<seq<string>>, string>)
    ensures r.Ok? <==> RawCells(orig) == [] && RawCells(comp) == []
    ensures r.Ok? ==> r.value == Rows(orig, comp)
    ensures r.Err? ==> r.error == TYPE_ERROR || r.error == ATTRIBUTE_ERROR
    ensures r.Err? ==> (r.error == TYPE_ERROR <==> exists v <- RawCells(orig) + RawCells(comp) :: Unsized(v))
  {
    var raw := RawCells(orig) + RawCells(comp);
    if exists v <- raw :: Unsized(v) then Err(TYPE_ERROR)
    else if raw != [] then Err(ATTRIBUTE_ERROR)
    else Ok(Rows(orig, comp))
  }

  /** A truthy audio codec that is a bool or a number stops the table
      with a TypeError; when the table is printed, each audio cell is
      the codec text or "N/A". */
  lemma TableAudio(orig: Summary, comp: Summary)
    ensures Truthy(orig.audioCodec) && Unsized(orig.audioCodec) ==> Table(orig, comp) == Err(TYPE_ERROR)
    ensures Truthy(comp.audioCodec) && Unsized(comp.audioCodec) ==> Table(orig, comp) == Err(TYPE_ERROR)
    ensures Table(orig, comp).Ok? ==>
      && Table(orig, comp).value[4][1] == (if Truthy(orig.audioCodec) then orig.audioCodec.s else "N/A")
      && Table(orig, comp).value[4][2] == (if Truthy(comp.audioCodec) then comp.audioCodec.s else "N/A")
  {
    var raw := RawCells(orig) + RawCells(comp);
    if Truthy(orig.audioCodec) && Unsized(orig.audioCodec) {
      assert raw[|RawCells(orig)| - 1] == orig.audioCodec;
    }
    if Truthy(comp.audioCodec) && Unsized(comp.audioCodec) {
      assert raw[|raw| - 1] == comp.audioCodec;
    }
    if Table(orig, comp).Ok? {
      assert Cells(orig)[4] == AudioCell(orig.audioCodec) && Cells(comp)[4] == AudioCell(comp.audioCodec);
    }
  }

  // ---------------------------------------------------------------------
  // Layout
  // ---------------------------------------------------------------------

  /** `max(len(r[k]) for r in rows)`. */
  function MaxLen(rows: seq<seq<string>>, k: nat): (r: nat)
    requires rows != [] && forall row <- rows :: k < |row|
    ensures forall row <- rows :: |row[k]| <= r
    ensures exists row <- rows :: |row[k]| == r
  {
    if |rows| == 1 then |rows[0][k]|
    else
      var rest := MaxLen(rows[1..], k);
      assert forall row <- rows :: row == rows[0] || row in rows[1..];
      if |rows[0][k]| >= rest then |rows[0][k]| else rest
  }

  /** The column widths: the longest cell of the rows, plus two; the
      header is not counted. */
  function ColumnWidths(rows: seq<seq<string>>): (r: seq<nat>)
    requires rows != [] && forall row <- rows :: |row| == 3
    ensures |r| == 3
  {
    [MaxLen(rows, 0) + 2, MaxLen(rows, 1) + 2, MaxLen(rows, 2) + 2]
  }

  /** `s.ljust(w)`. */
  function LJust(s: string, w: nat): (r: string)
    ensures |r| == if |s| < w then w else |s|
    ensures r[..|s|] == s && forall i :: |s| <= i < |r| ==> r[i] == ' '
  {
    if |s| < w then s + seq(w - |s|, _ => ' ') else s
  }

  /** One printed line of the table. */
  function Line(row: seq<string>, widths: seq<nat>): string
    requires |row| == 3 && |widths| == 3
  {
    "    " + LJust(row[0], widths[0]) + LJust(row[1], widths[1]) + LJust(row[2], widths[2])
  }

  /** The dashes under the header: the widths' sum plus `extra`. */
  function Separator(widths: seq<nat>, extra: nat): (r: string)
    requires |widths| == 3
    ensures |r| == 4 + widths[0] + widths[1] + widths[2] + extra
  {
    "    " + seq(widths[0] + widths[1] + widths[2] + extra, _ => '-')
  }

  /** `line` is `row` laid out in columns `w`: the cells start at their
      columns and the line ends in two spaces. */
  predicate Aligned(line: string, row: seq<string>, w: seq<nat>)
    requires |row| == 3 && |w| == 3
  {
    && |line| == 4 + w[0] + w[1] + w[2]
    && 4 + |row[0]| <= 4 + w[0] && line[4..4 + |row[0]|] == row[0]
    && 4 + w[0] + |row[1]| <= 4 + w[0] + w[1] && line[4 + w[0]..4 + w[0] + |row[1]|] == row[1]
    && 4 + w[0] + w[1] + |row[2]| <= |line| && line[4 + w[0] + w[1]..4 + w[0] + w[1] + |row[2]|] == row[2]
    && 2 <= w[2] && line[|line| - 2..] == "  "
  }

  /** A line whose cells each leave two columns free is aligned. */
  lemma LineLayout(row: seq<string>, w: seq<nat>)
    requires |row| == 3 && |w| == 3
    requires |row[0]| + 2 <= w[0] && |row[1]| + 2 <= w[1] && |row[2]| + 2 <= w[2]
    ensures Aligned(Line(row, w), row, w)
  {
    var a, b, c := LJust(row[0], w[0]), LJust(row[1], w[1]), LJust(row[2], w[2]);
    assert |a| == w[0] && |b| == w[1] && |c| == w[2];
    assert c[|c| - 2..] == "  ";
    PaddedCellsAligned(Line(row, w), a, b, c, row, w);
  }

  /** Three padded cells after the four-space indent form an aligned line. */
  lemma PaddedCellsAligned(line: string, a: string, b: string, c: string, row: seq<string>, w: seq<nat>)
    requires |row| == 3 && |w| == 3 && line == "    " + a + b + c
    requires |a| == w[0] && |b| == w[1] && |c| == w[2] && 2 <= w[2]
    requires |row[0]| <= |a| && a[..|row[0]|] == row[0]
    requires |row[1]| <= |b| && b[..|row[1]|] == row[1]
    requires |row[2]| <= |c| && c[..|row[2]|] == row[2]
    requires c[|c| - 2..] == "  "
    ensures Aligned(line, row, w)
  {
    assert line[4..4 + w[0]] == a;
    CellPrefix(line, 4, a, row[0]);
    assert line[4 + w[0]..4 + w[0] + w[1]] == b;
    CellPrefix(line, 4 + w[0], b, row[1]);
    assert line[4 + w[0] + w[1]..] == c;
    CellPrefix(line, 4 + w[0] + w[1], c, row[2]);
    assert line[|line| - 2..] == c[|c| - 2..];
  }

  /** A cell's text sits at the start of the cell's columns. */
  lemma CellPrefix(line: string, p: nat, cell: string, s: string)
    requires p + |cell| <= |line| && line[p..p + |cell|] == cell
    requires |s| <= |cell| && cell[..|s|] == s
    ensures line[p..p + |s|] == s
  {
    assert line[p..p + |s|] == line[p..p + |cell|][..|s|];
  }

  /** Every body line has the same length, every cell starts at the same
      column in every line, and at least two spaces follow each cell. */
  lemma BodyAligned(rows: seq<seq<string>>, row: seq<string>)
    requires rows != [] && (forall r <- rows :: |r| == 3) && row in rows
    ensures Aligned(Line(row, ColumnWidths(rows)), row, ColumnWidths(rows))
  {
    var w := ColumnWidths(rows);
    assert |row[0]| + 2 <= w[0] && |row[1]| + 2 <= w[1] && |row[2]| + 2 <= w[2];
    LineLayout(row, w);
  }

  /** A failed probe's column holds "N/A" in every row, whatever the
      other probe found. */
  lemma FailedRows(found: Summary)
    ensures forall k :: 0 <= k < 5 ==> Rows(found, EMPTY)[k][2] == "N/A"
    ensures forall k :: 0 <= k < 5 ==> Rows(EMPTY, found)[k][1] == "N/A"
  {
    FailedCells();
  }

  /** Every cell of an empty summary is "N/A". */
  lemma FailedCells()
    ensures forall k :: 0 <= k < 5 ==> Cells(EMPTY)[k] == "N/A"
  {
  }

  /** The property column is always nineteen wide, for the longest label
      "Video codec & res"; a failed probe's column is five wide. */
  lemma FailedWidths(found: Summary)
    ensures ColumnWidths(Rows(found, EMPTY))[0] == 19 && ColumnWidths(Rows(found, EMPTY))[2] == 5
    ensures ColumnWidths(Rows(EMPTY, found))[0] == 19 && ColumnWidths(Rows(EMPTY, found))[1] == 5
  {
    FailedRows(found);
    LabelLengths();
    FailedColumnWidths(Rows(found, EMPTY), 2);
    FailedColumnWidths(Rows(EMPTY, found), 1);
  }

  /** "Video codec & res" is the longest label, seventeen long. */
  lemma LabelLengths()
    ensures forall i :: 0 <= i < 5 ==> |LABELS[i]| <= 17
    ensures |LABELS[3]| == 17
  {
  }

  /** The widths of a table whose labels are at most seventeen long, one
      of them exactly, and with a column of three-letter cells. */
  lemma FailedColumnWidths(rows: seq<seq<string>>, k: nat)
    requires |rows| == 5 && (forall row <- rows :: |row| == 3) && 0 < k < 3
    requires forall i :: 0 <= i < 5 ==> |rows[i][0]| <= 17 && |rows[i][k]| == 3
    requires |rows[3][0]| == 17
    ensures ColumnWidths(rows)[0] == 19 && ColumnWidths(rows)[k] == 5
  {
    assert forall row <- rows :: |row[0]| <= 17 && |row[k]| == 3;
  }

  /** A line is four spaces and each cell padded to its column, or left
      longer when it does not fit. */
  lemma LineLength(row: seq<string>, w: seq<nat>)
    requires |row| == 3 && |w| == 3
    ensures |Line(row, w)| == 4 + Max(|row[0]|, w[0]) + Max(|row[1]|, w[1]) + Max(|row[2]|, w[2])
  {
  }

  function Max(a: nat, b: nat): nat {
    if a < b then b else a
  }

  /** Since only body cells are measured, the header line is never
      shorter than a body line, and longer exactly when a header cell is
      wider than its column. */
  lemma HeaderNotCounted(rows: seq<seq<string>>, header: seq<string>, row: seq<string>)
    requires rows != [] && (forall r <- rows :: |r| == 3) && row in rows && |header| == 3
    ensures var w := ColumnWidths(rows);
            && |Line(header, w)| >= |Line(row, w)|
            && (|Line(header, w)| == |Line(row, w)| <==> |header[0]| <= w[0] && |header[1]| <= w[1] && |header[2]| <= w[2])
  {
    var w := ColumnWidths(rows);
    LineLength(header, w);
    LineLength(row, w);
  }

  /** With a failed probe the header is wider than the body: "Compressed"
      (or "Original") overhangs the five columns of "N/A". */
  lemma FailedHeaderOverhangs(found: Summary)
    ensures var rows := Rows(found, EMPTY);
            |Line(HEADER, ColumnWidths(rows))| >= |Line(rows[0], ColumnWidths(rows))| + 5
    ensures var rows := Rows(EMPTY, found);
            |Line(HEADER, ColumnWidths(rows))| >= |Line(rows[0], ColumnWidths(rows))| + 3
  {
    FailedWidths(found);
    Overhang(Rows(found, EMPTY), 2, 5);
    Overhang(Rows(EMPTY, found), 1, 3);
  }

  /** The header line overhangs a body line by at least the excess of
      header cell `k` over its column. */
  lemma Overhang(rows: seq<seq<string>>, k: nat, excess: nat)
    requires rows != [] && (forall r <- rows :: |r| == 3) && 0 < k < 3
    requires ColumnWidths(rows)[k] == 5 && |HEADER[k]| >= 5 + excess
    ensures |Line(HEADER, ColumnWidths(rows))| >= |Line(rows[0], ColumnWidths(rows))| + excess
  {
    var w := ColumnWidths(rows);
    LineLength(HEADER, w);
    LineLength(rows[0], w);
    assert rows[0] in rows;
  }
}
