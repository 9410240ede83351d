/** Shared helpers: optional and failure values, the ASCII part of Python's
    string methods (strip, lower, upper, startswith, endswith, `in`,
    split), decimal rendering as `str(int)` produces it, and the text
    grammars that Python's `int(str)` and `float(str)` accept, read as exact
    integers and reals. */
module Common {

  datatype Option<T> = None | Some(value: T)

  datatype Result<T, E> = Ok(value: T) | Err(error: E)

  // ---------------------------------------------------------------------
  // Characters
  // ---------------------------------------------------------------------

  /** The ASCII characters for which Python's `str.isspace()` holds:
      tab, line feed, vertical tab, form feed, carriage return, the four
      information separators 0x1C-0x1F, and space. */
  predicate IsSpace(c: char) {
    (9 <= c as int <= 13) || (28 <= c as int <= 32)
  }

  predicate IsDigit(c: char) {
    '0' <= c <= '9'
  }

  function DigitValue(c: char): (d: nat)
    requires IsDigit(c)
    ensures d < 10
  {
    (c as int) - ('0' as int)
  }

  function DigitChar(d: nat): (c: char)
    requires d < 10
    ensures IsDigit(c) && DigitValue(c) == d
  {
    (('0' as int) + d) as char
  }

  function LowerChar(c: char): (r: char)
    ensures 'A' <= c <= 'Z' ==> r as int == c as int + 32
    ensures !('A' <= c <= 'Z') ==> r == c
  {
    if 'A' <= c <= 'Z' then ((c as int) + 32) as char else c
  }

  function UpperChar(c: char): (r: char)
    ensures 'a' <= c <= 'z' ==> r as int == c as int - 32
    ensures !('a' <= c <= 'z') ==> r == c
  {
    if 'a' <= c <= 'z' then ((c as int) - 32) as char else c
  }

  // ---------------------------------------------------------------------
  // Case mapping and whitespace
  // ---------------------------------------------------------------------

  /** `s.lower()` on the ASCII letters. */
  function Lower(s: string): (r: string)
    ensures |r| == |s|
    ensures forall i :: 0 <= i < |s| ==> r[i] == LowerChar(s[i])
  {
    if s == [] then [] else [LowerChar(s[0])] + Lower(s[1..])
  }

  lemma LowerAppend(a: string, b: string)
    ensures Lower(a + b) == Lower(a) + Lower(b)
  {
    assert forall i :: 0 <= i < |a + b| ==> Lower(a + b)[i] == (Lower(a) + Lower(b))[i];
  }

  /** Lower-casing twice is lower-casing once. */
  lemma LowerIdempotent(s: string)
    ensures Lower(Lower(s)) == Lower(s)
  {
    forall i | 0 <= i < |s|
      ensures Lower(Lower(s))[i] == Lower(s)[i]
    {
      var c := s[i];
      assert Lower(s)[i] == LowerChar(c);
    }
  }

  /** `s.upper()` on the ASCII letters. */
  function Upper(s: string): (r: string)
    ensures |r| == |s|
    ensures forall i :: 0 <= i < |s| ==> r[i] == UpperChar(s[i])
  {
    if s == [] then [] else [UpperChar(s[0])] + Upper(s[1..])
  }

  function StripLeft(s: string): (r: string)
    ensures |r| <= |s|
    ensures r == [] || !IsSpace(r[0])
  {
    if s != [] && IsSpace(s[0]) then StripLeft(s[1..]) else s
  }

  function StripRight(s: string): (r: string)
    ensures |r| <= |s|
    ensures r == [] || !IsSpace(r[|r| - 1])
  {
    if s != [] && IsSpace(s[|s| - 1]) then StripRight(s[..|s| - 1]) else s
  }

  /** `lstrip` cuts off leading white space only. */
  lemma {:induction false} StripLeftSlice(s: string)
    ensures StripLeft(s) == s[|s| - |StripLeft(s)|..]
    ensures forall i :: 0 <= i < |s| - |StripLeft(s)| ==> IsSpace(s[i])
    decreases |s|
  {
    if s != [] && IsSpace(s[0]) {
      StripLeftSlice(s[1..]);
    }
  }

  /** `rstrip` cuts off trailing white space only. */
  lemma {:induction false} StripRightSlice(s: string)
    ensures StripRight(s) == s[..|StripRight(s)|]
    ensures forall i :: |StripRight(s)| <= i < |s| ==> IsSpace(s[i])
    decreases |s|
  {
    if s != [] && IsSpace(s[|s| - 1]) {
      StripRightSlice(s[..|s| - 1]);
    }
  }

  /** Neither starts nor ends with white space. */
  predicate Unpadded(s: string) {
    s == [] || (!IsSpace(s[0]) && !IsSpace(s[|s| - 1]))
  }

  /** `s.strip()`. */
  function Strip(s: string): (r: string)
    ensures |r| <= |s| && Unpadded(r)
  {
    var l := StripLeft(s);
    StripRightSlice(l);
    StripRight(l)
  }

  /** What `strip` keeps is the longest slice of `s` that neither starts
      nor ends with white space: everything cut off is white space. */
  lemma StripIsSlice(s: string)
    ensures exists i, j :: 0 <= i <= j <= |s| && Strip(s) == s[i..j]
                           && (forall k :: 0 <= k < i ==> IsSpace(s[k]))
                           && (forall k :: j <= k < |s| ==> IsSpace(s[k]))
  {
    var l := StripLeft(s);
    var r := StripRight(l);
    StripLeftSlice(s);
    StripRightSlice(l);
    assert r == s[|s| - |l|..|s| - |l| + |r|];
  }

  // ---------------------------------------------------------------------
  // Prefixes, suffixes, substrings
  // ---------------------------------------------------------------------

  predicate StartsWith<T(==)>(s: seq<T>, p: seq<T>) {
    |p| <= |s| && s[..|p|] == p
  }

  predicate EndsWith<T(==)>(s: seq<T>, p: seq<T>) {
    |p| <= |s| && s[|s| - |p|..] == p
  }

  /** Python's `p in s` for strings: `p` starts at some position of `s`. */
  predicate Contains<T(==)>(s: seq<T>, p: seq<T>)
    decreases |s|
  {
    StartsWith(s, p) || (s != [] && Contains(s[1..], p))
  }

  /** Index of the first `c` in `s`, as `str.find` gives it. */
  function Find<T(==)>(s: seq<T>, c: T): (r: Option<nat>)
    ensures r.Some? ==> r.value < |s| && s[r.value] == c
                        && forall k :: 0 <= k < r.value ==> s[k] != c
    ensures r.None? ==> c !in s
  {
    if s == [] then None
    else if s[0] == c then Some(0)
    else match Find(s[1..], c)
      case None => None
      case Some(i) => Some(i + 1)
  }

  /** Index of the last `c` in `s`, as `str.rfind` gives it. */
  function RFind<T(==)>(s: seq<T>, c: T): (r: Option<nat>)
    ensures r.Some? ==> r.value < |s| && s[r.value] == c
                        && forall k :: r.value < k < |s| ==> s[k] != c
    ensures r.None? ==> c !in s
  {
    if s == [] then None
    else if s[|s| - 1] == c then Some(|s| - 1)
    else RFind(s[..|s| - 1], c)
  }

  /** `s.split(sep, 1)` for a separator that occurs in `s`. */
  function SplitOnce<T(==)>(s: seq<T>, sep: T): (r: (seq<T>, seq<T>))
    requires sep in s
    ensures r.0 + [sep] + r.1 == s
    ensures sep !in r.0
  {
    var i := Find(s, sep).value;
    assert s == s[..i] + [sep] + s[i + 1..];
    (s[..i], s[i + 1..])
  }

  /** The split happens at the first separator: any decomposition whose
      left part has no separator is the one `SplitOnce` finds. */
  lemma SplitOnceUnique<T>(a: seq<T>, sep: T, b: seq<T>)
    requires sep !in a
    ensures sep in a + [sep] + b
    ensures SplitOnce(a + [sep] + b, sep) == (a, b)
  {
    var s := a + [sep] + b;
    assert s[|a|] == sep;
    var r := SplitOnce(s, sep);
    assert r.0 == s[..|a|] == a;
    assert r.1 == s[|a| + 1..] == b;
  }

  /** `s.split(sep)`: every piece between separators, in order. */
  function Split<T(==)>(s: seq<T>, sep: T): (r: seq<seq<T>>)
    ensures |r| >= 1
    ensures forall k :: 0 <= k < |r| ==> sep !in r[k]
    decreases |s|
  {
    match Find(s, sep)
    case None => [s]
    case Some(i) => [s[..i]] + Split(s[i + 1..], sep)
  }

  /** Joining the pieces of `Split` with the separator gives the string back. */
  lemma {:induction false} SplitJoin<T>(s: seq<T>, sep: T)
    ensures Join(Split(s, sep), [sep]) == s
    decreases |s|
  {
    match Find(s, sep)
    case None =>
    case Some(i) =>
      var rest := Split(s[i + 1..], sep);
      var parts := [s[..i]] + rest;
      assert Split(s, sep) == parts;
      assert |parts| >= 2 && parts[0] == s[..i] && parts[1..] == rest;
      assert Join(parts, [sep]) == s[..i] + [sep] + Join(rest, [sep]);
      SplitJoin(s[i + 1..], sep);
      assert s == s[..i] + [sep] + s[i + 1..];
  }

  function Join<T>(parts: seq<seq<T>>, sep: seq<T>): seq<T> {
    if parts == [] then []
    else if |parts| == 1 then parts[0]
    else parts[0] + sep + Join(parts[1..], sep)
  }

  // ---------------------------------------------------------------------
  // Decimal integers
  // ---------------------------------------------------------------------

  function Pow10(n: nat): (r: nat)
    ensures r >= 1
  {
    if n == 0 then 1 else 10 * Pow10(n - 1)
  }

  predicate AllDigits(s: string) {
    forall i :: 0 <= i < |s| ==> IsDigit(s[i])
  }

  /** The value of a string of decimal digits, most significant first. */
  function DigitsValue(s: string): (v: nat)
    requires AllDigits(s)
    ensures v < Pow10(|s|)
  {
    if s == [] then 0 else DigitsValue(s[..|s| - 1]) * 10 + DigitValue(s[|s| - 1])
  }

  /** `str(n)` for a natural number: no leading zeros. */
  function NatToString(n: nat): (s: string)
    ensures |s| >= 1
  {
    if n < 10 then [DigitChar(n)] else NatToString(n / 10) + [DigitChar(n % 10)]
  }

  /** The text of `str(n)` is digits, without a leading zero. */
  lemma {:induction false} NatToStringDigits(n: nat)
    ensures AllDigits(NatToString(n))
    ensures |NatToString(n)| > 1 ==> NatToString(n)[0] != '0'
  {
    if n >= 10 {
      NatToStringDigits(n / 10);
    }
  }

  /** `str(i)` for any integer. */
  function IntToString(i: int): (s: string)
    ensures |s| >= 1
  {
    if i >= 0 then NatToString(i) else "-" + NatToString(-i)
  }

  /** `str(i)` is digits, after a minus sign for a negative number. */
  lemma IntToStringDigits(i: int)
    ensures i >= 0 ==> AllDigits(IntToString(i))
    ensures i < 0 ==> IntToString(i)[0] == '-' && AllDigits(IntToString(i)[1..])
  {
    if i >= 0 {
      NatToStringDigits(i);
    } else {
      NatToStringDigits(-i);
      assert IntToString(i)[1..] == NatToString(-i);
    }
  }

  /** `str(i)` has no white space at its ends. */
  lemma IntToStringUnpadded(i: int)
    ensures Unpadded(IntToString(i))
  {
    var s := IntToString(i);
    IntToStringDigits(i);
    if i >= 0 {
      assert IsDigit(s[0]) && IsDigit(s[|s| - 1]);
    } else {
      assert s[1..][|s| - 2] == s[|s| - 1];
      assert IsDigit(s[|s| - 1]);
    }
  }

  lemma {:induction false} NatToStringValue(n: nat)
    ensures AllDigits(NatToString(n))
    ensures DigitsValue(NatToString(n)) == n
  {
    NatToStringDigits(n);
    if n >= 10 {
      NatToStringValue(n / 10);
      var s := NatToString(n);
      assert s[..|s| - 1] == NatToString(n / 10);
    }
  }

  /** `str(n)` is one-to-one. */
  lemma NatToStringInjective(m: nat, n: nat)
    requires NatToString(m) == NatToString(n)
    ensures m == n
  {
    NatToStringValue(m);
    NatToStringValue(n);
  }

  // ---------------------------------------------------------------------
  // The text grammar of Python's int() and float()
  // ---------------------------------------------------------------------

  /** A digit part as Python's number grammar has it: digits, with single
      underscores allowed between two digits ("1_000"). */
  predicate IsDigitPart(s: string)
    decreases |s|
  {
    |s| > 0 && IsDigit(s[0]) &&
    (|s| == 1 || IsDigitPart(s[1..]) || (s[1] == '_' && IsDigitPart(s[2..])))
  }

  /** The digits of a digit part without its underscores. */
  function DropUnderscores(s: string): (r: string)
    ensures |r| <= |s|
  {
    if s == [] then [] else (if s[0] == '_' then [] else [s[0]]) + DropUnderscores(s[1..])
  }

  lemma {:induction false} DigitPartDigits(s: string)
    requires IsDigitPart(s)
    ensures AllDigits(DropUnderscores(s)) && |DropUnderscores(s)| >= 1
    decreases |s|
  {
    if |s| > 1 {
      if IsDigitPart(s[1..]) {
        DigitPartDigits(s[1..]);
      } else {
        DigitPartDigits(s[2..]);
        assert DropUnderscores(s[1..]) == DropUnderscores(s[2..]);
      }
    }
  }

  function DigitPartValue(s: string): nat
    requires IsDigitPart(s)
  {
    DigitPartDigits(s);
    DigitsValue(DropUnderscores(s))
  }

  /** Number of digits (underscores not counted) of a digit part. */
  function DigitPartLength(s: string): nat
    requires IsDigitPart(s)
  {
    |DropUnderscores(s)|
  }

  /** `int(text)` in base 10: white space around, an optional sign, a
      digit part.  `None` is the ValueError. */
  function ParseIntText(text: string): (r: Option<int>)
  {
    var t := Strip(text);
    if t == [] then None
    else if (t[0] == '+' || t[0] == '-') then
      (if IsDigitPart(t[1..]) then
         var v: int := DigitPartValue(t[1..]);
         Some(if t[0] == '-' then -v else v)
       else None)
    else if IsDigitPart(t) then Some(DigitPartValue(t))
    else None
  }

  lemma DropUnderscoresDigits(s: string)
    requires AllDigits(s)
    ensures DropUnderscores(s) == s
  {
    if s != [] {
      DropUnderscoresDigits(s[1..]);
    }
  }

  lemma {:induction false} AllDigitsIsDigitPart(s: string)
    requires AllDigits(s) && |s| >= 1
    ensures IsDigitPart(s)
    decreases |s|
  {
    if |s| > 1 {
      AllDigitsIsDigitPart(s[1..]);
    }
  }

  lemma StripUnpadded(s: string)
    requires Unpadded(s)
    ensures Strip(s) == s
  {
    assert StripLeft(s) == s;
    assert StripRight(s) == s;
  }

  lemma NatTextIsDigitPart(n: nat)
    ensures IsDigitPart(NatToString(n))
    ensures DigitPartValue(NatToString(n)) == n
  {
    var d := NatToString(n);
    NatToStringDigits(n);
    AllDigitsIsDigitPart(d);
    DropUnderscoresDigits(d);
    NatToStringValue(n);
  }

  /** `int(str(i)) == i`. */
  lemma ParseIntTextRoundTrip(i: int)
    ensures ParseIntText(IntToString(i)) == Some(i)
  {
    var s := IntToString(i);
    var n: nat := if i >= 0 then i else -i;
    var d := NatToString(n);
    NatTextIsDigitPart(n);
    if i >= 0 {
      assert s == d;
      StripUnpadded(s);
      assert s[0] != '+' && s[0] != '-';
    } else {
      assert s == "-" + d;
      assert s[1..] == d;
      StripUnpadded(s);
    }
  }

  /** A decimal literal as `float(text)` reads it, after the sign: a
      mantissa `digits[.digits]` or `.digits`, then an optional exponent
      `e[+|-]digits`.  The value is exact; IEEE rounding is not modelled. */
  function MantissaValue(m: string): Option<real>
  {
    if '.' in m then
      var (ip, fp) := SplitOnce(m, '.');
      if ip == [] && fp == [] then None
      else if (ip != [] && !IsDigitPart(ip)) || (fp != [] && !IsDigitPart(fp)) then None
      else
        var iv: real := if ip == [] then 0.0 else DigitPartValue(ip) as real;
        var fv: real := if fp == [] then 0.0
                        else DigitPartValue(fp) as real / Pow10(DigitPartLength(fp)) as real;
        Some(iv + fv)
    else if IsDigitPart(m) then Some(DigitPartValue(m) as real)
    else None
  }

  function ExponentValue(e: string): Option<int>
  {
    if e != [] && (e[0] == '+' || e[0] == '-') then
      (if IsDigitPart(e[1..]) then
         var v: int := DigitPartValue(e[1..]);
         Some(if e[0] == '-' then -v else v)
       else None)
    else if IsDigitPart(e) then Some(DigitPartValue(e))
    else None
  }

  function Scale(m: real, e: int): real {
    if e >= 0 then m * Pow10(e) as real else m / Pow10(-e) as real
  }

  function UnsignedDecimal(t: string): Option<real>
  {
    var lower := Lower(t);
    if 'e' in lower then
      var (m, e) := SplitOnce(lower, 'e');
      match (MantissaValue(m), ExponentValue(e))
      case (Some(mv), Some(ev)) => Some(Scale(mv, ev))
      case _ => None
    else MantissaValue(t)
  }

  /** `float(text)` for decimal literals.  `None` is the ValueError; the
      literals "inf", "infinity" and "nan" are not modelled and read as
      `None` too. */
  function ParseFloatText(text: string): (r: Option<real>)
  {
    var t := Strip(text);
    if t == [] then None
    else if t[0] == '+' || t[0] == '-' then
      match UnsignedDecimal(t[1..])
      case None => None
      case Some(v) => Some(if t[0] == '-' then -v else v)
    else UnsignedDecimal(t)
  }

  /** Every text `int()` accepts, `float()` accepts with the same value. */
  lemma IntTextIsFloatText(text: string)
    requires ParseIntText(text).Some?
    ensures ParseFloatText(text) == Some(ParseIntText(text).value as real)
  {
    var t := Strip(text);
    if t[0] == '+' || t[0] == '-' {
      DigitPartIsDecimal(t[1..]);
    } else {
      DigitPartIsDecimal(t);
    }
  }

  /** A digit part reads as the same number through `float()`'s grammar. */
  lemma DigitPartIsDecimal(u: string)
    requires IsDigitPart(u)
    ensures UnsignedDecimal(u) == Some(DigitPartValue(u) as real)
  {
    DigitPartNoLetters(u);
    assert '.' !in u;
    LowerKeepsDigitPart(u);
  }

  lemma {:induction false} DigitPartNoLetters(s: string)
    requires IsDigitPart(s)
    ensures forall k :: 0 <= k < |s| ==> IsDigit(s[k]) || s[k] == '_'
    decreases |s|
  {
    if |s| > 1 {
      if IsDigitPart(s[1..]) {
        DigitPartNoLetters(s[1..]);
      } else {
        DigitPartNoLetters(s[2..]);
      }
    }
  }

  lemma LowerKeepsDigitPart(s: string)
    requires forall k :: 0 <= k < |s| ==> IsDigit(s[k]) || s[k] == '_'
    ensures 'e' !in Lower(s)
  {
    var l := Lower(s);
    forall k | 0 <= k < |l| ensures l[k] != 'e' {
      assert l[k] == LowerChar(s[k]);
    }
  }

  // ---------------------------------------------------------------------
  // Python's int() on a real, and ceil/floor
  // ---------------------------------------------------------------------

  /** `int(x)` for a float: truncation toward zero. */
  function Trunc(x: real): (r: int)
    ensures x >= 0.0 ==> r as real <= x < r as real + 1.0
    ensures x < 0.0 ==> r as real - 1.0 < x <= r as real
  {
    if x >= 0.0 then x.Floor else -((-x).Floor)
  }

  /** `math.ceil(x)`. */
  function Ceil(x: real): (r: int)
    ensures x <= r as real < x + 1.0
  {
    -((-x).Floor)
  }

  // ---------------------------------------------------------------------
  // Python's repr() of text
  // ---------------------------------------------------------------------

  function HexDigit(d: nat): (c: char)
    requires d < 16
    ensures IsDigit(c) || 'a' <= c <= 'f'
  {
    if d < 10 then DigitChar(d) else ('a' as int + (d - 10)) as char
  }

  /** The escape of one character inside quotes `q`: the quote and the
      backslash get a backslash, tab, newline and carriage return their
      letters, the other ASCII control characters `\xNN`. */
  function EscapeChar(c: char, q: char): (r: string)
    ensures |r| >= 1
    ensures (r == [c]) <==> c != q && c != '\\' && ' ' <= c && c as int != 0x7F
  {
    if c == q || c == '\\' then ['\\', c]
    else if c == '\t' then "\\t"
    else if c == '\n' then "\\n"
    else if c == '\r' then "\\r"
    else if c < ' ' || c as int == 0x7F then ['\\', 'x', HexDigit(c as int / 16), HexDigit(c as int % 16)]
    else [c]
  }

  function Escaped(s: string, q: char): (r: string)
    ensures |r| >= |s|
  {
    if s == [] then [] else Escaped(s[..|s| - 1], q) + EscapeChar(s[|s| - 1], q)
  }

  /** Text `repr()` writes without escapes inside quotes `q`. */
  predicate PlainText(s: string, q: char) {
    forall i :: 0 <= i < |s| ==> s[i] != q && s[i] != '\\' && ' ' <= s[i] && s[i] as int != 0x7F
  }

  /** The quote `repr()` chooses: double quotes when the text holds a
      single quote and no double quote, single quotes otherwise. */
  function ReprQuote(s: string): (q: char)
    ensures q == '"' <==> '\'' in s && '"' !in s
    ensures q == '\'' || q == '"'
  {
    if '\'' in s && '"' !in s then '"' else '\''
  }

  /** `repr()` of a `str`, for ASCII text. */
  function Repr(s: string): (r: string)
    ensures |r| >= |s| + 2 && r[0] == r[|r| - 1] == ReprQuote(s)
  {
    var q := ReprQuote(s);
    [q] + Escaped(s, q) + [q]
  }

  /** Escaping leaves plain text as it is; a text that needs no escape
      comes back between its quotes. */
  lemma {:induction false} EscapedPlain(s: string, q: char)
    requires PlainText(s, q)
    ensures Escaped(s, q) == s
  {
    if s != [] {
      EscapedPlain(s[..|s| - 1], q);
      assert s == s[..|s| - 1] + [s[|s| - 1]];
    }
  }

  lemma ReprPlain(s: string)
    requires PlainText(s, ReprQuote(s))
    ensures Repr(s) == [ReprQuote(s)] + s + [ReprQuote(s)]
  {
    EscapedPlain(s, ReprQuote(s));
  }

  /** `str()` of a list of `str`: the items' `repr()`s between brackets,
      separated by a comma and a space. */
  function ListText(xs: seq<string>): (r: string)
    ensures |r| >= 2 && r[0] == '[' && r[|r| - 1] == ']'
  {
    "[" + Join(Reprs(xs), ", ") + "]"
  }

  function Reprs(xs: seq<string>): (r: seq<string>)
    ensures |r| == |xs| && forall i :: 0 <= i < |xs| ==> r[i] == Repr(xs[i])
  {
    if xs == [] then [] else Reprs(xs[..|xs| - 1]) + [Repr(xs[|xs| - 1])]
  }

  // ---------------------------------------------------------------------
  // Sequences
  // ---------------------------------------------------------------------

  predicate Distinct<T(==)>(s: seq<T>) {
    forall i, j :: 0 <= i < j < |s| ==> s[i] != s[j]
  }

  /** A new element appended to a list without repeats makes none. */
  lemma DistinctSnoc<T>(s: seq<T>, x: T)
    requires Distinct(s) && x !in s
    ensures Distinct(s + [x])
  {
    var r := s + [x];
    forall i, j | 0 <= i < j < |r|
      ensures r[i] != r[j]
    {
      assert r[i] == s[i];
      if j < |s| {
        assert r[j] == s[j];
      }
    }
  }

  function RangeSet(n: nat): (r: set<int>)
    ensures forall x :: x in r <==> 0 <= x < n
    ensures |r| == n
  {
    if n == 0 then {} else
      var prev := RangeSet(n - 1);
      assert n - 1 !in prev;
      prev + {n - 1}
  }

  lemma {:induction false} DistinctCard<T>(s: seq<T>)
    requires Distinct(s)
    ensures |set x | x in s| == |s|
  {
    if s != [] {
      var t := s[..|s| - 1];
      DistinctCard(t);
      assert (set x | x in s) == (set x | x in t) + {s[|s| - 1]};
      assert s[|s| - 1] !in (set x | x in t);
    }
  }

  /** Pigeonhole: distinct values below `n` number at most `n`. */
  lemma DistinctBounded(s: seq<int>, n: nat)
    requires Distinct(s)
    requires forall k :: 0 <= k < |s| ==> 0 <= s[k] < n
    ensures |s| <= n
  {
    DistinctCard(s);
    var r := RangeSet(n);
    SubsetCard((set x | x in s), r);
  }

  lemma {:induction false} SubsetCard<T>(a: set<T>, b: set<T>)
    requires a <= b
    ensures |a| <= |b|
    decreases |a|
  {
    if a != {} {
      var x :| x in a;
      SubsetCard(a - {x}, b - {x});
    }
  }
}
