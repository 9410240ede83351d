/** The parts of `pathlib` the compression scripts rely on, for POSIX
    paths: a path is its list of parts (the root, when there is one, is
    the part "/"), `name`, `suffix` and `stem` cut the last part at its
    last dot, and paths are ordered by comparing their part lists
    lexicographically, each part by code points. */
module Paths {
  import opened Common

  type Path = seq<string>

  /** `path.name`: the last part, and "" for the root or the empty path. */
  function Name(p: Path): (r: string)
    ensures p != [] && p[|p| - 1] != "/" ==> r == p[|p| - 1]
  {
    if p == [] || p[|p| - 1] == "/" then "" else p[|p| - 1]
  }

  /** Where `suffix` and `stem` split a name: its last dot, when that is
      neither the first nor the last character. */
  function SuffixStart(name: string): (r: Option<nat>)
    ensures r.Some? ==> 0 < r.value < |name| - 1 && name[r.value] == '.'
                        && forall k :: r.value < k < |name| ==> name[k] != '.'
    ensures r.None? ==> forall k :: 0 < k < |name| - 1 ==> name[k] == '.' ==> exists j :: k < j < |name| && name[j] == '.'
  {
    match RFind(name, '.')
    case None => None
    case Some(i) => if 0 < i < |name| - 1 then Some(i) else None
  }

  /** `PurePath.suffix` of a name. */
  function Suffix(name: string): (r: string)
    ensures r == [] || r[0] == '.'
    ensures '.' !in (if r == [] then [] else r[1..])
  {
    match SuffixStart(name)
    case None => ""
    case Some(i) => name[i..]
  }

  /** `PurePath.stem` of a name. */
  function Stem(name: string): (r: string)
    ensures |r| <= |name| && name[..|r|] == r
  {
    match SuffixStart(name)
    case None => name
    case Some(i) => name[..i]
  }

  /** The stem and the suffix make up the name. */
  lemma StemSuffix(name: string)
    ensures Stem(name) + Suffix(name) == name
  {
    match SuffixStart(name)
    case None =>
    case Some(i) =>
      assert name == name[..i] + name[i..];
  }

  /** A name without a dot is its own stem and has no suffix. */
  lemma NoDotName(name: string)
    requires '.' !in name
    ensures Suffix(name) == "" && Stem(name) == name
  {
  }

  /** A stem and a suffix of a dot and letters give them back, as a
      temporary `stem_timestamp.mp4` splits into `stem_timestamp` and
      `.mp4`. */
  lemma SplitName(stem: string, ext: string)
    requires stem != []
    requires |ext| >= 2 && ext[0] == '.' && '.' !in ext[1..]
    ensures Suffix(stem + ext) == ext && Stem(stem + ext) == stem
  {
    var name := stem + ext;
    var i := |stem|;
    assert name[i] == '.';
    forall k | i < k < |name|
      ensures name[k] != '.'
    {
      assert name[k] == ext[1..][k - i - 1];
    }
    var r := RFind(name, '.');
    assert r.Some?;
    assert r.value == i;
    assert name[..i] == stem && name[i..] == ext;
  }

  /** `Path(f"{input.stem}_{ts}{ext}")`: a name in the working directory
      made unique by a timestamp. */
  function Timestamped(input: Path, ts: string, ext: string): Path {
    [Stem(Name(input)) + "_" + ts + ext]
  }

  /** A timestamped name with a suffix splits back into `{stem}_{ts}`
      and that suffix, and giving the stem the same suffix instead keeps
      the input's stem. */
  lemma TimestampedNames(input: Path, ts: string, ext: string)
    requires Stem(Name(input)) != []
    requires |ext| >= 2 && ext[0] == '.' && '.' !in ext[1..]
    ensures Stem(Name(Timestamped(input, ts, ext))) == Stem(Name(input)) + "_" + ts
    ensures Suffix(Name(Timestamped(input, ts, ext))) == ext
    ensures Stem(Stem(Name(input)) + ext) == Stem(Name(input))
  {
    var stem := Stem(Name(input));
    assert (stem + "_" + ts + ext)[0] == stem[0];
    SplitName(stem + "_" + ts, ext);
    SplitName(stem, ext);
  }

  /** What a script does to the file system, in order: run FFmpeg with a
      command, its output going to a log file; remove a file if it is
      there; move a file. */
  datatype Action = RunFfmpeg(cmd: seq<string>, log: Path) | Discard(path: Path) | Move(from: Path, to: Path)

  /** `base / name` for a name of one part. */
  function Child(base: Path, name: string): (r: Path)
    ensures |r| == |base| + 1 && r[..|base|] == base
    ensures name != [] && name != "/" ==> Name(r) == name
  {
    base + [name]
  }

  /** `str(path)`: the parts joined by "/", with a single "/" after the
      root and "." for the empty path. */
  function PathText(p: Path): string {
    if p == [] then "."
    else if p[0] == "/" then "/" + Join(p[1..], "/")
    else Join(p, "/")
  }

  // ---------------------------------------------------------------------
  // Ordering
  // ---------------------------------------------------------------------

  /** `a < b` on strings: the first differing character decides, and a
      proper prefix comes first. */
  predicate StrLess(a: string, b: string)
    decreases |a|
  {
    b != [] && (a == [] || a[0] < b[0] || (a[0] == b[0] && StrLess(a[1..], b[1..])))
  }

  lemma {:induction false} StrLessIrreflexive(a: string)
    ensures !StrLess(a, a)
    decreases |a|
  {
    if a != [] {
      StrLessIrreflexive(a[1..]);
    }
  }

  lemma {:induction false} StrLessTotal(a: string, b: string)
    ensures a == b || StrLess(a, b) || StrLess(b, a)
    decreases |a|
  {
    if a != [] && b != [] && a[0] == b[0] {
      StrLessTotal(a[1..], b[1..]);
      if a[1..] == b[1..] {
        assert a == [a[0]] + a[1..] && b == [b[0]] + b[1..];
      }
    }
  }

  lemma {:induction false} StrLessTransitive(a: string, b: string, c: string)
    requires StrLess(a, b) && StrLess(b, c)
    ensures StrLess(a, c)
    decreases |a|
  {
    if a != [] && a[0] == b[0] && b[0] == c[0] {
      StrLessTransitive(a[1..], b[1..], c[1..]);
    }
  }

  /** `a < b` on paths: their part lists compared lexicographically. */
  predicate PathLess(a: Path, b: Path)
    decreases |a|
  {
    b != [] && (a == [] || StrLess(a[0], b[0]) || (a[0] == b[0] && PathLess(a[1..], b[1..])))
  }

  lemma {:induction false} PathLessIrreflexive(a: Path)
    ensures !PathLess(a, a)
    decreases |a|
  {
    if a != [] {
      StrLessIrreflexive(a[0]);
      PathLessIrreflexive(a[1..]);
    }
  }

  lemma {:induction false} PathLessTotal(a: Path, b: Path)
    ensures a == b || PathLess(a, b) || PathLess(b, a)
    decreases |a|
  {
    if a != [] && b != [] {
      StrLessTotal(a[0], b[0]);
      if a[0] == b[0] {
        PathLessTotal(a[1..], b[1..]);
        if a[1..] == b[1..] {
          assert a == [a[0]] + a[1..] && b == [b[0]] + b[1..];
        }
      }
    }
  }

  lemma {:induction false} PathLessTransitive(a: Path, b: Path, c: Path)
    requires PathLess(a, b) && PathLess(b, c)
    ensures PathLess(a, c)
    decreases |a|
  {
    if a != [] {
      if StrLess(a[0], b[0]) && StrLess(b[0], c[0]) {
        StrLessTransitive(a[0], b[0], c[0]);
      } else if a[0] == b[0] && b[0] == c[0] {
        PathLessTransitive(a[1..], b[1..], c[1..]);
      }
    }
  }

  /** Ascending order, as `list.sort()` leaves it. */
  predicate Sorted(s: seq<Path>) {
    forall i, j :: 0 <= i < j < |s| ==> !PathLess(s[j], s[i])
  }

  /** `x` put into the sorted `s` before the first element above it. */
  function Insert(s: seq<Path>, x: Path): (r: seq<Path>)
    requires Sorted(s)
    ensures Sorted(r) && multiset(r) == multiset(s) + multiset{x}
    decreases |s|
  {
    if s == [] then [x]
    else if PathLess(s[0], x) then
      var rest := Insert(s[1..], x);
      assert s == [s[0]] + s[1..];
      InsertSorted(s[0], rest, s[1..], x);
      [s[0]] + rest
    else
      PathLessTotal(s[0], x);
      InsertFront(x, s);
      [x] + s
  }

  /** An element at most every element of a sorted list can lead it. */
  lemma InsertFront(x: Path, s: seq<Path>)
    requires Sorted(s) && s != [] && !PathLess(s[0], x)
    ensures Sorted([x] + s)
  {
    var r := [x] + s;
    forall i, j | 0 <= i < j < |r|
      ensures !PathLess(r[j], r[i])
    {
      if i == 0 {
        var y := s[j - 1];
        assert r[j] == y && r[i] == x;
        PathLessIrreflexive(s[0]);
        PathLessTotal(y, s[0]);
        if PathLess(s[0], y) && PathLess(y, x) {
          PathLessTransitive(s[0], y, x);
        }
      } else {
        assert r[j] == s[j - 1] && r[i] == s[i - 1];
      }
    }
  }

  /** Inserting a new element into a list without repeats makes none. */
  lemma {:induction false} InsertDistinct(s: seq<Path>, x: Path)
    requires Sorted(s) && Distinct(s) && x !in s
    ensures Distinct(Insert(s, x))
    decreases |s|
  {
    if s != [] && PathLess(s[0], x) {
      assert s == [s[0]] + s[1..];
      InsertDistinct(s[1..], x);
      DistinctCons(s[0], Insert(s[1..], x), s[1..], x);
    }
  }

  lemma DistinctCons(head: Path, rest: seq<Path>, tail: seq<Path>, x: Path)
    requires Distinct([head] + tail) && head != x && Distinct(rest)
    requires multiset(rest) == multiset(tail) + multiset{x}
    ensures Distinct([head] + rest)
  {
    forall k | 0 <= k < |tail|
      ensures tail[k] != head
    {
      assert ([head] + tail)[k + 1] == tail[k] && ([head] + tail)[0] == head;
    }
    assert head !in multiset(rest);
    var r := [head] + rest;
    forall i, j | 0 <= i < j < |r|
      ensures r[i] != r[j]
    {
      assert r[j] == rest[j - 1];
      if i > 0 {
        assert r[i] == rest[i - 1];
      } else {
        assert rest[j - 1] in multiset(rest);
      }
    }
  }

  lemma InsertSorted(head: Path, rest: seq<Path>, tail: seq<Path>, x: Path)
    requires Sorted([head] + tail) && Sorted(rest) && PathLess(head, x)
    requires multiset(rest) == multiset(tail) + multiset{x}
    ensures Sorted([head] + rest)
  {
    var r := [head] + rest;
    forall j | 0 < j < |r|
      ensures !PathLess(r[j], head)
    {
      assert r[j] == rest[j - 1];
      assert r[j] in multiset(rest);
      if r[j] == x {
        PathLessIrreflexive(head);
        if PathLess(x, head) {
          PathLessTransitive(head, x, head);
        }
      } else {
        assert r[j] in multiset(tail);
        SortedHeadBelow(head, tail, r[j]);
      }
    }
    forall i, j | 0 < i < j < |r|
      ensures !PathLess(r[j], r[i])
    {
      assert r[j] == rest[j - 1] && r[i] == rest[i - 1];
    }
  }

  lemma SortedHeadBelow(head: Path, tail: seq<Path>, y: Path)
    requires Sorted([head] + tail) && y in tail
    ensures !PathLess(y, head)
  {
    var k :| 0 <= k < |tail| && tail[k] == y;
    assert ([head] + tail)[k + 1] == tail[k] && ([head] + tail)[0] == head;
  }

  /** `list.sort()` on distinct paths, by insertion. */
  method SortPaths(a: seq<Path>) returns (r: seq<Path>)
    ensures Sorted(r) && multiset(r) == multiset(a)
    ensures Distinct(a) ==> Distinct(r)
  {
    r := [];
    for i := 0 to |a|
      invariant Sorted(r) && multiset(r) == multiset(a[..i])
      invariant Distinct(a) ==> Distinct(r)
    {
      assert a[..i + 1] == a[..i] + [a[i]];
      if Distinct(a) {
        assert a[i] !in a[..i];
        assert a[i] !in multiset(r);
        InsertDistinct(r, a[i]);
      }
      r := Insert(r, a[i]);
    }
    assert a[..|a|] == a;
  }

  /** Sorted distinct paths are in strictly ascending order. */
  lemma SortedDistinct(s: seq<Path>)
    requires Sorted(s) && Distinct(s)
    ensures forall i, j :: 0 <= i < j < |s| ==> PathLess(s[i], s[j])
  {
    forall i, j | 0 <= i < j < |s|
      ensures PathLess(s[i], s[j])
    {
      PathLessTotal(s[i], s[j]);
    }
  }
}
