/** The program-specific information sections of TSParser.py:
    `parsePATSection`, `parsePMTSection` and `parseSITSection`, each a
    check of the table id followed by `while` loops over the entries and
    descriptor loops of the section (ISO/IEC 13818-1 section 2.4.4). The
    loops stop once the byte count they work down is no longer positive,
    so the last entry may run past the declared length. */
module TsPsi {
  import opened Common
  import opened TsBytes
  import opened TsPes

  /** `xs` put in front of the entries of `o`, when `o` succeeded. */
  function Cons<T>(xs: seq<T>, o: Outcome<seq<T>>): (r: Outcome<seq<T>>)
    ensures r.Done? <==> o.Done?
    ensures r.Done? ==> r.value == xs + o.value
    ensures xs == [] ==> r == o
    ensures o == Done([]) ==> r == Done(xs)
  {
    match o
    case ShortRead => ShortRead
    case Done(ys) =>
      assert xs == [] ==> xs + ys == ys;
      assert ys == [] ==> xs + ys == xs;
      Done(xs + ys)
  }

  lemma ConsCons<T>(xs: seq<T>, ys: seq<T>, o: Outcome<seq<T>>)
    ensures Cons(xs, Cons(ys, o)) == Cons(xs + ys, o)
  {
    if o.Done? {
      assert xs + (ys + o.value) == (xs + ys) + o.value;
    }
  }

  function Sum(sizes: seq<nat>): nat {
    if sizes == [] then 0 else sizes[0] + Sum(sizes[1..])
  }

  /** A loop that subtracts each entry's size from `budget` while the
      budget is positive: the entries cover the budget, and the budget
      was still positive before the last one. */
  predicate Covers(sizes: seq<nat>, budget: int) {
    if budget <= 0 then sizes == []
    else sizes != [] && Sum(sizes) >= budget && Sum(sizes[..|sizes| - 1]) < budget
  }

  /** One entry of `budget - size` covered by `rest` gives a cover of
      `budget` by the entry and `rest`. */
  lemma CoversCons(size: nat, rest: seq<nat>, budget: int)
    requires budget > 0 && size > 0 && Covers(rest, budget - size)
    ensures Covers([size] + rest, budget)
  {
    var all := [size] + rest;
    assert all[1..] == rest;
    if rest != [] {
      assert all[..|all| - 1] == [size] + rest[..|rest| - 1];
      assert all[..|all| - 1][1..] == rest[..|rest| - 1];
    } else {
      assert all[..|all| - 1] == [];
    }
  }

  // ---------------------------------------------------------------
  // Descriptor loops
  // ---------------------------------------------------------------

  datatype Descriptor = Descriptor(tag: nat, length: nat)

  /** The descriptors read from `m` while the byte count `n` is
      positive: a tag byte and a length byte, then `length` bytes. */
  function Descriptors(data: seq<Byte>, m: nat, n: int): Outcome<seq<Descriptor>>
    decreases n
  {
    if n <= 0 then Done([])
    else match ReadFile(data, m, 1)
      case None => ShortRead
      case Some(tag) =>
        match ReadFile(data, m + 1, 1)
        case None => ShortRead
        case Some(len) => Cons([Descriptor(tag, len)], Descriptors(data, m + len + 2, n - len - 2))
  }

  function DescriptorSizes(ds: seq<Descriptor>): (r: seq<nat>)
    ensures |r| == |ds|
  {
    if ds == [] then [] else [ds[0].length + 2] + DescriptorSizes(ds[1..])
  }

  /** The descriptors read cover the byte count, two header bytes plus
      the length of each; the first one's tag and length are the two
      bytes at `m`. */
  lemma {:induction false} DescriptorsCover(data: seq<Byte>, m: nat, n: int)
    ensures Descriptors(data, m, n).Done? ==> Covers(DescriptorSizes(Descriptors(data, m, n).value), n)
    ensures Descriptors(data, m, n).Done? && n > 0 ==>
              m + 2 <= |data| && Descriptors(data, m, n).value[0] == Descriptor(data[m], data[m + 1])
    decreases n
  {
    if n > 0 && m + 2 <= |data| {
      ReadOne(data, m);
      ReadOne(data, m + 1);
      var len: nat := data[m + 1];
      var rest := Descriptors(data, m + len + 2, n - len - 2);
      DescriptorsCover(data, m + len + 2, n - len - 2);
      if rest.Done? {
        var ds := [Descriptor(data[m], len)] + rest.value;
        assert ds[1..] == rest.value;
        CoversCons(len + 2, DescriptorSizes(rest.value), n);
      }
    }
  }

  /** The descriptor loops of TSParser.py:241-248, 262-269, 298-305 and
      316-323. */
  method ParseDescriptors(data: seq<Byte>, m0: nat, n0: int) returns (r: Outcome<seq<Descriptor>>)
    ensures r == Descriptors(data, m0, n0)
  {
    var n: int, m: nat := n0, m0;
    var found: seq<Descriptor> := [];
    while n > 0
      invariant Descriptors(data, m0, n0) == Cons(found, Descriptors(data, m, n))
      decreases n
    {
      var tag := ReadFile(data, m, 1);
      if tag.None? {
        return ShortRead;
      }
      var len := ReadFile(data, m + 1, 1);
      if len.None? {
        return ShortRead;
      }
      ConsCons(found, [Descriptor(tag.value, len.value)], Descriptors(data, m + len.value + 2, n - len.value - 2));
      found := found + [Descriptor(tag.value, len.value)];
      n := n - (len.value + 2);
      m := m + len.value + 2;
    }
    return Done(found);
  }

  // ---------------------------------------------------------------
  // parsePATSection
  // ---------------------------------------------------------------

  /** A program of the PAT; program number 0 carries the network PID. */
  datatype Program = Program(number: nat, pid: nat)

  datatype PatSection = PatSection(sectionLength: nat, sectionNumber: nat, lastSectionNumber: nat,
                                   programs: seq<Program>)

  /** The program entry of the four bytes at `j`. */
  function ProgramAt(data: seq<Byte>, j: nat): Program
    requires j + 4 <= |data|
  {
    var v := ReadFile(data, j, 4).value;
    Program(v / 0x1_0000, v % 0x2000)
  }

  /** The PAT entries from `j` while `length` is positive. */
  function PatPrograms(data: seq<Byte>, j: nat, length: int): Outcome<seq<Program>>
    decreases length
  {
    if length <= 0 then Done([])
    else if j + 4 > |data| then ShortRead
    else Cons([ProgramAt(data, j)], PatPrograms(data, j + 4, length - 4))
  }

  /** The PAT entries are the 4-byte groups from `j` on, as many as it
      takes to cover `length`. */
  lemma {:induction false} PatProgramsRule(data: seq<Byte>, j: nat, length: int)
    ensures PatPrograms(data, j, length).Done? ==>
      var ps := PatPrograms(data, j, length).value;
      && |ps| == (if length <= 0 then 0 else (length + 3) / 4)
      && forall i :: 0 <= i < |ps| ==> j + 4 * i + 4 <= |data| && ps[i] == ProgramAt(data, j + 4 * i)
    decreases length
  {
    if length > 0 && j + 4 <= |data| {
      PatProgramsRule(data, j + 4, length - 4);
      var rest := PatPrograms(data, j + 4, length - 4);
      if rest.Done? {
        var ps := [ProgramAt(data, j)] + rest.value;
        forall i | 0 < i < |ps|
          ensures j + 4 * i + 4 <= |data| && ps[i] == ProgramAt(data, j + 4 * i)
        {
          assert ps[i] == rest.value[i - 1];
          assert j + 4 + 4 * (i - 1) == j + 4 * i;
        }
      }
    }
  }

  /** `parsePATSection` at offset `k`: `None` when the table id is not
      0x00; `section_length` is the low 12 bits of bytes 1-2, the section
      numbers are bytes 6 and 7, and the entries fill `section_length - 9`
      bytes from offset 8. */
  function PatSectionAt(data: seq<Byte>, k: nat): Outcome<Option<PatSection>> {
    match ReadFile(data, k, 4)
    case None => ShortRead
    case Some(v) =>
      if v / 0x100_0000 != 0x00 then Done(None)
      else
        var sectionLength := Bits(v, 0x100, 0x1000);
        match ReadFile(data, k + 4, 4)
        case None => ShortRead
        case Some(w) =>
          match PatPrograms(data, k + 8, sectionLength - 9)
          case ShortRead => ShortRead
          case Done(ps) => Done(Some(PatSection(sectionLength, Bits(w, 0x100, 0x100), w % 0x100, ps)))
  }

  /** The PAT parser refuses a section exactly when its first byte is not
      0x00, and parses one into `(section_length - 9) / 4` entries,
      rounded up. */
  lemma PatSectionRule(data: seq<Byte>, k: nat)
    ensures PatSectionAt(data, k) == Done(None) <==> k + 4 <= |data| && data[k] != 0x00
    ensures PatSectionAt(data, k).Done? && PatSectionAt(data, k).value.Some? ==>
      var p := PatSectionAt(data, k).value.value;
      p.sectionLength < 0x1000
      && |p.programs| == (if p.sectionLength <= 9 then 0 else (p.sectionLength - 9 + 3) / 4)
  {
    if k + 4 <= |data| {
      TopByte(data, k);
      var v := ReadFile(data, k, 4).value;
      PatProgramsRule(data, k + 8, Bits(v, 0x100, 0x1000) - 9);
    }
  }

  /** `parsePATSection` (TSParser.py:168-205). */
  method ParsePATSection(data: seq<Byte>, k: nat) returns (r: Outcome<Option<PatSection>>)
    ensures r == PatSectionAt(data, k)
  {
    var local := ReadFile(data, k, 4);
    if local.None? {
      return ShortRead;
    }
    if local.value / 0x100_0000 != 0x00 {
      return Done(None);
    }
    var sectionLength := Bits(local.value, 0x100, 0x1000);
    var second := ReadFile(data, k + 4, 4);
    if second.None? {
      return ShortRead;
    }
    var length: int := sectionLength as int - 4 - 5;
    var j: nat := k + 8;
    var programs: seq<Program> := [];
    while length > 0
      invariant PatPrograms(data, k + 8, sectionLength as int - 9) == Cons(programs, PatPrograms(data, j, length))
      decreases length
    {
      var entry := ReadFile(data, j, 4);
      if entry.None? {
        return ShortRead;
      }
      ConsCons(programs, [ProgramAt(data, j)], PatPrograms(data, j + 4, length - 4));
      programs := programs + [Program(entry.value / 0x1_0000, entry.value % 0x2000)];
      length := length - 4;
      j := j + 4;
    }
    return Done(Some(PatSection(sectionLength, Bits(second.value, 0x100, 0x100), second.value % 0x100, programs)));
  }

  // ---------------------------------------------------------------
  // parsePMTSection
  // ---------------------------------------------------------------

  /** An elementary stream of a PMT. */
  datatype EsInfo = EsInfo(streamType: nat, pid: nat, infoLength: nat, descriptors: seq<Descriptor>)

  datatype PmtSection = PmtSection(sectionLength: nat, programNumber: nat, sectionNumber: nat,
                                   lastSectionNumber: nat, pcrPid: nat, programInfoLength: nat,
                                   descriptors: seq<Descriptor>, streams: seq<EsInfo>)

  /** The elementary stream at `j`: a stream_type byte, four bytes
      holding the PID (bits 28-16) and the ES_info_length (bits 11-0),
      then that many bytes of descriptors. */
  function PmtStreamAt(data: seq<Byte>, j: nat): Outcome<EsInfo> {
    match ReadFile(data, j, 1)
    case None => ShortRead
    case Some(streamType) =>
      match ReadFile(data, j + 1, 4)
      case None => ShortRead
      case Some(w) =>
        match Descriptors(data, j + 5, w % 0x1000)
        case ShortRead => ShortRead
        case Done(ds) => Done(EsInfo(streamType, Bits(w, 0x1_0000, 0x2000), w % 0x1000, ds))
  }

  /** A stream's descriptors cover its ES_info_length. */
  lemma PmtStreamAtRule(data: seq<Byte>, j: nat)
    ensures PmtStreamAt(data, j).Done? ==>
      var e := PmtStreamAt(data, j).value;
      e.pid < 0x2000 && e.infoLength < 0x1000 && Covers(DescriptorSizes(e.descriptors), e.infoLength)
  {
    if j + 5 <= |data| {
      DescriptorsCover(data, j + 5, ReadFile(data, j + 1, 4).value % 0x1000);
    }
  }

  /** The elementary streams from `j` while `length` is positive. */
  function PmtStreams(data: seq<Byte>, j: nat, length: int): Outcome<seq<EsInfo>>
    decreases length
  {
    if length <= 0 then Done([])
    else match PmtStreamAt(data, j)
      case ShortRead => ShortRead
      case Done(e) => Cons([e], PmtStreams(data, j + 5 + e.infoLength, length - 5 - e.infoLength))
  }

  function StreamSizes(ss: seq<EsInfo>): (r: seq<nat>)
    ensures |r| == |ss|
  {
    if ss == [] then [] else [5 + ss[0].infoLength] + StreamSizes(ss[1..])
  }

  /** The streams cover the byte count, five bytes plus the
      ES_info_length each. */
  lemma {:induction false} PmtStreamsCover(data: seq<Byte>, j: nat, length: int)
    ensures PmtStreams(data, j, length).Done? ==> Covers(StreamSizes(PmtStreams(data, j, length).value), length)
    decreases length
  {
    if length > 0 && PmtStreamAt(data, j).Done? {
      var e := PmtStreamAt(data, j).value;
      var rest := PmtStreams(data, j + 5 + e.infoLength, length - 5 - e.infoLength);
      PmtStreamsCover(data, j + 5 + e.infoLength, length - 5 - e.infoLength);
      if rest.Done? {
        var ss := [e] + rest.value;
        assert ss[1..] == rest.value;
        CoversCons(5 + e.infoLength, StreamSizes(rest.value), length);
      }
    }
  }

  /** Each stream's descriptors cover its ES_info_length. */
  lemma {:induction false} PmtStreamsDescriptors(data: seq<Byte>, j: nat, length: int)
    ensures PmtStreams(data, j, length).Done? ==>
      forall e <- PmtStreams(data, j, length).value :: Covers(DescriptorSizes(e.descriptors), e.infoLength)
    decreases length
  {
    if length > 0 && PmtStreamAt(data, j).Done? {
      var e := PmtStreamAt(data, j).value;
      PmtStreamAtRule(data, j);
      var rest := PmtStreams(data, j + 5 + e.infoLength, length - 5 - e.infoLength);
      PmtStreamsDescriptors(data, j + 5 + e.infoLength, length - 5 - e.infoLength);
      if rest.Done? {
        var ss := [e] + rest.value;
        assert forall x <- ss :: x == e || x in rest.value;
      }
    }
  }

  /** The part of a PMT after its first twelve bytes: the program
      descriptors and the elementary streams. */
  function PmtBody(data: seq<Byte>, k: nat, v: nat, w: nat, x: nat): Outcome<Option<PmtSection>> {
    var sectionLength := Bits(v, 0x100, 0x1000);
    var infoLength := x % 0x1000;
    match Descriptors(data, k + 12, infoLength)
    case ShortRead => ShortRead
    case Done(ds) =>
      match PmtStreams(data, k + 12 + infoLength, sectionLength - 13 - infoLength)
      case ShortRead => ShortRead
      case Done(ss) =>
        Done(Some(PmtSection(sectionLength, (v % 0x100) * 0x100 + Bits(w, 0x100_0000, 0x100),
                             Bits(w, 0x100, 0x100), w % 0x100, Bits(x, 0x1_0000, 0x2000), infoLength, ds, ss)))
  }

  /** `parsePMTSection` at offset `k`: `None` when the table id is not
      0x02. */
  function PmtSectionAt(data: seq<Byte>, k: nat): Outcome<Option<PmtSection>> {
    match ReadFile(data, k, 4)
    case None => ShortRead
    case Some(v) =>
      if v / 0x100_0000 != 0x02 then Done(None)
      else match ReadFile(data, k + 4, 4)
        case None => ShortRead
        case Some(w) =>
          match ReadFile(data, k + 8, 4)
          case None => ShortRead
          case Some(x) => PmtBody(data, k, v, w, x)
  }

  lemma PmtBodyRule(data: seq<Byte>, k: nat, v: nat, w: nat, x: nat)
    ensures PmtBody(data, k, v, w, x).Done? ==>
      var p := PmtBody(data, k, v, w, x).value;
      && p.Some?
      && p.value.pcrPid < 0x2000
      && Covers(DescriptorSizes(p.value.descriptors), p.value.programInfoLength)
      && Covers(StreamSizes(p.value.streams), p.value.sectionLength - 13 - p.value.programInfoLength)
  {
    DescriptorsCover(data, k + 12, x % 0x1000);
    PmtStreamsCover(data, k + 12 + x % 0x1000, Bits(v, 0x100, 0x1000) - 13 - x % 0x1000);
    PmtStreamsDescriptors(data, k + 12 + x % 0x1000, Bits(v, 0x100, 0x1000) - 13 - x % 0x1000);
  }

  /** The PMT parser refuses a section exactly when its first byte is
      not 0x02; a parsed section has a 16-bit program number made of
      bytes 3 and 4, its program descriptors cover program_info_length,
      and its streams cover the rest of the section before the CRC. */
  lemma PmtSectionRule(data: seq<Byte>, k: nat)
    ensures PmtSectionAt(data, k) == Done(None) <==> k + 4 <= |data| && data[k] != 0x02
    ensures PmtSectionAt(data, k).Done? && PmtSectionAt(data, k).value.Some? ==>
      var p := PmtSectionAt(data, k).value.value;
      && p.programNumber == data[k + 3] as nat * 0x100 + data[k + 4]
      && p.pcrPid < 0x2000
      && Covers(DescriptorSizes(p.descriptors), p.programInfoLength)
      && Covers(StreamSizes(p.streams), p.sectionLength - 13 - p.programInfoLength)
  {
    if k + 12 <= |data| {
      TopByte(data, k);
      TopByte(data, k + 4);
      ProgramNumberBytes(data, k);
      PmtBodyRule(data, k, ReadFile(data, k, 4).value, ReadFile(data, k + 4, 4).value, ReadFile(data, k + 8, 4).value);
    } else if k + 4 <= |data| {
      TopByte(data, k);
    }
  }

  /** The low byte of the first word and the top byte of the second are
      bytes 3 and 4. */
  lemma ProgramNumberBytes(data: seq<Byte>, k: nat)
    requires k + 8 <= |data|
    ensures (ReadFile(data, k, 4).value % 0x100) * 0x100 + Bits(ReadFile(data, k + 4, 4).value, 0x100_0000, 0x100)
            == data[k + 3] as nat * 0x100 + data[k + 4]
  {
    LowByte(data, k);
    TopByte(data, k + 4);
  }

  /** `parsePMTSection` (TSParser.py:207-275). */
  method ParsePMTSection(data: seq<Byte>, k: nat) returns (r: Outcome<Option<PmtSection>>)
    ensures r == PmtSectionAt(data, k)
  {
    var local := ReadFile(data, k, 4);
    if local.None? {
      return ShortRead;
    }
    if local.value / 0x100_0000 != 0x02 {
      return Done(None);
    }
    var second := ReadFile(data, k + 4, 4);
    if second.None? {
      return ShortRead;
    }
    var third := ReadFile(data, k + 8, 4);
    if third.None? {
      return ShortRead;
    }
    r := ParsePmtBody(data, k, local.value, second.value, third.value);
  }

  method ParsePmtBody(data: seq<Byte>, k: nat, v: nat, w: nat, x: nat) returns (r: Outcome<Option<PmtSection>>)
    ensures r == PmtBody(data, k, v, w, x)
  {
    var sectionLength := Bits(v, 0x100, 0x1000);
    var infoLength := x % 0x1000;
    var descriptors := ParseDescriptors(data, k + 12, infoLength);
    if descriptors.ShortRead? {
      return ShortRead;
    }
    var streams := ParsePmtStreams(data, k + 12 + infoLength, sectionLength as int - 4 - 9 - infoLength);
    if streams.ShortRead? {
      return ShortRead;
    }
    var programNumber := (v % 0x100) * 0x100 + Bits(w, 0x100_0000, 0x100);
    return Done(Some(PmtSection(sectionLength, programNumber, Bits(w, 0x100, 0x100), w % 0x100,
                                Bits(x, 0x1_0000, 0x2000), infoLength, descriptors.value, streams.value)));
  }

  /** The elementary stream loop of TSParser.py:250-273. */
  method ParsePmtStreams(data: seq<Byte>, j0: nat, length0: int) returns (r: Outcome<seq<EsInfo>>)
    ensures r == PmtStreams(data, j0, length0)
  {
    var j: nat, length: int := j0, length0;
    var streams: seq<EsInfo> := [];
    while length > 0
      invariant PmtStreams(data, j0, length0) == Cons(streams, PmtStreams(data, j, length))
      decreases length
    {
      var entry := ParsePmtStream(data, j);
      if entry.ShortRead? {
        return ShortRead;
      }
      var e := entry.value;
      ConsCons(streams, [e], PmtStreams(data, j + 5 + e.infoLength, length - 5 - e.infoLength));
      streams := streams + [e];
      j := j + 5 + e.infoLength;
      length := length - (5 + e.infoLength);
    }
    return Done(streams);
  }

  /** One pass of the elementary stream loop, TSParser.py:254-269. */
  method ParsePmtStream(data: seq<Byte>, j: nat) returns (r: Outcome<EsInfo>)
    ensures r == PmtStreamAt(data, j)
  {
    var local1 := ReadFile(data, j, 1);
    if local1.None? {
      return ShortRead;
    }
    var local2 := ReadFile(data, j + 1, 4);
    if local2.None? {
      return ShortRead;
    }
    var infoLength := local2.value % 0x1000;
    var ds := ParseDescriptors(data, j + 5, infoLength);
    if ds.ShortRead? {
      return ShortRead;
    }
    return Done(EsInfo(local1.value, Bits(local2.value, 0x1_0000, 0x2000), infoLength, ds.value));
  }

  // ---------------------------------------------------------------
  // parseSITSection
  // ---------------------------------------------------------------

  /** A service of a selection information table. */
  datatype Service = Service(serviceId: nat, loopLength: nat, descriptors: seq<Descriptor>)

  datatype SitSection = SitSection(sectionLength: nat, sectionNumber: nat, lastSectionNumber: nat,
                                   transmissionInfoLength: nat, descriptors: seq<Descriptor>,
                                   services: seq<Service>)

  /** The service at `j`: four bytes holding the service_id (bits 31-16)
      and the service_loop_length (bits 11-0), then that many bytes of
      descriptors. */
  function SitServiceAt(data: seq<Byte>, j: nat): Outcome<Service> {
    match ReadFile(data, j, 4)
    case None => ShortRead
    case Some(v) =>
      match Descriptors(data, j + 4, v % 0x1000)
      case ShortRead => ShortRead
      case Done(ds) => Done(Service(Bits(v, 0x1_0000, 0x1_0000), v % 0x1000, ds))
  }

  /** A service's descriptors cover its service_loop_length. */
  lemma SitServiceAtRule(data: seq<Byte>, j: nat)
    ensures SitServiceAt(data, j).Done? ==>
      var e := SitServiceAt(data, j).value;
      e.loopLength < 0x1000 && Covers(DescriptorSizes(e.descriptors), e.loopLength)
  {
    if j + 4 <= |data| {
      DescriptorsCover(data, j + 4, ReadFile(data, j, 4).value % 0x1000);
    }
  }

  /** The services from `j` while `length` is positive. */
  function SitServices(data: seq<Byte>, j: nat, length: int): Outcome<seq<Service>>
    decreases length
  {
    if length <= 0 then Done([])
    else match SitServiceAt(data, j)
      case ShortRead => ShortRead
      case Done(e) => Cons([e], SitServices(data, j + 4 + e.loopLength, length - 4 - e.loopLength))
  }

  function ServiceSizes(ss: seq<Service>): (r: seq<nat>)
    ensures |r| == |ss|
  {
    if ss == [] then [] else [4 + ss[0].loopLength] + ServiceSizes(ss[1..])
  }

  /** The services cover the byte count, four bytes plus the
      service_loop_length each. */
  lemma {:induction false} SitServicesCover(data: seq<Byte>, j: nat, length: int)
    ensures SitServices(data, j, length).Done? ==> Covers(ServiceSizes(SitServices(data, j, length).value), length)
    decreases length
  {
    if length > 0 && SitServiceAt(data, j).Done? {
      var e := SitServiceAt(data, j).value;
      var rest := SitServices(data, j + 4 + e.loopLength, length - 4 - e.loopLength);
      SitServicesCover(data, j + 4 + e.loopLength, length - 4 - e.loopLength);
      if rest.Done? {
        var ss := [e] + rest.value;
        assert ss[1..] == rest.value;
        CoversCons(4 + e.loopLength, ServiceSizes(rest.value), length);
      }
    }
  }

  /** Each service's descriptors cover its service_loop_length. */
  lemma {:induction false} SitServicesDescriptors(data: seq<Byte>, j: nat, length: int)
    ensures SitServices(data, j, length).Done? ==>
      forall e <- SitServices(data, j, length).value :: Covers(DescriptorSizes(e.descriptors), e.loopLength)
    decreases length
  {
    if length > 0 && SitServiceAt(data, j).Done? {
      var e := SitServiceAt(data, j).value;
      SitServiceAtRule(data, j);
      var rest := SitServices(data, j + 4 + e.loopLength, length - 4 - e.loopLength);
      SitServicesDescriptors(data, j + 4 + e.loopLength, length - 4 - e.loopLength);
      if rest.Done? {
        var ss := [e] + rest.value;
        assert forall x <- ss :: x == e || x in rest.value;
      }
    }
  }

  /** The part of a SIT after its first ten bytes. */
  function SitBody(data: seq<Byte>, k: nat, v: nat, w: nat, x: nat): Outcome<Option<SitSection>> {
    var sectionLength := Bits(v, 0x100, 0x1000);
    var infoLength := x % 0x1000;
    match Descriptors(data, k + 10, infoLength)
    case ShortRead => ShortRead
    case Done(ds) =>
      match SitServices(data, k + 10 + infoLength, sectionLength - 11 - infoLength)
      case ShortRead => ShortRead
      case Done(ss) => Done(Some(SitSection(sectionLength, Bits(w, 0x100, 0x100), w % 0x100, infoLength, ds, ss)))
  }

  /** `parseSITSection` at offset `k`: `None` when the table id is not
      0x7F. */
  function SitSectionAt(data: seq<Byte>, k: nat): Outcome<Option<SitSection>> {
    match ReadFile(data, k, 4)
    case None => ShortRead
    case Some(v) =>
      if v / 0x100_0000 != 0x7F then Done(None)
      else match ReadFile(data, k + 4, 4)
        case None => ShortRead
        case Some(w) =>
          match ReadFile(data, k + 8, 2)
          case None => ShortRead
          case Some(x) => SitBody(data, k, v, w, x)
  }

  lemma SitBodyRule(data: seq<Byte>, k: nat, v: nat, w: nat, x: nat)
    ensures SitBody(data, k, v, w, x).Done? ==>
      var s := SitBody(data, k, v, w, x).value;
      && s.Some?
      && Covers(DescriptorSizes(s.value.descriptors), s.value.transmissionInfoLength)
      && Covers(ServiceSizes(s.value.services), s.value.sectionLength - 11 - s.value.transmissionInfoLength)
  {
    DescriptorsCover(data, k + 10, x % 0x1000);
    SitServicesCover(data, k + 10 + x % 0x1000, Bits(v, 0x100, 0x1000) - 11 - x % 0x1000);
    SitServicesDescriptors(data, k + 10 + x % 0x1000, Bits(v, 0x100, 0x1000) - 11 - x % 0x1000);
  }

  /** The SIT parser refuses a section exactly when its first byte is
      not 0x7F; a parsed section's transmission descriptors cover
      transmission_info_loop_length and its services cover the rest of
      the section before the CRC. */
  lemma SitSectionRule(data: seq<Byte>, k: nat)
    ensures SitSectionAt(data, k) == Done(None) <==> k + 4 <= |data| && data[k] != 0x7F
    ensures SitSectionAt(data, k).Done? && SitSectionAt(data, k).value.Some? ==>
      var s := SitSectionAt(data, k).value.value;
      && Covers(DescriptorSizes(s.descriptors), s.transmissionInfoLength)
      && Covers(ServiceSizes(s.services), s.sectionLength - 11 - s.transmissionInfoLength)
  {
    if k + 4 <= |data| {
      TopByte(data, k);
      if k + 10 <= |data| {
        SitBodyRule(data, k, ReadFile(data, k, 4).value, ReadFile(data, k + 4, 4).value, ReadFile(data, k + 8, 2).value);
      }
    }
  }

  /** `parseSITSection` (TSParser.py:277-327). */
  method ParseSITSection(data: seq<Byte>, k: nat) returns (r: Outcome<Option<SitSection>>)
    ensures r == SitSectionAt(data, k)
  {
    var local := ReadFile(data, k, 4);
    if local.None? {
      return ShortRead;
    }
    if local.value / 0x100_0000 != 0x7F {
      return Done(None);
    }
    var second := ReadFile(data, k + 4, 4);
    if second.None? {
      return ShortRead;
    }
    var third := ReadFile(data, k + 8, 2);
    if third.None? {
      return ShortRead;
    }
    r := ParseSitBody(data, k, local.value, second.value, third.value);
  }

  method ParseSitBody(data: seq<Byte>, k: nat, v: nat, w: nat, x: nat) returns (r: Outcome<Option<SitSection>>)
    ensures r == SitBody(data, k, v, w, x)
  {
    var sectionLength := Bits(v, 0x100, 0x1000);
    var infoLength := x % 0x1000;
    var descriptors := ParseDescriptors(data, k + 10, infoLength);
    if descriptors.ShortRead? {
      return ShortRead;
    }
    var services := ParseSitServices(data, k + 10 + infoLength, sectionLength as int - 4 - 7 - infoLength);
    if services.ShortRead? {
      return ShortRead;
    }
    return Done(Some(SitSection(sectionLength, Bits(w, 0x100, 0x100), w % 0x100,
                                infoLength, descriptors.value, services.value)));
  }

  /** The service loop of TSParser.py:307-327. */
  method ParseSitServices(data: seq<Byte>, j0: nat, length0: int) returns (r: Outcome<seq<Service>>)
    ensures r == SitServices(data, j0, length0)
  {
    var j: nat, length: int := j0, length0;
    var services: seq<Service> := [];
    while length > 0
      invariant SitServices(data, j0, length0) == Cons(services, SitServices(data, j, length))
      decreases length
    {
      var entry := ParseSitService(data, j);
      if entry.ShortRead? {
        return ShortRead;
      }
      var e := entry.value;
      ConsCons(services, [e], SitServices(data, j + 4 + e.loopLength, length - 4 - e.loopLength));
      services := services + [e];
      j := j + 4 + e.loopLength;
      length := length - (4 + e.loopLength);
    }
    return Done(services);
  }

  /** One pass of the service loop, TSParser.py:311-323. */
  method ParseSitService(data: seq<Byte>, j: nat) returns (r: Outcome<Service>)
    ensures r == SitServiceAt(data, j)
  {
    var local1 := ReadFile(data, j, 4);
    if local1.None? {
      return ShortRead;
    }
    var loopLength := local1.value % 0x1000;
    var ds := ParseDescriptors(data, j + 4, loopLength);
    if ds.ShortRead? {
      return ShortRead;
    }
    return Done(Service(Bits(local1.value, 0x1_0000, 0x1_0000), loopLength, ds.value));
  }
}
