/** The packet-level readers of TSParser.py: the `SystemClock` and
    `PESPacketInfo` records the walk keeps, `parseAdaptation_Field`,
    `getPTS`, `parseIndividualPESPayload` and `parsePESHeader`.

    Every read goes through `ReadFile`; a read past the end of the
    stream raises `struct.error`, which nothing in TSParser.py catches,
    so each reader here yields `ShortRead` at the first such read and
    performs none of the steps after it. */
module TsPes {
  import opened Common
  import opened TsBytes

  datatype Outcome<T> = Done(value: T) | ShortRead

  const TWO_32: nat := 0x1_0000_0000

  // ---------------------------------------------------------------
  // SystemClock and parseAdaptation_Field
  // ---------------------------------------------------------------

  /** The three PCR fields `setPCR` stores. */
  datatype Pcr = Pcr(baseHi: nat, baseLo: nat, extension: nat)

  /** The last program clock reference seen (TSParser.py:21-31). */
  class SystemClock {
    var pcrBaseHi: nat
    var pcrBaseLo: nat
    var pcrExtension: nat

    constructor()
      ensures pcrBaseHi == 0 && pcrBaseLo == 0 && pcrExtension == 0
    {
      pcrBaseHi, pcrBaseLo, pcrExtension := 0, 0, 0;
    }

    method SetPCR(p: Pcr)
      modifies this
      ensures pcrBaseHi == p.baseHi && pcrBaseLo == p.baseLo && pcrExtension == p.extension
    {
      pcrBaseHi, pcrBaseLo, pcrExtension := p.baseHi, p.baseLo, p.extension;
    }

    function GetPCR(): (r: Pcr)
      reads this
    {
      Pcr(pcrBaseHi, pcrBaseLo, pcrExtension)
    }

    /** The ranges of the fields of a program clock reference. */
    predicate Valid()
      reads this
    {
      PcrInRange(GetPCR())
    }
  }

  predicate PcrInRange(p: Pcr) {
    p.baseHi <= 1 && p.baseLo < TWO_32 && p.extension < 0x200
  }

  /** The fields of the PCR from the four bytes `pcr1` at offset 2 of
      the adaptation field and the two bytes `pcr2` after them: the
      33-bit base is the top bit of `pcr1` followed by 32 bits, the
      extension the low nine bits of `pcr2`. The source computes
      `PCR_base_lo` as `(PCR1 << 1) + bit` without a mask; this is the
      value with the low 32 bits kept, see `PcrFieldsAsWritten`. */
  function PcrFields(pcr1: nat, pcr2: nat): Pcr {
    Pcr(Bits(pcr1, 0x8000_0000, 2), (pcr1 * 2 + Bits(pcr2, 0x8000, 2)) % TWO_32, pcr2 % 0x200)
  }

  /** `PCR_base_lo` exactly as written, `(PCR1 << 1) + ((PCR2 >> 15) & 1)`. */
  function PcrFieldsAsWritten(pcr1: nat, pcr2: nat): Pcr {
    Pcr(Bits(pcr1, 0x8000_0000, 2), pcr1 * 2 + Bits(pcr2, 0x8000, 2), pcr2 % 0x200)
  }

  /** The 33-bit PCR base the two reads carry. */
  function PcrBase(pcr1: nat, pcr2: nat): nat {
    pcr1 * 2 + Bits(pcr2, 0x8000, 2)
  }

  /** The split fields are in range and put back together give the
      33-bit base and the 9-bit extension. */
  lemma PcrFieldsSplit(pcr1: nat, pcr2: nat)
    requires pcr1 < TWO_32 && pcr2 < 0x1_0000
    ensures PcrInRange(PcrFields(pcr1, pcr2))
    ensures PcrFields(pcr1, pcr2).baseHi * TWO_32 + PcrFields(pcr1, pcr2).baseLo == PcrBase(pcr1, pcr2)
    ensures PcrFields(pcr1, pcr2).extension == Bits(pcr2, 1, 0x200)
  {
    var b := PcrBase(pcr1, pcr2);
    assert b < 2 * TWO_32;
    assert b / TWO_32 == pcr1 / 0x8000_0000;
  }

  /** As written, `PCR_base_lo` is the whole 33-bit base, so it keeps the
      bit `PCR_base_hi` also reports: for a base of 2^32 the pair logged
      is hi 1, lo 0x100000000. */
  lemma PcrLoAsWrittenRepeatsHi()
    ensures PcrFieldsAsWritten(0x8000_0000, 0) == Pcr(1, TWO_32, 0)
    ensures PcrFieldsAsWritten(0x8000_0000, 0).baseLo >= TWO_32
    ensures PcrFields(0x8000_0000, 0) == Pcr(1, 0, 0)
  {
  }

  /** What `parseAdaptation_Field` reads: the length byte, the flags
      byte when the length is positive, and the PCR when the PCR_flag
      (bit 4) of the flags is set. */
  datatype Adaptation = Adaptation(length: nat, flags: nat, pcr: Option<Pcr>)

  function AdaptationField(data: seq<Byte>, start: nat): Outcome<Adaptation> {
    match ReadFile(data, start, 1)
    case None => ShortRead
    case Some(len) =>
      if len == 0 then Done(Adaptation(1, 0, None))
      else match ReadFile(data, start + 1, 1)
        case None => ShortRead
        case Some(flags) =>
          if Bits(flags, 0x10, 2) != 1 then Done(Adaptation(len + 1, flags, None))
          else match ReadFile(data, start + 2, 4)
            case None => ShortRead
            case Some(pcr1) =>
              match ReadFile(data, start + 6, 2)
              case None => ShortRead
              case Some(pcr2) => Done(Adaptation(len + 1, flags, Some(PcrFields(pcr1, pcr2))))
  }

  /** The length returned is the length byte plus one; the flags are the
      following byte, or 0 when the length is 0; a PCR is read exactly
      when the length is positive and PCR_flag is set, and then it is in
      range. A stream that ends at `start` fails. */
  lemma AdaptationRule(data: seq<Byte>, start: nat)
    ensures AdaptationField(data, start).ShortRead? <== start >= |data|
    ensures AdaptationField(data, start).Done? ==>
      var a := AdaptationField(data, start).value;
      start < |data| && a.length == data[start] as nat + 1
      && (data[start] == 0 ==> a.flags == 0)
      && (data[start] > 0 ==> a.flags == data[start + 1])
      && (a.pcr.Some? <==> data[start] > 0 && Bits(data[start + 1], 0x10, 2) == 1)
      && (a.pcr.Some? ==> PcrInRange(a.pcr.value))
  {
    if start < |data| {
      ReadOne(data, start);
      if data[start] > 0 && start + 1 < |data| {
        ReadOne(data, start + 1);
        if start + 8 <= |data| {
          ReadFileBound(data, start + 2, 4);
          ReadFileBound(data, start + 6, 2);
          PcrFieldsSplit(ReadFile(data, start + 2, 4).value, ReadFile(data, start + 6, 2).value);
        }
      }
    }
  }

  /** `parseAdaptation_Field` (TSParser.py:74-88): the length plus one
      and the flags, with the clock set to the PCR when one is present;
      on a short read the clock is left as it was. */
  method ParseAdaptationField(data: seq<Byte>, start: nat, clock: SystemClock) returns (r: Outcome<(nat, nat)>)
    modifies clock
    ensures var a := AdaptationField(data, start);
      && (r.Done? <==> a.Done?)
      && (r.Done? ==> r.value == (a.value.length, a.value.flags))
      && (if a.Done? && a.value.pcr.Some? then clock.GetPCR() == a.value.pcr.value
          else clock.GetPCR() == old(clock.GetPCR()))
  {
    var len := ReadFile(data, start, 1);
    if len.None? {
      return ShortRead;
    }
    var flags := 0;
    if len.value > 0 {
      var f := ReadFile(data, start + 1, 1);
      if f.None? {
        return ShortRead;
      }
      flags := f.value;
      if Bits(flags, 0x10, 2) == 1 {
        var pcr1 := ReadFile(data, start + 2, 4);
        if pcr1.None? {
          return ShortRead;
        }
        var pcr2 := ReadFile(data, start + 6, 2);
        if pcr2.None? {
          return ShortRead;
        }
        clock.SetPCR(PcrFields(pcr1.value, pcr2.value));
      }
    }
    return Done((len.value + 1, flags));
  }

  // ---------------------------------------------------------------
  // getPTS
  // ---------------------------------------------------------------

  /** The two parts of a time stamp from its three reads: bit 3 of the
      first byte is `PTS_hi`; bits 2-1 of it, bits 15-1 of the next two
      bytes and bits 15-1 of the two after that make the 32-bit `PTS_low`. */
  function PtsParts(time1: nat, time2: nat, time3: nat): (nat, nat) {
    (Bits(time1, 8, 2),
     Bits(time1, 2, 4) * 0x4000_0000 + Bits(time2, 2, 0x8000) * 0x8000 + Bits(time3, 2, 0x8000))
  }

  /** `getPTS` (TSParser.py:90-100). */
  function GetPTS(data: seq<Byte>, start: nat): Outcome<(nat, nat)> {
    match ReadFile(data, start, 1)
    case None => ShortRead
    case Some(time1) =>
      match ReadFile(data, start + 1, 2)
      case None => ShortRead
      case Some(time2) =>
        match ReadFile(data, start + 3, 2)
        case None => ShortRead
        case Some(time3) => Done(PtsParts(time1, time2, time3))
  }

  /** `PTS_hi` is one bit and `PTS_low` fits in 32 bits; together they
      are the 33-bit time stamp of ISO/IEC 13818-1 section 2.4.3.7: bits
      3-1 of the first byte, then fifteen bits from each of the two
      16-bit words, each word without its marker bit. */
  lemma PtsPartsRange(time1: nat, time2: nat, time3: nat)
    ensures PtsParts(time1, time2, time3).0 <= 1
    ensures PtsParts(time1, time2, time3).1 < TWO_32
    ensures PtsParts(time1, time2, time3).0 * TWO_32 + PtsParts(time1, time2, time3).1
            == Bits(time1, 2, 8) * 0x4000_0000 + Bits(time2, 2, 0x8000) * 0x8000 + Bits(time3, 2, 0x8000)
  {
    var h := time1 / 2;
    assert Bits(time1, 8, 2) == (h / 4) % 2;
    assert h % 8 == ((h / 4) % 2) * 4 + h % 4;
  }

  lemma GetPTSRange(data: seq<Byte>, start: nat)
    ensures GetPTS(data, start).Done? <==> start + 5 <= |data|
    ensures GetPTS(data, start).Done? ==>
              GetPTS(data, start).value.0 <= 1 && GetPTS(data, start).value.1 < TWO_32
  {
    if start + 5 <= |data| {
      var t1, t2, t3 := ReadFile(data, start, 1).value, ReadFile(data, start + 1, 2).value, ReadFile(data, start + 3, 2).value;
      PtsPartsRange(t1, t2, t3);
    }
  }

  /** `PTS_MSB24` (TSParser.py:404): bit 0 of `PTS_hi` above bits 31-9 of
      `PTS_low`; the two parts occupy disjoint bits, so the `|` of the
      source is a sum. */
  function PtsMsb24(ptsHi: nat, ptsLo: nat): nat {
    Bits(ptsHi, 1, 2) * 0x80_0000 + Bits(ptsLo, 0x200, 0x80_0000)
  }

  /** `PTS_MSB24` is below 2^24, and for a time stamp in range it is the
      33-bit time stamp without its nine low bits. */
  lemma PtsMsb24Rule(ptsHi: nat, ptsLo: nat)
    ensures PtsMsb24(ptsHi, ptsLo) < 0x100_0000
    ensures ptsHi <= 1 && ptsLo < TWO_32 ==> PtsMsb24(ptsHi, ptsLo) == (ptsHi * TWO_32 + ptsLo) / 0x200
  {
    if ptsHi <= 1 && ptsLo < TWO_32 {
      assert ptsLo / 0x200 < 0x80_0000;
      assert (ptsHi * TWO_32 + ptsLo) / 0x200 == ptsHi * 0x80_0000 + ptsLo / 0x200;
    }
  }

  // ---------------------------------------------------------------
  // parseIndividualPESPayload
  // ---------------------------------------------------------------

  const MAX_PREFIX_OFFSET: nat := 100

  /** The search for a start-code prefix from offset `k`: the offsets
      0 to 100 are each read in turn; `Some(k)` is the first that holds a
      prefix, `None` that none of them does. */
  function PrefixSearch(data: seq<Byte>, start: nat, k: nat): Outcome<Option<nat>>
    requires k <= MAX_PREFIX_OFFSET
    decreases MAX_PREFIX_OFFSET - k
  {
    match ReadFile(data, start + k, 4)
    case None => ShortRead
    case Some(v) =>
      if StartCode(v) then Done(Some(k))
      else if k == MAX_PREFIX_OFFSET then Done(None)
      else PrefixSearch(data, start, k + 1)
  }

  /** A prefix found is the first one at or after `k`, and no prefix
      found means all 101 offsets were read and none holds one. */
  lemma {:induction false} PrefixSearchRule(data: seq<Byte>, start: nat, k: nat)
    requires k <= MAX_PREFIX_OFFSET
    ensures PrefixSearch(data, start, k).Done? && PrefixSearch(data, start, k).value.Some? ==>
      var j := PrefixSearch(data, start, k).value.value;
      k <= j <= MAX_PREFIX_OFFSET && StartCodeAt(data, start + j)
      && forall p :: start + k <= p < start + j ==> p + 4 <= |data| && !StartCodeAt(data, p)
    ensures PrefixSearch(data, start, k) == Done(None) ==>
      start + MAX_PREFIX_OFFSET + 4 <= |data|
      && forall p :: start + k <= p <= start + MAX_PREFIX_OFFSET ==> !StartCodeAt(data, p)
    decreases MAX_PREFIX_OFFSET - k
  {
    if k < MAX_PREFIX_OFFSET && start + k + 4 <= |data| && !StartCodeAt(data, start + k) {
      PrefixSearchRule(data, start, k + 1);
    }
  }

  /** The search reads at most the offsets up to 100, so it cannot fail
      when they all can be read. */
  lemma {:induction false} PrefixSearchReads(data: seq<Byte>, start: nat, k: nat)
    requires k <= MAX_PREFIX_OFFSET && start + MAX_PREFIX_OFFSET + 4 <= |data|
    ensures PrefixSearch(data, start, k).Done?
    decreases MAX_PREFIX_OFFSET - k
  {
    if k < MAX_PREFIX_OFFSET {
      PrefixSearchReads(data, start, k + 1);
    }
  }

  const IDR_PICTURE := "IDR_picture"
  const NON_IDR_PICTURE := "non_IDR_picture"
  const UNKNOWN_AU_TYPE := "Unknown AU type"

  /** The result of `parseIndividualPESPayload`: `None` stands for the
      `None` the function falls through to when the prefix found does not
      start an access unit delimiter (NAL unit type 9). */
  function AuType(data: seq<Byte>, start: nat): Outcome<Option<string>> {
    match PrefixSearch(data, start, 0)
    case ShortRead => ShortRead
    case Done(None) => Done(Some(UNKNOWN_AU_TYPE))
    case Done(Some(k)) =>
      match ReadFile(data, start + k, 4)
      case None => ShortRead
      case Some(v) =>
        if v % 0x20 != 9 then Done(None)
        else match ReadFile(data, start + k + 4, 1)
          case None => ShortRead
          case Some(b) => Done(Some(if Bits(b, 0x20, 8) == 0 then IDR_PICTURE else NON_IDR_PICTURE))
  }

  /** At the first prefix `00 00 01` within offsets 0 to 100: when the
      NAL header byte after it has unit type 9, the access unit is an IDR
      picture exactly when the top three bits (primary_pic_type) of the
      byte after that are zero; any other unit type gives `None`. */
  lemma AuTypeRule(data: seq<Byte>, start: nat, k: nat)
    requires PrefixSearch(data, start, 0) == Done(Some(k))
    ensures start + k + 4 <= |data| && data[start + k] == 0 && data[start + k + 1] == 0 && data[start + k + 2] == 1
    ensures data[start + k + 3] % 0x20 != 9 ==> AuType(data, start) == Done(None)
    ensures data[start + k + 3] % 0x20 == 9 && start + k + 5 <= |data| ==>
      AuType(data, start) == Done(Some(if data[start + k + 4] / 0x20 == 0 then IDR_PICTURE else NON_IDR_PICTURE))
  {
    PrefixSearchRule(data, start, 0);
    StartCodeBytes(data, start + k);
    LowBitsOfLastByte(data, start + k);
    if start + k + 5 <= |data| {
      ReadOne(data, start + k + 4);
    }
  }

  /** With no prefix `00 00 01` at any of the 101 offsets the type is
      "Unknown AU type". */
  lemma AuTypeUnknown(data: seq<Byte>, start: nat)
    requires start + MAX_PREFIX_OFFSET + 4 <= |data|
    requires forall p :: start <= p <= start + MAX_PREFIX_OFFSET ==> !(data[p] == 0 && data[p + 1] == 0 && data[p + 2] == 1)
    ensures AuType(data, start) == Done(Some(UNKNOWN_AU_TYPE))
  {
    PrefixSearchReads(data, start, 0);
    PrefixSearchRule(data, start, 0);
    if PrefixSearch(data, start, 0).value.Some? {
      var j := PrefixSearch(data, start, 0).value.value;
      StartCodeBytes(data, start + j);
      assert false;
    }
  }

  /** `parseIndividualPESPayload` (TSParser.py:102-125). */
  method ParseIndividualPESPayload(data: seq<Byte>, start: nat) returns (r: Outcome<Option<string>>)
    ensures r == AuType(data, start)
  {
    var local := ReadFile(data, start, 4);
    if local.None? {
      return ShortRead;
    }
    var k := 0;
    while !StartCode(local.value)
      invariant k <= MAX_PREFIX_OFFSET
      invariant local == ReadFile(data, start + k, 4) && local.Some?
      invariant PrefixSearch(data, start, k) == PrefixSearch(data, start, 0)
      decreases MAX_PREFIX_OFFSET - k
    {
      k := k + 1;
      if k > MAX_PREFIX_OFFSET {
        return Done(Some(UNKNOWN_AU_TYPE));
      }
      local := ReadFile(data, start + k, 4);
      if local.None? {
        return ShortRead;
      }
    }
    if local.value % 0x20 == 9 {
      var picture := ReadFile(data, start + k + 4, 1);
      if picture.None? {
        return ShortRead;
      }
      if Bits(picture.value, 0x20, 8) == 0 {
        return Done(Some(IDR_PICTURE));
      }
      return Done(Some(NON_IDR_PICTURE));
    }
    return Done(None);
  }

  // ---------------------------------------------------------------
  // PESPacketInfo and parsePESHeader
  // ---------------------------------------------------------------

  /** The fields of `PESPacketInfo`; `auType == None` is Python's `None`. */
  datatype PesState = PesState(ptsHi: nat, ptsLo: nat, streamId: nat, auType: Option<string>)

  /** The PES header fields last seen (TSParser.py:33-51). */
  class PESPacketInfo {
    var ptsHi: nat
    var ptsLo: nat
    var streamId: nat
    var auType: Option<string>

    constructor()
      ensures State() == PesState(0, 0, 0, Some(""))
    {
      ptsHi, ptsLo, streamId, auType := 0, 0, 0, Some("");
    }

    function State(): PesState
      reads this
    {
      PesState(ptsHi, ptsLo, streamId, auType)
    }

    method SetPTS(hi: nat, lo: nat)
      modifies this
      ensures State() == old(State()).(ptsHi := hi, ptsLo := lo)
    {
      ptsHi, ptsLo := hi, lo;
    }

    method SetStreamID(id: nat)
      modifies this
      ensures State() == old(State()).(streamId := id)
    {
      streamId := id;
    }

    method SetAUType(t: Option<string>)
      modifies this
      ensures State() == old(State()).(auType := t)
    {
      auType := t;
    }
  }

  /** The stream ids whose PES packets have no optional header
      (program_stream_map, padding, private_stream_2, ECM, EMM,
      program_stream_directory, DSMCC, H.222.1 type E). */
  const NoHeaderStreams: set<nat> := {0xBC, 0xBE, 0xF0, 0xF1, 0xFF, 0xF9, 0xF8}

  predicate PesInRange(s: PesState) {
    s.ptsHi <= 1 && s.ptsLo < TWO_32 && s.streamId < 0x100
  }

  /** The state after `parsePESHeader` on the state `s`, and whether it
      ran to its end; a short read leaves the updates already made. */
  function PesHeader(data: seq<Byte>, start: nat, s: PesState): (PesState, bool) {
    match ReadFile(data, start + 3, 1)
    case None => (s, false)
    case Some(id) =>
      if ReadFile(data, start + 4, 2).None? then (s, false)
      else
        var s1 := s.(streamId := id);
        if id in NoHeaderStreams then (s1, true)
        else match ReadFile(data, start + 5, 4)
          case None => (s1, false)
          case Some(flags) => PesTimes(data, start, s1, Bits(flags, 0x4000, 4), 9 + flags % 0x100)
  }

  /** The time stamps and access unit type, from the PTS_DTS_flags and
      the offset of the payload. */
  function PesTimes(data: seq<Byte>, start: nat, s: PesState, ptsDts: nat, payload: nat): (PesState, bool) {
    if ptsDts != 2 && ptsDts != 3 then (s, true)
    else match GetPTS(data, start + 9)
      case ShortRead => (s, false)
      case Done((hi, lo)) =>
        var s2 := s.(ptsHi := hi, ptsLo := lo);
        if ptsDts == 3 && GetPTS(data, start + 14).ShortRead? then (s2, false)
        else match AuType(data, start + payload)
          case ShortRead => (s2, false)
          case Done(t) => (s2.(auType := t), true)
  }

  /** The stream id is always recorded once the first two fields can be
      read; the time stamp and the access unit type change only for a
      stream id outside `NoHeaderStreams` whose PTS_DTS_flags are 2 or 3,
      and then the time stamp is the one at offset 9. The ranges of the
      fields are kept. */
  lemma PesHeaderRule(data: seq<Byte>, start: nat, s: PesState)
    ensures var (t, _) := PesHeader(data, start, s);
      && (start + 6 <= |data| ==> t.streamId == data[start + 3])
      && (start + 6 > |data| ==> t == s)
      && (PesInRange(s) ==> PesInRange(t))
      && ((t.ptsHi, t.ptsLo, t.auType) != (s.ptsHi, s.ptsLo, s.auType) ==>
            && start + 9 <= |data|
            && data[start + 3] !in NoHeaderStreams
            && Bits(ReadFile(data, start + 5, 4).value, 0x4000, 4) in {2, 3}
            && GetPTS(data, start + 9) == Done((t.ptsHi, t.ptsLo)))
  {
    if start + 6 <= |data| {
      ReadOne(data, start + 3);
    }
    GetPTSRange(data, start + 9);
  }

  /** The reads of `parsePESHeader` at `start` that run past the end of
      the file: the stream id and packet length, then, for a stream with
      a header, the flags, and with PTS_DTS_flags 2 or 3 the PTS, the DTS
      when flagged, and the access unit type after the header. */
  predicate PesHeaderShort(data: seq<Byte>, start: nat) {
    match ReadFile(data, start + 3, 1)
    case None => true
    case Some(id) =>
      ReadFile(data, start + 4, 2).None? ||
      (id !in NoHeaderStreams &&
        match ReadFile(data, start + 5, 4)
        case None => true
        case Some(flags) =>
          var ptsDts := Bits(flags, 0x4000, 4);
          (ptsDts == 2 || ptsDts == 3) &&
          (GetPTS(data, start + 9).ShortRead?
           || (ptsDts == 3 && GetPTS(data, start + 14).ShortRead?)
           || AuType(data, start + 9 + flags % 0x100).ShortRead?))
  }

  /** `parsePESHeader` runs to its end exactly when none of its reads
      runs past the end of the file, whatever the record held before. */
  lemma PesHeaderComplete(data: seq<Byte>, start: nat, s: PesState)
    ensures PesHeader(data, start, s).1 <==> !PesHeaderShort(data, start)
  {
  }

  /** The time stamp and access unit type that `parsePESHeader` at
      `start` finds, or `None` when it finds neither: a stream id without
      the optional header, PTS_DTS_flags other than 2 and 3, or a read
      that runs short. */
  function HeaderStamp(data: seq<Byte>, start: nat): Option<(nat, nat, Option<string>)> {
    match ReadFile(data, start + 3, 1)
    case None => None
    case Some(id) =>
      if ReadFile(data, start + 4, 2).None? || id in NoHeaderStreams then None
      else match ReadFile(data, start + 5, 4)
        case None => None
        case Some(flags) =>
          var ptsDts := Bits(flags, 0x4000, 4);
          if ptsDts != 2 && ptsDts != 3 then None
          else match GetPTS(data, start + 9)
            case ShortRead => None
            case Done((hi, lo)) =>
              match AuType(data, start + 9 + flags % 0x100)
              case ShortRead => None
              case Done(t) => Some((hi, lo, t))
  }

  /** A `parsePESHeader` that runs to its end leaves in the record the
      time stamp and access unit type it found, or, when it finds none,
      the ones the record held before. */
  lemma PesHeaderStamp(data: seq<Byte>, start: nat, s: PesState)
    requires PesHeader(data, start, s).1
    ensures var t := PesHeader(data, start, s).0;
      match HeaderStamp(data, start)
      case None => t.ptsHi == s.ptsHi && t.ptsLo == s.ptsLo && t.auType == s.auType
      case Some((hi, lo, au)) => t.ptsHi == hi && t.ptsLo == lo && t.auType == au
  {
  }

  /** `parsePESHeader` (TSParser.py:127-166): the record `info` is
      updated as `PesHeader` says; `r` is false when a read fell short. */
  method ParsePESHeader(data: seq<Byte>, start: nat, info: PESPacketInfo) returns (r: bool)
    modifies info
    ensures (info.State(), r) == PesHeader(data, start, old(info.State()))
  {
    var id := ReadFile(data, start + 3, 1);
    if id.None? {
      return false;
    }
    var packetLength := ReadFile(data, start + 4, 2);
    if packetLength.None? {
      return false;
    }
    info.SetStreamID(id.value);
    if id.value in NoHeaderStreams {
      return true;
    }
    var flags := ReadFile(data, start + 5, 4);
    if flags.None? {
      return false;
    }
    var ptsDts := Bits(flags.value, 0x4000, 4);
    var payload := 9 + flags.value % 0x100;
    if ptsDts != 2 && ptsDts != 3 {
      return true;
    }
    var pts := GetPTS(data, start + 9);
    if pts.ShortRead? {
      return false;
    }
    info.SetPTS(pts.value.0, pts.value.1);
    if ptsDts == 3 {
      var dts := GetPTS(data, start + 14);
      if dts.ShortRead? {
        return false;
      }
    }
    var au := ParseIndividualPESPayload(data, start + payload);
    if au.ShortRead? {
      return false;
    }
    info.SetAUType(au.value);
    return true;
  }
}
