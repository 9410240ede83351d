/** The packet walk of TSParser.py, `parseTSMain`: from the first
    packet on, each packet header is checked for the sync byte, its
    adaptation field and payload are read, PES starts of the chosen PID
    and PSI sections are parsed, and the offset moves on by one packet.

    The walk's logging is modelled as what it reports: the PCRs found
    when searching for them, the sections parsed, and for the
    elementary-stream mode the IDR entry points (`TPIList`, `PTSList`)
    and the number of packets of each entry (`EntryPESPacketNumList`). */
module TsMain {
  import opened Common
  import opened TsBytes
  import opened TsPes
  import opened TsPsi

  const PACKET_SYNC_BYTE: nat := 0x47
  const MAX_PACKET_COUNT: nat := 1450000

  /** The arguments of `parseTSMain` other than the file. */
  datatype Params = Params(packetSize: nat, mode: string, pid: int, psiMode: int, searchItem: string)

  /** The offset of the first packet: 192-byte packets carry a four-byte
      time code before the sync byte. */
  function Start(p: Params): nat {
    if p.packetSize == 192 then 4 else 0
  }

  function PacketAt(p: Params, i: nat): nat {
    Start(p) + i * p.packetSize
  }

  /** A packet at `pos` whose four header bytes are there and whose first
      byte is the sync byte. */
  predicate SyncAt(data: seq<Byte>, pos: nat) {
    pos + 4 <= |data| && data[pos] == PACKET_SYNC_BYTE
  }

  // ---------------------------------------------------------------
  // What the walk reports
  // ---------------------------------------------------------------

  datatype Table = Pat(pat: PatSection) | Pmt(pmt: PmtSection) | Sit(sit: SitSection) | Refused

  /** A section parsed from packet `packet` of PID `pid`. */
  datatype Section = Section(packet: nat, pid: nat, table: Table)

  /** A PCR reported when searching for PCRs. */
  datatype PcrReport = PcrReport(packet: nat, pid: nat, pcr: Pcr, discontinuity: bool)

  /** The local variables of `parseTSMain` that outlive a packet. */
  datatype WalkState = WalkState(
    n: nat, count: nat,
    pids: seq<nat>, tpis: seq<nat>, ptss: seq<nat>, entries: seq<int>,
    idr: bool, lastSame: nat, lastEntry: nat,
    sections: seq<Section>, pcrs: seq<PcrReport>)

  /** Why the walk ended: a packet without the sync byte (`break`), the
      packet limit (`break`), a read past the end of the file (the
      `struct.error` nothing catches), or the first section parsed when
      only the first one is wanted (`return`). */
  datatype End = SyncLost | PacketLimit | ShortEnd | FirstSection

  function Initial(p: Params): WalkState {
    WalkState(Start(p), 0, [], [], [], [], false, 0, 0, [], [])
  }

  /** Unique mode: `--unique` with a search for one kind of section. */
  predicate UniqueMode(p: Params) {
    p.psiMode == 2 && p.searchItem in {"PAT", "PMT", "SIT"}
  }

  function Pids(ss: seq<Section>): (r: seq<nat>)
    ensures |r| == |ss|
    ensures forall i :: 0 <= i < |ss| ==> r[i] == ss[i].pid
  {
    if ss == [] then [] else Pids(ss[..|ss| - 1]) + [ss[|ss| - 1].pid]
  }

  predicate Distinct(xs: seq<nat>) {
    forall i, j :: 0 <= i < j < |xs| ==> xs[i] != xs[j]
  }

  // ---------------------------------------------------------------
  // The invariants of the walk
  // ---------------------------------------------------------------

  /** The offset is that of packet `count`, and every packet before it
      had the sync byte. */
  predicate Positioned(data: seq<Byte>, p: Params, st: WalkState) {
    st.n == PacketAt(p, st.count)
    && forall i :: 0 <= i < st.count ==> SyncAt(data, PacketAt(p, i))
  }

  /** The elementary-stream lists: a TPI and a PTS for each IDR PES
      start, an entry count for each IDR start followed by another PES
      start, the TPIs the increasing packet numbers of those starts. */
  predicate EsBook(p: Params, st: WalkState, bound: nat) {
    && |st.tpis| == |st.ptss|
    && |st.entries| + (if st.idr then 1 else 0) == |st.tpis|
    && (forall i :: 0 <= i < |st.ptss| ==> st.ptss[i] < 0x100_0000)
    && (forall i :: 0 <= i < |st.tpis| ==> st.tpis[i] < bound)
    && (forall i, j :: 0 <= i < j < |st.tpis| ==> st.tpis[i] < st.tpis[j])
    && (forall i :: 0 <= i < |st.entries| ==> st.entries[i] >= 1)
    && (p.mode != "ES" ==> st.tpis == [] && st.entries == [] && !st.idr)
  }

  /** Between PES starts: the IDR packet is not after the last packet
      of the PID. */
  predicate EsMarks(st: WalkState) {
    st.lastSame <= st.count && st.lastEntry <= st.count && (st.idr ==> st.lastEntry <= st.lastSame)
  }

  /** The sections: each one of a kind the walk was asked for and none
      refused by its parser, at most one when only the first is wanted,
      and in unique mode one per PID in `PIDList`, which holds no PID
      twice. */
  predicate PsiBook(p: Params, st: WalkState) {
    && (forall i :: 0 <= i < |st.sections| ==> Wanted(p, TableId(st.sections[i].table), st.sections[i].pid))
    && (p.psiMode == 0 ==> |st.sections| <= 1)
    && (UniqueMode(p) ==> Pids(st.sections) == st.pids)
    && (!UniqueMode(p) ==> st.pids == [])
    && Distinct(st.pids)
  }

  predicate PcrBook(st: WalkState) {
    forall i :: 0 <= i < |st.pcrs| ==> PcrInRange(st.pcrs[i].pcr)
  }

  /** The offset of the payload of the packet at `n` whose adaptation
      field control is `control`: after the header and, for control 2 or
      3, after the adaptation field. */
  function PayloadStart(data: seq<Byte>, n: nat, control: nat): nat {
    var adapted := (control == 2 || control == 3) && AdaptationField(data, n + 4).Done?;
    n + (if adapted then AdaptationField(data, n + 4).value.length else 0) + 4
  }

  /** The header of the packet at `n` has the sync byte, the flag `pusi`
      and the PID `pid`, and says that the packet carries a payload,
      which starts at `n + afl + 4` (TSParser.py:374-398). */
  predicate CarriesAt(data: seq<Byte>, n: nat, pusi: nat, pid: nat, afl: nat) {
    match ReadFile(data, n, 4)
    case None => false
    case Some(h) =>
      var control := Bits(h, 0x10, 4);
      && SyncAt(data, n)
      && pusi == Bits(h, 0x40_0000, 2) && pid == Bits(h, 0x100, 0x2000)
      && (control == 1 || (control == 3 && AdaptationField(data, n + 4).Done?))
      && n + afl + 4 == PayloadStart(data, n, control)
  }

  /** The offset of the payload of packet `c`. */
  function PesOffset(data: seq<Byte>, p: Params, c: nat): nat {
    var n := PacketAt(p, c);
    match ReadFile(data, n, 4)
    case None => 0
    case Some(h) => PayloadStart(data, n, Bits(h, 0x10, 4))
  }

  /** Packet `c` starts a PES packet of the chosen PID: it carries a
      payload with the unit start flag set, and the payload begins with
      the prefix 00 00 01 (TSParser.py:396-401). */
  predicate PesStartAt(data: seq<Byte>, p: Params, c: nat) {
    var n := PacketAt(p, c);
    match ReadFile(data, n, 4)
    case None => false
    case Some(h) =>
      var control := Bits(h, 0x10, 4);
      && SyncAt(data, n)
      && Bits(h, 0x40_0000, 2) == 1 && Bits(h, 0x100, 0x2000) == p.pid
      && (control == 1 || (control == 3 && AdaptationField(data, n + 4).Done?))
      && ReadFile(data, PayloadStart(data, n, control), 4).Some?
      && StartCode(ReadFile(data, PayloadStart(data, n, control), 4).value)
  }

  /** Entry `i` of the IDR lists: its packet starts a PES packet of the
      chosen PID, and either that PES header found an IDR access unit
      and `ptss[i]` is its PTS_MSB24, or the header found neither a time
      stamp nor a type, so that `PESPacketInfo` still held those of the
      entry before (TSParser.py:403-424). */
  predicate IdrEntry(data: seq<Byte>, p: Params, tpis: seq<nat>, ptss: seq<nat>, i: nat) {
    && i < |tpis| && i < |ptss|
    && PesStartAt(data, p, tpis[i])
    && match HeaderStamp(data, PesOffset(data, p, tpis[i]))
       case Some((hi, lo, au)) => au == Some(IDR_PICTURE) && ptss[i] == PtsMsb24(hi, lo)
       case None => 0 < i && ptss[i] == ptss[i - 1]
  }

  /** Every entry of `TPIList` and `PTSList` is an IDR entry. */
  predicate IdrBook(data: seq<Byte>, p: Params, tpis: seq<nat>, ptss: seq<nat>) {
    |tpis| == |ptss| && forall i :: 0 <= i < |tpis| ==> IdrEntry(data, p, tpis, ptss, i)
  }

  /** In ES mode, an IDR type left in `PESPacketInfo` is that of the last
      entry, whose PTS_MSB24 is the one the record holds. */
  predicate Tracks(p: Params, ptss: seq<nat>, s: PesState) {
    p.mode == "ES" && s.auType == Some(IDR_PICTURE) ==> |ptss| > 0 && ptss[|ptss| - 1] == PtsMsb24(s.ptsHi, s.ptsLo)
  }

  /** A packet of the chosen PID that carries a payload starting with
      the prefix, with the unit start flag set, is a PES start. */
  lemma CarriedPesStart(data: seq<Byte>, p: Params, c: nat, pid: nat, afl: nat)
    requires CarriesAt(data, PacketAt(p, c), 1, pid, afl) && pid == p.pid
    requires ReadFile(data, PacketAt(p, c) + afl + 4, 4).Some?
    requires StartCode(ReadFile(data, PacketAt(p, c) + afl + 4, 4).value)
    ensures PesStartAt(data, p, c) && PesOffset(data, p, c) == PacketAt(p, c) + afl + 4
  {
  }

  /** A PES start whose header stamps an IDR picture makes an IDR
      entry of its packet number and `PTS_MSB24`; so does one whose
      header stamps nothing while the record still holds the last
      entry's IDR stamp. */
  lemma IdrStampEntry(data: seq<Byte>, p: Params, tpis: seq<nat>, ptss: seq<nat>, c: nat, hi: nat, lo: nat)
    requires |tpis| == |ptss| && PesStartAt(data, p, c)
    requires HeaderStamp(data, PesOffset(data, p, c)).Some? ==> HeaderStamp(data, PesOffset(data, p, c)).value == (hi, lo, Some(IDR_PICTURE))
    requires HeaderStamp(data, PesOffset(data, p, c)).None? ==> |ptss| > 0 && ptss[|ptss| - 1] == PtsMsb24(hi, lo)
    ensures IdrEntry(data, p, tpis + [c], ptss + [PtsMsb24(hi, lo)], |tpis|)
  {
  }

  /** One more entry that is an IDR entry keeps the book. */
  lemma IdrBookSnoc(data: seq<Byte>, p: Params, tpis: seq<nat>, ptss: seq<nat>, t: nat, m: nat)
    requires IdrBook(data, p, tpis, ptss)
    requires IdrEntry(data, p, tpis + [t], ptss + [m], |tpis|)
    ensures IdrBook(data, p, tpis + [t], ptss + [m])
  {
    forall i | 0 <= i < |tpis|
      ensures IdrEntry(data, p, tpis + [t], ptss + [m], i)
    {
      assert (tpis + [t])[i] == tpis[i] && (ptss + [m])[i] == ptss[i];
      if 0 < i {
        assert (ptss + [m])[i - 1] == ptss[i - 1];
      }
      assert IdrEntry(data, p, tpis, ptss, i);
    }
  }

  predicate Inv(data: seq<Byte>, p: Params, st: WalkState) {
    && Positioned(data, p, st) && EsBook(p, st, st.count) && EsMarks(st) && PsiBook(p, st) && PcrBook(st)
    && IdrBook(data, p, st.tpis, st.ptss)
    && (p.psiMode == 0 ==> st.sections == [])
  }

  // ---------------------------------------------------------------
  // The unique-mode check
  // ---------------------------------------------------------------

  /** The `for i in PIDList` loop: whether `pid` is not in the list yet. */
  method IsUnique(pids: seq<nat>, pid: nat) returns (unique: bool)
    ensures unique <==> pid !in pids
  {
    unique := true;
    for i := 0 to |pids|
      invariant unique <==> pid !in pids[..i]
    {
      if pids[i] == pid {
        unique := false;
      }
      assert pids[..i + 1] == pids[..i] + [pids[i]];
    }
    assert pids[..|pids|] == pids;
  }

  /** The unique-mode check of the PMT and SIT branches
      (TSParser.py:465-476, 484-494): a new PID is added to the list and
      its section parsed; a PID seen before skips the packet. Returns the
      new list and whether to parse. */
  function UniqueCheck(pids: seq<nat>, pid: nat): (seq<nat>, bool) {
    if pid in pids then (pids, false) else (pids + [pid], true)
  }

  /** The check parses exactly the PIDs not seen before, once each: the
      list stays free of duplicates and grows by the PID parsed. */
  lemma UniqueCheckRule(pids: seq<nat>, pid: nat)
    requires Distinct(pids)
    ensures UniqueCheck(pids, pid).1 <==> pid !in pids
    ensures Distinct(UniqueCheck(pids, pid).0)
    ensures UniqueCheck(pids, pid).1 ==> UniqueCheck(pids, pid).0 == pids + [pid]
    ensures !UniqueCheck(pids, pid).1 ==> UniqueCheck(pids, pid).0 == pids
    ensures pid in UniqueCheck(pids, pid).0
  {
  }

  /** What the PAT branch does as written (TSParser.py:443-454), whose
      `continue` is outside the `else`: the new list, whether the PAT
      is parsed, and whether the walk moves to the next packet. */
  function PatUniqueAsWritten(pids: seq<nat>, pid: nat): (seq<nat>, bool, bool) {
    if pid in pids then (pids, false, true) else (pids + [pid], false, false)
  }

  /** As written, a PAT packet is never parsed in unique mode: a new PID
      is added and the same packet read again without moving on, and on
      that second visit the PID is no longer new, so the packet is
      skipped. The PMT and SIT branches parse the first section of each
      new PID. */
  lemma PatUniqueAsWrittenNeverParses(pids: seq<nat>, pid: nat)
    ensures !PatUniqueAsWritten(pids, pid).1
    ensures var (again, _, moved) := PatUniqueAsWritten(pids, pid);
      !moved ==> PatUniqueAsWritten(again, pid) == (again, false, true)
    ensures pid !in pids ==> UniqueCheck(pids, pid).1
  {
  }

  // ---------------------------------------------------------------
  // One packet
  // ---------------------------------------------------------------

  /** What the rest of a packet does after its payload was read. */
  datatype Payload = Proceed(st: WalkState) | Skip | Halt(st: WalkState, end: End)

  /** The end of a packet (TSParser.py:503-520): the last packet number
      of the chosen PID, kept only for a packet that carries a payload
      (`carried`, the test of TSParser.py:396 that encloses it), then the
      next offset and count, and the packet limit. */
  function Advance(p: Params, st: WalkState, pid: nat, carried: bool): (WalkState, bool) {
    var st1 := if carried && pid == p.pid then st.(lastSame := st.count) else st;
    var st2 := st1.(n := st.n + p.packetSize, count := st.count + 1);
    (st2, st2.count > MAX_PACKET_COUNT)
  }

  /** The state in the middle of a packet, before `Advance`: as `Inv`,
      except that the packet may have recorded an IDR start whose PID's
      last packet number is only brought up to date by `Advance`. */
  predicate Mid(data: seq<Byte>, p: Params, st: WalkState, pid: nat) {
    && Positioned(data, p, st)
    && EsBook(p, st, st.count + 1) && PsiBook(p, st) && PcrBook(st)
    && IdrBook(data, p, st.tpis, st.ptss)
    && (p.psiMode == 0 ==> st.sections == [])
    && st.lastSame <= st.count && st.lastEntry <= st.count
    && (st.idr ==> st.lastEntry <= st.lastSame || (st.lastEntry == st.count && pid == p.pid))
  }

  lemma InvMid(data: seq<Byte>, p: Params, st: WalkState, pid: nat)
    requires Inv(data, p, st)
    ensures Mid(data, p, st, pid)
  {
  }

  /** The end of a packet keeps the invariant. Only a packet of the
      chosen PID with a payload moves its last packet number, to this
      packet; an adaptation-only packet leaves it, and with it the
      length of the next entry. */
  lemma AdvanceKeeps(data: seq<Byte>, p: Params, st: WalkState, pid: nat, carried: bool)
    requires Mid(data, p, st, pid) && SyncAt(data, st.n)
    requires !carried ==> EsMarks(st)
    ensures Inv(data, p, Advance(p, st, pid, carried).0)
    ensures Advance(p, st, pid, carried).0.count == st.count + 1 && Advance(p, st, pid, carried).0.n == st.n + p.packetSize
    ensures carried && pid == p.pid ==> Advance(p, st, pid, carried).0.lastSame == st.count
    ensures !carried || pid != p.pid ==> Advance(p, st, pid, carried).0.lastSame == st.lastSame
    ensures Advance(p, st, pid, carried).0.entries == st.entries && Advance(p, st, pid, carried).0.tpis == st.tpis
  {
    var st2 := Advance(p, st, pid, carried).0;
    assert PacketAt(p, st.count + 1) == PacketAt(p, st.count) + p.packetSize;
    forall i | 0 <= i < st2.count
      ensures SyncAt(data, PacketAt(p, i))
    {
      if i == st.count {
        assert PacketAt(p, i) == st.n;
      }
    }
  }

  /** The packet skipped as a duplicate in unique mode
      (TSParser.py:473-476): the offset and count move on, with neither
      the PID's last packet nor the packet limit updated. */
  lemma SkipKeeps(data: seq<Byte>, p: Params, st: WalkState)
    requires Inv(data, p, st) && SyncAt(data, st.n)
    ensures Inv(data, p, st.(n := st.n + p.packetSize, count := st.count + 1))
  {
    var st2 := st.(n := st.n + p.packetSize, count := st.count + 1);
    assert PacketAt(p, st.count + 1) == PacketAt(p, st.count) + p.packetSize;
    forall i | 0 <= i < st2.count
      ensures SyncAt(data, PacketAt(p, i))
    {
      if i == st.count {
        assert PacketAt(p, i) == st.n;
      }
    }
  }

  /** A PES start of the chosen PID (TSParser.py:400-426): the PES
      header is parsed into `info`. In ES mode an entry count is recorded
      for the previous IDR start; the start is an IDR start exactly when
      the type the record then holds is an IDR picture, and it appends its
      packet number and the `PTS_MSB24` of the record. Outside ES mode
      the walk state is unchanged. */
  method PesStart(data: seq<Byte>, p: Params, st: WalkState, start: nat, info: PESPacketInfo) returns (r: Payload)
    requires EsBook(p, st, st.count) && EsMarks(st) && IdrBook(data, p, st.tpis, st.ptss)
    requires PesStartAt(data, p, st.count) && start == PesOffset(data, p, st.count)
    requires PesInRange(info.State()) && Tracks(p, st.ptss, info.State())
    modifies info
    ensures PesInRange(info.State())
    ensures r.Proceed? || r == Halt(st, ShortEnd)
    ensures r.Halt? ==> PesHeaderShort(data, start)
    ensures r.Proceed? ==>
      && r.st == st.(tpis := r.st.tpis, ptss := r.st.ptss, entries := r.st.entries, idr := r.st.idr, lastEntry := r.st.lastEntry)
      && EsBook(p, r.st, st.count + 1)
      && r.st.lastEntry <= st.count
      && (r.st.idr ==> r.st.lastEntry <= r.st.lastSame || r.st.lastEntry == st.count)
      && IdrBook(data, p, r.st.tpis, r.st.ptss) && Tracks(p, r.st.ptss, info.State())
    ensures r.Proceed? && p.mode != "ES" ==> r.st == st
    ensures r.Proceed? && p.mode == "ES" ==>
      && (r.st.idr <==> info.auType == Some(IDR_PICTURE))
      && r.st.entries == st.entries + (if st.idr then [st.lastSame as int - st.lastEntry + 1] else [])
    ensures r.Proceed? && p.mode == "ES" && r.st.idr ==>
      && r.st.tpis == st.tpis + [st.count] && r.st.lastEntry == st.count
      && r.st.ptss == st.ptss + [PtsMsb24(info.ptsHi, info.ptsLo)]
    ensures r.Proceed? && p.mode == "ES" && !r.st.idr ==>
      r.st.tpis == st.tpis && r.st.ptss == st.ptss && r.st.lastEntry == st.lastEntry
  {
    ghost var before := info.State();
    var complete := ParsePESHeader(data, start, info);
    PesHeaderRule(data, start, before);
    PesHeaderComplete(data, start, before);
    if !complete {
      return Halt(st, ShortEnd);
    }
    PesHeaderStamp(data, start, before);
    if p.mode != "ES" {
      return Proceed(st);
    }
    var next := RecordStart(data, p, st, info.auType, info.ptsHi, info.ptsLo);
    return Proceed(next);
  }

  /** The ES-mode bookkeeping of a PES start whose header left the type
      `au` and the time stamp `hi`, `lo` in the record
      (TSParser.py:410-424): an entry count for the previous IDR start,
      then, for an IDR picture, the packet number and the `PTS_MSB24`.
      The record holds the stamp of this header when it has one, and
      otherwise the one it held before. */
  method RecordStart(data: seq<Byte>, p: Params, st: WalkState, au: Option<string>, hi: nat, lo: nat)
      returns (next: WalkState)
    requires EsBook(p, st, st.count) && EsMarks(st) && IdrBook(data, p, st.tpis, st.ptss)
    requires p.mode == "ES" && PesStartAt(data, p, st.count)
    requires HeaderStamp(data, PesOffset(data, p, st.count)).Some? ==> HeaderStamp(data, PesOffset(data, p, st.count)).value == (hi, lo, au)
    requires HeaderStamp(data, PesOffset(data, p, st.count)).None? && au == Some(IDR_PICTURE) ==>
      |st.ptss| > 0 && st.ptss[|st.ptss| - 1] == PtsMsb24(hi, lo)
    ensures next == st.(tpis := next.tpis, ptss := next.ptss, entries := next.entries, idr := next.idr, lastEntry := next.lastEntry)
    ensures EsBook(p, next, st.count + 1) && next.lastEntry <= st.count
    ensures next.idr ==> next.lastEntry <= next.lastSame || next.lastEntry == st.count
    ensures IdrBook(data, p, next.tpis, next.ptss)
    ensures (next.idr <==> au == Some(IDR_PICTURE))
    ensures next.entries == st.entries + (if st.idr then [st.lastSame as int - st.lastEntry + 1] else [])
    ensures next.idr ==>
      next.tpis == st.tpis + [st.count] && next.lastEntry == st.count && next.ptss == st.ptss + [PtsMsb24(hi, lo)]
    ensures !next.idr ==> next.tpis == st.tpis && next.ptss == st.ptss && next.lastEntry == st.lastEntry
  {
    var msb := PtsMsb24(hi, lo);
    PtsMsb24Rule(hi, lo);
    next := st;
    if st.idr {
      next := next.(entries := next.entries + [st.lastSame as int - st.lastEntry + 1]);
    }
    if au == Some(IDR_PICTURE) {
      IdrStampEntry(data, p, st.tpis, st.ptss, st.count, hi, lo);
      IdrBookSnoc(data, p, st.tpis, st.ptss, st.count, msb);
      next := next.(idr := true, lastEntry := st.count, tpis := next.tpis + [st.count], ptss := next.ptss + [msb]);
    } else {
      next := next.(idr := false);
    }
  }

  /** The flags of the kind of section of `tableId` (0x00 PAT, 0x02 PMT,
      0x7F SIT): whether the walk parses it (TSParser.py:442, 464, 483)
      and whether unique mode applies to it (TSParser.py:443, 465, 484). */
  function Wanted(p: Params, tableId: nat, pid: nat): bool {
    if tableId == 0x00 then (p.searchItem == "FFF" && p.mode == "PAT") || p.searchItem == "PAT"
    else if tableId == 0x02 then (p.searchItem == "FFF" && p.mode == "PMT" && pid == p.pid) || p.searchItem == "PMT"
    else if tableId == 0x7F then (p.searchItem == "FFF" && p.mode == "SIT" && pid == p.pid) || p.searchItem == "SIT"
    else false
  }

  /** The table id of a parsed section; a refused one has none. */
  function TableId(t: Table): nat {
    match t
    case Pat(_) => 0x00
    case Pmt(_) => 0x02
    case Sit(_) => 0x7F
    case Refused => 0x100
  }

  function UniqueFor(p: Params, tableId: nat): bool {
    p.psiMode == 2 && p.searchItem == (if tableId == 0x00 then "PAT" else if tableId == 0x02 then "PMT" else "SIT")
  }

  /** The parser of `tableId` run at `k`. */
  method ParseTable(data: seq<Byte>, k: nat, tableId: nat) returns (r: Outcome<Table>)
    requires tableId in {0x00, 0x02, 0x7F}
    requires k + 1 <= |data| && data[k] == tableId
    ensures r.Done? ==> TableId(r.value) == tableId
    ensures r.ShortRead? <==> SectionShort(data, k, tableId)
  {
    if tableId == 0x00 {
      var s := ParsePATSection(data, k);
      PatSectionRule(data, k);
      if s.ShortRead? {
        return ShortRead;
      }
      return Done(Pat(s.value.value));
    } else if tableId == 0x02 {
      var s := ParsePMTSection(data, k);
      PmtSectionRule(data, k);
      if s.ShortRead? {
        return ShortRead;
      }
      return Done(Pmt(s.value.value));
    } else {
      var s := ParseSITSection(data, k);
      SitSectionRule(data, k);
      if s.ShortRead? {
        return ShortRead;
      }
      return Done(Sit(s.value.value));
    }
  }

  /** A PSI section start (TSParser.py:428-498), with the unique-mode
      check of the PMT and SIT branches applied to the PAT too. */
  method SectionStart(data: seq<Byte>, p: Params, st: WalkState, pid: nat, k: nat, tableId: nat) returns (r: Payload)
    requires PsiBook(p, st) && (p.psiMode == 0 ==> st.sections == [])
    requires k + 1 <= |data| && data[k] == tableId
    ensures r.Skip? || r.Proceed? || r == Halt(st, ShortEnd) || r.end == FirstSection
    ensures r.Skip? ==> UniqueMode(p) && pid in st.pids
    ensures r.Halt? && r.end == ShortEnd ==> SectionShort(data, k, tableId)
    ensures r.Proceed? ==>
      && r.st == st.(sections := r.st.sections, pids := r.st.pids) && PsiBook(p, r.st)
      && (p.psiMode == 0 ==> r.st.sections == [])
    ensures r.Halt? && r.end == FirstSection ==>
      && r.st == st.(sections := r.st.sections, pids := r.st.pids) && PsiBook(p, r.st)
      && p.psiMode == 0 && |r.st.sections| == 1
  {
    if tableId !in {0x00, 0x02, 0x7F} || !Wanted(p, tableId, pid) {
      return Proceed(st);
    }
    if UniqueFor(p, tableId) {
      var unique := IsUnique(st.pids, pid);
      if !unique {
        return Skip;
      }
    }
    r := RecordSection(data, p, st, pid, k, tableId);
  }

  /** A wanted section that is parsed and recorded, its PID added to
      `PIDList` in unique mode (TSParser.py:445-458, 467-480, 486-498). */
  method RecordSection(data: seq<Byte>, p: Params, st: WalkState, pid: nat, k: nat, tableId: nat) returns (r: Payload)
    requires PsiBook(p, st) && (p.psiMode == 0 ==> st.sections == [])
    requires k + 1 <= |data| && data[k] == tableId && tableId in {0x00, 0x02, 0x7F}
    requires Wanted(p, tableId, pid) && (UniqueFor(p, tableId) ==> pid !in st.pids)
    ensures r == Halt(st, ShortEnd) || (r.Halt? && r.end == FirstSection) || r.Proceed?
    ensures r.Halt? && r.end == ShortEnd ==> SectionShort(data, k, tableId)
    ensures r.Proceed? ==>
      && r.st == st.(sections := r.st.sections, pids := r.st.pids) && PsiBook(p, r.st)
      && (p.psiMode == 0 ==> r.st.sections == [])
    ensures r.Halt? && r.end == FirstSection ==>
      && r.st == st.(sections := r.st.sections, pids := r.st.pids) && PsiBook(p, r.st)
      && p.psiMode == 0 && |r.st.sections| == 1
  {
    var pids := st.pids;
    if UniqueFor(p, tableId) {
      UniqueCheckRule(st.pids, pid);
      pids := UniqueCheck(st.pids, pid).0;
    }
    var table := ParseTable(data, k, tableId);
    if table.ShortRead? {
      return Halt(st, ShortEnd);
    }
    var next := st.(sections := st.sections + [Section(st.count, pid, table.value)], pids := pids);
    RecordKeepsBook(p, st, pid, table.value, pids);
    if p.psiMode == 0 {
      return Halt(next, FirstSection);
    }
    return Proceed(next);
  }

  /** Appending a wanted section, and its PID in unique mode, keeps the
      book of sections. */
  lemma RecordKeepsBook(p: Params, st: WalkState, pid: nat, t: Table, pids: seq<nat>)
    requires PsiBook(p, st) && (p.psiMode == 0 ==> st.sections == [])
    requires Wanted(p, TableId(t), pid)
    requires UniqueFor(p, TableId(t)) ==> pid !in st.pids && pids == st.pids + [pid]
    requires !UniqueFor(p, TableId(t)) ==> pids == st.pids
    ensures var next := st.(sections := st.sections + [Section(st.count, pid, t)], pids := pids);
            PsiBook(p, next) && (p.psiMode == 0 ==> |next.sections| == 1)
  {
    var next := st.(sections := st.sections + [Section(st.count, pid, t)], pids := pids);
    assert Pids(next.sections) == Pids(st.sections) + [pid];
  }

  /** The branch for a packet with a payload (TSParser.py:396-498): a PES
      start of the chosen PID, a PSI section start, or neither. */
  method VisitPayload(data: seq<Byte>, p: Params, st: WalkState, afl: nat, pid: nat, pusi: nat, info: PESPacketInfo)
      returns (r: Payload)
    requires Inv(data, p, st) && PesInRange(info.State()) && Tracks(p, st.ptss, info.State())
    requires CarriesAt(data, st.n, pusi, pid, afl)
    modifies info
    ensures PesInRange(info.State())
    ensures r.Halt? ==> r.end in {ShortEnd, FirstSection}
    ensures r.Proceed? ==> Mid(data, p, r.st, pid) && r.st.n == st.n && r.st.count == st.count
    ensures r.Proceed? ==> Tracks(p, r.st.ptss, info.State())
    ensures r.Skip? ==> UniqueMode(p) && Tracks(p, st.ptss, info.State())
    ensures r.Halt? && r.end == FirstSection ==> FirstStop(data, p, r.st)
    ensures r.Halt? && r.end == ShortEnd ==> r.st == st && PayloadShort(data, st.n + afl + 4, pusi, pid == p.pid)
  {
    var start := st.n + afl + 4;
    var code := ReadFile(data, start, 4);
    if code.None? {
      return Halt(st, ShortEnd);
    }
    if StartCode(code.value) && pid == p.pid && pusi == 1 {
      CarriedPesStart(data, p, st.count, pid, afl);
      r := VisitPes(data, p, st, start, pid, info);
    } else if !StartCode(code.value) && pusi == 1 {
      r := VisitSection(data, p, st, pid, start, code.value);
    } else {
      r := Proceed(st);
      InvMid(data, p, st, pid);
    }
  }

  /** A PES start of the chosen PID in the middle of a packet
      (TSParser.py:400-424). */
  method VisitPes(data: seq<Byte>, p: Params, st: WalkState, start: nat, pid: nat, info: PESPacketInfo)
      returns (r: Payload)
    requires Inv(data, p, st) && PesInRange(info.State()) && Tracks(p, st.ptss, info.State())
    requires pid == p.pid && PesStartAt(data, p, st.count) && start == PesOffset(data, p, st.count)
    requires ReadFile(data, start, 4).Some? && StartCode(ReadFile(data, start, 4).value)
    modifies info
    ensures PesInRange(info.State())
    ensures r.Proceed? || r == Halt(st, ShortEnd)
    ensures r.Halt? ==> PayloadShort(data, start, 1, true)
    ensures r.Proceed? ==>
      Mid(data, p, r.st, pid) && r.st.n == st.n && r.st.count == st.count && Tracks(p, r.st.ptss, info.State())
  {
    r := PesStart(data, p, st, start, info);
    if r.Proceed? {
      PesStartMid(data, p, st, r.st, pid);
    }
  }

  /** A unit start without a PES start code (TSParser.py:428-498): the
      first byte is the pointer field, and the section it points to
      starts with the table id. */
  method VisitSection(data: seq<Byte>, p: Params, st: WalkState, pid: nat, start: nat, code: nat) returns (r: Payload)
    requires Inv(data, p, st)
    requires ReadFile(data, start, 4) == Some(code) && !StartCode(code)
    ensures r.Halt? ==> r.end in {ShortEnd, FirstSection}
    ensures r.Proceed? ==> Mid(data, p, r.st, pid) && r.st.n == st.n && r.st.count == st.count && r.st.ptss == st.ptss
    ensures r.Skip? ==> UniqueMode(p)
    ensures r.Halt? && r.end == FirstSection ==> FirstStop(data, p, r.st)
    ensures r.Halt? && r.end == ShortEnd ==> r.st == st && PayloadShort(data, start, 1, pid == p.pid)
  {
    var pointer := code / 0x100_0000;
    var tableId := ReadFile(data, start + 1 + pointer, 1);
    if tableId.None? {
      return Halt(st, ShortEnd);
    }
    ReadOne(data, start + 1 + pointer);
    r := SectionStart(data, p, st, pid, start + 1 + pointer, tableId.value);
    if r.Proceed? {
      SectionStartMid(data, p, st, r.st, pid);
    } else if r.Halt? && r.end == FirstSection {
      SectionStartFirst(data, p, st, r.st);
    }
  }

  /** A PES start of the chosen PID changes only the ES lists, so the
      walk is in the middle of the same packet. */
  lemma PesStartMid(data: seq<Byte>, p: Params, st: WalkState, s: WalkState, pid: nat)
    requires Inv(data, p, st) && pid == p.pid
    requires s == st.(tpis := s.tpis, ptss := s.ptss, entries := s.entries, idr := s.idr, lastEntry := s.lastEntry)
    requires EsBook(p, s, st.count + 1) && s.lastEntry <= st.count
    requires s.idr ==> s.lastEntry <= s.lastSame || s.lastEntry == st.count
    requires IdrBook(data, p, s.tpis, s.ptss)
    ensures Mid(data, p, s, pid) && s.n == st.n && s.count == st.count
  {
    assert Positioned(data, p, s) && PsiBook(p, s) && PcrBook(s);
  }

  /** A section start changes only the sections and `PIDList`. */
  lemma SectionStartMid(data: seq<Byte>, p: Params, st: WalkState, s: WalkState, pid: nat)
    requires Inv(data, p, st)
    requires s == st.(sections := s.sections, pids := s.pids) && PsiBook(p, s)
    requires p.psiMode == 0 ==> s.sections == []
    ensures Mid(data, p, s, pid) && s.n == st.n && s.count == st.count
  {
    assert Positioned(data, p, s) && EsBook(p, s, s.count + 1) && PcrBook(s);
  }

  /** The first section ends the walk in the state `FirstStop` names. */
  lemma SectionStartFirst(data: seq<Byte>, p: Params, st: WalkState, s: WalkState)
    requires Inv(data, p, st)
    requires s == st.(sections := s.sections, pids := s.pids) && PsiBook(p, s)
    requires p.psiMode == 0 && |s.sections| == 1
    ensures FirstStop(data, p, s)
  {
    assert Positioned(data, p, s) && EsBook(p, s, s.count) && PcrBook(s);
  }

  /** The state the walk returns in after the first section when only
      the first is wanted (TSParser.py:457-458, 479-480, 497-498). */
  predicate FirstStop(data: seq<Byte>, p: Params, st: WalkState) {
    && Positioned(data, p, st) && EsBook(p, st, st.count) && PsiBook(p, st) && PcrBook(st)
    && IdrBook(data, p, st.tpis, st.ptss)
    && p.psiMode == 0 && |st.sections| == 1
  }

  datatype Step = Next(st: WalkState) | Stop(st: WalkState, end: End)

  // ---------------------------------------------------------------
  // Reads past the end of the file
  // ---------------------------------------------------------------

  /** The parser of the section kind `tableId` at `k` reads past the end
      of the file. */
  predicate SectionShort(data: seq<Byte>, k: nat, tableId: nat) {
    if tableId == 0x00 then PatSectionAt(data, k).ShortRead?
    else if tableId == 0x02 then PmtSectionAt(data, k).ShortRead?
    else tableId == 0x7F && SitSectionAt(data, k).ShortRead?
  }

  /** The payload at `start` runs past the end of the file: its first four
      bytes, or for a unit start the PES header after a start code when
      the packet is of the chosen PID (`chosen`), or else the table id
      after the pointer field or the section there. */
  predicate PayloadShort(data: seq<Byte>, start: nat, pusi: nat, chosen: bool) {
    match ReadFile(data, start, 4)
    case None => true
    case Some(code) =>
      pusi == 1 &&
      if StartCode(code) then chosen && PesHeaderShort(data, start)
      else
        var k := start + 1 + code / 0x100_0000;
        ReadFile(data, k, 1).None? || SectionShort(data, k, ReadFile(data, k, 1).value)
  }

  /** A packet at `n` with those header fields runs past the end of the
      file in its adaptation field or in its payload. */
  predicate PacketShort(data: seq<Byte>, n: nat, pusi: nat, control: nat, chosen: bool) {
    var adapted := control == 2 || control == 3;
    (adapted && AdaptationField(data, n + 4).ShortRead?)
    || ((control == 1 || control == 3)
        && PayloadShort(data, n + (if adapted then AdaptationField(data, n + 4).value.length else 0) + 4, pusi, chosen))
  }

  /** The packet at the walk's offset has a read past the end of the file
      (the `struct.error` of TSParser.py:366-498): its header, or one that
      its header fields lead to. */
  predicate ShortAt(data: seq<Byte>, p: Params, st: WalkState) {
    match ReadFile(data, st.n, 4)
    case None => true
    case Some(header) =>
      PacketShort(data, st.n, Bits(header, 0x40_0000, 2), Bits(header, 0x10, 4), Bits(header, 0x100, 0x2000) == p.pid)
  }

  /** An adaptation field that runs past the end makes its packet short. */
  lemma AdaptationShortAt(data: seq<Byte>, p: Params, st: WalkState, control: nat)
    requires ReadFile(data, st.n, 4).Some? && control == Bits(ReadFile(data, st.n, 4).value, 0x10, 4)
    requires (control == 2 || control == 3) && AdaptationField(data, st.n + 4).ShortRead?
    ensures ShortAt(data, p, st)
  {
  }

  /** A payload that runs past the end, after the adaptation field the
      header announces, makes its packet short; the packet is the one at
      the offset of `s`. */
  lemma PayloadShortAt(data: seq<Byte>, p: Params, st: WalkState, s: WalkState, pusi: nat, pid: nat, control: nat, afl: nat)
    requires ReadFile(data, st.n, 4).Some?
    requires pusi == Bits(ReadFile(data, st.n, 4).value, 0x40_0000, 2) && control == Bits(ReadFile(data, st.n, 4).value, 0x10, 4)
    requires pid == Bits(ReadFile(data, st.n, 4).value, 0x100, 0x2000)
    requires control == 1 || control == 3
    requires control == 3 ==> AdaptationField(data, st.n + 4).Done? && afl == AdaptationField(data, st.n + 4).value.length
    requires control == 1 ==> afl == 0
    requires PayloadShort(data, st.n + afl + 4, pusi, pid == p.pid) && s.n == st.n
    ensures ShortAt(data, p, s)
  {
  }

  /** The end states of the walk. */
  predicate Ended(data: seq<Byte>, p: Params, st: WalkState, end: End) {
    match end
    case SyncLost => Inv(data, p, st) && st.n + 4 <= |data| && data[st.n] != PACKET_SYNC_BYTE
    case PacketLimit => Inv(data, p, st) && st.count > MAX_PACKET_COUNT
    case ShortEnd => Inv(data, p, st) && ShortAt(data, p, st)
    case FirstSection => FirstStop(data, p, st)
  }

  /** The adaptation field of a packet whose control bits are 2 or 3
      (TSParser.py:376-394): its length, and the PCR report added when
      PCRs are searched for and the packet carries one. */
  method VisitAdaptation(data: seq<Byte>, p: Params, st: WalkState, pid: nat, clock: SystemClock)
      returns (r: Outcome<(WalkState, nat)>)
    requires Inv(data, p, st) && clock.Valid()
    modifies clock
    ensures clock.Valid()
    ensures r.Done? ==> Inv(data, p, r.value.0) && r.value.0 == st.(pcrs := r.value.0.pcrs)
    ensures r.Done? ==> AdaptationField(data, st.n + 4).Done? && r.value.1 == AdaptationField(data, st.n + 4).value.length
    ensures r.Done? && AdaptationField(data, st.n + 4).Done? ==> |r.value.0.pcrs| == |st.pcrs| + (if p.searchItem == "PCR" && AdaptationField(data, st.n + 4).value.pcr.Some? then 1 else 0)
    ensures r.ShortRead? <==> AdaptationField(data, st.n + 4).ShortRead?
  {
    AdaptationRule(data, st.n + 4);
    var a := ParseAdaptationField(data, st.n + 4, clock);
    if a.ShortRead? {
      return ShortRead;
    }
    var flags := a.value.1;
    var st1 := st;
    if p.searchItem == "PCR" && Bits(flags, 0x10, 2) == 1 {
      st1 := st.(pcrs := st.pcrs + [PcrReport(st.count, pid, clock.GetPCR(), Bits(flags, 0x80, 2) == 1)]);
    }
    return Done((st1, a.value.0));
  }

  /** The end of a pass of the loop after the payload: the packet is
      skipped as a duplicate, the walk halts, or the packet is counted
      (TSParser.py:453-454, 500-520). */
  method Conclude(data: seq<Byte>, p: Params, st: WalkState, st1: WalkState, payload: Payload, pid: nat, carried: bool)
      returns (step: Step)
    requires Inv(data, p, st) && Inv(data, p, st1) && SyncAt(data, st.n)
    requires st1.n == st.n && st1.count == st.count
    requires PayloadFits(data, p, st1, pid, payload)
    requires !carried ==> payload == Proceed(st1)
    requires payload.Halt? && payload.end == ShortEnd ==> ShortAt(data, p, payload.st)
    ensures step.Next? ==>
      Inv(data, p, step.st) && st.n + 4 <= |data| && step.st.n == st.n + p.packetSize && step.st.count == st.count + 1
    ensures step.Next? && !carried ==> step.st == st1.(n := st.n + p.packetSize, count := st.count + 1)
    ensures step.Stop? ==> Ended(data, p, step.st, step.end)
    ensures step.Stop? && step.end == ShortEnd ==> payload.Halt? && step.st == payload.st
    ensures step.Next? ==> !payload.Halt? && step.st.ptss == (if payload.Proceed? then payload.st.ptss else st1.ptss)
  {
    match payload
    case Skip =>
      SkipKeeps(data, p, st1);
      return Next(st1.(n := st.n + p.packetSize, count := st.count + 1));
    case Halt(s, end) =>
      if end == ShortEnd {
        return Stop(s, ShortEnd);
      }
      return Stop(s, FirstSection);
    case Proceed(s) =>
      AdvanceKeeps(data, p, s, pid, carried);
      var (s2, limit) := Advance(p, s, pid, carried);
      if limit {
        return Stop(s2, PacketLimit);
      }
      return Next(s2);
  }

  /** What the payload step leaves for the end of the packet: a halt at a
      short read in the state the packet had reached, a halt after the
      first section, or a middle state at the same packet. */
  predicate PayloadFits(data: seq<Byte>, p: Params, st: WalkState, pid: nat, payload: Payload) {
    && (payload.Halt? ==> payload.end in {ShortEnd, FirstSection})
    && (payload.Halt? && payload.end == ShortEnd ==> payload == Halt(st, ShortEnd))
    && (payload.Proceed? ==> Mid(data, p, payload.st, pid) && payload.st.n == st.n && payload.st.count == st.count)
    && (payload.Halt? && payload.end == FirstSection ==> FirstStop(data, p, payload.st))
  }

  /** The payload of a packet whose adaptation field control says it has
      one (TSParser.py:404-500); a packet without one goes straight to
      its end. */
  method PayloadOf(data: seq<Byte>, p: Params, st: WalkState, afl: nat, pid: nat, pusi: nat, control: nat,
                   info: PESPacketInfo)
      returns (payload: Payload)
    requires Inv(data, p, st) && PesInRange(info.State()) && Tracks(p, st.ptss, info.State())
    requires SyncAt(data, st.n) && ReadFile(data, st.n, 4).Some?
    requires pusi == Bits(ReadFile(data, st.n, 4).value, 0x40_0000, 2) && control == Bits(ReadFile(data, st.n, 4).value, 0x10, 4)
    requires pid == Bits(ReadFile(data, st.n, 4).value, 0x100, 0x2000)
    requires control == 2 || control == 3 ==> AdaptationField(data, st.n + 4).Done? && afl == AdaptationField(data, st.n + 4).value.length
    requires control != 2 && control != 3 ==> afl == 0
    modifies info
    ensures PesInRange(info.State())
    ensures PayloadFits(data, p, st, pid, payload)
    ensures payload.Proceed? ==> Tracks(p, payload.st.ptss, info.State())
    ensures payload.Skip? ==> Tracks(p, st.ptss, info.State())
    ensures !(control == 1 || control == 3) ==> payload == Proceed(st)
    ensures payload.Halt? && payload.end == ShortEnd ==>
      (control == 1 || control == 3) && PayloadShort(data, st.n + afl + 4, pusi, pid == p.pid)
  {
    payload := Proceed(st);
    if control == 1 || control == 3 {
      payload := VisitPayload(data, p, st, afl, pid, pusi, info);
    } else {
      InvMid(data, p, st, pid);
    }
  }

  /** One pass of the `while` loop of `parseTSMain` (TSParser.py:361-520). */
  method VisitPacket(data: seq<Byte>, p: Params, st: WalkState, clock: SystemClock, info: PESPacketInfo)
      returns (step: Step)
    requires Inv(data, p, st) && clock.Valid() && PesInRange(info.State()) && Tracks(p, st.ptss, info.State())
    modifies clock, info
    ensures clock.Valid() && PesInRange(info.State())
    ensures step.Next? ==> Tracks(p, step.st.ptss, info.State())
    ensures step.Next? ==>
      Inv(data, p, step.st) && st.n + 4 <= |data| && step.st.n == st.n + p.packetSize && step.st.count == st.count + 1
    ensures step.Stop? ==> Ended(data, p, step.st, step.end)
  {
    var header := ReadFile(data, st.n, 4);
    if header.None? {
      return Stop(st, ShortEnd);
    }
    TopByte(data, st.n);
    if header.value / 0x100_0000 != PACKET_SYNC_BYTE {
      return Stop(st, SyncLost);
    }
    step := VisitSynced(data, p, st, header.value, clock, info);
  }

  /** The rest of a pass for a packet that starts with the sync byte and
      whose four header bytes are `header` (TSParser.py:368-520). */
  method VisitSynced(data: seq<Byte>, p: Params, st: WalkState, header: nat, clock: SystemClock, info: PESPacketInfo)
      returns (step: Step)
    requires Inv(data, p, st) && clock.Valid() && PesInRange(info.State()) && Tracks(p, st.ptss, info.State())
    requires SyncAt(data, st.n) && ReadFile(data, st.n, 4) == Some(header)
    modifies clock, info
    ensures clock.Valid() && PesInRange(info.State())
    ensures step.Next? ==> Tracks(p, step.st.ptss, info.State())
    ensures step.Next? ==>
      Inv(data, p, step.st) && st.n + 4 <= |data| && step.st.n == st.n + p.packetSize && step.st.count == st.count + 1
    ensures step.Stop? ==> Ended(data, p, step.st, step.end)
  {
    var pusi := Bits(header, 0x40_0000, 2);
    var pid := Bits(header, 0x100, 0x2000);
    var control := Bits(header, 0x10, 4);
    step := VisitFields(data, p, st, pusi, pid, control, clock, info);
  }

  /** Whether the adaptation field of the packet at `n` is read and the
      PCR it carries logged (TSParser.py:383-394). */
  predicate PcrLogged(data: seq<Byte>, p: Params, n: nat, control: nat) {
    (control == 2 || control == 3) && p.searchItem == "PCR"
    && AdaptationField(data, n + 4).Done? && AdaptationField(data, n + 4).value.pcr.Some?
  }

  /** The adaptation field and the payload of a synced packet, by its
      `payload_unit_start_indicator`, PID and adaptation field control.
      A packet without a payload changes at most the PCR reports before
      the walk moves on. */
  method VisitFields(data: seq<Byte>, p: Params, st: WalkState, pusi: nat, pid: nat, control: nat,
                     clock: SystemClock, info: PESPacketInfo)
      returns (step: Step)
    requires Inv(data, p, st) && clock.Valid() && PesInRange(info.State()) && Tracks(p, st.ptss, info.State())
    requires SyncAt(data, st.n) && ReadFile(data, st.n, 4).Some?
    requires pusi == Bits(ReadFile(data, st.n, 4).value, 0x40_0000, 2) && control == Bits(ReadFile(data, st.n, 4).value, 0x10, 4)
    requires pid == Bits(ReadFile(data, st.n, 4).value, 0x100, 0x2000)
    modifies clock, info
    ensures clock.Valid() && PesInRange(info.State())
    ensures step.Next? ==> Tracks(p, step.st.ptss, info.State())
    ensures step.Next? ==>
      Inv(data, p, step.st) && st.n + 4 <= |data| && step.st.n == st.n + p.packetSize && step.st.count == st.count + 1
    ensures step.Stop? && step.end == ShortEnd ==>
      step.st == st.(pcrs := step.st.pcrs)
      && |step.st.pcrs| == |st.pcrs| + (if PcrLogged(data, p, st.n, control) then 1 else 0)
    ensures step.Next? && control != 1 && control != 3 ==>
      step.st == st.(pcrs := step.st.pcrs, n := st.n + p.packetSize, count := st.count + 1)
    ensures step.Stop? ==> Ended(data, p, step.st, step.end)
  {
    if control == 2 || control == 3 {
      step := VisitAdapted(data, p, st, pusi, pid, control, clock, info);
    } else {
      step := VisitRest(data, p, st, st, 0, pusi, pid, control, info);
    }
  }

  /** `VisitFields` for a packet with an adaptation field: a field that
      runs past the end stops the walk in the state it was in. */
  method VisitAdapted(data: seq<Byte>, p: Params, st: WalkState, pusi: nat, pid: nat, control: nat,
                      clock: SystemClock, info: PESPacketInfo)
      returns (step: Step)
    requires Inv(data, p, st) && clock.Valid() && PesInRange(info.State()) && Tracks(p, st.ptss, info.State())
    requires SyncAt(data, st.n) && ReadFile(data, st.n, 4).Some?
    requires pusi == Bits(ReadFile(data, st.n, 4).value, 0x40_0000, 2) && control == Bits(ReadFile(data, st.n, 4).value, 0x10, 4)
    requires pid == Bits(ReadFile(data, st.n, 4).value, 0x100, 0x2000)
    requires control == 2 || control == 3
    modifies clock, info
    ensures clock.Valid() && PesInRange(info.State())
    ensures step.Next? ==> Tracks(p, step.st.ptss, info.State())
    ensures step.Next? ==>
      Inv(data, p, step.st) && st.n + 4 <= |data| && step.st.n == st.n + p.packetSize && step.st.count == st.count + 1
    ensures step.Stop? && step.end == ShortEnd ==>
      step.st == st.(pcrs := step.st.pcrs)
      && |step.st.pcrs| == |st.pcrs| + (if PcrLogged(data, p, st.n, control) then 1 else 0)
    ensures step.Next? && control == 2 ==> step.st == st.(pcrs := step.st.pcrs, n := st.n + p.packetSize, count := st.count + 1)
    ensures step.Stop? ==> Ended(data, p, step.st, step.end)
  {
    var a := VisitAdaptation(data, p, st, pid, clock);
    if a.ShortRead? {
      AdaptationShortAt(data, p, st, control);
      return Stop(st, ShortEnd);
    }
    var (st1, afl) := a.value;
    assert st1.ptss == st.ptss;
    step := VisitRest(data, p, st, st1, afl, pusi, pid, control, info);
  }

  /** The payload and the end of a synced packet, in the state `st1` its
      adaptation field left, whose length is `afl`: at a short read the
      walk stops in that state. */
  method VisitRest(data: seq<Byte>, p: Params, st: WalkState, st1: WalkState, afl: nat,
                   pusi: nat, pid: nat, control: nat, info: PESPacketInfo)
      returns (step: Step)
    requires Inv(data, p, st) && Inv(data, p, st1) && PesInRange(info.State()) && Tracks(p, st.ptss, info.State())
    requires SyncAt(data, st.n) && ReadFile(data, st.n, 4).Some?
    requires pusi == Bits(ReadFile(data, st.n, 4).value, 0x40_0000, 2) && control == Bits(ReadFile(data, st.n, 4).value, 0x10, 4)
    requires pid == Bits(ReadFile(data, st.n, 4).value, 0x100, 0x2000)
    requires st1 == st.(pcrs := st1.pcrs)
    requires control == 2 || control == 3 ==> AdaptationField(data, st.n + 4).Done? && afl == AdaptationField(data, st.n + 4).value.length
    requires control != 2 && control != 3 ==> afl == 0 && st1 == st
    modifies info
    ensures PesInRange(info.State())
    ensures step.Next? ==> Tracks(p, step.st.ptss, info.State())
    ensures step.Next? ==>
      Inv(data, p, step.st) && st.n + 4 <= |data| && step.st.n == st.n + p.packetSize && step.st.count == st.count + 1
    ensures step.Stop? && step.end == ShortEnd ==> step.st == st1
    ensures step.Next? && control != 1 && control != 3 ==> step.st == st1.(n := st.n + p.packetSize, count := st.count + 1)
    ensures step.Stop? ==> Ended(data, p, step.st, step.end)
  {
    var payload := PayloadOf(data, p, st1, afl, pid, pusi, control, info);
    if payload.Halt? && payload.end == ShortEnd {
      PayloadShortAt(data, p, st, payload.st, pusi, pid, control, afl);
    }
    step := Conclude(data, p, st, st1, payload, pid, control == 1 || control == 3);
  }

  datatype WalkResult = WalkResult(end: End, state: WalkState)

  /** `parseTSMain` (TSParser.py:329-529), with the unique-mode check of
      the PAT branch corrected (see `PatUniqueAsWritten`). It ends at the
      first packet without the sync byte, past the packet limit, at a
      read past the end of the file, or after the first section when only
      the first is wanted. Every packet before the last one visited had
      the sync byte and the offset is that of the packet count; the ES
      lists have the lengths the entry summary needs; in unique mode each
      PID of `PIDList` has exactly one section. */
  method ParseTSMain(data: seq<Byte>, p: Params) returns (r: WalkResult)
    requires p.packetSize > 0
    ensures Positioned(data, p, r.state) && EsBook(p, r.state, r.state.count) && PsiBook(p, r.state) && PcrBook(r.state)
    ensures IdrBook(data, p, r.state.tpis, r.state.ptss)
    ensures r.end == SyncLost ==> r.state.n + 4 <= |data| && data[r.state.n] != PACKET_SYNC_BYTE
    ensures r.end == PacketLimit ==> r.state.count > MAX_PACKET_COUNT
    ensures r.end == ShortEnd ==> ShortAt(data, p, r.state)
    ensures p.psiMode == 0 ==> |r.state.sections| == (if r.end == FirstSection then 1 else 0)
  {
    var clock := new SystemClock();
    var info := new PESPacketInfo();
    var st := Initial(p);
    while true
      invariant Inv(data, p, st) && clock.Valid() && PesInRange(info.State()) && Tracks(p, st.ptss, info.State())
      decreases |data| - st.n
    {
      var step := VisitPacket(data, p, st, clock, info);
      if step.Stop? {
        return WalkResult(step.end, step.st);
      }
      st := step.st;
    }
  }

  /** A row of the summary logged after the loop (TSParser.py:527-529). */
  datatype EntryRow = EntryRow(tpi: nat, pts: nat, entryPackets: int)

  /** The summary rows, logged only when the loop left by `break`; the
      indices of `TPIList` and `PTSList` it uses are in range because
      there are at least as many of them as entries. */
  function Summary(r: WalkResult): (rows: seq<EntryRow>)
    requires |r.state.entries| <= |r.state.tpis| && |r.state.tpis| == |r.state.ptss|
    ensures |rows| == (if r.end in {SyncLost, PacketLimit} then |r.state.entries| else 0)
  {
    if r.end in {SyncLost, PacketLimit} then
      seq(|r.state.entries|, i requires 0 <= i < |r.state.entries| =>
          EntryRow(r.state.tpis[i], r.state.ptss[i], r.state.entries[i]))
    else []
  }
}
