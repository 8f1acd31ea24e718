/** The written plugin file: what a scan finds in it, and when it passes the verifier. */
module EspFile {
  import opened Bytes
  import opened Blobs
  import opened Subrecords
  import opened Esp

  // ---------------------------------------------------------------- writing

  /** The number 1.0 as a little-endian float. */
  const ONE: seq<Byte> := [0, 0, 0x80, 0x3F]

  function HexDigit(n: int): (c: char)
    requires 0 <= n < 16
    ensures c < '\U{0080}'
  {
    "0123456789ABCDEF"[n]
  }

  /** A number as eight hexadecimal digits. */
  function Hex(n: nat, digits: nat): (s: string)
    ensures |s| == digits && IsAscii(s)
  {
    if digits == 0 then "" else Hex(n / 16, digits - 1) + [HexDigit(n % 16)]
  }

  function Credit(srcId: Word32): (s: string)
    ensures IsAscii(s) && |s| == 50
  {
    "CMP_RemotePlayer copied from Fallout4.esm " + Hex(srcId, 8)
  }

  /** The subrecords of the file header; all short, so `sub` prints them as the builder does. */
  function Tes4Subs(srcId: Word32): (r: seq<Sub>)
    ensures |r| == 6
  {
    [ Sub("HEDR", ONE + Le32(1) + Le32(0x801)),
      Sub("CNAM", AsciiBytes("CommonwealthMP") + [0]),
      Sub("SNAM", AsciiBytes(Credit(srcId)) + [0]),
      Sub("MAST", AsciiBytes("Fallout4.esm") + [0]),
      Sub("DATA", Zeros(8)),
      Sub("INTV", Le32(1)) ]
  }

  lemma Tes4Regular(srcId: Word32)
    ensures AllRegular(Tes4Subs(srcId)) && AllPrintable(Tes4Subs(srcId))
    ensures forall i :: 0 <= i < 6 ==> |Tes4Subs(srcId)[i].payload| <= 100
  {
  }

  lemma {:induction false} ShortBuild(subs: seq<Sub>)
    requires AllRegular(subs) && AllPrintable(subs) && forall i :: 0 <= i < |subs| ==> |subs[i].payload| <= 100
    ensures |BuildAll(subs)| <= 106 * |subs|
  {
    if subs != [] {
      ShortBuild(subs[..|subs| - 1]);
    }
  }

  function Tes4Data(srcId: Word32): (r: seq<Byte>)
    ensures |r| <= 636
  {
    Tes4Regular(srcId);
    ShortBuild(Tes4Subs(srcId));
    BuildAll(Tes4Subs(srcId))
  }

  function GroupHeader(size: Word32): (r: seq<Byte>)
    ensures |r| == REC_HEADER
  {
    AsciiBytes(GRUP) + Le32(size) + AsciiBytes(NPC) + Le32(0) + Le16(0) + Le16(0) + Le16(FO4_VERSION) + Le16(0)
  }

  /** The sizes of record and group fit their fields. */
  predicate Writable(npc: seq<Byte>) { |npc| + 2 * REC_HEADER < 0x1_0000_0000 }

  /** The bytes `write_esp` writes. */
  function WriteEsp(npc: seq<Byte>, srcId: Word32): (r: seq<Byte>)
    requires Writable(npc)
    ensures |r| == |Tes4Data(srcId)| + 3 * REC_HEADER + |npc|
  {
    RecordHeader(TES4, |Tes4Data(srcId)|, 0, 0, FO4_VERSION) + Tes4Data(srcId)
    + GroupHeader(|npc| + 2 * REC_HEADER)
    + RecordHeader(NPC, |npc|, 0, NEW_FORM_ID, FO4_VERSION) + npc
  }

  // ---------------------------------------------------------------- scanning what was written

  lemma HeaderFields(data: seq<Byte>, at: nat, kind: string, size: Word32, flags: Word32, formId: Word32, version: Word16)
    requires IsAscii(kind) && |kind| == 4 && at + REC_HEADER <= |data|
    requires data[at..at + REC_HEADER] == RecordHeader(kind, size, flags, formId, version)
    ensures AsciiText(data[at..at + 4]) == kind && FromLe32(data, at + 4) == size && FromLe32(data, at + 8) == flags
    ensures FromLe32(data, at + 12) == formId && FromLe32(data, at + 16) == 0
    ensures FromLe16(data, at + 20) == version && FromLe16(data, at + 22) == 0
  {
    hide AsciiBytes, AsciiText, Le32, Le16, FromLe32, FromLe16;
    var h := RecordHeader(kind, size, flags, formId, version);
    assert data[at..at + 4] == h[..4] == AsciiBytes(kind);
    AsciiRoundTrip(kind);
    assert data[at + 4..at + 8] == h[4..8] == Le32(size);
    FromLe32At(data, at + 4, size);
    assert data[at + 8..at + 12] == h[8..12] == Le32(flags);
    FromLe32At(data, at + 8, flags);
    assert data[at + 12..at + 16] == h[12..16] == Le32(formId);
    FromLe32At(data, at + 12, formId);
    assert data[at + 16..at + 20] == h[16..20] == Le32(0);
    FromLe32At(data, at + 16, 0);
    assert data[at + 20..at + 22] == h[20..22] == Le16(version);
    FromLe16At(data, at + 20, version);
    assert data[at + 22..at + 24] == h[22..24] == Le16(0);
    FromLe16At(data, at + 22, 0);
  }

  lemma GroupFields(data: seq<Byte>, at: nat, size: Word32)
    requires at + REC_HEADER <= |data| && data[at..at + REC_HEADER] == GroupHeader(size)
    ensures AsciiText(data[at..at + 4]) == GRUP && FromLe32(data, at + 4) == size
  {
    hide AsciiBytes, AsciiText, Le32, Le16, FromLe32;
    var h := GroupHeader(size);
    assert h[..4] == AsciiBytes(GRUP);
    SliceOfSlice(data, at, h, 0, 4);
    AsciiRoundTrip(GRUP);
    assert h[4..8] == Le32(size);
    SliceOfSlice(data, at, h, 4, 8);
    FromLe32At(data, at + 4, size);
  }

  /** Where the parts of the file lie. */
  lemma FileParts(npc: seq<Byte>, srcId: Word32)
    requires Writable(npc)
    ensures var data, t := WriteEsp(npc, srcId), Tes4Data(srcId);
            && data[0..24] == RecordHeader(TES4, |t|, 0, 0, FO4_VERSION)
            && data[24..24 + |t|] == t
            && data[24 + |t|..48 + |t|] == GroupHeader(|npc| + 2 * REC_HEADER)
            && data[48 + |t|..72 + |t|] == RecordHeader(NPC, |npc|, 0, NEW_FORM_ID, FO4_VERSION)
            && data[72 + |t|..72 + |t| + |npc|] == npc
            && |data| == 72 + |t| + |npc|
  {
    hide RecordHeader, GroupHeader, Tes4Data;
  }

  /** The one record a scan is to find. */
  function NpcRecord(npc: seq<Byte>): Record { Record(NPC, 0, NEW_FORM_ID, 0, FO4_VERSION, 0, npc) }

  function Tes4Record(srcId: Word32): Record { Record(TES4, 0, 0, 0, FO4_VERSION, 0, Tes4Data(srcId)) }

  /** A scan of the written file reads exactly its header record and the copied NPC. */
  lemma ScanWritten(npc: seq<Byte>, srcId: Word32)
    requires Writable(npc)
    ensures var data := WriteEsp(npc, srcId);
            Walk(data, 0, |data|) == Walked(|data|, [Tes4Record(srcId), NpcRecord(npc)])
  {
    hide Walk, RecordHeader, GroupHeader, Tes4Data, WriteEsp, AsciiText, FromLe32, FromLe16;
    var data, t := WriteEsp(npc, srcId), Tes4Data(srcId);
    var n, g := |data|, 24 + |t|;
    FileParts(npc, srcId);
    HeaderFields(data, 0, TES4, |t|, 0, 0, FO4_VERSION);
    GroupFields(data, g, |npc| + 2 * REC_HEADER);
    HeaderFields(data, g + 24, NPC, |npc|, 0, NEW_FORM_ID, FO4_VERSION);
    WalkEnd(data, n, n);
    WalkUnfold(data, g + 24, n);
    assert RecordAt(data, g + 24) == NpcRecord(npc);
    assert Walk(data, g + 24, n) == Walked(n, [NpcRecord(npc)]);
    WalkUnfold(data, g, n);
    assert GroupEnd(g + 24, |npc| + 2 * REC_HEADER, n) == n;
    assert Walk(data, g, n) == Walked(n, [NpcRecord(npc)]);
    WalkUnfold(data, 0, n);
    assert RecordAt(data, 0) == Tes4Record(srcId);
  }

  /** So the scan's NPC list is that one record, whatever the decompressor does. */
  lemma ScanFindsTheNpc(npc: seq<Byte>, srcId: Word32, inflate: seq<Byte> -> Option<seq<Byte>>)
    requires Writable(npc)
    ensures var data := WriteEsp(npc, srcId);
            Walk(data, 0, |data|).Walked? && NpcsOf(Walk(data, 0, |data|).records, inflate) == [NpcRecord(npc)]
  {
    hide Walk, WriteEsp, Tes4Data;
    ScanWritten(npc, srcId);
    var a, b := [Tes4Record(srcId)], [NpcRecord(npc)];
    assert a + b == [Tes4Record(srcId), NpcRecord(npc)];
    NpcsConcat(a, b, inflate);
    NoBits(COMPRESSED);
    NothingToClear(COMPRESSED);
    assert a[..0] == [] && b[..0] == [];
  }

  lemma {:induction false} NoBits(i: nat)
    ensures !HasBit(0, i)
  {
    if i > 0 {
      NoBits(i - 1);
    }
  }

  lemma NothingToClear(i: nat)
    ensures Without(0, i) == 0
  {
  }

  // ---------------------------------------------------------------- the verifier

  datatype Verdict = Passed | NoTes4 | BadHedr | NoNpc | WrongEdid | WrongForm | NoRace | StillSpecial | Malformed

  function Slice(data: seq<Byte>, from: nat, n: nat): seq<Byte> { Take(Drop(data, from), n) }

  function PayloadOf(subs: seq<Sub>, kind: string): seq<Byte> {
    if subs == [] then [] else if subs[0].kind == kind then subs[0].payload else PayloadOf(subs[1..], kind)
  }

  /** `bytes.find`: the first place of `pattern` at or after `from`. */
  function Find(data: seq<Byte>, pattern: seq<Byte>, from: nat): (r: Option<nat>)
    ensures r.Some? ==> from <= r.value && r.value + |pattern| <= |data| && data[r.value..r.value + |pattern|] == pattern
    decreases |data| - from
  {
    if from + |pattern| > |data| then None
    else if data[from..from + |pattern|] == pattern then Some(from)
    else if from == |data| then None
    else Find(data, pattern, from + 1)
  }

  /** What is checked of the NPC record. */
  function VerifyNpc(subs: seq<Sub>, formId: Word32): Verdict {
    if EdidOf(subs) != REMOTE_EDID then WrongEdid
    else if formId != NEW_FORM_ID then WrongForm
    else if WordOf(subs, "RNAM") == 0 then NoRace
    else if SpecialActor(WordOf(subs, "ACBS")) then StillSpecial
    else Passed
  }

  /** `verify_esp`; `near` tells whether a float is within 0.01 of 1.0. */
  function VerifyEsp(data: seq<Byte>, near: seq<Byte> -> bool): Verdict {
    if Take(data, 4) != AsciiBytes(TES4) then NoTes4
    else if |data| < 8 then Malformed
    else
      var size := FromLe32(data, 4);
      match Parse(Slice(data, 24, size))
      case None => Malformed
      case Some(tes4) =>
        var hedr := PayloadOf(tes4, "HEDR");
        if |hedr| < 4 || !near(hedr[..4]) then BadHedr
        else
          match Find(data, AsciiBytes(NPC), 24 + size + 24)
          case None => NoNpc
          case Some(at) =>
            if at + 16 > |data| then Malformed
            else
              match Parse(Slice(data, at + 24, FromLe32(data, at + 4)))
              case None => Malformed
              case Some(subs) => VerifyNpc(subs, FromLe32(data, at + 12))
  }

  lemma SliceIs(data: seq<Byte>, from: nat, part: seq<Byte>)
    requires from + |part| <= |data| && data[from..from + |part|] == part
    ensures Slice(data, from, |part|) == part
  {
    assert data[from..][..|part|] == data[from..from + |part|];
  }

  lemma Tes4Parsed(srcId: Word32)
    ensures Parse(Tes4Data(srcId)) == Some(Tes4Subs(srcId))
  {
    hide BuildAll, Tes4Subs;
    Tes4Regular(srcId);
    ParseBuilt(Tes4Subs(srcId));
  }

  lemma HedrIsOne(srcId: Word32)
    ensures |PayloadOf(Tes4Subs(srcId), "HEDR")| >= 4 && PayloadOf(Tes4Subs(srcId), "HEDR")[..4] == ONE
  {
    assert Tes4Subs(srcId)[0].payload[..4] == ONE;
  }

  lemma NpcFound(npc: seq<Byte>, srcId: Word32)
    requires Writable(npc)
    ensures var at := 48 + |Tes4Data(srcId)|; Find(WriteEsp(npc, srcId), AsciiBytes(NPC), at) == Some(at)
  {
    hide WriteEsp, Tes4Data, AsciiBytes;
    var data, at := WriteEsp(npc, srcId), 48 + |Tes4Data(srcId)|;
    FileParts(npc, srcId);
    var h := RecordHeader(NPC, |npc|, 0, NEW_FORM_ID, FO4_VERSION);
    assert data[at..at + 4] == h[..4] == AsciiBytes(NPC);
  }

  /** On a written file the verifier judges the copied subrecords and nothing else. */
  lemma VerifyWritten(npc: seq<Byte>, srcId: Word32, near: seq<Byte> -> bool, subs: seq<Sub>)
    requires Writable(npc) && near(ONE) && Parse(npc) == Some(subs)
    ensures VerifyEsp(WriteEsp(npc, srcId), near) == VerifyNpc(subs, NEW_FORM_ID)
  {
    hide WriteEsp, Tes4Data, RecordHeader, GroupHeader, Tes4Subs, AsciiText, AsciiBytes, FromLe32, FromLe16, Parse, Find, Slice, VerifyNpc, PayloadOf;
    var data, t := WriteEsp(npc, srcId), Tes4Data(srcId);
    FileParts(npc, srcId);
    HeaderFields(data, 0, TES4, |t|, 0, 0, FO4_VERSION);
    HeaderFields(data, 48 + |t|, NPC, |npc|, 0, NEW_FORM_ID, FO4_VERSION);
    HeaderStart(data, TES4, |t|, 0, 0, FO4_VERSION);
    SliceIs(data, 24, t);
    Tes4Parsed(srcId);
    HedrIsOne(srcId);
    NpcFound(npc, srcId);
    SliceIs(data, 72 + |t|, npc);
  }

  lemma HeaderStart(data: seq<Byte>, kind: string, size: Word32, flags: Word32, formId: Word32, version: Word16)
    requires IsAscii(kind) && |kind| == 4 && REC_HEADER <= |data|
    requires data[0..REC_HEADER] == RecordHeader(kind, size, flags, formId, version)
    ensures Take(data, 4) == AsciiBytes(kind)
  {
    hide AsciiBytes;
    var h := RecordHeader(kind, size, flags, formId, version);
    assert data[..4] == h[..4];
  }

  // ---------------------------------------------------------------- the rewritten record

  function OfKind(subs: seq<Sub>, kind: string): seq<Sub> {
    if subs == [] then []
    else
      var last := subs[|subs| - 1];
      OfKind(subs[..|subs| - 1], kind) + if last.kind == kind then [last] else []
  }

  lemma {:induction false} OfKindConcat(xs: seq<Sub>, ys: seq<Sub>, kind: string)
    ensures OfKind(xs + ys, kind) == OfKind(xs, kind) + OfKind(ys, kind)
    decreases |ys|
  {
    if ys == [] {
      assert xs + ys == xs;
    } else {
      assert (xs + ys)[..|xs| + |ys| - 1] == xs + ys[..|ys| - 1];
      OfKindConcat(xs, ys[..|ys| - 1], kind);
    }
  }

  lemma OfKindOne(s: Sub, kind: string)
    ensures OfKind([s], kind) == if s.kind == kind then [s] else []
  {
    assert [s][..0] == [];
  }

  lemma OfKindInsert(xs: seq<Sub>, i: nat, s: Sub, kind: string)
    requires s.kind != kind
    ensures OfKind(InsertAt(xs, i, s), kind) == OfKind(xs, kind)
  {
    hide OfKind;
    var j := if i <= |xs| then i else |xs|;
    assert InsertAt(xs, i, s) == (xs[..j] + [s]) + xs[j..];
    OfKindConcat(xs[..j] + [s], xs[j..], kind);
    OfKindConcat(xs[..j], [s], kind);
    OfKindOne(s, kind);
    OfKindConcat(xs[..j], xs[j..], kind);
    assert xs[..j] + xs[j..] == xs;
  }

  lemma HasSubSnoc(subs: seq<Sub>, kind: string)
    requires subs != []
    ensures HasSub(subs, kind) <==> HasSub(subs[..|subs| - 1], kind) || subs[|subs| - 1].kind == kind
  {
    var n := |subs| - 1;
    assert forall i :: 0 <= i < n ==> subs[..n][i] == subs[i];
  }

  lemma {:induction false} HasSubIff(subs: seq<Sub>, kind: string)
    ensures HasSub(subs, kind) <==> OfKind(subs, kind) != []
  {
    if subs != [] {
      var n := |subs| - 1;
      HasSubIff(subs[..n], kind);
      assert HasSub(subs, kind) <==> HasSub(subs[..n], kind) || subs[n].kind == kind by { HasSubSnoc(subs, kind); }
    }
  }

  lemma {:induction false} WordOfKind(subs: seq<Sub>, kind: string)
    ensures WordOf(subs, kind) == WordOf(OfKind(subs, kind), kind)
  {
    if subs != [] {
      hide OfKind;
      var rest := subs[1..];
      assert subs == [subs[0]] + rest;
      OfKindConcat([subs[0]], rest, kind);
      OfKindOne(subs[0], kind);
      WordOfKind(rest, kind);
      if subs[0].kind == kind {
        assert OfKind(subs, kind)[1..] == OfKind(rest, kind);
      } else {
        assert OfKind(subs, kind) == OfKind(rest, kind);
      }
    } else {
      assert OfKind(subs, kind) == [];
    }
  }

  lemma RaceIsKept()
    ensures Kept("RNAM")
  {
    assert "RNAM"[0] == 'R';
  }

  lemma CopiedRace(s: Sub)
    ensures OfKind(if Kept(s.kind) then [RewriteSub(s)] else [], "RNAM") == if s.kind == "RNAM" then [s] else []
  {
    hide Kept, PlainAcbs;
    RaceIsKept();
    OfKindOne(RewriteSub(s), "RNAM");
  }

  /** Copying keeps the race subrecords as they are. */
  lemma {:induction false} CopiedRaces(subs: seq<Sub>)
    ensures OfKind(Copied(subs), "RNAM") == OfKind(subs, "RNAM")
  {
    hide Kept, RewriteSub;
    if subs != [] {
      var n := |subs| - 1;
      CopiedRaces(subs[..n]);
      var more := if Kept(subs[n].kind) then [RewriteSub(subs[n])] else [];
      OfKindConcat(Copied(subs[..n]), more, "RNAM");
      CopiedRace(subs[n]);
    }
  }

  lemma CompletedRaces(out: seq<Sub>)
    ensures OfKind(Completed(out), "RNAM") == if HasSub(out, "RNAM") then OfKind(out, "RNAM") else [RaceSub()]
  {
    hide OfKind, HasSub, InsertAt;
    var a := if HasSub(out, "EDID") then out else InsertAt(out, 0, EdidSub());
    var b := if HasSub(a, "FULL") then a else InsertAt(a, 1, FullSub());
    OfKindInsert(out, 0, EdidSub(), "RNAM");
    OfKindInsert(a, 1, FullSub(), "RNAM");
    HasSubIff(out, "RNAM");
    HasSubIff(b, "RNAM");
    OfKindConcat(b, [RaceSub()], "RNAM");
    OfKindOne(RaceSub(), "RNAM");
    assert [] + [RaceSub()] == [RaceSub()];
  }

  lemma CompletedHasEdid(out: seq<Sub>)
    ensures HasSub(Completed(out), "EDID")
  {
    hide HasSub, InsertAt;
    var a := if HasSub(out, "EDID") then out else InsertAt(out, 0, EdidSub());
    var b := if HasSub(a, "FULL") then a else InsertAt(a, 1, FullSub());
    InsertHas(out, 0, EdidSub());
    InsertKeeps(a, 1, FullSub(), "EDID");
    InsertKeeps(b, |b|, RaceSub(), "EDID");
    InsertEnd(b, RaceSub());
  }

  lemma InsertEnd(xs: seq<Sub>, s: Sub)
    ensures InsertAt(xs, |xs|, s) == xs + [s]
  {
    assert xs[..|xs|] + [s] + xs[|xs|..] == xs + [s];
  }

  lemma InsertHas(xs: seq<Sub>, i: nat, s: Sub)
    ensures HasSub(InsertAt(xs, i, s), s.kind)
  {
    var j := if i <= |xs| then i else |xs|;
    assert InsertAt(xs, i, s)[j] == s;
  }

  lemma InsertKeeps(xs: seq<Sub>, i: nat, s: Sub, kind: string)
    ensures HasSub(xs, kind) ==> HasSub(InsertAt(xs, i, s), kind)
  {
    if HasSub(xs, kind) {
      var j :| 0 <= j < |xs| && xs[j].kind == kind;
      assert InsertAt(xs, i, s)[if i <= |xs| && i <= j then j + 1 else j].kind == kind;
    }
  }

  /** The race word of the rewritten record: the source's own, or the default without one. */
  lemma RewrittenRace(subs: seq<Sub>)
    ensures WordOf(Rewritten(subs), "RNAM") == if HasSub(subs, "RNAM") then WordOf(subs, "RNAM") else DEFAULT_HUMAN_RACE
  {
    hide OfKind, HasSub, Copied, Completed, WordOf;
    CopiedRaces(subs);
    CompletedRaces(Copied(subs));
    HasSubIff(subs, "RNAM");
    HasSubIff(Copied(subs), "RNAM");
    WordOfKind(subs, "RNAM");
    WordOfKind(Rewritten(subs), "RNAM");
    DefaultRace();
  }

  lemma DefaultRace()
    ensures WordOf([RaceSub()], "RNAM") == DEFAULT_HUMAN_RACE
  {
    Le32RoundTrip(DEFAULT_HUMAN_RACE);
  }

  /** What every subrecord of a rewritten record satisfies. */
  ghost predicate Clean(s: Sub) {
    && Regular(s)
    && (s.kind == "EDID" ==> s == EdidSub())
    && (s.kind == "ACBS" && |s.payload| >= 4 ==> !SpecialActor(FromLe32(s.payload, 0)))
  }

  ghost predicate AllClean(subs: seq<Sub>) { forall i :: 0 <= i < |subs| ==> Clean(subs[i]) }

  /** A parsed subrecord, as the rewriter gets it. */
  ghost predicate Raw(s: Sub) { |s.kind| == 4 && s.kind != XXXX && |s.payload| < 0x1_0000_0000 }

  lemma KeptAscii(kind: string)
    requires Kept(kind)
    ensures IsAscii(kind)
  {
  }

  lemma PlainAcbsFlags(payload: seq<Byte>)
    requires |payload| >= 4
    ensures !SpecialActor(FromLe32(PlainAcbs(payload), 0))
  {
    hide HasBit, PlainActor;
    var n := PlainActor(FromLe32(payload, 0));
    assert PlainAcbs(payload)[0..4] == Le32(n);
    FromLe32At(PlainAcbs(payload), 0, n);
    PlainActorBits(FromLe32(payload, 0), UNIQUE);
    PlainActorBits(FromLe32(payload, 0), CHARGEN);
    PlainActorBits(FromLe32(payload, 0), USES_TEMPLATE);
  }

  lemma StockClean()
    ensures Clean(EdidSub()) && Clean(FullSub()) && Clean(RaceSub())
  {
  }

  lemma RewriteClean(s: Sub)
    requires Raw(s) && Kept(s.kind)
    ensures Clean(RewriteSub(s))
  {
    hide Kept, PlainAcbs, SpecialActor, IsAscii, EdidSub, FullSub;
    KeptAscii(s.kind);
    StockClean();
    if s.kind == "ACBS" && |s.payload| >= 4 {
      PlainAcbsFlags(s.payload);
    }
  }

  lemma {:induction false} CopiedClean(subs: seq<Sub>)
    requires forall i :: 0 <= i < |subs| ==> Raw(subs[i])
    ensures AllClean(Copied(subs))
  {
    hide Kept, Clean, RewriteSub;
    if subs != [] {
      var n := |subs| - 1;
      CopiedClean(subs[..n]);
      if Kept(subs[n].kind) {
        RewriteClean(subs[n]);
      }
    }
  }

  lemma CompletedClean(out: seq<Sub>)
    requires AllClean(out)
    ensures AllClean(Completed(out))
  {
    hide Clean, HasSub, EdidSub, FullSub, RaceSub;
    StockClean();
  }

  /** With the first editor id being ours, it is read back. */
  lemma {:induction false} CleanEdid(subs: seq<Sub>)
    requires AllClean(subs) && HasSub(subs, "EDID")
    ensures EdidOf(subs) == REMOTE_EDID
  {
    hide SpecialActor, Regular;
    if subs[0].kind == "EDID" {
      assert Clean(subs[0]);
      OurEdid();
    } else {
      var i :| 0 <= i < |subs| && subs[i].kind == "EDID";
      assert subs[1..][i - 1].kind == "EDID";
      CleanEdid(subs[1..]);
    }
  }

  lemma OurEdid()
    ensures AsciiText(BeforeZero(EdidSub().payload)) == REMOTE_EDID
  {
    BeforeZeroText(AsciiBytes(REMOTE_EDID));
    AsciiRoundTrip(REMOTE_EDID);
  }

  lemma {:induction false} BeforeZeroText(b: seq<Byte>)
    requires forall i :: 0 <= i < |b| ==> b[i] != 0
    ensures BeforeZero(b + [0]) == b
  {
    if b != [] {
      assert (b + [0])[1..] == b[1..] + [0];
      BeforeZeroText(b[1..]);
      assert b == [b[0]] + b[1..];
    }
  }

  lemma {:induction false} CleanFlags(subs: seq<Sub>)
    requires AllClean(subs)
    ensures !SpecialActor(WordOf(subs, "ACBS"))
  {
    hide HasBit, Regular;
    if subs == [] {
      NoBits(UNIQUE);
      NoBits(CHARGEN);
      NoBits(USES_TEMPLATE);
    } else if subs[0].kind == "ACBS" && |subs[0].payload| >= 4 {
      assert Clean(subs[0]);
    } else {
      CleanFlags(subs[1..]);
    }
  }

  /** The race field of the source is absent, or names a race. */
  predicate RaceUsable(subs: seq<Sub>) { !HasSub(subs, "RNAM") || WordOf(subs, "RNAM") != 0 }

  lemma RewrittenVerdict(subs: seq<Sub>)
    requires forall i :: 0 <= i < |subs| ==> Raw(subs[i])
    ensures AllRegular(Rewritten(subs))
    ensures VerifyNpc(Rewritten(subs), NEW_FORM_ID) == if RaceUsable(subs) then Passed else NoRace
  {
    hide HasSub, WordOf, EdidOf, SpecialActor, Copied, Completed, Regular;
    CopiedClean(subs);
    CompletedClean(Copied(subs));
    CompletedHasEdid(Copied(subs));
    CleanEdid(Rewritten(subs));
    CleanFlags(Rewritten(subs));
    RewrittenRace(subs);
  }

  /** The whole script: any source record that parses can be rewritten; the file written
      from it scans to exactly that record and passes the script's verifier if and only if
      the source has no race field or its first whole race field is not zero. */
  lemma WrittenPassesIff(source: seq<Byte>, srcId: Word32, near: seq<Byte> -> bool)
    requires Parse(source).Some? && near(ONE)
    ensures RewriteNpc(source).Some?
    ensures Parse(RewriteNpc(source).value) == Some(Rewritten(Parse(source).value))
    ensures var npc := RewriteNpc(source).value;
            Writable(npc) ==>
              VerifyEsp(WriteEsp(npc, srcId), near) == if RaceUsable(Parse(source).value) then Passed else NoRace
  {
    hide ParseRest, Build, Rewritten, VerifyEsp, WriteEsp, VerifyNpc, RaceUsable;
    var subs := Parse(source).value;
    ParsedRegular(source, None);
    assert forall i :: 0 <= i < |subs| ==> subs[i] in subs;
    RewrittenVerdict(subs);
    ParseBuilt(Rewritten(subs));
    var npc := RewriteNpc(source).value;
    if Writable(npc) {
      VerifyWritten(npc, srcId, near, Rewritten(subs));
    }
  }

  /** A source that fails: one race field of four zero bytes. */
  function ZeroRace(): seq<Sub> { [Sub("RNAM", [0, 0, 0, 0])] }

  lemma ZeroRaceRewritten()
    ensures Rewritten(ZeroRace()) == [EdidSub(), FullSub(), ZeroRace()[0]]
  {
    var r := ZeroRace()[0];
    RaceIsKept();
    hide Kept;
    assert ZeroRace()[..0] == [];
    assert Copied(ZeroRace()) == [r];
    assert !HasSub([r], "EDID");
    assert InsertAt([r], 0, EdidSub()) == [EdidSub(), r];
    assert [EdidSub(), r][1].kind == "RNAM" && !HasSub([EdidSub(), r], "FULL");
    assert InsertAt([EdidSub(), r], 1, FullSub()) == [EdidSub(), FullSub(), r];
    assert [EdidSub(), FullSub(), r][2].kind == "RNAM";
  }

  lemma ZeroRaceUnusable()
    ensures !RaceUsable(ZeroRace())
  {
    assert ZeroRace()[0].kind == "RNAM";
  }

  lemma ZeroRaceParses()
    ensures AllPrintable(ZeroRace()) && Parse(BuildAll(ZeroRace())) == Some(ZeroRace())
  {
    hide ParseRest, BuildAll;
    assert AllRegular(ZeroRace());
    ParseBuilt(ZeroRace());
  }

  /** The file written from it is rejected for its missing race. */
  lemma ZeroRaceFails(srcId: Word32, near: seq<Byte> -> bool)
    requires near(ONE)
    ensures AllPrintable(ZeroRace())
    ensures var source := BuildAll(ZeroRace());
            && RewriteNpc(source).Some? && Writable(RewriteNpc(source).value)
            && VerifyEsp(WriteEsp(RewriteNpc(source).value, srcId), near) == NoRace
  {
    hide ParseRest, BuildAll, VerifyEsp, WriteEsp, RaceUsable, Rewritten, ZeroRace;
    ZeroRaceParses();
    ZeroRaceUnusable();
    ZeroRaceRewritten();
    ZeroRaceShort();
    WrittenPassesIff(BuildAll(ZeroRace()), srcId, near);
  }

  lemma ZeroRaceShort()
    ensures AllPrintable([EdidSub(), FullSub(), ZeroRace()[0]])
    ensures |BuildAll([EdidSub(), FullSub(), ZeroRace()[0]])| <= 318
  {
    StockClean();
    hide BuildAll;
    var subs := [EdidSub(), FullSub(), ZeroRace()[0]];
    assert AllRegular(subs);
    ShortBuild(subs);
  }
}
