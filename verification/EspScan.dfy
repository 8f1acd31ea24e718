/** What a scan makes of a whole plugin file with groups nested in any way, and what the readers
    and the verifier take from a record. */
module EspScan {
  import opened Bytes
  import opened Blobs
  import opened Subrecords
  import opened Esp
  import opened EspFile
  import opened EspKept
  import opened Layouts

  // ---------------------------------------------------------------- plugin files

  /** The contents of a plugin file or of a group in it: records and groups, in order. The tag
      is what a group's header holds after its size. */
  datatype Content = End | Rec(record: Record, rest: Content) | Grp(tag: seq<Byte>, inner: Content, rest: Content)

  predicate RecordFits(r: Record) {
    IsAscii(r.kind) && |r.kind| == 4 && r.kind != "GRUP" && |r.data| < 0x1_0000_0000
  }

  function RecordBytes(r: Record): (b: seq<Byte>)
    requires RecordFits(r)
    ensures |b| == 24 + |r.data|
  {
    AsciiBytes(r.kind) + Le32(|r.data|) + Le32(r.flags) + Le32(r.formId) + Le32(r.revision) + Le16(r.version) + Le16(r.unknown) + r.data
  }

  predicate Fits(c: Content)
    decreases c, 0
  {
    match c
    case End => true
    case Rec(r, rest) => RecordFits(r) && Fits(rest)
    case Grp(tag, inner, rest) => |tag| == 16 && Fits(inner) && 24 + |FileBytes(inner)| < 0x1_0000_0000 && Fits(rest)
  }

  /** The file: a group's size counts its own header. */
  function FileBytes(c: Content): seq<Byte>
    requires Fits(c)
    decreases c, 1
  {
    match c
    case End => []
    case Rec(r, rest) => RecordBytes(r) + FileBytes(rest)
    case Grp(tag, inner, rest) => AsciiBytes("GRUP") + Le32(24 + |FileBytes(inner)|) + tag + FileBytes(inner) + FileBytes(rest)
  }

  function RecordsIn(c: Content): seq<Record> {
    match c
    case End => []
    case Rec(r, rest) => [r] + RecordsIn(rest)
    case Grp(_, inner, rest) => RecordsIn(inner) + RecordsIn(rest)
  }

  lemma FieldsRead(data: seq<Byte>, at: nat, r: Record)
    requires RecordFits(r) && at + 24 + |r.data| <= |data| && data[at..at + 24 + |r.data|] == RecordBytes(r)
    ensures AsciiText(data[at..at + 4]) == r.kind && FromLe32(data, at + 4) == |r.data| && RecordAt(data, at) == r
  {
    hide AsciiBytes, AsciiText, Le32, Le16, FromLe32, FromLe16, IsAscii;
    var b := RecordBytes(r);
    assert b[0..4] == AsciiBytes(r.kind);
    SliceOfSlice(data, at, b, 0, 4);
    AsciiRoundTrip(r.kind);
    assert b[4..8] == Le32(|r.data|);
    SliceOfSlice(data, at, b, 4, 8);
    FromLe32At(data, at + 4, |r.data|);
    assert b[8..12] == Le32(r.flags);
    SliceOfSlice(data, at, b, 8, 12);
    FromLe32At(data, at + 8, r.flags);
    assert b[12..16] == Le32(r.formId);
    SliceOfSlice(data, at, b, 12, 16);
    FromLe32At(data, at + 12, r.formId);
    assert b[16..20] == Le32(r.revision);
    SliceOfSlice(data, at, b, 16, 20);
    FromLe32At(data, at + 16, r.revision);
    assert b[20..22] == Le16(r.version);
    SliceOfSlice(data, at, b, 20, 22);
    FromLe16At(data, at + 20, r.version);
    assert b[22..24] == Le16(r.unknown);
    SliceOfSlice(data, at, b, 22, 24);
    FromLe16At(data, at + 22, r.unknown);
    assert b[24..] == r.data;
    SliceOfSlice(data, at, b, 24, |b|);
  }

  lemma GroupRead(data: seq<Byte>, at: nat, tag: seq<Byte>, inner: seq<Byte>, rest: seq<Byte>)
    requires |tag| == 16 && 24 + |inner| < 0x1_0000_0000 && at + 24 + |inner| + |rest| <= |data|
    requires data[at..at + 24 + |inner| + |rest|] == AsciiBytes("GRUP") + Le32(24 + |inner|) + tag + inner + rest
    ensures AsciiText(data[at..at + 4]) == GRUP && FromLe32(data, at + 4) == 24 + |inner|
    ensures data[at + 24..at + 24 + |inner|] == inner && data[at + 24 + |inner|..at + 24 + |inner| + |rest|] == rest
  {
    hide AsciiBytes, AsciiText, Le32, FromLe32;
    var b := AsciiBytes("GRUP") + Le32(24 + |inner|) + tag + inner + rest;
    assert b[0..4] == AsciiBytes("GRUP");
    SliceOfSlice(data, at, b, 0, 4);
    AsciiRoundTrip("GRUP");
    assert b[4..8] == Le32(24 + |inner|);
    SliceOfSlice(data, at, b, 4, 8);
    FromLe32At(data, at + 4, 24 + |inner|);
    assert b[24..24 + |inner|] == inner;
    SliceOfSlice(data, at, b, 24, 24 + |inner|);
    assert b[24 + |inner|..] == rest;
    SliceOfSlice(data, at, b, 24 + |inner|, |b|);
  }

  /** A record first, and then the rest. */
  lemma WalkRecord(data: seq<Byte>, pos: nat, limit: nat, r: Record, rest: seq<Byte>, more: seq<Record>)
    requires RecordFits(r) && pos + 24 + |r.data| + |rest| == limit <= |data| && data[pos..limit] == RecordBytes(r) + rest
    requires Walk(data, pos + 24 + |r.data|, limit) == Walked(limit, more)
    ensures Walk(data, pos, limit) == Walked(limit, [r] + more)
  {
    hide Walk, RecordAt, AsciiText, FromLe32, RecordBytes, IsAscii;
    RecordSplit(data, pos, limit, r, rest);
    FieldsRead(data, pos, r);
    WalkUnfold(data, pos, limit);
  }

  lemma RecordSplit(data: seq<Byte>, pos: nat, limit: nat, r: Record, rest: seq<Byte>)
    requires RecordFits(r) && pos + 24 + |r.data| + |rest| == limit <= |data| && data[pos..limit] == RecordBytes(r) + rest
    ensures data[pos..pos + 24 + |r.data|] == RecordBytes(r) && data[pos + 24 + |r.data|..limit] == rest
  {
    hide RecordBytes;
    var b := RecordBytes(r);
    SliceOfSlice(data, pos, b + rest, 0, |b|);
    SliceOfSlice(data, pos, b + rest, |b|, |b| + |rest|);
  }

  /** A group first, and then the rest. */
  lemma WalkGroup(data: seq<Byte>, pos: nat, limit: nat, tag: seq<Byte>, inner: seq<Byte>, rest: seq<Byte>, found: seq<Record>, more: seq<Record>)
    requires |tag| == 16 && 24 + |inner| < 0x1_0000_0000 && pos + 24 + |inner| + |rest| == limit <= |data|
    requires data[pos..limit] == AsciiBytes("GRUP") + Le32(24 + |inner|) + tag + inner + rest
    requires Walk(data, pos + 24, pos + 24 + |inner|) == Walked(pos + 24 + |inner|, found)
    requires Walk(data, pos + 24 + |inner|, limit) == Walked(limit, more)
    ensures Walk(data, pos, limit) == Walked(limit, found + more)
  {
    hide Walk, RecordAt, AsciiText, FromLe32, AsciiBytes, Le32;
    GroupRead(data, pos, tag, inner, rest);
    WalkUnfold(data, pos, limit);
  }

  lemma {:induction false} WalkContent(data: seq<Byte>, pos: nat, limit: nat, c: Content)
    requires Fits(c) && pos + |FileBytes(c)| == limit <= |data| && data[pos..limit] == FileBytes(c)
    ensures Walk(data, pos, limit) == Walked(limit, RecordsIn(c))
    decreases c
  {
    hide Walk, RecordBytes, RecordFits, AsciiBytes, Le32;
    match c
    case End => WalkEnd(data, pos, limit);
    case Rec(r, rest) =>
      RecordSplit(data, pos, limit, r, FileBytes(rest));
      WalkContent(data, pos + 24 + |r.data|, limit, rest);
      WalkRecord(data, pos, limit, r, FileBytes(rest), RecordsIn(rest));
    case Grp(tag, inner, rest) =>
      var body := pos + 24;
      var end := body + |FileBytes(inner)|;
      GroupRead(data, pos, tag, FileBytes(inner), FileBytes(rest));
      WalkContent(data, body, end, inner);
      WalkContent(data, end, limit, rest);
      WalkGroup(data, pos, limit, tag, FileBytes(inner), FileBytes(rest), RecordsIn(inner), RecordsIn(rest));
  }

  /** A scan of a plugin file, however its groups are nested, reads every record in it once, in
      file order, with every field as written, and ends at the end of the file. */
  lemma ScanReadsAll(c: Content)
    requires Fits(c)
    ensures Walk(FileBytes(c), 0, |FileBytes(c)|) == Walked(|FileBytes(c)|, RecordsIn(c))
  {
    var data := FileBytes(c);
    assert data[0..|data|] == data;
    WalkContent(data, 0, |data|, c);
  }

  // ---------------------------------------------------------------- what is taken from the records

  /** An NPC record is taken with its data inflated if bit 0x40000 says so, that bit then
      cleared; one whose data is too short or does not inflate is passed over. */
  lemma NpcTaken(r: Record, inflate: seq<Byte> -> Option<seq<Byte>>)
    ensures var packed := r.flags / 0x40000 % 2 == 1; var found := NpcsOf([r], inflate);
            if r.kind != "NPC_" then found == []
            else if !packed then found == [r]
            else if |r.data| < 4 || inflate(r.data[4..]).None? then found == []
            else |found| == 1 && found[0] == r.(flags := found[0].flags, data := inflate(r.data[4..]).value)
                 && forall j: nat :: HasBit(found[0].flags, j) <==> HasBit(r.flags, j) && j != 18
  {
    hide HasBit, Without;
    assert [r][..0] == [];
    BitIs(r.flags);
    forall j: nat ensures HasBit(Without(r.flags, 18), j) <==> HasBit(r.flags, j) && j != 18 {
      WithoutBit(r.flags, 18, j);
    }
    if r.flags / 0x40000 % 2 != 1 { NothingCleared(r.flags, 18); }
  }

  lemma {:induction false} NothingCleared(n: nat, i: nat)
    requires !HasBit(n, i)
    ensures Without(n, i) == n
  {
    if i > 0 { NothingCleared(n / 2, i - 1); }
  }

  /** The type of a form is that of the last record that carries it; a form that none carries
      has none. */
  lemma {:induction false} LastTypeCounts(records: seq<Record>, i: nat)
    requires i < |records| && forall j :: i < j < |records| ==> records[j].formId != records[i].formId
    ensures records[i].formId in TypesOf(records) && TypesOf(records)[records[i].formId] == records[i].kind
    decreases |records|
  {
    var n := |records| - 1;
    if i < n { LastTypeCounts(records[..n], i); }
  }

  lemma {:induction false} NoTypeWithout(records: seq<Record>, id: Word32)
    requires forall j :: 0 <= j < |records| ==> records[j].formId != id
    ensures id !in TypesOf(records)
  {
    if records != [] { NoTypeWithout(records[..|records| - 1], id); }
  }

  /** The readers take the first subrecord of the kind: the editor id up to its first zero, and a
      word of one that is long enough to hold it. */
  lemma {:induction false} FirstTaken(subs: seq<Sub>, i: nat, kind: string)
    requires i < |subs|
    ensures subs[i].kind == "EDID" && (forall j :: 0 <= j < i ==> subs[j].kind != "EDID") ==>
              EdidOf(subs) == AsciiText(BeforeZero(subs[i].payload))
    ensures subs[i].kind == kind && |subs[i].payload| >= 4 && (forall j :: 0 <= j < i ==> subs[j].kind != kind || |subs[j].payload| < 4) ==>
              Long(subs[i].payload, 0, WordOf(subs, kind))
    decreases |subs|
  {
    if i > 0 {
      assert forall j :: 0 <= j < i - 1 ==> subs[1..][j] == subs[j + 1];
      FirstTaken(subs[1..], i - 1, kind);
    }
  }

  lemma {:induction false} NoneTaken(subs: seq<Sub>, kind: string)
    ensures (forall j :: 0 <= j < |subs| ==> subs[j].kind != "EDID") ==> EdidOf(subs) == ""
    ensures (forall j :: 0 <= j < |subs| ==> subs[j].kind != kind || |subs[j].payload| < 4) ==> WordOf(subs, kind) == 0
  {
    if subs != [] {
      assert forall j :: 0 <= j < |subs| - 1 ==> subs[1..][j] == subs[j + 1];
      NoneTaken(subs[1..], kind);
    }
  }

  /** The verdict on the NPC record, check by check and in order. */
  lemma VerdictIs(subs: seq<Sub>, formId: Word32)
    ensures var flags := WordOf(subs, "ACBS");
            VerifyNpc(subs, formId)
            == if EdidOf(subs) != "CMP_RemotePlayer" then WrongEdid
               else if formId != 0x01000800 then WrongForm
               else if WordOf(subs, "RNAM") == 0 then NoRace
               else if flags / 4 % 2 == 1 || flags / 0x20 % 2 == 1 || flags / 0x100 % 2 == 1 then StillSpecial
               else Passed
  {
    hide HasBit, WordOf, EdidOf;
    BitIs(WordOf(subs, "ACBS"));
  }
}
