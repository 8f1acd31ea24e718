/** The plugin file written from one copied NPC record: rewriting, writing, scanning and the
    script's own verifier. */
module Esp {
  import opened Bytes
  import opened Blobs
  import opened Subrecords

  const REC_HEADER := 24
  const NEW_FORM_ID: Word32 := 0x0100_0800
  const DEFAULT_HUMAN_RACE: Word32 := 0x13746
  const FO4_VERSION: Word16 := 131

  const GRUP := "GRUP"
  const TES4 := "TES4"
  const NPC := "NPC_"
  const REMOTE_EDID := "CMP_RemotePlayer"
  const REMOTE_NAME := "CMP Remote"

  // ---------------------------------------------------------------- flags

  /** Flags by their bit number: 0x4, 0x20, 0x80, 0x100 and 0x40000. */
  const CHARGEN := 2
  const UNIQUE := 5
  const PC_LEVEL_MULT := 7
  const USES_TEMPLATE := 8
  const COMPRESSED := 18

  predicate HasBit(n: nat, i: nat) {
    if i == 0 then n % 2 == 1 else HasBit(n / 2, i - 1)
  }

  /** `n & ~(1 << i)`. */
  function Without(n: nat, i: nat): (r: nat)
    ensures r <= n
  {
    if i == 0 then n - n % 2 else 2 * Without(n / 2, i - 1) + n % 2
  }

  /** Clearing a bit clears it and leaves every other bit alone. */
  lemma {:induction false} WithoutBit(n: nat, i: nat, j: nat)
    ensures HasBit(Without(n, i), j) <==> HasBit(n, j) && i != j
    decreases i
  {
    if i > 0 {
      assert Without(n, i) / 2 == Without(n / 2, i - 1) && Without(n, i) % 2 == n % 2;
      if j > 0 {
        WithoutBit(n / 2, i - 1, j - 1);
      }
    } else {
      assert Without(n, i) / 2 == n / 2;
    }
  }

  function PlainActor(n: Word32): Word32 {
    Without(Without(Without(Without(n, UNIQUE), CHARGEN), USES_TEMPLATE), PC_LEVEL_MULT)
  }

  predicate SpecialActor(n: Word32) { HasBit(n, UNIQUE) || HasBit(n, CHARGEN) || HasBit(n, USES_TEMPLATE) }

  /** Exactly the four bits are cleared. */
  lemma PlainActorBits(n: Word32, j: nat)
    ensures HasBit(PlainActor(n), j) <==> HasBit(n, j) && j !in {UNIQUE, CHARGEN, USES_TEMPLATE, PC_LEVEL_MULT}
  {
    hide HasBit, Without;
    var a := Without(n, UNIQUE);
    var b := Without(a, CHARGEN);
    var c := Without(b, USES_TEMPLATE);
    WithoutBit(n, UNIQUE, j);
    WithoutBit(a, CHARGEN, j);
    WithoutBit(b, USES_TEMPLATE, j);
    WithoutBit(c, PC_LEVEL_MULT, j);
  }

  // ---------------------------------------------------------------- reading fields

  /** The text before the first zero byte. */
  function BeforeZero(b: seq<Byte>): seq<Byte> {
    if b == [] || b[0] == 0 then [] else [b[0]] + BeforeZero(b[1..])
  }

  /** `edid_of`: the first editor id. */
  function EdidOf(subs: seq<Sub>): string {
    if subs == [] then ""
    else if subs[0].kind == "EDID" then AsciiText(BeforeZero(subs[0].payload))
    else EdidOf(subs[1..])
  }

  /** `acbs_flags` and `rnam_of`: the first word of the first long enough subrecord of a kind. */
  function WordOf(subs: seq<Sub>, kind: string): Word32 {
    if subs == [] then 0
    else if subs[0].kind == kind && |subs[0].payload| >= 4 then FromLe32(subs[0].payload, 0)
    else WordOf(subs[1..], kind)
  }

  predicate HasSub(subs: seq<Sub>, kind: string) { exists i :: 0 <= i < |subs| && subs[i].kind == kind }

  // ---------------------------------------------------------------- rewriting

  const KEEP_SUBS := {
    "EDID", "OBND", "ACBS", "SNAM", "VTCK", "RNAM", "AIDT", "CNAM", "DATA", "DNAM",
    "HCLF", "NAM5", "NAM6", "NAM4", "MWGT", "NAM8", "DOFT", "SOFT", "FTST"
  }

  const DROP_SUBS := {"MSDK", "MSDV", "MRSV", "TETI", "TEND", "QNAM", "PRPS", "COCT", "CNTO", "PKID"}

  predicate Kept(kind: string) {
    && !("FM" <= kind || kind in DROP_SUBS)
    && (kind in KEEP_SUBS || kind == "FULL")
  }

  function EdidSub(): Sub { Sub("EDID", AsciiBytes(REMOTE_EDID) + [0]) }
  function FullSub(): Sub { Sub("FULL", AsciiBytes(REMOTE_NAME) + [0]) }
  function RaceSub(): Sub { Sub("RNAM", Le32(DEFAULT_HUMAN_RACE)) }

  /** The actor base data with its flags cleared and its template mask zeroed. */
  function PlainAcbs(payload: seq<Byte>): (r: seq<Byte>)
    requires |payload| >= 4
    ensures |r| == |payload|
  {
    var p := Le32(PlainActor(FromLe32(payload, 0))) + payload[4..];
    if |p| >= 16 then p[..14] + Le16(0) + p[16..] else p
  }

  function RewriteSub(s: Sub): Sub {
    if s.kind == "EDID" then EdidSub()
    else if s.kind == "FULL" then FullSub()
    else if s.kind == "ACBS" && |s.payload| >= 4 then Sub(s.kind, PlainAcbs(s.payload))
    else s
  }

  function Copied(subs: seq<Sub>): (r: seq<Sub>) {
    if subs == [] then []
    else
      var last := subs[|subs| - 1];
      Copied(subs[..|subs| - 1]) + if Kept(last.kind) then [RewriteSub(last)] else []
  }

  function InsertAt(subs: seq<Sub>, i: nat, s: Sub): seq<Sub> {
    if i <= |subs| then subs[..i] + [s] + subs[i..] else subs + [s]
  }

  function Completed(out: seq<Sub>): seq<Sub> {
    var a := if HasSub(out, "EDID") then out else InsertAt(out, 0, EdidSub());
    var b := if HasSub(a, "FULL") then a else InsertAt(a, 1, FullSub());
    if HasSub(b, "RNAM") then b else b + [RaceSub()]
  }

  /** The subrecords of the rewritten record. */
  function Rewritten(subs: seq<Sub>): seq<Sub> { Completed(Copied(subs)) }

  /** `rewrite_npc`: None when the source does not parse. */
  function RewriteNpc(data: seq<Byte>): Option<seq<Byte>> {
    match Parse(data)
    case None => None
    case Some(subs) => Build(Rewritten(subs))
  }

  method RewriteRecord(data: seq<Byte>) returns (r: Option<seq<Byte>>)
    ensures r == RewriteNpc(data)
  {
    hide Kept, Build, HasSub;
    var parsed := ParseSubrecords(data);
    if parsed.None? {
      return None;
    }
    var subs := parsed.value;
    var out: seq<Sub> := [];
    for i := 0 to |subs|
      invariant out == Copied(subs[..i])
    {
      assert subs[..i + 1][..i] == subs[..i];
      var s := subs[i];
      if !Kept(s.kind) {
        continue;
      }
      if s.kind == "EDID" {
        out := out + [Sub("EDID", AsciiBytes(REMOTE_EDID) + [0])];
        continue;
      }
      if s.kind == "FULL" {
        out := out + [Sub("FULL", AsciiBytes(REMOTE_NAME) + [0])];
        continue;
      }
      if s.kind == "ACBS" && |s.payload| >= 4 {
        s := s.(payload := PlainAcbs(s.payload));
      }
      out := out + [s];
    }
    assert subs[..|subs|] == subs;
    if !HasSub(out, "EDID") {
      out := InsertAt(out, 0, Sub("EDID", AsciiBytes(REMOTE_EDID) + [0]));
    }
    if !HasSub(out, "FULL") {
      out := InsertAt(out, 1, Sub("FULL", AsciiBytes(REMOTE_NAME) + [0]));
    }
    if !HasSub(out, "RNAM") {
      out := out + [Sub("RNAM", Le32(DEFAULT_HUMAN_RACE))];
    }
    r := BuildSubrecords(out);
  }

  // ---------------------------------------------------------------- records and groups

  datatype Record = Record(kind: string, flags: Word32, formId: Word32, revision: Word32, version: Word16, unknown: Word16, data: seq<Byte>)

  function RecordHeader(kind: string, size: Word32, flags: Word32, formId: Word32, version: Word16): (r: seq<Byte>)
    requires IsAscii(kind) && |kind| == 4
    ensures |r| == REC_HEADER
  {
    AsciiBytes(kind) + Le32(size) + Le32(flags) + Le32(formId) + Le32(0) + Le16(version) + Le16(0)
  }

  /** What a scan reads of a record that starts at `at`. */
  function RecordAt(data: seq<Byte>, at: nat): Record
    requires at + REC_HEADER <= |data| && at + REC_HEADER + FromLe32(data, at + 4) <= |data|
  {
    Record(
      AsciiText(data[at..at + 4]), FromLe32(data, at + 8), FromLe32(data, at + 12), FromLe32(data, at + 16),
      FromLe16(data, at + 20), FromLe16(data, at + 22), data[at + 24..at + 24 + FromLe32(data, at + 4)])
  }

  /** How a walk ended: with a short read, or at a place with what it read. */
  datatype Walked = ShortRead | Walked(pos: nat, records: seq<Record>)

  /** `walk` from `pos` up to `limit`: groups are entered, and left wherever their last
      record ends. */
  function Walk(data: seq<Byte>, pos: nat, limit: nat): (r: Walked)
    requires limit <= |data|
    ensures r.Walked? ==> pos <= r.pos
    decreases |data| - pos
  {
    if pos + REC_HEADER > limit then Walked(pos, [])
    else
      var kind, size, body := AsciiText(data[pos..pos + 4]), FromLe32(data, pos + 4), pos + REC_HEADER;
      if kind == GRUP then
        match Walk(data, body, GroupEnd(body, size, limit))
        case ShortRead => ShortRead
        case Walked(p, inner) => After(inner, Walk(data, p, limit))
      else if body + size > |data| then ShortRead
      else After([RecordAt(data, pos)], Walk(data, body + size, limit))
  }

  function GroupEnd(body: nat, size: Word32, limit: nat): (r: nat)
    requires body >= REC_HEADER
    ensures r <= limit
  {
    if body + size - REC_HEADER > limit then limit else body + size - REC_HEADER
  }

  function After(recs: seq<Record>, r: Walked): Walked {
    if r.Walked? then Walked(r.pos, recs + r.records) else ShortRead
  }

  /** The decompressed NPC records, in file order; one that does not inflate is skipped. */
  function NpcsOf(records: seq<Record>, inflate: seq<Byte> -> Option<seq<Byte>>): seq<Record> {
    if records == [] then []
    else
      var r := records[|records| - 1];
      NpcsOf(records[..|records| - 1], inflate) +
      if r.kind == NPC && Decompress(r, inflate).Some?
      then [r.(flags := Without(r.flags, COMPRESSED), data := Decompress(r, inflate).value)]
      else []
  }

  function Decompress(r: Record, inflate: seq<Byte> -> Option<seq<Byte>>): Option<seq<Byte>> {
    if !HasBit(r.flags, COMPRESSED) then Some(r.data)
    else if |r.data| < 4 then None
    else inflate(r.data[4..])
  }

  function TypesOf(records: seq<Record>): map<Word32, string> {
    if records == [] then map[]
    else
      var r := records[|records| - 1];
      TypesOf(records[..|records| - 1])[r.formId := r.kind]
  }

  lemma {:induction false} NpcsConcat(xs: seq<Record>, ys: seq<Record>, inflate: seq<Byte> -> Option<seq<Byte>>)
    ensures NpcsOf(xs + ys, inflate) == NpcsOf(xs, inflate) + NpcsOf(ys, inflate)
    decreases |ys|
  {
    hide Decompress, Without;
    if ys == [] {
      assert xs + ys == xs;
    } else {
      assert (xs + ys)[..|xs| + |ys| - 1] == xs + ys[..|ys| - 1];
      NpcsConcat(xs, ys[..|ys| - 1], inflate);
    }
  }

  /** The scan of `scan_esm`: the file cursor, and what was found so far. */
  class Scanner {
    const data: seq<Byte>
    const inflate: seq<Byte> -> Option<seq<Byte>>
    var pos: nat
    var types: map<Word32, string>
    var npcs: seq<Record>
    ghost var records: seq<Record>

    ghost predicate Valid()
      reads this
    {
      types == TypesOf(records) && npcs == NpcsOf(records, inflate)
    }

    constructor (data: seq<Byte>, inflate: seq<Byte> -> Option<seq<Byte>>)
      ensures Valid() && this.data == data && this.inflate == inflate && pos == 0 && records == []
    {
      this.data, this.inflate := data, inflate;
      pos, types, npcs, records := 0, map[], [], [];
    }

    /** One record that is not a group, read whole. */
    method TakeRecord(size: Word32)
      requires Valid() && pos + REC_HEADER + size <= |data| && FromLe32(data, pos + 4) == size
      modifies this
      ensures Valid() && records == old(records) + [RecordAt(data, old(pos))] && pos == old(pos) + REC_HEADER + size
    {
      hide RecordAt, Without;
      var rec := RecordAt(data, pos);
      pos := pos + REC_HEADER + size;
      types := types[rec.formId := rec.kind];
      assert (records + [rec])[..|records|] == records;
      records := records + [rec];
      if rec.kind != NPC {
        return;
      }
      var payload := Decompress(rec, inflate);
      if payload.None? {
        return;
      }
      npcs := npcs + [rec.(flags := Without(rec.flags, COMPRESSED), data := payload.value)];
    }

    /** The nested `walk`; false is a short read. */
    method WalkTo(limit: nat) returns (ok: bool)
      requires Valid() && limit <= |data|
      modifies this
      ensures Valid() && ok == Walk(data, old(pos), limit).Walked?
      ensures ok ==> pos == Walk(data, old(pos), limit).pos
                     && records == old(records) + Walk(data, old(pos), limit).records
      decreases |data| - pos
    {
      hide Walk, TypesOf, NpcsOf, RecordAt, GroupEnd;
      AfterNone(Walk(data, pos, limit));
      while pos + REC_HEADER <= limit
        invariant Valid() && old(pos) <= pos && |records| >= |old(records)|
        invariant records[..|old(records)|] == old(records)
        invariant Walk(data, old(pos), limit) == After(records[|old(records)|..], Walk(data, pos, limit))
        decreases |data| - pos
      {
        WalkUnfold(data, pos, limit);
        ghost var found, was, from := records[|old(records)|..], records, pos;
        var kind, size := AsciiText(data[pos..pos + 4]), FromLe32(data, pos + 4);
        if kind == GRUP {
          pos := pos + REC_HEADER;
          var end := GroupEnd(pos, size, limit);
          ghost var inner := Walk(data, pos, end);
          var inside := WalkTo(end);
          if !inside {
            return false;
          }
          AfterAfter(found, inner.records, Walk(data, pos, limit));
          assert records[|old(records)|..] == found + inner.records;
          continue;
        }
        if pos + REC_HEADER + size > |data| {
          return false;
        }
        TakeRecord(size);
        AfterAfter(found, [RecordAt(data, from)], Walk(data, pos, limit));
        assert records[|old(records)|..] == found + [RecordAt(data, from)];
      }
      WalkEnd(data, pos, limit);
      assert records == records[..|old(records)|] + records[|old(records)|..];
      assert records[|old(records)|..] + [] == records[|old(records)|..];
      ok := true;
    }
  }

  lemma AfterNone(r: Walked)
    ensures After([], r) == r
  {
    if r.Walked? {
      assert [] + r.records == r.records;
    }
  }

  lemma AfterAfter(xs: seq<Record>, ys: seq<Record>, r: Walked)
    ensures After(xs, After(ys, r)) == After(xs + ys, r)
  {
    if r.Walked? {
      assert xs + (ys + r.records) == (xs + ys) + r.records;
    }
  }

  lemma WalkEnd(data: seq<Byte>, pos: nat, limit: nat)
    requires limit <= |data| && pos + REC_HEADER > limit
    ensures Walk(data, pos, limit) == Walked(pos, [])
  {
  }

  lemma WalkUnfold(data: seq<Byte>, pos: nat, limit: nat)
    requires limit <= |data| && pos + REC_HEADER <= limit
    ensures var kind, size, body := AsciiText(data[pos..pos + 4]), FromLe32(data, pos + 4), pos + REC_HEADER;
            var inner := Walk(data, body, GroupEnd(body, size, limit));
            && (kind == GRUP && inner.Walked? ==> Walk(data, pos, limit) == After(inner.records, Walk(data, inner.pos, limit)))
            && (kind == GRUP && inner.ShortRead? ==> Walk(data, pos, limit) == ShortRead)
            && (kind != GRUP && body + size > |data| ==> Walk(data, pos, limit) == ShortRead)
            && (kind != GRUP && body + size <= |data| ==>
                  Walk(data, pos, limit) == After([RecordAt(data, pos)], Walk(data, body + size, limit)))
  {
  }

  /** `scan_esm`. */
  method ScanEsm(data: seq<Byte>, inflate: seq<Byte> -> Option<seq<Byte>>)
    returns (ok: bool, types: map<Word32, string>, npcs: seq<Record>)
    ensures ok <==> Walk(data, 0, |data|).Walked?
    ensures ok ==> types == TypesOf(Walk(data, 0, |data|).records) && npcs == NpcsOf(Walk(data, 0, |data|).records, inflate)
  {
    hide Walk, TypesOf, NpcsOf;
    var scanner := new Scanner(data, inflate);
    ok := scanner.WalkTo(|data|);
    types, npcs := scanner.types, scanner.npcs;
    if ok {
      assert [] + Walk(data, 0, |data|).records == Walk(data, 0, |data|).records;
    }
  }
}
