/** Subrecords of a plugin file: a four-letter type, a 16-bit size, a payload, and the XXXX
    record that announces a longer payload. */
module Subrecords {
  import opened Bytes
  import opened Blobs

  datatype Sub = Sub(kind: string, payload: seq<Byte>)

  const XXXX := "XXXX"
  const SUB_HEADER := 6

  // ---------------------------------------------------------------- text

  predicate IsAscii(s: string) { forall i :: 0 <= i < |s| ==> s[i] < '\U{0080}' }

  /** `encode("ascii")` of an ASCII text. */
  function AsciiBytes(s: string): (r: seq<Byte>)
    requires IsAscii(s)
    ensures |r| == |s|
  {
    seq(|s|, i requires 0 <= i < |s| => s[i] as int)
  }

  /** `decode("ascii", "replace")`. */
  function AsciiText(b: seq<Byte>): (s: string)
    ensures |s| == |b|
  {
    seq(|b|, i requires 0 <= i < |b| => if b[i] < 0x80 then b[i] as char else '\U{FFFD}')
  }

  lemma AsciiRoundTrip(s: string)
    requires IsAscii(s)
    ensures AsciiText(AsciiBytes(s)) == s
  {
  }

  function Take(s: seq<Byte>, n: nat): (r: seq<Byte>)
    ensures |r| <= n
  {
    if n <= |s| then s[..n] else s
  }

  function Drop(s: seq<Byte>, n: nat): (r: seq<Byte>)
    ensures |r| <= |s|
    ensures n > 0 && |s| > 0 ==> |r| < |s|
  {
    if n <= |s| then s[n..] else []
  }

  // ---------------------------------------------------------------- parsing

  /** `parse_subrecords` from the rest of the data on, with a size announced by XXXX or not;
      None when the four bytes after an XXXX header are missing. */
  function ParseRest(rest: seq<Byte>, pending: Option<Word32>): (r: Option<seq<Sub>>)
    decreases |rest|
  {
    if |rest| < SUB_HEADER then Some([])
    else
      var kind, size, body := AsciiText(rest[..4]), FromLe16(rest, 4), rest[SUB_HEADER..];
      if kind == XXXX then
        if |body| < 4 then None else ParseRest(Drop(body, size), Some(FromLe32(body, 0)))
      else
        var n := if pending.Some? then pending.value else size;
        match ParseRest(Drop(body, n), None)
        case None => None
        case Some(subs) => Some([Sub(kind, Take(body, n))] + subs)
  }

  function Parse(data: seq<Byte>): Option<seq<Sub>> { ParseRest(data, None) }

  function Prepend(out: seq<Sub>, r: Option<seq<Sub>>): Option<seq<Sub>> {
    if r.Some? then Some(out + r.value) else None
  }

  lemma DropDrop(s: seq<Byte>, m: nat, n: nat)
    ensures Drop(Drop(s, m), n) == Drop(s, m + n)
  {
  }

  /** What one round of the loop reads. */
  lemma ParseUnfold(rest: seq<Byte>, pending: Option<Word32>)
    requires |rest| >= SUB_HEADER
    ensures var kind, size, body := AsciiText(rest[..4]), FromLe16(rest, 4), Drop(rest, SUB_HEADER);
            var n := if pending.Some? then pending.value else size;
            && (kind == XXXX && |body| < 4 ==> ParseRest(rest, pending) == None)
            && (kind == XXXX && |body| >= 4 ==> ParseRest(rest, pending) == ParseRest(Drop(body, size), Some(FromLe32(body, 0))))
            && (kind != XXXX ==>
                  ParseRest(rest, pending) == Prepend([Sub(kind, Take(body, n))], ParseRest(Drop(body, n), None)))
  {
  }

  lemma PrependNone(r: Option<seq<Sub>>)
    ensures Prepend([], r) == r
  {
    if r.Some? {
      assert [] + r.value == r.value;
    }
  }

  lemma PrependOne(out: seq<Sub>, s: Sub, r: Option<seq<Sub>>)
    ensures Prepend(out, Prepend([s], r)) == Prepend(out + [s], r)
  {
    if r.Some? {
      assert out + ([s] + r.value) == (out + [s]) + r.value;
    }
  }

  method ParseSubrecords(data: seq<Byte>) returns (r: Option<seq<Sub>>)
    ensures r == Parse(data)
  {
    hide ParseRest, Take, Drop;
    var out: seq<Sub> := [];
    var i: nat := 0;
    var pending: Option<Word32> := None;
    DropSlices(data, 0);
    PrependNone(Parse(data));
    while i + 6 <= |data|
      invariant Parse(data) == Prepend(out, ParseRest(Drop(data, i), pending))
      decreases |data| - i
    {
      var kind, size := AsciiText(data[i..i + 4]), FromLe16(data, i + 4);
      ghost var rest := Drop(data, i);
      DropSlices(data, i);
      ParseUnfold(rest, pending);
      DropDrop(data, i, 6);
      i := i + 6;
      DropSlices(data, i);
      if kind == XXXX {
        if i + 4 > |data| {
          return None;
        }
        pending := Some(FromLe32(data, i));
        DropDrop(data, i, size);
        i := i + size;
        continue;
      }
      var n: nat := size;
      if pending.Some? {
        n := pending.value;
        pending := None;
      }
      var payload := if i + n <= |data| then data[i..i + n] else data[i..];
      assert payload == Take(rest[SUB_HEADER..], n) by { TakeSlices(data, i, n); }
      PrependOne(out, Sub(kind, payload), ParseRest(Drop(Drop(data, i), n), None));
      DropDrop(data, i, n);
      out := out + [Sub(kind, payload)];
      i := i + n;
    }
    DropSlices(data, i);
    ParseEnd(Drop(data, i), pending);
    assert out + [] == out;
    r := Some(out);
  }

  lemma DropSlices(data: seq<Byte>, i: nat)
    ensures i <= |data| ==> Drop(data, i) == data[i..]
    ensures i > |data| ==> Drop(data, i) == []
    ensures i + 6 <= |data| ==> Drop(data, i)[..4] == data[i..i + 4] && FromLe16(Drop(data, i), 4) == FromLe16(data, i + 4)
    ensures i + 4 <= |data| ==> FromLe32(Drop(data, i), 0) == FromLe32(data, i)
    ensures i == 0 ==> Drop(data, i) == data
  {
  }

  lemma TakeSlices(data: seq<Byte>, i: nat, n: nat)
    requires i <= |data|
    ensures Take(data[i..], n) == if i + n <= |data| then data[i..i + n] else data[i..]
  {
  }

  lemma ParseEnd(rest: seq<Byte>, pending: Option<Word32>)
    requires |rest| < SUB_HEADER
    ensures ParseRest(rest, pending) == Some([])
  {
  }

  // ---------------------------------------------------------------- building

  /** What the printer accepts: ASCII types and payloads whose length fits 32 bits. */
  predicate Printable(s: Sub) { IsAscii(s.kind) && |s.payload| < 0x1_0000_0000 }

  function BuildOne(s: Sub): seq<Byte>
    requires Printable(s)
  {
    if |s.payload| > 0xFFFF then
      (AsciiBytes(XXXX) + Le16(4) + Le32(|s.payload|)) + (AsciiBytes(s.kind) + Le16(0) + s.payload)
    else AsciiBytes(s.kind) + Le16(|s.payload|) + s.payload
  }

  predicate AllPrintable(subs: seq<Sub>) { forall i :: 0 <= i < |subs| ==> Printable(subs[i]) }

  function BuildAll(subs: seq<Sub>): (r: seq<Byte>)
    requires AllPrintable(subs)
  {
    if subs == [] then [] else BuildAll(subs[..|subs| - 1]) + BuildOne(subs[|subs| - 1])
  }

  /** `build_subrecords`; None when a type is not ASCII or a length does not fit. */
  function Build(subs: seq<Sub>): (r: Option<seq<Byte>>) {
    if AllPrintable(subs) then Some(BuildAll(subs)) else None
  }

  method BuildSubrecords(subs: seq<Sub>) returns (r: Option<seq<Byte>>)
    ensures r == Build(subs)
  {
    hide BuildOne;
    var out: seq<Byte> := [];
    for i := 0 to |subs|
      invariant AllPrintable(subs[..i]) && BuildAll(subs[..i]) == out
    {
      assert subs[..i + 1][..i] == subs[..i];
      if !IsAscii(subs[i].kind) || |subs[i].payload| >= 0x1_0000_0000 {
        assert !Printable(subs[i]);
        return None;
      }
      var chunk := WriteOne(subs[i]);
      out := out + chunk;
    }
    assert subs[..|subs|] == subs;
    r := Some(out);
  }

  /** The chunks appended for one subrecord. */
  method WriteOne(s: Sub) returns (out: seq<Byte>)
    requires Printable(s)
    ensures out == BuildOne(s)
  {
    if |s.payload| > 0xFFFF {
      out := AsciiBytes(XXXX) + Le16(4) + Le32(|s.payload|);
      out := out + (AsciiBytes(s.kind) + Le16(0) + s.payload);
    } else {
      out := AsciiBytes(s.kind) + Le16(|s.payload|) + s.payload;
    }
  }

  // ---------------------------------------------------------------- round trip

  /** A subrecord that means itself. */
  ghost predicate Regular(s: Sub) {
    Printable(s) && |s.kind| == 4 && s.kind != XXXX
  }

  lemma ParseHeader(kind: string, size: Word16, body: seq<Byte>)
    requires IsAscii(kind) && |kind| == 4
    ensures var rest := AsciiBytes(kind) + Le16(size) + body;
            |rest| >= SUB_HEADER && AsciiText(rest[..4]) == kind && FromLe16(rest, 4) == size && Drop(rest, SUB_HEADER) == body
  {
    var rest := AsciiBytes(kind) + Le16(size) + body;
    assert rest[..4] == AsciiBytes(kind);
    AsciiRoundTrip(kind);
    assert rest[4..6] == Le16(size);
    FromLe16At(rest, 4, size);
    assert rest[SUB_HEADER..] == body;
  }

  lemma ExactBody(payload: seq<Byte>, rest: seq<Byte>)
    ensures Take(payload + rest, |payload|) == payload && Drop(payload + rest, |payload|) == rest
  {
  }

  /** A plain subrecord, or the second half of an announced one. */
  lemma ParsePlain(s: Sub, size: Word16, pending: Option<Word32>, rest: seq<Byte>)
    requires Regular(s) && |s.payload| == if pending.Some? then pending.value else size
    ensures ParseRest(AsciiBytes(s.kind) + Le16(size) + (s.payload + rest), pending) == Prepend([s], ParseRest(rest, None))
  {
    hide ParseRest, Take, Drop;
    ParseHeader(s.kind, size, s.payload + rest);
    ParseUnfold(AsciiBytes(s.kind) + Le16(size) + (s.payload + rest), pending);
    ExactBody(s.payload, rest);
  }

  lemma ParseAnnounced(n: Word32, tail: seq<Byte>)
    ensures ParseRest(AsciiBytes(XXXX) + Le16(4) + (Le32(n) + tail), None) == ParseRest(tail, Some(n))
  {
    hide ParseRest, Take, Drop;
    ParseHeader(XXXX, 4, Le32(n) + tail);
    ParseUnfold(AsciiBytes(XXXX) + Le16(4) + (Le32(n) + tail), None);
    assert (Le32(n) + tail)[0..4] == Le32(n);
    FromLe32At(Le32(n) + tail, 0, n);
    ExactBody(Le32(n), tail);
  }

  lemma ParseOne(s: Sub, rest: seq<Byte>)
    requires Regular(s)
    ensures ParseRest(BuildOne(s) + rest, None) == Prepend([s], ParseRest(rest, None))
  {
    hide ParseRest, AsciiBytes, Le16, Le32;
    if |s.payload| > 0xFFFF {
      var tail := AsciiBytes(s.kind) + Le16(0) + (s.payload + rest);
      assert BuildOne(s) + rest == AsciiBytes(XXXX) + Le16(4) + (Le32(|s.payload|) + tail);
      ParseAnnounced(|s.payload|, tail);
      ParsePlain(s, 0, Some(|s.payload|), rest);
    } else {
      assert BuildOne(s) + rest == AsciiBytes(s.kind) + Le16(|s.payload|) + (s.payload + rest);
      ParsePlain(s, |s.payload|, None, rest);
    }
  }

  ghost predicate AllRegular(subs: seq<Sub>) { forall i :: 0 <= i < |subs| ==> Regular(subs[i]) }

  lemma {:induction false} ParseBuiltBefore(subs: seq<Sub>, rest: seq<Byte>)
    requires AllRegular(subs)
    ensures AllPrintable(subs)
    ensures ParseRest(BuildAll(subs) + rest, None) == Prepend(subs, ParseRest(rest, None))
    decreases |subs|
  {
    hide ParseRest, BuildOne;
    if subs == [] {
      assert BuildAll(subs) + rest == rest;
      PrependNone(ParseRest(rest, None));
    } else {
      var front, last := subs[..|subs| - 1], subs[|subs| - 1];
      ParseBuiltBefore(front, BuildOne(last) + rest);
      assert BuildAll(subs) + rest == BuildAll(front) + (BuildOne(last) + rest);
      ParseOne(last, rest);
      PrependOne(front, last, ParseRest(rest, None));
      assert front + [last] == subs;
    }
  }

  /** Parsing what was built gives the same list, for every payload length below 2^32. */
  lemma ParseBuilt(subs: seq<Sub>)
    requires AllRegular(subs)
    ensures Build(subs).Some? && Parse(Build(subs).value) == Some(subs)
  {
    hide ParseRest;
    ParseBuiltBefore(subs, []);
    ParseEnd([], None);
    assert BuildAll(subs) + [] == BuildAll(subs);
    assert subs + [] == subs;
  }

  /** Whatever is parsed has a four-character type other than XXXX and a payload that the
      printer can announce. */
  lemma {:induction false} ParsedRegular(rest: seq<Byte>, pending: Option<Word32>)
    requires ParseRest(rest, pending).Some?
    ensures forall s :: s in ParseRest(rest, pending).value ==>
              |s.kind| == 4 && s.kind != XXXX && |s.payload| < 0x1_0000_0000
    decreases |rest|
  {
    if |rest| >= SUB_HEADER {
      hide AsciiText, FromLe16, FromLe32, Take;
      var kind, size, body := AsciiText(rest[..4]), FromLe16(rest, 4), rest[SUB_HEADER..];
      if kind == XXXX {
        ParsedRegular(Drop(body, size), Some(FromLe32(body, 0)));
      } else {
        var n := if pending.Some? then pending.value else size;
        ParsedRegular(Drop(body, n), None);
      }
    }
  }

  /** Building and parsing a list gives it back if and only if every subrecord has an ASCII
      type of four characters other than XXXX and a payload shorter than 2^32. */
  lemma RoundTripIff(subs: seq<Sub>)
    ensures (Build(subs).Some? && Parse(Build(subs).value) == Some(subs)) <==> AllRegular(subs)
  {
    hide ParseRest, BuildAll;
    assert forall i :: 0 <= i < |subs| ==> subs[i] in subs;
    if AllRegular(subs) {
      ParseBuilt(subs);
    } else if Build(subs).Some? && Parse(Build(subs).value) == Some(subs) {
      ParsedRegular(Build(subs).value, None);
    }
  }

  /** Rebuilding any parsed data keeps its meaning: parsing it again gives the same list.
      Only a type with bytes outside ASCII cannot be printed. */
  lemma RebuildKeepsMeaning(data: seq<Byte>)
    requires Parse(data).Some?
    ensures Build(Parse(data).value).Some? <==> forall s :: s in Parse(data).value ==> IsAscii(s.kind)
    ensures Build(Parse(data).value).Some? ==> Parse(Build(Parse(data).value).value) == Parse(data)
  {
    hide ParseRest, BuildAll;
    ParsedRegular(data, None);
    var subs := Parse(data).value;
    assert forall i :: 0 <= i < |subs| ==> subs[i] in subs;
    if Build(subs).Some? {
      ParseBuilt(subs);
    }
  }
}
