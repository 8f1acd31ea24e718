/** The byte layouts themselves, octet by octet, and what framing does with arbitrary bytes. */
module Layouts {
  import opened Bytes
  import opened Wire
  import opened Blobs
  import Framing
  import SendQueue
  import Sheets = Inventory
  import opened Subrecords

  // ---------------------------------------------------------------- words

  /** Octet `at` and the next one hold `n`, the low octet first. */
  predicate Word(b: seq<Byte>, at: nat, n: nat) {
    at + 2 <= |b| && n == b[at] as int + 256 * b[at + 1] as int
  }

  predicate Long(b: seq<Byte>, at: nat, n: nat) {
    at + 4 <= |b| && n == b[at] as int + 256 * (b[at + 1] as int + 256 * (b[at + 2] as int + 256 * b[at + 3] as int))
  }

  lemma WordAt(b: seq<Byte>, at: nat, n: Word16)
    requires at + 2 <= |b| && b[at..at + 2] == Le16(n)
    ensures Word(b, at, n)
  {
    FromLe16At(b, at, n);
  }

  lemma LongAt(b: seq<Byte>, at: nat, n: Word32)
    requires at + 4 <= |b| && b[at..at + 4] == Le32(n)
    ensures Long(b, at, n)
  {
    hide Le32;
    FromLe32At(b, at, n);
  }

  // ---------------------------------------------------------------- chunks

  /** A chunk on the wire. */
  lemma ChunkBytes(kind: Byte, h: ChunkHeader, payload: seq<Byte>)
    requires 24 + |payload| < 0x1_0000
    ensures var d := EncodeChunk(kind, h, payload);
            && |d| == 24 + |payload| && d[..4] == [67, 77, 80, 49] && d[4] == kind && d[5] == 12 && Word(d, 6, |d|) && Long(d, 8, 0)
            && Long(d, 12, h.peerId) && Word(d, 16, h.index) && Word(d, 18, h.count) && Word(d, 20, h.blobBytes) && Word(d, 22, h.payloadBytes)
            && d[24..] == payload
  {
    hide Le16, Le32, Word, Long;
    var d := EncodeChunk(kind, h, payload);
    assert d[..12] == FillHeader(kind, |d|);
    assert d[4] == d[..12][4] && d[5] == d[..12][5];
    assert d[..4] == d[..12][..4];
    assert d[6..8] == d[..12][6..8] == Le16(|d|);
    assert d[8..12] == d[..12][8..12] == [0, 0, 0, 0];
    assert Le32(0) == [0, 0, 0, 0] by { NoLong(); }
    WordAt(d, 6, |d|);
    LongAt(d, 8, 0);
    assert d[12..16] == Le32(h.peerId);
    LongAt(d, 12, h.peerId);
    assert d[16..18] == Le16(h.index);
    WordAt(d, 16, h.index);
    assert d[18..20] == Le16(h.count);
    WordAt(d, 18, h.count);
    assert d[20..22] == Le16(h.blobBytes);
    WordAt(d, 20, h.blobBytes);
    assert d[22..24] == Le16(h.payloadBytes);
    WordAt(d, 22, h.payloadBytes);
  }

  lemma NoLong()
    ensures Le32(0) == [0, 0, 0, 0]
  {
  }

  /** The chunks of a blob: number `i` of as many as 488 octets at a time make, each saying so,
      with the octets from 488 times `i` on. */
  lemma PacketBytes(kind: Byte, id: Word32, blob: seq<Byte>, i: nat)
    requires 1 <= |blob| <= 65535 && 488 * i < |blob|
    ensures var ps := Packets(kind, id, blob); var count := (|blob| + 487) / 488; var n := if |blob| - 488 * i < 488 then |blob| - 488 * i else 488;
            && |ps| == count && i < count && |ps[i]| == 24 + n && ps[i][4] == kind
            && Long(ps[i], 12, id) && Word(ps[i], 16, i) && Word(ps[i], 18, count) && Word(ps[i], 20, |blob|) && Word(ps[i], 22, n)
            && ps[i][24..] == blob[488 * i..488 * i + n]
  {
    hide EncodeChunk, Word, Long;
    var count := (|blob| + 487) / 488;
    assert count == ChunkCount(blob);
    assert i < count;
    var p := Piece(blob, i);
    ChunkBytes(kind, ChunkHeader(id, i, count, |blob|, |p|), p);
  }

  // ---------------------------------------------------------------- framing of arbitrary bytes

  /** What the extraction loop left aside: nothing, or everything from a bad header on. */
  ghost predicate LeftAside(frames: seq<seq<Byte>>, rest: seq<Byte>, buf: seq<Byte>, dropped: seq<Byte>) {
    && Flatten(frames) + dropped == buf
    && (rest == dropped || rest == [])
    && (rest == dropped ==> |dropped| < 12 || dropped[..4] == [67, 77, 80, 49])
    && (rest != dropped ==> |dropped| >= 12 && (dropped[..4] != [67, 77, 80, 49] || dropped[6] as int + 256 * dropped[7] as int < 12))
  }

  /** A frame that starts with the magic and is as long as its size field says. */
  predicate Framed(f: seq<Byte>) { |f| >= 12 && f[..4] == [67, 77, 80, 49] && Word(f, 6, |f|) }

  lemma ExtractAnything(buf: seq<Byte>)
    ensures var e := Framing.Extract(buf);
            if e.Frame? then Framed(e.frame) && buf == e.frame + e.rest && |e.rest| < |buf|
            else LeftAside([], e.rest, buf, buf)
  {
    var e := Framing.Extract(buf);
    if e.Frame? { assert e.frame[..4] == buf[..4]; }
  }

  lemma LeftBehind(frame: seq<Byte>, frames: seq<seq<Byte>>, rest: seq<Byte>, tail: seq<Byte>, dropped: seq<Byte>)
    requires LeftAside(frames, rest, tail, dropped)
    ensures LeftAside([frame] + frames, rest, frame + tail, dropped)
  {
    FlattenCons(frame, frames);
    Framing.AppendAssoc(frame, Flatten(frames), dropped);
  }

  /** Whatever arrives, the frames taken are framed, stand one after the other at the start of
      it, and what follows is kept, or dropped if it cannot start a frame. */
  lemma {:induction false} DrainAnything(buf: seq<Byte>) returns (dropped: seq<Byte>)
    ensures var (frames, rest) := Framing.Drain(buf);
            (forall i :: 0 <= i < |frames| ==> Framed(frames[i])) && LeftAside(frames, rest, buf, dropped)
    decreases |buf|
  {
    hide Framing.Extract, Framing.Drain, Framed, LeftAside;
    var e := Framing.Extract(buf);
    ExtractAnything(buf);
    Framing.DrainUnfold(buf);
    if e.Nothing? {
      dropped := buf;
    } else {
      dropped := DrainAnything(e.rest);
      LeftBehind(e.frame, Framing.Drain(e.rest).0, Framing.Drain(e.rest).1, e.rest, dropped);
    }
  }

  /** One call of the plugin: the magic is not looked at, a size below 12 empties the buffer, a
      frame that does not fit the caller is lost. */
  lemma PluginAnything(buf: seq<Byte>, arrived: seq<Byte>, maxlen: nat)
    requires maxlen >= 12
    ensures var b := buf + arrived; var (rest, r) := Framing.PluginCall(buf, arrived, maxlen);
            var size := if |b| < 12 then 65536 else b[6] as int + 256 * b[7] as int;
            if size < 12 then rest == [] && r.NoFrame?
            else if size > |b| then rest == b && r.NoFrame?
            else b == b[..size] + rest && r == if size <= maxlen then Framing.Got(b[..size]) else Framing.NoFrame
  {
  }

  // ---------------------------------------------------------------- the send buffer

  /** A message is taken whole if it is not empty and fits a mebibyte with what still waits,
      and otherwise not at all; nothing is sent by taking it. */
  lemma TakenIff(q: SendQueue.Queue, data: seq<Byte>)
    requires SendQueue.Ok(q)
    ensures var q' := SendQueue.Appended(q, data); var waiting := q.bytes[q.offset..];
            && q'.offset <= |q'.bytes| && q'.sent == q.sent
            && if 0 < |data| && |waiting| + |data| <= 1048576
               then q'.accepted == q.accepted + [data] && q'.bytes[q'.offset..] == waiting + data
               else q' == q
  {
    SendQueue.CompactedOk(q);
    var c := SendQueue.Compacted(q);
    assert c.bytes[c.offset..] == q.bytes[q.offset..];
    assert (c.bytes + data)[c.offset..] == c.bytes[c.offset..] + data;
  }

  /** Sending takes octets from the front of what waits, in order. */
  lemma SentFromFront(q: SendQueue.Queue, n: nat)
    requires SendQueue.Ok(q) && q.offset + n <= |q.bytes|
    ensures var q', waiting := SendQueue.Drained(q, n), q.bytes[q.offset..];
            && q'.offset <= |q'.bytes| && q'.accepted == q.accepted
            && q'.sent == q.sent + waiting[..n] && q'.bytes[q'.offset..] == waiting[n..]
  {
    assert q.bytes[q.offset..q.offset + n] == q.bytes[q.offset..][..n];
  }

  // ---------------------------------------------------------------- sheets

  /** A text field: the text up to its first zero, cut to leave one zero at the end. */
  lemma FieldBytes(s: seq<Byte>, size: nat, k: nat)
    requires k < size
    ensures Sheets.CField(s, size)[k] == if k < size - 1 && k < |s| && (forall i :: 0 <= i < k ==> s[i] != 0) then s[k] else 0
  {
  }

  lemma FormBytes(f: Sheets.Form)
    ensures var b := Sheets.EncForm(f); |b| == 28 && Long(b, 0, f.raw) && b[4..] == Sheets.CField(f.plugin, 24)
  {
    hide Le32, Long, Sheets.CField;
    var b := Sheets.EncForm(f);
    assert b[0..4] == Le32(f.raw);
    LongAt(b, 0, f.raw);
  }

  lemma {:induction false} FormsBytes(fs: seq<Sheets.Form>, i: nat)
    requires i < |fs|
    ensures Sheets.EncForms(fs)[28 * i..28 * i + 28] == Sheets.EncForm(fs[i])
  {
    hide Sheets.EncForm;
    var n := |fs| - 1;
    if i < n {
      FormsBytes(fs[..n], i);
      assert Sheets.EncForms(fs)[28 * i..28 * i + 28] == Sheets.EncForms(fs[..n])[28 * i..28 * i + 28];
    }
  }

  lemma {:induction false} StacksBytes(ss: seq<Sheets.Stack>, i: nat)
    requires i < |ss|
    ensures var b := Sheets.EncStacks(ss);
            b[32 * i..32 * i + 28] == Sheets.EncForm(ss[i].form) && b[32 * i + 28..32 * i + 32] == Le32(ss[i].count)
  {
    hide Sheets.EncForm, Le32;
    var n := |ss| - 1;
    var b := Sheets.EncStacks(ss);
    if i < n {
      StacksBytes(ss[..n], i);
      var front := Sheets.EncStacks(ss[..n]);
      assert b[32 * i..32 * i + 28] == front[32 * i..32 * i + 28];
      assert b[32 * i + 28..32 * i + 32] == front[32 * i + 28..32 * i + 32];
    } else {
      assert b[32 * n..] == Sheets.EncStack(ss[n]);
      assert b[32 * n..32 * n + 28] == Sheets.EncStack(ss[n])[..28];
      assert b[32 * n + 28..32 * n + 32] == Sheets.EncStack(ss[n])[28..];
    }
  }

  /** The head of a sheet on the wire, and where its lists stand. */
  lemma SheetBytes(s: Sheets.Sheet)
    ensures var b := Sheets.Encode(s); var worn := if |s.worn| < 32 then |s.worn| else 32; var stacks := if |s.stacks| < 192 then |s.stacks| else 192;
            && b[..4] == [0x49, 0x4E, 0x56, 0x54] && Word(b, 4, 1) && b[6..38] == Sheets.CField(s.name, 32) && b[38] == s.sex
            && b[39..67] == Sheets.EncForm(s.race) && b[67] == worn
            && |b| == 68 + 28 * worn + 2 + 32 * stacks
            && b[68..68 + 28 * worn] == Sheets.EncForms(s.worn[..worn])
            && Word(b, 68 + 28 * worn, stacks)
            && b[70 + 28 * worn..] == Sheets.EncStacks(s.stacks[..stacks])
  {
    hide Word, Sheets.CField, Sheets.EncForm, Sheets.EncForms, Sheets.EncStacks;
    var b := Sheets.Encode(s);
    HeadBytes(s);
    var h := Sheets.Head(s);
    assert b[..68] == h;
    assert b[..4] == h[..4] && b[6..38] == h[6..38] && b[38] == h[38] && b[39..67] == h[39..67] && b[67] == h[67];
    assert b[4..6] == h[4..6];
    WordAt(b, 4, 1);
    var at := 68 + 28 * |Sheets.Worn(s)|;
    assert b[at..at + 2] == Le16(|Sheets.Stacks(s)|);
    WordAt(b, at, |Sheets.Stacks(s)|);
  }

  lemma HeadBytes(s: Sheets.Sheet)
    ensures var h := Sheets.Head(s);
            && h[..4] == [0x49, 0x4E, 0x56, 0x54] && h[4..6] == Le16(1) && h[6..38] == Sheets.CField(s.name, 32) && h[38] == s.sex
            && h[39..67] == Sheets.EncForm(s.race) && h[67] == |Sheets.Worn(s)|
  {
    hide Sheets.CField, Sheets.EncForm;
    assert Le32(0x54564E49) == [0x49, 0x4E, 0x56, 0x54];
  }

  /** Which forms a reader keeps: not the empty one, nor the two of the player, in any plugin. */
  lemma KeptOne(f: Sheets.Form)
    ensures Sheets.KeptForms([f]) == if f.raw == 0 || f.raw % 0x1000000 == 0x7 || f.raw % 0x1000000 == 0x20593 then [] else [f]
  {
    assert [f][..0] == [];
  }

  lemma {:induction false} KeptConcat(a: seq<Sheets.Form>, b: seq<Sheets.Form>)
    ensures Sheets.KeptForms(a + b) == Sheets.KeptForms(a) + Sheets.KeptForms(b)
    decreases |b|
  {
    if b == [] {
      assert a + b == a;
    } else {
      assert (a + b)[..|a + b| - 1] == a + b[..|b| - 1];
      KeptConcat(a, b[..|b| - 1]);
    }
  }

  lemma StackKeptOne(s: Sheets.Stack)
    ensures Sheets.KeptStacks([s]) == if s.form.raw == 0 || s.form.raw % 0x1000000 == 0x7 || s.form.raw % 0x1000000 == 0x20593 then [] else [s]
  {
    assert [s][..0] == [];
  }

  lemma {:induction false} StacksKeptConcat(a: seq<Sheets.Stack>, b: seq<Sheets.Stack>)
    ensures Sheets.KeptStacks(a + b) == Sheets.KeptStacks(a) + Sheets.KeptStacks(b)
    decreases |b|
  {
    if b == [] {
      assert a + b == a;
    } else {
      assert (a + b)[..|a + b| - 1] == a + b[..|b| - 1];
      StacksKeptConcat(a, b[..|b| - 1]);
    }
  }

  // ---------------------------------------------------------------- subrecords

  /** A subrecord in a plugin file; one longer than 65535 octets is announced by its length. */
  lemma SubBytes(s: Sub)
    requires Printable(s) && |s.kind| == 4
    ensures var b, n := BuildOne(s), |s.payload|;
            if n <= 65535 then |b| >= 6 && b[..4] == AsciiBytes(s.kind) && Word(b, 4, n) && b[6..] == s.payload
            else
              && |b| >= 16 && b[..4] == [88, 88, 88, 88] && Word(b, 4, 4) && Long(b, 6, n)
              && b[10..14] == AsciiBytes(s.kind) && Word(b, 14, 0) && b[16..] == s.payload
  {
    hide Word, Long, Le16, Le32, AsciiBytes;
    var b, n := BuildOne(s), |s.payload|;
    if n <= 65535 {
      assert b[4..6] == Le16(n);
      WordAt(b, 4, n);
    } else {
      Announced();
      assert b[4..6] == Le16(4) && b[6..10] == Le32(n) && b[14..16] == Le16(0);
      WordAt(b, 4, 4);
      LongAt(b, 6, n);
      WordAt(b, 14, 0);
    }
  }

  lemma Announced()
    ensures AsciiBytes(XXXX) == [88, 88, 88, 88]
  {
  }
}
