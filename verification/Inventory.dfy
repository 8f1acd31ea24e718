/** The inventory sheet and its byte form. */
module Inventory {
  import opened Bytes
  import opened Blobs

  const INV_MAGIC: Word32 := 0x54564E49
  const INV_VERSION: Word16 := 1
  const MAX_WORN := 32
  const MAX_STACKS := 192
  const NAME_FIELD := 32
  const PLUGIN_FIELD := 24
  const FORM_SIZE := 28
  const STACK_SIZE := 32
  const HEAD_SIZE := 4 + 2 + NAME_FIELD + 1 + FORM_SIZE + 1
  const MAX_SHEET := HEAD_SIZE + MAX_WORN * FORM_SIZE + 2 + MAX_STACKS * STACK_SIZE

  datatype Form = Form(raw: Word32, plugin: seq<Byte>)
  datatype Stack = Stack(form: Form, count: Word32)
  datatype Sheet = Sheet(name: seq<Byte>, sex: Byte, race: Form, worn: seq<Form>, stacks: seq<Stack>)

  // ---------------------------------------------------------------- fixed text fields

  /** The length of a C string held in `s`. */
  function StrLen(s: seq<Byte>): (n: nat)
    ensures n <= |s| && (n < |s| ==> s[n] == 0) && forall i :: 0 <= i < n ==> s[i] != 0
  {
    if s == [] || s[0] == 0 then 0 else 1 + StrLen(s[1..])
  }

  /** A string cut to `size - 1` bytes and padded with zeros, as `copy_cstr` and
      `BlobWriter::plugin` lay it out in a zeroed field. */
  function CField(s: seq<Byte>, size: nat): (r: seq<Byte>)
    requires size > 0
    ensures |r| == size && r[size - 1] == 0
  {
    var n := Min(StrLen(s), size - 1);
    s[..n] + Zeros(size - n)
  }

  /** What a reader makes of a field: its last byte is forced to zero. */
  function Terminated(s: seq<Byte>): (r: seq<Byte>)
    requires |s| > 0
    ensures |r| == |s|
  {
    s[|s| - 1 := 0]
  }

  lemma CFieldTwice(s: seq<Byte>, size: nat)
    requires size > 0
    ensures CField(CField(s, size), size) == CField(s, size)
  {
    var n, f := Min(StrLen(s), size - 1), CField(s, size);
    assert f[n] == 0;
    assert forall i :: 0 <= i < n ==> f[i] == s[i];
    assert StrLen(f) == n;
  }

  // ---------------------------------------------------------------- encoding

  function EncForm(f: Form): (r: seq<Byte>)
    ensures |r| == FORM_SIZE
  {
    Le32(f.raw) + CField(f.plugin, PLUGIN_FIELD)
  }

  function EncStack(s: Stack): (r: seq<Byte>)
    ensures |r| == STACK_SIZE
  {
    EncForm(s.form) + Le32(s.count)
  }

  function EncForms(fs: seq<Form>): (r: seq<Byte>)
    ensures |r| == 28 * |fs|
  {
    if fs == [] then [] else EncForms(fs[..|fs| - 1]) + EncForm(fs[|fs| - 1])
  }

  function EncStacks(ss: seq<Stack>): (r: seq<Byte>)
    ensures |r| == 32 * |ss|
  {
    if ss == [] then [] else EncStacks(ss[..|ss| - 1]) + EncStack(ss[|ss| - 1])
  }

  function Worn(s: Sheet): (r: seq<Form>)
    ensures |r| <= MAX_WORN
  {
    s.worn[..Min(|s.worn|, MAX_WORN)]
  }

  function Stacks(s: Sheet): (r: seq<Stack>)
    ensures |r| <= MAX_STACKS
  {
    s.stacks[..Min(|s.stacks|, MAX_STACKS)]
  }

  function Head(s: Sheet): (r: seq<Byte>)
    ensures |r| == HEAD_SIZE
  {
    Le32(INV_MAGIC) + Le16(INV_VERSION) + CField(s.name, NAME_FIELD) + [s.sex] + EncForm(s.race) + [|Worn(s)|]
  }

  /** `encode_inventory_sheet`. */
  function Encode(s: Sheet): (r: seq<Byte>)
    ensures HEAD_SIZE + 2 <= |r| <= MAX_SHEET
  {
    Head(s) + EncForms(Worn(s)) + Le16(|Stacks(s)|) + EncStacks(Stacks(s))
  }

  // ---------------------------------------------------------------- decoding

  predicate Forbidden(raw: Word32) {
    raw % 0x100_0000 == 0x7 || raw % 0x100_0000 == 0x20593
  }

  predicate Keep(f: Form) { f.raw != 0 && !Forbidden(f.raw) }

  function KeptForms(fs: seq<Form>): (r: seq<Form>)
    ensures |r| <= |fs|
  {
    if fs == [] then []
    else
      var last := fs[|fs| - 1];
      KeptForms(fs[..|fs| - 1]) + if Keep(last) then [last] else []
  }

  function KeptStacks(ss: seq<Stack>): (r: seq<Stack>)
    ensures |r| <= |ss|
  {
    if ss == [] then []
    else
      var last := ss[|ss| - 1];
      KeptStacks(ss[..|ss| - 1]) + if Keep(last.form) then [last] else []
  }

  function FormAt(b: seq<Byte>, at: nat): Form
    requires at + FORM_SIZE <= |b|
  {
    Form(FromLe32(b, at), Terminated(b[at + 4..at + FORM_SIZE]))
  }

  function StackAt(b: seq<Byte>, at: nat): Stack
    requires at + STACK_SIZE <= |b|
  {
    Stack(FormAt(b, at), FromLe32(b, at + FORM_SIZE))
  }

  function FormsAt(b: seq<Byte>, at: nat, n: nat): (r: seq<Form>)
    requires at + 28 * n <= |b|
  {
    seq(n, i requires 0 <= i < n => FormAt(b, at + 28 * i))
  }

  function StacksAt(b: seq<Byte>, at: nat, n: nat): (r: seq<Stack>)
    requires at + 32 * n <= |b|
  {
    seq(n, i requires 0 <= i < n => StackAt(b, at + 32 * i))
  }

  /** Where the stack count stands in a sheet with `b`'s number of worn items. */
  function StacksField(b: seq<Byte>): nat
    requires |b| >= HEAD_SIZE
  {
    HEAD_SIZE + 28 * b[HEAD_SIZE - 1] as int
  }

  predicate HeadOk(b: seq<Byte>) {
    && |b| >= HEAD_SIZE
    && FromLe32(b, 0) == INV_MAGIC
    && b[HEAD_SIZE - 1] <= MAX_WORN
    && |b| >= StacksField(b) + 2
  }

  function StackCount(b: seq<Byte>): Word16
    requires HeadOk(b)
  {
    FromLe16(b, StacksField(b))
  }

  /** The bytes that hold a sheet: the version is not looked at. */
  predicate Decodable(b: seq<Byte>) {
    && HeadOk(b)
    && StackCount(b) <= MAX_STACKS
    && |b| >= StacksField(b) + 2 + 32 * StackCount(b)
  }

  /** The sheet laid out in `b`. */
  function SheetIn(b: seq<Byte>): Sheet
    requires Decodable(b)
  {
    Sheet(
      Terminated(b[6..38]), b[38], FormAt(b, 39),
      KeptForms(FormsAt(b, HEAD_SIZE, b[HEAD_SIZE - 1])),
      KeptStacks(StacksAt(b, StacksField(b) + 2, StackCount(b))))
  }

  /** `decode_inventory_sheet`. */
  function Decode(b: seq<Byte>): Option<Sheet> {
    if Decodable(b) then Some(SheetIn(b)) else None
  }

  // ---------------------------------------------------------------- the normal form

  function NormalForm(f: Form): Form { Form(f.raw, CField(f.plugin, PLUGIN_FIELD)) }

  function NormalForms(fs: seq<Form>): (r: seq<Form>) {
    seq(|fs|, i requires 0 <= i < |fs| => NormalForm(fs[i]))
  }

  function NormalStack(s: Stack): Stack { Stack(NormalForm(s.form), s.count) }

  function NormalStacks(ss: seq<Stack>): (r: seq<Stack>) {
    seq(|ss|, i requires 0 <= i < |ss| => NormalStack(ss[i]))
  }

  /** What survives a transfer: the first 32 worn and 192 stacks without the zero and
      forbidden forms, and every text cut to its field. */
  function Normal(s: Sheet): Sheet {
    Sheet(
      CField(s.name, NAME_FIELD), s.sex, NormalForm(s.race),
      KeptForms(NormalForms(Worn(s))),
      KeptStacks(NormalStacks(Stacks(s))))
  }

  // ---------------------------------------------------------------- round trip

  /** Reading looks only at the bytes of the item. */
  lemma FormAtSlice(b: seq<Byte>, at: nat, f: Form)
    requires at + FORM_SIZE <= |b| && b[at..at + FORM_SIZE] == EncForm(f)
    ensures FormAt(b, at) == NormalForm(f)
  {
    hide CField;
    var w := b[at..at + FORM_SIZE];
    assert b[at..at + 4] == w[..4] == Le32(f.raw);
    FromLe32At(b, at, f.raw);
    assert b[at + 4..at + FORM_SIZE] == w[4..] == CField(f.plugin, PLUGIN_FIELD);
  }

  lemma StackAtSlice(b: seq<Byte>, at: nat, s: Stack)
    requires at + STACK_SIZE <= |b| && b[at..at + STACK_SIZE] == EncStack(s)
    ensures StackAt(b, at) == NormalStack(s)
  {
    hide EncForm, FormAt, NormalForm;
    var w := b[at..at + STACK_SIZE];
    assert b[at..at + FORM_SIZE] == w[..FORM_SIZE] == EncForm(s.form);
    FormAtSlice(b, at, s.form);
    assert b[at + FORM_SIZE..at + STACK_SIZE] == w[FORM_SIZE..] == Le32(s.count);
    FromLe32At(b, at + FORM_SIZE, s.count);
  }

  lemma {:induction false} EncFormsSlice(fs: seq<Form>, i: nat)
    requires i < |fs|
    ensures 28 * i + FORM_SIZE <= |EncForms(fs)|
    ensures EncForms(fs)[28 * i..28 * i + FORM_SIZE] == EncForm(fs[i])
  {
    hide EncForm;
    var m := |fs| - 1;
    if i < m {
      EncFormsSlice(fs[..m], i);
      assert EncForms(fs)[..28 * m] == EncForms(fs[..m]);
    }
  }

  lemma {:induction false} EncStacksSlice(ss: seq<Stack>, i: nat)
    requires i < |ss|
    ensures 32 * i + STACK_SIZE <= |EncStacks(ss)|
    ensures EncStacks(ss)[32 * i..32 * i + STACK_SIZE] == EncStack(ss[i])
  {
    hide EncStack;
    var m := |ss| - 1;
    if i < m {
      EncStacksSlice(ss[..m], i);
      assert EncStacks(ss)[..32 * m] == EncStacks(ss[..m]);
    }
  }

  lemma FormsAtSlice(b: seq<Byte>, at: nat, fs: seq<Form>)
    requires at + 28 * |fs| <= |b| && b[at..at + 28 * |fs|] == EncForms(fs)
    ensures FormsAt(b, at, |fs|) == NormalForms(fs)
  {
    hide EncForms, EncForm, FormAt, NormalForm;
    forall i | 0 <= i < |fs|
      ensures FormAt(b, at + 28 * i) == NormalForm(fs[i])
    {
      EncFormsSlice(fs, i);
      SliceOfSlice(b, at, EncForms(fs), 28 * i, 28 * i + FORM_SIZE);
      FormAtSlice(b, at + 28 * i, fs[i]);
    }
  }

  lemma StacksAtSlice(b: seq<Byte>, at: nat, ss: seq<Stack>)
    requires at + 32 * |ss| <= |b| && b[at..at + 32 * |ss|] == EncStacks(ss)
    ensures StacksAt(b, at, |ss|) == NormalStacks(ss)
  {
    hide EncStacks, EncStack, StackAt, NormalStack;
    forall i | 0 <= i < |ss|
      ensures StackAt(b, at + 32 * i) == NormalStack(ss[i])
    {
      EncStacksSlice(ss, i);
      SliceOfSlice(b, at, EncStacks(ss), 32 * i, 32 * i + STACK_SIZE);
      StackAtSlice(b, at + 32 * i, ss[i]);
    }
  }

  lemma HeadFields(s: Sheet, b: seq<Byte>)
    requires |b| >= HEAD_SIZE && b[..HEAD_SIZE] == Head(s)
    ensures FromLe32(b, 0) == INV_MAGIC && b[HEAD_SIZE - 1] == |Worn(s)|
    ensures Terminated(b[6..38]) == CField(s.name, NAME_FIELD)
    ensures b[38] == s.sex && FormAt(b, 39) == NormalForm(s.race)
  {
    hide CField, EncForm, FormAt, NormalForm;
    var h := Head(s);
    assert b[0..4] == h[0..4] == Le32(INV_MAGIC);
    FromLe32At(b, 0, INV_MAGIC);
    assert b[6..38] == h[6..38] == CField(s.name, NAME_FIELD);
    assert b[38] == h[38] == s.sex;
    assert b[39..67] == h[39..67] == EncForm(s.race);
    FormAtSlice(b, 39, s.race);
    assert b[67] == h[67];
  }

  /** The four parts of an encoding followed by anything. */
  lemma Parts(s: Sheet, tail: seq<Byte>)
    ensures var b, n := Encode(s) + tail, HEAD_SIZE + 28 * |Worn(s)|;
            && b[..HEAD_SIZE] == Head(s)
            && b[HEAD_SIZE..n] == EncForms(Worn(s))
            && b[n..n + 2] == Le16(|Stacks(s)|)
            && b[n + 2..n + 2 + 32 * |Stacks(s)|] == EncStacks(Stacks(s))
            && |Encode(s)| == n + 2 + 32 * |Stacks(s)|
  {
    hide Head, EncForms, EncStacks, Worn, Stacks;
  }

  /** Decoding an encoded sheet gives its normal form; trailing bytes change nothing. */
  lemma RoundTrip(s: Sheet, tail: seq<Byte>)
    ensures Decode(Encode(s) + tail) == Some(Normal(s))
  {
    hide Encode, Head, EncForms, EncStacks, FormAt, FormsAt, StacksAt, NormalForm, NormalForms, NormalStacks, Worn, Stacks, CField, Terminated, KeptForms, KeptStacks;
    var b, n := Encode(s) + tail, HEAD_SIZE + 28 * |Worn(s)|;
    Parts(s, tail);
    HeadFields(s, b);
    FromLe16At(b, n, |Stacks(s)|);
    FormsAtSlice(b, HEAD_SIZE, Worn(s));
    StacksAtSlice(b, n + 2, Stacks(s));
  }

  /** A decoder reads an encoding to its very end. */
  lemma EncodingEnds(s: Sheet)
    ensures Decodable(Encode(s))
    ensures |Encode(s)| == StacksField(Encode(s)) + 2 + 32 * StackCount(Encode(s))
  {
    hide Encode, Head, EncForms, EncStacks, Worn, Stacks;
    assert Encode(s) == Encode(s) + [];
    Parts(s, []);
    HeadFields(s, Encode(s));
    FromLe16At(Encode(s), HEAD_SIZE + 28 * |Worn(s)|, |Stacks(s)|);
  }

  /** Every strict prefix of an encoding is rejected. */
  lemma PrefixRejected(s: Sheet, n: nat)
    requires n < |Encode(s)|
    ensures Decode(Encode(s)[..n]) == None
  {
    hide Encode;
    var p, rest := Encode(s)[..n], Encode(s)[n..];
    assert p + rest == Encode(s);
    EncodingEnds(s);
    if Decodable(p) {
      DecodableExtends(p, rest);
    }
  }

  /** How far a decoder reads is fixed by what it reads. */
  lemma DecodableExtends(p: seq<Byte>, x: seq<Byte>)
    requires Decodable(p)
    ensures Decodable(p + x) && StacksField(p + x) == StacksField(p) && StackCount(p + x) == StackCount(p)
  {
  }

  /** For any bytes at all: what a sheet is decoded to does not depend on what follows it. */
  lemma TrailingBytesIgnored(p: seq<Byte>, x: seq<Byte>)
    requires Decodable(p)
    ensures Decode(p + x) == Decode(p)
  {
    hide KeptForms, KeptStacks;
    DecodableExtends(p, x);
    var b := p + x;
    assert b[6..38] == p[6..38];
    FormAtExtends(p, x, 39);
    forall i | 0 <= i < p[HEAD_SIZE - 1] as int
      ensures FormAt(b, HEAD_SIZE + 28 * i) == FormAt(p, HEAD_SIZE + 28 * i)
    {
      FormAtExtends(p, x, HEAD_SIZE + 28 * i);
    }
    assert FormsAt(b, HEAD_SIZE, b[HEAD_SIZE - 1]) == FormsAt(p, HEAD_SIZE, p[HEAD_SIZE - 1]);
    var at := StacksField(p) + 2;
    forall i | 0 <= i < StackCount(p) as int
      ensures StackAt(b, at + 32 * i) == StackAt(p, at + 32 * i)
    {
      FormAtExtends(p, x, at + 32 * i);
    }
    assert StacksAt(b, at, StackCount(b)) == StacksAt(p, at, StackCount(p));
  }

  lemma FormAtExtends(p: seq<Byte>, x: seq<Byte>, at: nat)
    requires at + FORM_SIZE <= |p|
    ensures FormAt(p + x, at) == FormAt(p, at)
  {
    assert (p + x)[at + 4..at + FORM_SIZE] == p[at + 4..at + FORM_SIZE];
  }

  /** Every encoding can be split into chunks. */
  lemma EncodingSplittable(s: Sheet)
    ensures |Encode(s)| <= 7110 && Splittable(Encode(s))
  {
    hide Encode;
  }

  // ---------------------------------------------------------------- normal forms are stable

  /** Exactly the allowed items are kept. */
  lemma {:induction false} KeptFormsMembers(fs: seq<Form>, f: Form)
    ensures f in KeptForms(fs) <==> f in fs && Keep(f)
  {
    if fs != [] {
      KeptFormsMembers(fs[..|fs| - 1], f);
    }
  }

  lemma {:induction false} KeptStacksMembers(ss: seq<Stack>, s: Stack)
    ensures s in KeptStacks(ss) <==> s in ss && Keep(s.form)
  {
    if ss != [] {
      KeptStacksMembers(ss[..|ss| - 1], s);
    }
  }

  lemma {:induction false} KeptFormsStable(fs: seq<Form>)
    requires forall i :: 0 <= i < |fs| ==> Keep(fs[i])
    ensures KeptForms(fs) == fs
  {
    if fs != [] {
      var m := |fs| - 1;
      KeptFormsStable(fs[..m]);
      assert fs == fs[..m] + [fs[m]];
    }
  }

  lemma {:induction false} KeptStacksStable(ss: seq<Stack>)
    requires forall i :: 0 <= i < |ss| ==> Keep(ss[i].form)
    ensures KeptStacks(ss) == ss
  {
    if ss != [] {
      var m := |ss| - 1;
      KeptStacksStable(ss[..m]);
      assert ss == ss[..m] + [ss[m]];
    }
  }

  lemma NormalFormTwice(f: Form)
    ensures NormalForm(NormalForm(f)) == NormalForm(f)
  {
    CFieldTwice(f.plugin, PLUGIN_FIELD);
  }

  lemma NormalWorn(s: Sheet)
    ensures KeptForms(NormalForms(Worn(Normal(s)))) == Normal(s).worn
  {
    hide NormalForm, KeptForms;
    var fs := NormalForms(Worn(s));
    var kept := KeptForms(fs);
    assert Worn(Normal(s)) == kept;
    forall i | 0 <= i < |kept|
      ensures NormalForm(kept[i]) == kept[i] && Keep(kept[i])
    {
      KeptFormsMembers(fs, kept[i]);
      var j :| 0 <= j < |fs| && fs[j] == kept[i];
      NormalFormTwice(Worn(s)[j]);
    }
    assert NormalForms(kept) == kept;
    KeptFormsStable(kept);
  }

  lemma NormalStackList(s: Sheet)
    ensures KeptStacks(NormalStacks(Stacks(Normal(s)))) == Normal(s).stacks
  {
    hide NormalForm, KeptStacks;
    var ss := NormalStacks(Stacks(s));
    var kept := KeptStacks(ss);
    assert Stacks(Normal(s)) == kept;
    forall i | 0 <= i < |kept|
      ensures NormalStack(kept[i]) == kept[i] && Keep(kept[i].form)
    {
      KeptStacksMembers(ss, kept[i]);
      var j :| 0 <= j < |ss| && ss[j] == kept[i];
      NormalFormTwice(Stacks(s)[j].form);
    }
    assert NormalStacks(kept) == kept;
    KeptStacksStable(kept);
  }

  /** A sheet that has been through the codec once passes it unchanged ever after. */
  lemma SecondTripExact(s: Sheet)
    ensures Decode(Encode(Normal(s))) == Some(Normal(s))
  {
    hide Encode, Decode;
    var n := Normal(s);
    assert Encode(n) + [] == Encode(n);
    RoundTrip(n, []);
    NormalTwice(s);
  }

  lemma NormalTwice(s: Sheet)
    ensures Normal(Normal(s)) == Normal(s)
  {
    hide CField, NormalForm, NormalForms, KeptForms, NormalStacks, KeptStacks;
    CFieldTwice(s.name, NAME_FIELD);
    NormalFormTwice(s.race);
    NormalWorn(s);
    NormalStackList(s);
  }

  // ---------------------------------------------------------------- the writer

  class BlobWriter {
    var bytes: seq<Byte>

    constructor ()
      ensures bytes == []
    {
      bytes := [];
    }

    method Raw(data: seq<Byte>)
      modifies this
      ensures bytes == old(bytes) + data
    {
      bytes := bytes + data;
    }

    method Plugin(name: seq<Byte>)
      modifies this
      ensures bytes == old(bytes) + CField(name, PLUGIN_FIELD)
    {
      var n := Min(StrLen(name), PLUGIN_FIELD - 1);
      Raw(name[..n] + Zeros(PLUGIN_FIELD - n));
    }

    method WriteForm(form: Form)
      modifies this
      ensures bytes == old(bytes) + EncForm(form)
    {
      Raw(Le32(form.raw));
      Plugin(form.plugin);
    }

    /** Everything up to and including the number of worn items. */
    method WriteHead(sheet: Sheet)
      modifies this
      ensures bytes == old(bytes) + Head(sheet)
    {
      hide EncForm, CField;
      Raw(Le32(INV_MAGIC));
      Raw(Le16(INV_VERSION));
      Raw(CField(sheet.name, NAME_FIELD));
      Raw([sheet.sex]);
      WriteForm(sheet.race);
      var nWorn := if |sheet.worn| < MAX_WORN then |sheet.worn| else MAX_WORN;
      Raw([nWorn]);
    }
  }

  lemma EncFormsNext(fs: seq<Form>, i: nat)
    requires i < |fs|
    ensures EncForms(fs[..i + 1]) == EncForms(fs[..i]) + EncForm(fs[i])
  {
    assert fs[..i + 1][..i] == fs[..i];
  }

  lemma EncStacksNext(ss: seq<Stack>, i: nat)
    requires i < |ss|
    ensures EncStacks(ss[..i + 1]) == EncStacks(ss[..i]) + EncForm(ss[i].form) + Le32(ss[i].count)
  {
    assert ss[..i + 1][..i] == ss[..i];
  }

  method EncodeInventorySheet(sheet: Sheet) returns (out: seq<Byte>)
    ensures out == Encode(sheet)
  {
    hide EncForm, Head, EncForms, EncStacks;
    assert EncForms([]) == [] && EncStacks([]) == [];
    var w := new BlobWriter();
    w.WriteHead(sheet);
    var nWorn := if |sheet.worn| < MAX_WORN then |sheet.worn| else MAX_WORN;
    ghost var head := w.bytes;
    for i := 0 to nWorn
      invariant w.bytes == head + EncForms(sheet.worn[..i])
    {
      EncFormsNext(sheet.worn, i);
      w.WriteForm(sheet.worn[i]);
    }
    var nStacks := if |sheet.stacks| < MAX_STACKS then |sheet.stacks| else MAX_STACKS;
    w.Raw(Le16(nStacks));
    head := w.bytes;
    for i := 0 to nStacks
      invariant w.bytes == head + EncStacks(sheet.stacks[..i])
    {
      EncStacksNext(sheet.stacks, i);
      w.WriteForm(sheet.stacks[i].form);
      w.Raw(Le32(sheet.stacks[i].count));
    }
    out := w.bytes;
  }

  lemma KeptFormsNext(b: seq<Byte>, at: nat, i: nat)
    requires at + 28 * (i + 1) <= |b|
    ensures var next := FormAt(b, at + 28 * i);
            KeptForms(FormsAt(b, at, i + 1)) ==
            KeptForms(FormsAt(b, at, i)) + if Keep(next) then [next] else []
  {
    hide FormAt;
    assert FormsAt(b, at, i + 1)[..i] == FormsAt(b, at, i);
  }

  lemma KeptStacksNext(b: seq<Byte>, at: nat, i: nat)
    requires at + 32 * (i + 1) <= |b|
    ensures var next := StackAt(b, at + 32 * i);
            KeptStacks(StacksAt(b, at, i + 1)) ==
            KeptStacks(StacksAt(b, at, i)) + if Keep(next.form) then [next] else []
  {
    hide StackAt;
    assert StacksAt(b, at, i + 1)[..i] == StacksAt(b, at, i);
  }

  // ---------------------------------------------------------------- the reader

  class BlobReader {
    const data: seq<Byte>
    var p: nat

    constructor (data: seq<Byte>)
      ensures this.data == data && p == 0
    {
      this.data := data;
      p := 0;
    }

    /** Every reader either takes its `n` bytes or fails and takes none. */
    ghost predicate Took(was: nat, n: nat, ok: bool)
      reads this
    {
      && (ok <==> was + n <= |data|)
      && p == if ok then was + n else was
    }

    method Raw(n: nat) returns (ok: bool, out: seq<Byte>)
      requires p <= |data|
      modifies this
      ensures Took(old(p), n, ok)
      ensures ok ==> out == data[old(p)..old(p) + n]
    {
      ok, out := |data| - p >= n, [];
      if ok {
        out := data[p..p + n];
        p := p + n;
      }
    }

    method U16() returns (ok: bool, v: Word16)
      requires p <= |data|
      modifies this
      ensures Took(old(p), 2, ok)
      ensures ok ==> v == FromLe16(data, old(p))
    {
      var out;
      ok, out := Raw(2);
      v := if ok then FromLe16(out, 0) else 0;
    }

    method U32() returns (ok: bool, v: Word32)
      requires p <= |data|
      modifies this
      ensures Took(old(p), 4, ok)
      ensures ok ==> v == FromLe32(data, old(p))
    {
      var out;
      ok, out := Raw(4);
      v := if ok then FromLe32(out, 0) else 0;
    }

    method ReadForm() returns (ok: bool, form: Form)
      requires p <= |data|
      modifies this
      ensures ok <==> old(p) + FORM_SIZE <= |data|
      ensures ok ==> p == old(p) + FORM_SIZE && form == FormAt(data, old(p))
      ensures p <= |data|
    {
      form := Form(0, []);
      var raw, plugin;
      ok, raw := U32();
      if !ok {
        return;
      }
      ok, plugin := Raw(PLUGIN_FIELD);
      if !ok {
        return;
      }
      form := Form(raw, plugin[PLUGIN_FIELD - 1 := 0]);
    }

    /** The loop over worn items: zero and forbidden forms are skipped. */
    method ReadWorn(n: nat) returns (ok: bool, worn: seq<Form>)
      requires p <= |data|
      modifies this
      ensures ok <==> old(p) + 28 * n <= |data|
      ensures ok ==> p == old(p) + 28 * n && worn == KeptForms(FormsAt(data, old(p), n))
      ensures p <= |data|
    {
      assert KeptForms(FormsAt(data, p, 0)) == [];
      hide FormAt, FormsAt, KeptForms;
      worn := [];
      ok := true;
      for i := 0 to n
        invariant p == old(p) + 28 * i <= |data|
        invariant worn == KeptForms(FormsAt(data, old(p), i))
      {
        var form;
        ok, form := ReadForm();
        if !ok {
          return;
        }
        KeptFormsNext(data, old(p), i);
        if form.raw == 0 || Forbidden(form.raw) {
          continue;
        }
        worn := worn + [form];
      }
      ok := true;
    }

    method ReadStack() returns (ok: bool, stack: Stack)
      requires p <= |data|
      modifies this
      ensures ok <==> old(p) + STACK_SIZE <= |data|
      ensures ok ==> p == old(p) + STACK_SIZE && stack == StackAt(data, old(p))
      ensures p <= |data|
    {
      hide FormAt;
      stack := Stack(Form(0, []), 0);
      var form, count;
      ok, form := ReadForm();
      if !ok {
        return;
      }
      ok, count := U32();
      if !ok {
        return;
      }
      stack := Stack(form, count);
    }

    /** The loop over stacks. */
    method ReadStacks(n: nat) returns (ok: bool, stacks: seq<Stack>)
      requires p <= |data|
      modifies this
      ensures ok <==> old(p) + 32 * n <= |data|
      ensures ok ==> stacks == KeptStacks(StacksAt(data, old(p), n))
      ensures p <= |data|
    {
      assert KeptStacks(StacksAt(data, p, 0)) == [];
      hide StackAt, StacksAt, KeptStacks;
      stacks := [];
      ok := true;
      for i := 0 to n
        invariant p == old(p) + 32 * i <= |data|
        invariant stacks == KeptStacks(StacksAt(data, old(p), i))
      {
        var stack;
        ok, stack := ReadStack();
        if !ok {
          return;
        }
        KeptStacksNext(data, old(p), i);
        if stack.form.raw == 0 || Forbidden(stack.form.raw) {
          continue;
        }
        stacks := stacks + [stack];
      }
      ok := true;
    }
  }

  method DecodeInventorySheet(b: seq<Byte>) returns (r: Option<Sheet>)
    ensures r == Decode(b)
  {
    hide FormAt, FormsAt, StacksAt, KeptForms, KeptStacks;
    r := None;
    if |b| < 8 {
      return;
    }
    var reader := new BlobReader(b);
    var ok, magic, version, name, sex, race, n, worn, stacks;
    ok, magic := reader.U32();
    if !ok || magic != INV_MAGIC {
      return;
    }
    ok, version := reader.U16();
    if !ok {
      return;
    }
    ok, name := reader.Raw(NAME_FIELD);
    if !ok {
      return;
    }
    ok, sex := reader.Raw(1);
    if !ok {
      return;
    }
    ok, race := reader.ReadForm();
    if !ok {
      return;
    }
    ok, n := reader.Raw(1);
    if !ok || n[0] > MAX_WORN {
      return;
    }
    ok, worn := reader.ReadWorn(n[0]);
    if !ok {
      return;
    }
    var count;
    ok, count := reader.U16();
    if !ok || count > MAX_STACKS {
      return;
    }
    ok, stacks := reader.ReadStacks(count);
    if !ok {
      return;
    }
    r := Some(Sheet(Terminated(name), sex[0], race, worn, stacks));
  }
}
