/** What of the copied actor the rewritten record keeps, and that it keeps nothing else. */
module EspKept {
  import opened Bytes
  import opened Blobs
  import opened Subrecords
  import opened Esp
  import opened EspFile

  // ---------------------------------------------------------------- which kinds

  /** The kinds that are carried over from the source: body, voice, race, inventory and outfit. */
  predicate Carried(kind: string) {
    || kind == "OBND" || kind == "ACBS" || kind == "SNAM" || kind == "VTCK" || kind == "RNAM" || kind == "AIDT" || kind == "CNAM"
    || kind == "DATA" || kind == "DNAM" || kind == "HCLF" || kind == "NAM5" || kind == "NAM6" || kind == "NAM4" || kind == "MWGT"
    || kind == "NAM8" || kind == "DOFT" || kind == "SOFT" || kind == "FTST"
  }

  lemma NotDropped(kind: string)
    requires Carried(kind) || kind == "EDID" || kind == "FULL"
    ensures !("FM" <= kind) && kind !in DROP_SUBS
  {
    assert kind[1] != 'M';
    Distinct(kind);
  }

  lemma Distinct(kind: string)
    requires |kind| == 4 && (kind[0] == 'M' ==> kind[1] == 'W') && kind[0] != 'T' && kind[0] != 'Q' && kind[0] != 'P'
    requires kind[0] == 'C' ==> kind[2] == 'A'
    ensures kind !in DROP_SUBS
  {
  }

  lemma KeptIff(kind: string)
    ensures Kept(kind) <==> Carried(kind) || kind == "EDID" || kind == "FULL"
  {
    if Carried(kind) || kind == "EDID" || kind == "FULL" { NotDropped(kind); }
  }

  // ---------------------------------------------------------------- what becomes of a subrecord

  /** The actor base data with exactly the unique, chargen, template and level bits cleared and
      the template mask at 14 and 15 zeroed; every other byte is the source's. */
  ghost predicate PlainOf(p: seq<Byte>, q: seq<Byte>) {
    && |p| >= 4 && |q| == |p|
    && (forall j: nat :: HasBit(FromLe32(q, 0), j) <==> HasBit(FromLe32(p, 0), j) && j !in {2, 5, 7, 8})
    && forall i :: 4 <= i < |p| ==> q[i] == if |p| >= 16 && (i == 14 || i == 15) then 0 else p[i]
  }

  lemma AcbsIsPlain(p: seq<Byte>)
    requires |p| >= 4
    ensures PlainOf(p, PlainAcbs(p))
  {
    hide HasBit, PlainActor;
    var q, n := PlainAcbs(p), PlainActor(FromLe32(p, 0));
    assert q[0..4] == Le32(n);
    FromLe32At(q, 0, n);
    forall j: nat ensures HasBit(n, j) <==> HasBit(FromLe32(p, 0), j) && j !in {2, 5, 7, 8} {
      PlainActorBits(FromLe32(p, 0), j);
    }
  }

  /** What a bit is: the flags 4, 0x20, 0x80, 0x100 and 0x40000 of a word. */
  lemma BitIs(n: nat)
    ensures HasBit(n, 2) <==> n / 4 % 2 == 1
    ensures HasBit(n, 5) <==> n / 0x20 % 2 == 1
    ensures HasBit(n, 7) <==> n / 0x80 % 2 == 1
    ensures HasBit(n, 8) <==> n / 0x100 % 2 == 1
    ensures HasBit(n, 18) <==> n / 0x40000 % 2 == 1
  {
    hide HasBit;
    BitAt(n, 2);
    BitAt(n, 5);
    BitAt(n, 7);
    BitAt(n, 8);
    BitAt(n, 18);
    PowersHere();
  }

  function Power2(i: nat): (r: nat)
    ensures r > 0
  {
    if i == 0 then 1 else 2 * Power2(i - 1)
  }

  lemma PowersHere()
    ensures Power2(2) == 4 && Power2(5) == 0x20 && Power2(7) == 0x80 && Power2(8) == 0x100 && Power2(18) == 0x40000
  {
    assert Power2(4) == 0x10 && Power2(10) == 0x400 && Power2(14) == 0x4000;
  }

  lemma {:induction false} BitAt(n: nat, i: nat)
    ensures HasBit(n, i) <==> n / Power2(i) % 2 == 1
    decreases i
  {
    if i > 0 {
      BitAt(n / 2, i - 1);
      HalfThen(n, Power2(i - 1));
    }
  }

  lemma HalfThen(n: nat, d: nat)
    requires d > 0
    ensures n / 2 / d == n / (2 * d)
  {
    var q, r := n / (2 * d), n % (2 * d);
    assert n == (2 * d) * q + r;
    assert n / 2 == d * q + r / 2;
    assert 0 <= r / 2 < d;
    DivUnique(n / 2, d, q, r / 2);
  }

  lemma DivUnique(m: nat, d: nat, q: nat, r: nat)
    requires d > 0 && m == d * q + r && r < d
    ensures m / d == q
  {
    var e := m / d - q;
    assert m == d * (m / d) + m % d;
    assert d * e == r - m % d;
    var k := if e < 0 then -e else e;
    if k >= 1 { Larger(d, k); }
  }

  lemma Larger(d: nat, e: nat)
    requires e >= 1
    ensures d * e >= d
  {
    assert d * e == d + d * (e - 1);
  }

  ghost predicate Becomes(a: Sub, b: Sub) {
    && b.kind == a.kind
    && if a.kind == "EDID" then b.payload == AsciiBytes("CMP_RemotePlayer") + [0]
       else if a.kind == "FULL" then b.payload == AsciiBytes("CMP Remote") + [0]
       else if a.kind == "ACBS" && |a.payload| >= 4 then PlainOf(a.payload, b.payload)
       else b.payload == a.payload
  }

  lemma SubBecomes(s: Sub)
    ensures Becomes(s, RewriteSub(s))
  {
    hide PlainAcbs, PlainOf;
    if s.kind == "ACBS" && |s.payload| >= 4 { AcbsIsPlain(s.payload); }
  }

  ghost predicate Match(a: seq<Sub>, b: seq<Sub>) {
    |a| == |b| && forall i :: 0 <= i < |a| ==> Becomes(a[i], b[i])
  }

  // ---------------------------------------------------------------- the carried subrecords, in order

  function CarriedOf(subs: seq<Sub>): seq<Sub> {
    if subs == [] then []
    else
      var last := subs[|subs| - 1];
      CarriedOf(subs[..|subs| - 1]) + if Carried(last.kind) then [last] else []
  }

  lemma {:induction false} CarriedConcat(xs: seq<Sub>, ys: seq<Sub>)
    ensures CarriedOf(xs + ys) == CarriedOf(xs) + CarriedOf(ys)
    decreases |ys|
  {
    hide Carried;
    if ys == [] {
      assert xs + ys == xs;
    } else {
      assert (xs + ys)[..|xs| + |ys| - 1] == xs + ys[..|ys| - 1];
      CarriedConcat(xs, ys[..|ys| - 1]);
    }
  }

  lemma CarriedOne(s: Sub)
    ensures CarriedOf([s]) == if Carried(s.kind) then [s] else []
  {
    hide Carried;
    assert [s][..0] == [];
  }

  lemma CarriedInsert(xs: seq<Sub>, i: nat, s: Sub)
    requires !Carried(s.kind)
    ensures CarriedOf(InsertAt(xs, i, s)) == CarriedOf(xs)
  {
    hide CarriedOf, Carried;
    var j := if i <= |xs| then i else |xs|;
    assert InsertAt(xs, i, s) == (xs[..j] + [s]) + xs[j..];
    CarriedConcat(xs[..j] + [s], xs[j..]);
    CarriedConcat(xs[..j], [s]);
    CarriedOne(s);
    CarriedConcat(xs[..j], xs[j..]);
    assert xs[..j] + xs[j..] == xs;
  }

  lemma StockKinds()
    ensures !Carried("EDID") && !Carried("FULL") && Carried("RNAM")
    ensures EdidSub().kind == "EDID" && FullSub().kind == "FULL" && RaceSub().kind == "RNAM"
  {
    assert "EDID"[0] == 'E' && "FULL"[0] == 'F' && "FULL"[1] == 'U';
  }

  lemma StockRace()
    ensures RaceSub() == Sub("RNAM", [0x46, 0x37, 1, 0])
  {
  }

  lemma {:induction false} CopiedMatch(subs: seq<Sub>)
    ensures Match(CarriedOf(subs), CarriedOf(Copied(subs)))
  {
    hide Kept, RewriteSub, Becomes, Carried;
    if subs != [] {
      var n := |subs| - 1;
      var s := subs[n];
      CopiedMatch(subs[..n]);
      KeptIff(s.kind);
      SubBecomes(s);
      assert RewriteSub(s).kind == s.kind by { KindStays(s); }
      CarriedConcat(Copied(subs[..n]), if Kept(s.kind) then [RewriteSub(s)] else []);
      CarriedOne(RewriteSub(s));
      assert CarriedOf([]) == [];
    }
  }

  lemma KindStays(s: Sub)
    ensures RewriteSub(s).kind == s.kind
  {
    hide PlainAcbs;
  }

  lemma CompletedCarried(out: seq<Sub>)
    ensures CarriedOf(Completed(out)) == CarriedOf(out) + if HasSub(out, "RNAM") then [] else [Sub("RNAM", [0x46, 0x37, 1, 0])]
  {
    hide CarriedOf, HasSub, InsertAt, EdidSub, FullSub, RaceSub, Carried;
    StockKinds();
    StockRace();
    var a := if HasSub(out, "EDID") then out else InsertAt(out, 0, EdidSub());
    var b := if HasSub(a, "FULL") then a else InsertAt(a, 1, FullSub());
    CarriedInsert(out, 0, EdidSub());
    CarriedInsert(a, 1, FullSub());
    SameRaces(out);
    CarriedConcat(b, [RaceSub()]);
    CarriedOne(RaceSub());
  }

  lemma SameRaces(out: seq<Sub>)
    ensures var a := if HasSub(out, "EDID") then out else InsertAt(out, 0, EdidSub());
            var b := if HasSub(a, "FULL") then a else InsertAt(a, 1, FullSub());
            HasSub(b, "RNAM") == HasSub(out, "RNAM")
  {
    hide OfKind, HasSub, InsertAt;
    var a := if HasSub(out, "EDID") then out else InsertAt(out, 0, EdidSub());
    var b := if HasSub(a, "FULL") then a else InsertAt(a, 1, FullSub());
    OfKindInsert(out, 0, EdidSub(), "RNAM");
    OfKindInsert(a, 1, FullSub(), "RNAM");
    HasSubIff(out, "RNAM");
    HasSubIff(b, "RNAM");
  }

  /** Everything that is to be carried over comes through, in the source's order and as the
      source has it, but for the cleared actor flags; a race is added at the end if there is
      none. */
  lemma RewrittenCarries(subs: seq<Sub>)
    ensures var src, out := CarriedOf(subs), CarriedOf(Rewritten(subs));
            if HasSub(subs, "RNAM") then Match(src, out)
            else |out| == |src| + 1 && Match(src, out[..|src|]) && out[|src|] == Sub("RNAM", [0x46, 0x37, 1, 0])
  {
    hide CarriedOf, HasSub, Copied, Completed, Becomes, OfKind;
    CopiedMatch(subs);
    CompletedCarried(Copied(subs));
    CopiedRaces(subs);
    HasSubIff(subs, "RNAM");
    HasSubIff(Copied(subs), "RNAM");
  }

  // ---------------------------------------------------------------- kind by kind

  lemma CopiedOne(s: Sub, kind: string)
    requires Carried(kind) && kind != "ACBS"
    ensures OfKind(if Kept(s.kind) then [RewriteSub(s)] else [], kind) == if s.kind == kind then [s] else []
  {
    hide Kept, PlainAcbs, Carried;
    KeptIff(kind);
    StockKinds();
    OfKindOne(RewriteSub(s), kind);
  }

  lemma {:induction false} CopiedOfKind(subs: seq<Sub>, kind: string)
    requires Carried(kind) && kind != "ACBS"
    ensures OfKind(Copied(subs), kind) == OfKind(subs, kind)
  {
    hide Kept, RewriteSub, Carried;
    if subs != [] {
      var n := |subs| - 1;
      CopiedOfKind(subs[..n], kind);
      var more := if Kept(subs[n].kind) then [RewriteSub(subs[n])] else [];
      OfKindConcat(Copied(subs[..n]), more, kind);
      CopiedOne(subs[n], kind);
    }
  }

  /** Kind by kind: the source's own subrecords, every one of them. */
  lemma RewrittenOfKind(subs: seq<Sub>, kind: string)
    requires Carried(kind) && kind != "ACBS"
    ensures OfKind(Rewritten(subs), kind)
            == if kind == "RNAM" && !HasSub(subs, "RNAM") then [Sub("RNAM", [0x46, 0x37, 1, 0])] else OfKind(subs, kind)
  {
    hide OfKind, HasSub, InsertAt, EdidSub, FullSub, RaceSub, Carried, Copied;
    StockKinds();
    StockRace();
    CopiedOfKind(subs, kind);
    var out := Copied(subs);
    var a := if HasSub(out, "EDID") then out else InsertAt(out, 0, EdidSub());
    var b := if HasSub(a, "FULL") then a else InsertAt(a, 1, FullSub());
    OfKindInsert(out, 0, EdidSub(), kind);
    OfKindInsert(a, 1, FullSub(), kind);
    SameRaces(out);
    HasSubIff(out, "RNAM");
    HasSubIff(subs, "RNAM");
    CopiedOfKind(subs, "RNAM");
    OfKindConcat(b, [RaceSub()], kind);
    OfKindOne(RaceSub(), kind);
  }

  // ---------------------------------------------------------------- the names, and nothing else

  ghost predicate AllOf(subs: seq<Sub>, s: Sub) { forall i :: 0 <= i < |subs| ==> subs[i] == s }

  lemma {:induction false} CopiedNames(subs: seq<Sub>, name: Sub)
    requires name == EdidSub() || name == FullSub()
    ensures |OfKind(Copied(subs), name.kind)| == |OfKind(subs, name.kind)| && AllOf(OfKind(Copied(subs), name.kind), name)
  {
    hide Kept, RewriteSub, EdidSub, FullSub;
    if subs != [] {
      var n := |subs| - 1;
      CopiedNames(subs[..n], name);
      var more := if Kept(subs[n].kind) then [RewriteSub(subs[n])] else [];
      OfKindConcat(Copied(subs[..n]), more, name.kind);
      CopiedName(subs[n], name);
    }
  }

  lemma CopiedName(s: Sub, name: Sub)
    requires name == EdidSub() || name == FullSub()
    ensures OfKind(if Kept(s.kind) then [RewriteSub(s)] else [], name.kind) == if s.kind == name.kind then [name] else []
  {
    hide Kept, PlainAcbs;
    KeptIff(s.kind);
    OfKindOne(RewriteSub(s), name.kind);
  }

  lemma InsertOneOfKind(xs: seq<Sub>, i: nat, s: Sub)
    requires OfKind(xs, s.kind) == []
    ensures OfKind(InsertAt(xs, i, s), s.kind) == [s]
  {
    hide OfKind;
    var j := if i <= |xs| then i else |xs|;
    assert InsertAt(xs, i, s) == (xs[..j] + [s]) + xs[j..];
    OfKindConcat(xs[..j] + [s], xs[j..], s.kind);
    OfKindConcat(xs[..j], [s], s.kind);
    OfKindOne(s, s.kind);
    OfKindConcat(xs[..j], xs[j..], s.kind);
    assert xs[..j] + xs[j..] == xs;
  }

  /** Editor id and name: as many as the source has but at least one, each of them ours. */
  lemma RewrittenNames(subs: seq<Sub>, name: Sub)
    requires name == Sub("EDID", AsciiBytes("CMP_RemotePlayer") + [0]) || name == Sub("FULL", AsciiBytes("CMP Remote") + [0])
    ensures var had, names := OfKind(subs, name.kind), OfKind(Rewritten(subs), name.kind);
            |names| == (if had == [] then 1 else |had|) && AllOf(names, name)
  {
    hide Rewritten, AllOf;
    if name.kind == "EDID" {
      EdidNames(subs);
    } else {
      FullNames(subs);
    }
  }

  lemma NameOnce(xs: seq<Sub>, i: nat, name: Sub)
    ensures OfKind(if HasSub(xs, name.kind) then xs else InsertAt(xs, i, name), name.kind)
         == if OfKind(xs, name.kind) == [] then [name] else OfKind(xs, name.kind)
  {
    hide OfKind, HasSub, InsertAt;
    HasSubIff(xs, name.kind);
    if OfKind(xs, name.kind) == [] { InsertOneOfKind(xs, i, name); }
  }

  /** A race at the end changes nothing about another kind. */
  lemma RaceApart(xs: seq<Sub>, kind: string)
    requires kind != "RNAM"
    ensures OfKind(if HasSub(xs, "RNAM") then xs else xs + [RaceSub()], kind) == OfKind(xs, kind)
  {
    hide OfKind, HasSub, RaceSub;
    StockKinds();
    OfKindConcat(xs, [RaceSub()], kind);
    OfKindOne(RaceSub(), kind);
  }

  lemma EdidNames(subs: seq<Sub>)
    ensures var had, names := OfKind(subs, "EDID"), OfKind(Rewritten(subs), "EDID");
            |names| == (if had == [] then 1 else |had|) && AllOf(names, EdidSub())
  {
    hide OfKind, HasSub, InsertAt, EdidSub, FullSub, RaceSub, Copied;
    StockKinds();
    var out := Copied(subs);
    var a := if HasSub(out, "EDID") then out else InsertAt(out, 0, EdidSub());
    var b := if HasSub(a, "FULL") then a else InsertAt(a, 1, FullSub());
    CopiedNames(subs, EdidSub());
    NameOnce(out, 0, EdidSub());
    OfKindInsert(a, 1, FullSub(), "EDID");
    RaceApart(b, "EDID");
  }

  lemma FullNames(subs: seq<Sub>)
    ensures var had, names := OfKind(subs, "FULL"), OfKind(Rewritten(subs), "FULL");
            |names| == (if had == [] then 1 else |had|) && AllOf(names, FullSub())
  {
    hide OfKind, HasSub, InsertAt, EdidSub, FullSub, RaceSub, Copied;
    StockKinds();
    var out := Copied(subs);
    var a := if HasSub(out, "EDID") then out else InsertAt(out, 0, EdidSub());
    var b := if HasSub(a, "FULL") then a else InsertAt(a, 1, FullSub());
    CopiedNames(subs, FullSub());
    OfKindInsert(out, 0, EdidSub(), "FULL");
    NameOnce(a, 1, FullSub());
    RaceApart(b, "FULL");
  }

  ghost predicate Expected(s: Sub) { Carried(s.kind) || s.kind == "EDID" || s.kind == "FULL" }

  ghost predicate AllExpected(subs: seq<Sub>) { forall i :: 0 <= i < |subs| ==> Expected(subs[i]) }

  lemma {:induction false} CopiedExpected(subs: seq<Sub>)
    ensures AllExpected(Copied(subs))
  {
    hide Kept, RewriteSub, Carried;
    if subs != [] {
      var n := |subs| - 1;
      CopiedExpected(subs[..n]);
      KeptIff(subs[n].kind);
      KindStays(subs[n]);
    }
  }

  /** Nothing else comes through: no face morph, tint, perk, property, keyword or script. */
  lemma RewrittenOnly(subs: seq<Sub>)
    ensures AllExpected(Rewritten(subs))
    ensures forall i :: 0 <= i < |Rewritten(subs)| ==>
              var kind := Rewritten(subs)[i].kind;
              && !("FM" <= kind)
              && kind !in {"MSDK", "MSDV", "MRSV", "TETI", "TEND", "QNAM", "PRPS", "COCT", "CNTO", "PKID"}
  {
    hide HasSub, EdidSub, FullSub, RaceSub, Carried, Copied;
    StockKinds();
    CopiedExpected(subs);
    CompletedExpected(Copied(subs));
    forall i | 0 <= i < |Rewritten(subs)|
      ensures !("FM" <= Rewritten(subs)[i].kind) && Rewritten(subs)[i].kind !in DROP_SUBS
    {
      assert Expected(Rewritten(subs)[i]);
      NotDropped(Rewritten(subs)[i].kind);
    }
  }

  lemma CompletedExpected(out: seq<Sub>)
    requires AllExpected(out)
    ensures AllExpected(Completed(out))
  {
    hide Expected, HasSub, EdidSub, FullSub, RaceSub;
    assert Expected(EdidSub()) && Expected(FullSub()) && Expected(RaceSub()) by { StockExpected(); }
  }

  lemma StockExpected()
    ensures Expected(EdidSub()) && Expected(FullSub()) && Expected(RaceSub())
  {
    hide Carried;
    StockKinds();
  }

  // ---------------------------------------------------------------- the whole record

  /** The subrecords of the source that are kept in some form, in order. */
  function ExpectedOf(subs: seq<Sub>): seq<Sub> {
    if subs == [] then []
    else
      var last := subs[|subs| - 1];
      ExpectedOf(subs[..|subs| - 1]) + if Carried(last.kind) || last.kind == "EDID" || last.kind == "FULL" then [last] else []
  }

  lemma {:induction false} CopiedWhole(subs: seq<Sub>)
    ensures Match(ExpectedOf(subs), Copied(subs))
  {
    hide Kept, RewriteSub, Becomes, Carried;
    if subs != [] {
      var n := |subs| - 1;
      CopiedWhole(subs[..n]);
      KeptIff(subs[n].kind);
      SubBecomes(subs[n]);
    }
  }

  lemma {:induction false} ExpectedHas(subs: seq<Sub>, kind: string)
    requires Carried(kind) || kind == "EDID" || kind == "FULL"
    ensures HasSub(Copied(subs), kind) <==> HasSub(subs, kind)
  {
    hide Kept, RewriteSub, HasSub, Carried;
    if subs != [] {
      var n := |subs| - 1;
      ExpectedHas(subs[..n], kind);
      HasSubSnoc(subs, kind);
      KeptIff(subs[n].kind);
      KindStays(subs[n]);
      if Kept(subs[n].kind) {
        assert Copied(subs)[..|Copied(subs)| - 1] == Copied(subs[..n]);
        HasSubSnoc(Copied(subs), kind);
      } else {
        assert Copied(subs) == Copied(subs[..n]);
      }
    } else {
      NothingHas(kind);
    }
  }

  lemma NothingHas(kind: string)
    ensures !HasSub([], kind)
  {
  }

  /** The rewritten record as a whole: what is kept of the source in its order, an editor id in
      front, a name in second place and a race at the end wherever the source has none. */
  lemma RewrittenIs(subs: seq<Sub>) returns (kept: seq<Sub>)
    ensures Match(ExpectedOf(subs), kept)
    ensures var a := if HasSub(subs, "EDID") then kept else [Sub("EDID", AsciiBytes("CMP_RemotePlayer") + [0])] + kept;
            |a| > 0 && Rewritten(subs)
            == (if HasSub(subs, "FULL") then a else [a[0]] + [Sub("FULL", AsciiBytes("CMP Remote") + [0])] + a[1..])
               + (if HasSub(subs, "RNAM") then [] else [Sub("RNAM", [0x46, 0x37, 1, 0])])
  {
    hide HasSub, Copied, EdidSub, FullSub, RaceSub, Becomes, Carried, OfKind;
    kept := Copied(subs);
    CopiedWhole(subs);
    StockKinds();
    StockRace();
    StockNames();
    ExpectedHas(subs, "EDID");
    ExpectedHas(subs, "FULL");
    ExpectedHas(subs, "RNAM");
    var a := if HasSub(kept, "EDID") then kept else InsertAt(kept, 0, EdidSub());
    var b := if HasSub(a, "FULL") then a else InsertAt(a, 1, FullSub());
    HasSubIff(kept, "FULL");
    HasSubIff(a, "FULL");
    OfKindInsert(kept, 0, EdidSub(), "FULL");
    SameRaces(kept);
    InsertHas(kept, 0, EdidSub());
    HasNonempty(a);
    assert a[..1] == [a[0]];
    FrontInsert(kept, EdidSub());
  }

  lemma FrontInsert(xs: seq<Sub>, s: Sub)
    ensures InsertAt(xs, 0, s) == [s] + xs
  {
    assert xs[..0] + [s] + xs[0..] == [s] + xs;
  }

  lemma StockNames()
    ensures EdidSub() == Sub("EDID", AsciiBytes("CMP_RemotePlayer") + [0]) && FullSub() == Sub("FULL", AsciiBytes("CMP Remote") + [0])
  {
  }

  lemma HasNonempty(a: seq<Sub>)
    ensures HasSub(a, "EDID") ==> |a| > 0
  {
  }
}
