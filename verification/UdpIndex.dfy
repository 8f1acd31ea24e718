/** The UDP address index: sound in every reachable state, complete when nobody binds an
    address another client holds. */
module UdpIndex {
  import opened Bytes
  import opened Blobs
  import opened RateLimit
  import opened Types
  import opened Session
  import opened SessionInv
  import opened Ownership
  import opened SessionFacts
  import opened Admission
  import opened Joining

  type Bindings = map<PeerId, Addr>
  type Index = map<Addr, PeerId>

  /** Which client is bound to which address. */
  ghost function Bound(clients: map<PeerId, Client>): Bindings {
    map p | p in clients && clients[p].udpBound :: clients[p].udpAddr
  }

  datatype Rebinding = Kept | Dropped(p: PeerId) | Taken(p: PeerId, a: Addr)

  function Forget(b: Bindings, ix: Index, p: PeerId): Index {
    if p in b then ix - {b[p]} else ix
  }

  /** The three ways a step can change bindings and index. */
  ghost predicate Rebound(b: Bindings, ix: Index, b': Bindings, ix': Index, r: Rebinding) {
    match r
    case Kept => b' == b && ix' == ix
    case Dropped(p) => b' == b - {p} && ix' == Forget(b, ix, p)
    case Taken(p, a) => b' == b[p := a] && ix' == Forget(b, ix, p)[a := p]
  }

  ghost predicate Moves(s: State, s': State, r: Rebinding) {
    Rebound(Bound(s.clients), s.udpIndex, Bound(s'.clients), s'.udpIndex, r)
  }

  /** A UdpBind from `a` that carries the current token of client `p`. */
  ghost predicate ValidBind(s: State, e: Event, p: PeerId, a: Addr) {
    && e.Net? && e.ev.UdpDatagram? && e.ev.addr == a
    && e.ev.msg.InUdpBind? && e.ev.msg.peer == p
    && p in s.clients && s.clients[p].udpToken != 0 && e.ev.msg.token == s.clients[p].udpToken
  }

  ghost function MoveOf(s: State, step: Step): Rebinding
    requires AsmOk(s.appearAsm) && AsmOk(s.invAsm)
  {
    match step.event
    case Net(UdpDatagram(a, m)) =>
      if m.InUdpBind? && ValidBind(s, step.event, m.peer, a) then Taken(m.peer, a) else Kept
    case Net(TcpFrame(conn, peer, m)) =>
      var f := FrameClient(s, conn, peer);
      if f.Some? then (if m.InBye? || m.InHello? then Dropped(f.value) else Kept)
      else
        var ch := ChangeOf(s, step);
        if ch.Rebind? then Dropped(ch.p) else Kept
    case _ => var l := Leaver(s, step.event); if l.Some? then Dropped(l.value) else Kept
  }

  // ---------------------------------------------------------------- per handler

  lemma UnbindMoves(s: State, p: PeerId)
    requires p in s.clients
    ensures Moves(s, UnbindUdp(s, p), Dropped(p))
  {
  }

  lemma RemoveMoves(s: State, p: PeerId, keepTcp: bool, o: Oracle)
    requires p in s.clients
    ensures Moves(s, RemoveClient(s, p, keepTcp, o).state, Dropped(p))
  {
    hide RemoveClient;
    RemoveShape(s, p, keepTcp, o);
    assert Bound(s.clients - {p}) == Bound(s.clients) - {p};
  }

  lemma KickMoves(s: State, p: PeerId, ban: bool, o: Oracle)
    requires p in s.clients
    ensures Moves(s, AdminKick(s, p, ban, o).state, Dropped(p))
  {
    hide AdminKick;
    KickShape(s, p, ban, o);
    assert Bound(s.clients - {p}) == Bound(s.clients) - {p};
  }

  /** A client replaced by one with the same binding. */
  lemma SameBindingBound(clients: map<PeerId, Client>, p: PeerId, c': Client)
    requires p in clients && SameBinding(clients[p], c')
    ensures Bound(clients[p := c']) == Bound(clients)
  {
  }

  lemma UdpBindMoves(s: State, p: PeerId, token: Word32, from: Addr, t: real, o: Oracle)
    requires p in s.clients && s.clients[p].udpToken != 0 && s.clients[p].udpToken == token
    ensures Moves(s, OnUdpBind(s, p, token, from, t, o).state, Taken(p, from))
  {
    hide FanOut, UnbindUdp;
    UnbindMoves(s, p);
    UnbindFrame(s, p);
    var s1 := UnbindUdp(s, p);
    var c' := s1.clients[p].(udpAddr := from, udpBound := true, lastSeen := t);
    assert Bound(s1.clients[p := c']) == Bound(s1.clients)[p := from];
    assert (Bound(s.clients) - {p})[p := from] == Bound(s.clients)[p := from];
  }

  lemma HandleUdpMoves(s: State, from: Addr, m: InMsg, t: real, o: Oracle)
    requires Inv(s)
    ensures Moves(s, HandleUdp(s, from, m, t, o).state, MoveOf(s, Step(Net(UdpDatagram(from, m)), t, o)))
  {
    hide FanOut, Inv, OnPose, OnUdpBind, Bound;
    InvAsm(s);
    if m.InUdpBind? {
      if ValidBind(s, Net(UdpDatagram(from, m)), m.peer, from) {
        UdpBindMoves(s, m.peer, m.token, from, t, o);
      } else {
        UdpBindRefused(s, m.peer, m.token, from, t, o);
      }
    } else if IsUdpOnly(m) {
      FindByUdpIsIndex(s, from);
      var who := FindByUdp(s, from).1;
      if who.Some? {
        var p := who.value;
        SameBindingBound(s.clients, p, s.clients[p].(lastSeen := t));
        if m.InPlayerPose? {
          PoseMoves(Touch(s, p, t), p, m.pose, t, o);
        }
      }
    }
  }

  lemma UdpBindRefused(s: State, p: PeerId, token: Word32, from: Addr, t: real, o: Oracle)
    requires p !in s.clients || s.clients[p].udpToken == 0 || s.clients[p].udpToken != token
    ensures OnUdpBind(s, p, token, from, t, o).state == s
  {
  }

  lemma PoseMoves(s: State, p: PeerId, raw: Pose, t: real, o: Oracle)
    requires p in s.clients
    ensures Moves(s, OnPose(s, p, raw, t, o).state, Kept)
  {
    hide FanOut, RecOf, Bound;
    var c := s.clients[p];
    SameBindingBound(s.clients, p, c.(posesIn := c.posesIn + 1, lastPose := raw.(peerId := p), havePose := true));
  }

  lemma HelloAgainMoves(s: State, p: PeerId)
    requires p in s.clients
    ensures Moves(s, HelloAgain(s, p).state, Dropped(p))
  {
    hide UnbindUdp;
    var token := NextToken(s.tokenSeed);
    var s0 := s.(tokenSeed := token, clients := s.clients[p := s.clients[p].(udpToken := token)]);
    SameBindingBound(s.clients, p, s.clients[p].(udpToken := token));
    UnbindMoves(s0, p);
    UnbindFrame(s0, p);
  }

  lemma KeepBlobMoves(s: State, p: PeerId, kind: BlobKind, blob: seq<Byte>)
    requires p in s.clients
    ensures Moves(s, KeepBlob(s, p, kind, blob), Kept)
  {
    hide Bound, RecOf;
    var c := s.clients[p];
    SameBindingBound(s.clients, p, if kind.Appearance? then c.(appearance := blob) else c.(inventory := blob));
  }

  lemma BlobMoves(s: State, p: PeerId, kind: BlobKind, datagram: seq<Byte>, t: real, o: Oracle)
    requires Inv(s) && p in s.clients
    ensures Moves(s, OnBlob(s, p, kind, datagram, t, o).state, Kept)
  {
    hide FanOut, Accept, Inv, Bound, KeepBlob;
    InvAsm(s);
    var s1 := s.(rates := s.rates.(blob := AllowRate(s.rates.blob, p, t, 64).0));
    var table := AsmTable(s1, kind);
    var (asm, status) := Accept(AsmOf(table, p), datagram);
    if status.Complete? {
      KeepBlobMoves(WithAsm(s1, kind, table - {p}), p, kind, status.blob);
    }
  }

  lemma HandleTcpMoves(s: State, p: PeerId, m: InMsg, t: real, o: Oracle)
    requires Inv(s) && p in s.clients
    ensures Moves(s, HandleTcp(s, p, m, t, o).state, if m.InBye? || m.InHello? then Dropped(p) else Kept)
  {
    hide Inv, RemoveClient, HelloAgain, OnBlob, Relay, Bound;
    InvAsm(s);
    if !m.BadHeader? && !IsUdpOnly(m) {
      TouchKeepsInv(s, p, t);
      var s1 := Touch(s, p, t);
      SameBindingBound(s.clients, p, s.clients[p].(lastSeen := t));
      if m.InBye? {
        RemoveMoves(s1, p, true, o);
      } else if m.InHello? {
        HelloAgainMoves(s1, p);
      } else if m.InBlob? {
        BlobMoves(s1, p, m.kind, m.datagram, t, o);
      } else {
        RelayFrame(s1, p, m, t, o);
      }
    }
  }

  lemma AdmitMoves(s: State, conn: ConnId, addr: Addr, h: Hello, t: real, o: Oracle)
    requires Inv(s) && Gate(s, h, o).None?
    ensures var same := ByKey(s.clients, SanitizeKey(h.playerKey));
            Moves(s, Admit(s, conn, addr, h, t, o).state, if same.Some? then Dropped(same.value) else Kept)
  {
    hide Inv, Gate, FanOut, UnbindUdp, Without, Greet, SanitizeKey, Enroll, Bound;
    if h.requireHost { LateFallbackUnreachable(s, h, o); }
    var same := ByKey(s.clients, SanitizeKey(h.playerKey));
    EnrollKeepsInv(s, h);
    EnrollFrame(s, h);
    var s1 := Enroll(s, h);
    if same.Some? {
      ReattachMoves(s1, same.value, conn, addr, h, t);
    } else {
      NewUnbound(s1, conn, addr, h, t);
    }
  }

  lemma ReattachMoves(s: State, p: PeerId, conn: ConnId, addr: Addr, h: Hello, t: real)
    requires p in s.clients
    ensures Moves(s, Reattach(s, p, conn, addr, h, t).state, Dropped(p))
  {
    hide UnbindUdp, SanitizeKey, RecOf;
    UnbindMoves(s, p);
    UnbindFrame(s, p);
    var s' := Reattach(s, p, conn, addr, h, t).state;
    assert Bound(s'.clients) == Bound(UnbindUdp(s, p).clients);
  }

  lemma NewUnbound(s: State, conn: ConnId, addr: Addr, h: Hello, t: real)
    requires Inv(s)
    ensures Bound(s.clients[s.nextPeer := NewClient(s, conn, addr, h, t)]) == Bound(s.clients)
  {
    hide SanitizeKey, RecOf;
    assert s.nextPeer !in s.clients;
  }

  lemma HandlePendingMoves(s: State, entry: PendingTcp, m: InMsg, t: real, o: Oracle)
    requires Inv(s)
    ensures var ch := if m.InHello? then HelloChange(s, entry, m.hello, t, o) else Same;
            Moves(s, HandlePending(s, entry, m, t, o).state, if ch.Rebind? then Dropped(ch.p) else Kept)
  {
    hide Inv, Admit, SanitizeKey, Gate, Bound;
    if m.InHello? {
      var s1 := s.(rates := s.rates.(hello := AllowRate(s.rates.hello, entry.addr, t, 2).0));
      InvFrame(s, s1);
      HostLookupIdle(s1, o);
      GateIgnoresRates(s, s1.rates, m.hello, o);
      if Gate(s1, m.hello, o).None? {
        AdmitMoves(s1, entry.connId, entry.addr, m.hello, t, o);
      }
    }
  }

  lemma FrameMoves(s: State, conn: ConnId, peer: PeerId, m: InMsg, t: real, o: Oracle)
    requires Inv(s)
    ensures Moves(s, OnFrame(s, conn, peer, m, t, o).state, MoveOf(s, Step(Net(TcpFrame(conn, peer, m)), t, o)))
  {
    hide Inv, HandleTcp, HandlePending, HelloChange, Bound;
    InvAsm(s);
    var f := FrameClient(s, conn, peer);
    if f.Some? {
      HandleTcpMoves(s, f.value, m, t, o);
    } else {
      var i := FindPending(s.pending, conn);
      if i >= 0 {
        HandlePendingMoves(s, s.pending[i], m, t, o);
      }
    }
  }

  lemma ClosedMoves(s: State, conn: ConnId, peer: PeerId, o: Oracle)
    ensures var l := Leaver(s, Net(TcpClosed(conn, peer)));
            Moves(s, OnClosed(s, conn, peer, o).state, if l.Some? then Dropped(l.value) else Kept)
  {
    hide RemoveClient, Without, Bound;
    var s1 := s.(pending := Without(s.pending, conn));
    if peer != 0 {
      if peer in s1.clients { RemoveMoves(s1, peer, false, o); } else { RemoveAbsent(s1, peer, false, o); }
    } else {
      var owner := OwnerOf(s1.clients, conn);
      if owner.Some? {
        var c' := s1.clients[owner.value].(connId := 0);
        SameBindingBound(s1.clients, owner.value, c');
        RemoveMoves(s1.(clients := s1.clients[owner.value := c']), owner.value, false, o);
      }
    }
  }

  lemma NetStepMoves(s: State, ev: NetEvent, t: real, o: Oracle)
    requires Inv(s)
    ensures Moves(s, ApplyNet(s, ev, t, o).state, MoveOf(s, Step(Net(ev), t, o)))
  {
    hide Inv, OnFrame, OnClosed, HandleUdp, Bound, FrameClient, ChangeOf, ValidBind;
    InvAsm(s);
    match ev
    case TcpAccept(conn, addr) =>
    case TcpFrame(conn, peer, m) => FrameMoves(s, conn, peer, m, t, o);
    case TcpClosed(conn, peer) => ClosedMoves(s, conn, peer, o);
    case UdpDatagram(from, m) => HandleUdpMoves(s, from, m, t, o);
  }

  lemma LeaveMoves(s: State, step: Step)
    requires Inv(s) && (step.event.ClientTimeout? || step.event.Kicked?)
    ensures Moves(s, Apply(s, step).state, MoveOf(s, step))
  {
    hide Inv, RemoveClient, AdminKick, Bound;
    InvAsm(s);
    match step.event
    case ClientTimeout(p) =>
      if p in s.clients { RemoveMoves(s, p, false, step.o); } else { RemoveAbsent(s, p, false, step.o); }
    case Kicked(p, ban) =>
      if p in s.clients { KickMoves(s, p, ban, step.o); } else { KickAbsent(s, p, ban, step.o); }
  }

  /** Every step changes bindings and index in one of the three ways. */
  lemma StepMoves(s: State, step: Step)
    requires Inv(s)
    ensures Moves(s, Apply(s, step).state, MoveOf(s, step))
  {
    hide Inv, ApplyNet, RemoveClient, AdminKick, ApplyIdle, Without, Bound, FrameClient, ChangeOf;
    InvAsm(s);
    if step.event.Net? {
      NetStepMoves(s, step.event.ev, step.t, step.o);
    } else if step.event.ClientTimeout? || step.event.Kicked? {
      LeaveMoves(s, step);
    } else {
      IdleFrame(s, step.event, step.o);
    }
  }

  // ---------------------------------------------------------------- where an entry comes from

  ghost predicate Points(s: State, a: Addr, p: PeerId) {
    a in s.udpIndex && s.udpIndex[a] == p
  }

  ghost predicate BoundTo(s: State, p: PeerId, a: Addr) {
    p in s.clients && s.clients[p].udpBound && s.clients[p].udpAddr == a
  }

  lemma EntryOrigin(s: State, step: Step, a: Addr, p: PeerId)
    requires Inv(s) && Points(Apply(s, step).state, a, p)
    ensures Points(s, a, p) || ValidBind(s, step.event, p, a)
  {
    hide Inv, Apply, Bound, FrameClient, Leaver, ChangeOf;
    InvAsm(s);
    StepMoves(s, step);
  }

  lemma PointsBound(s: State, a: Addr, p: PeerId)
    requires Inv(s) && Points(s, a, p)
    ensures BoundTo(s, p, a)
  {
  }

  /** Step `k` of the run was a bind of `p` from `a` with the token `p` had at that time. */
  ghost predicate BoundAt(s: State, steps: seq<Step>, k: nat, p: PeerId, a: Addr)
    requires Run(s, steps)
  {
    k < |steps| && (RunPrefix(s, steps, k); ValidBind(After(s, steps[..k]), steps[k].event, p, a))
  }

  /** ... and `p` stayed live and bound to `a` from then on. */
  ghost predicate BoundSince(s: State, steps: seq<Step>, k: nat, p: PeerId, a: Addr)
    requires Run(s, steps)
  {
    forall j :: k < j <= |steps| ==> (RunPrefix(s, steps, j); BoundTo(After(s, steps[..j]), p, a))
  }

  lemma ExtendBoundSince(s: State, steps: seq<Step>, k: nat, p: PeerId, a: Addr)
    requires Run(s, steps) && steps != [] && Run(s, steps[..|steps| - 1])
    requires BoundAt(s, steps[..|steps| - 1], k, p, a) && BoundSince(s, steps[..|steps| - 1], k, p, a)
    requires BoundTo(After(s, steps), p, a)
    ensures BoundAt(s, steps, k, p, a) && BoundSince(s, steps, k, p, a)
  {
    hide Inv, Run, Enabled, Apply, ValidBind, BoundTo, After;
    var n := |steps| - 1;
    assert steps[..n][..k] == steps[..k] && steps[..n][k] == steps[k];
    forall j | k < j <= |steps| ensures (RunPrefix(s, steps, j); BoundTo(After(s, steps[..j]), p, a)) {
      RunPrefix(s, steps, j);
      if j <= n {
        RunPrefix(s, steps[..n], j);
        assert steps[..n][..j] == steps[..j];
      } else {
        assert steps[..j] == steps;
      }
    }
  }

  /** In every reachable state an indexed address leads to a live client bound to it, by a
      bind that carried the client's token at the time, with no unbind since. */
  lemma {:induction false} EntryHistory(s: State, steps: seq<Step>, a: Addr, p: PeerId) returns (k: nat)
    requires Initial(s) && Run(s, steps) && Points(After(s, steps), a, p)
    ensures BoundAt(s, steps, k, p, a) && BoundSince(s, steps, k, p, a)
    decreases |steps|
  {
    hide Inv, Enabled, Apply, ValidBind;
    if steps == [] {
      assert false;
    } else {
      var n := |steps| - 1;
      var before := After(s, steps[..n]);
      EntryOrigin(before, steps[n], a, p);
      PointsBound(After(s, steps), a, p);
      if Points(before, a, p) {
        k := EntryHistory(s, steps[..n], a, p);
        ExtendBoundSince(s, steps, k, p, a);
      } else {
        k := n;
        assert steps[..n + 1] == steps;
      }
    }
  }

  /** The branch of `find_by_udp` that erases a stale entry never runs. */
  lemma NoStaleEntry(s: State, steps: seq<Step>, from: Addr)
    requires Initial(s) && Run(s, steps)
    ensures var z := After(s, steps); FindByUdp(z, from).0 == z && (from in z.udpIndex ==> z.udpIndex[from] in z.clients)
  {
    hide Run, After;
    FindByUdpIsIndex(After(s, steps), from);
  }

  // ---------------------------------------------------------------- completeness

  /** Every bound client is indexed under its address. */
  ghost predicate Complete(b: Bindings, ix: Index) {
    forall p :: p in b ==> b[p] in ix && ix[b[p]] == p
  }

  ghost predicate Contested(b: Bindings, p: PeerId, a: Addr) {
    exists q :: q in b && q != p && b[q] == a
  }

  lemma ReboundComplete(b: Bindings, ix: Index, b': Bindings, ix': Index, r: Rebinding)
    requires Complete(b, ix) && Rebound(b, ix, b', ix', r)
    requires r.Taken? ==> !Contested(b, r.p, r.a)
    ensures Complete(b', ix')
  {
  }

  /** A contested bind leaves the other holder of the address out of the index. */
  lemma ContestedIncomplete(b: Bindings, ix: Index, b': Bindings, ix': Index, p: PeerId, a: Addr)
    requires Rebound(b, ix, b', ix', Taken(p, a)) && Contested(b, p, a)
    ensures !Complete(b', ix')
  {
    var q :| q in b && q != p && b[q] == a;
    assert b'[q] == a;
  }

  /** No step of the run binds an address that another client holds. */
  ghost predicate Uncontested(s: State, steps: seq<Step>)
    requires Run(s, steps)
  {
    forall k: nat, p: PeerId, a: Addr :: BoundAt(s, steps, k, p, a) ==>
      (RunPrefix(s, steps, k); !Contested(Bound(After(s, steps[..k]).clients), p, a))
  }

  lemma UncontestedPrefix(s: State, steps: seq<Step>, n: nat)
    requires Run(s, steps) && n <= |steps| && Uncontested(s, steps)
    ensures Run(s, steps[..n]) && Uncontested(s, steps[..n])
  {
    hide Inv, Run, Enabled, Apply, ValidBind, After, Contested;
    RunPrefix(s, steps, n);
    forall k: nat, p: PeerId, a: Addr | BoundAt(s, steps[..n], k, p, a)
      ensures (RunPrefix(s, steps[..n], k); !Contested(Bound(After(s, steps[..n][..k]).clients), p, a))
    {
      RunPrefix(s, steps[..n], k);
      RunPrefix(s, steps, k);
      assert steps[..n][..k] == steps[..k] && steps[..n][k] == steps[k];
      assert BoundAt(s, steps, k, p, a);
    }
  }

  ghost predicate Indexed(s: State) {
    Complete(Bound(s.clients), s.udpIndex)
  }

  lemma {:induction false} UncontestedComplete(s: State, steps: seq<Step>)
    requires Initial(s) && Run(s, steps) && Uncontested(s, steps)
    ensures Indexed(After(s, steps))
    decreases |steps|
  {
    hide Inv, Enabled, Apply, ValidBind, Bound, Contested, Uncontested, ChangeOf, FrameClient, Leaver;
    if steps != [] {
      var n := |steps| - 1;
      UncontestedPrefix(s, steps, n);
      UncontestedComplete(s, steps[..n]);
      var before, step := After(s, steps[..n]), steps[n];
      InvAsm(before);
      StepMoves(before, step);
      var r := MoveOf(before, step);
      if r.Taken? {
        assert BoundAt(s, steps, n, r.p, r.a);
        UncontestedAt(s, steps, n, r.p, r.a);
      }
      var z := After(s, steps);
      ReboundComplete(Bound(before.clients), before.udpIndex, Bound(z.clients), z.udpIndex, r);
    } else {
      InitialIndexed(s);
    }
  }

  lemma UncontestedAt(s: State, steps: seq<Step>, k: nat, p: PeerId, a: Addr)
    requires Run(s, steps) && Uncontested(s, steps) && BoundAt(s, steps, k, p, a)
    ensures Run(s, steps[..k]) && !Contested(Bound(After(s, steps[..k]).clients), p, a)
  {
    RunPrefix(s, steps, k);
  }

  lemma InitialIndexed(s: State)
    requires Initial(s)
    ensures Indexed(s)
  {
  }

  /** In uncontested runs the index answers exactly like a search over all clients. */
  lemma LookupIsSearch(s: State, steps: seq<Step>, from: Addr, p: PeerId)
    requires Initial(s) && Run(s, steps) && Uncontested(s, steps)
    ensures FindByUdp(After(s, steps), from).1 == Some(p) <==> BoundTo(After(s, steps), p, from)
  {
    hide Run, Uncontested, After;
    UncontestedComplete(s, steps);
    var z := After(s, steps);
    if BoundTo(z, p, from) {
      assert p in Bound(z.clients) && Bound(z.clients)[p] == from;
    }
  }

  // ---------------------------------------------------------------- exactly the uncontested runs

  ghost predicate IndexedAt(s: State, steps: seq<Step>, j: nat)
    requires Run(s, steps) && j <= |steps|
  {
    RunPrefix(s, steps, j);
    Indexed(After(s, steps[..j]))
  }

  /** A contested bind leaves the index incomplete right after it. */
  lemma ContestedStep(s: State, steps: seq<Step>, k: nat, p: PeerId, a: Addr)
    requires Run(s, steps) && BoundAt(s, steps, k, p, a)
    requires (RunPrefix(s, steps, k); Contested(Bound(After(s, steps[..k]).clients), p, a))
    ensures !IndexedAt(s, steps, k + 1)
  {
    hide Inv, Run, Enabled, Apply, After, Bound, Contested, ChangeOf, FrameClient, Leaver, Complete;
    RunPrefix(s, steps, k);
    AfterStep(s, steps, k);
    var before := After(s, steps[..k]);
    InvAsm(before);
    StepMoves(before, steps[k]);
    assert MoveOf(before, steps[k]) == Taken(p, a);
    var z := After(s, steps[..k + 1]);
    ContestedIncomplete(Bound(before.clients), before.udpIndex, Bound(z.clients), z.udpIndex, p, a);
  }

  /** From the start, the index is complete after every prefix of a run if and only if no
      step of the run binds an address that another client holds. */
  lemma UncontestedIff(s: State, steps: seq<Step>)
    requires Initial(s) && Run(s, steps)
    ensures Uncontested(s, steps) <==> forall j: nat :: j <= |steps| ==> IndexedAt(s, steps, j)
  {
    hide Inv, Run, Enabled, Apply, After, Bound, Contested, Indexed, ValidBind;
    if Uncontested(s, steps) {
      forall j: nat | j <= |steps| ensures IndexedAt(s, steps, j) {
        UncontestedPrefix(s, steps, j);
        UncontestedComplete(s, steps[..j]);
      }
    } else {
      var k: nat, p: PeerId, a: Addr :| BoundAt(s, steps, k, p, a)
        && (RunPrefix(s, steps, k); Contested(Bound(After(s, steps[..k]).clients), p, a));
      BoundInRange(s, steps, k, p, a);
      ContestedStep(s, steps, k, p, a);
    }
  }

  lemma BoundInRange(s: State, steps: seq<Step>, k: nat, p: PeerId, a: Addr)
    requires Run(s, steps) && BoundAt(s, steps, k, p, a)
    ensures k < |steps|
  {
  }

  // ---------------------------------------------------------------- a contested bind

  /** A bind of `p` from `a` with its current token. */
  function BindStep(s: State, p: PeerId, a: Addr, t: real, o: Oracle): Step
    requires p in s.clients
  {
    Step(Net(UdpDatagram(a, InUdpBind(p, s.clients[p].udpToken))), t, o)
  }

  /** Binding is always possible, and only touches the binding of `p` and the index. */
  lemma BindEffect(s: State, p: PeerId, a: Addr, t: real, o: Oracle)
    requires Inv(s) && p in s.clients && ValidOrder(o.order, s.clients.Keys)
    ensures Enabled(s, BindStep(s, p, a, t, o))
    ensures var s' := Apply(s, BindStep(s, p, a, t, o)).state;
            && s'.clients.Keys == s.clients.Keys && BoundTo(s', p, a) && Points(s', a, p)
            && (forall q :: q in s.clients && q != p ==> s'.clients[q] == s.clients[q])
  {
    hide FanOut, UnbindUdp, Ids, KeysDistinct, ConnsDistinct, IndexOk, Cached, HostOk, Apart, PendingDistinct, AsmOk;
    UnbindFrame(s, p);
  }

  /** A bind from an address another client holds: the lookup then answers with the newcomer
      alone, while a search over the clients still finds the old holder too. */
  lemma ContestedLookup(s: State, p: PeerId, q: PeerId, a: Addr, t: real, o: Oracle)
    requires Inv(s) && p in s.clients && q in s.clients && p != q && BoundTo(s, q, a)
    requires ValidOrder(o.order, s.clients.Keys)
    ensures Enabled(s, BindStep(s, p, a, t, o))
    ensures var s' := Apply(s, BindStep(s, p, a, t, o)).state;
            FindByUdp(s', a).1 == Some(p) && BoundTo(s', q, a) && BoundTo(s', p, a)
  {
    hide Inv, Apply, Enabled;
    BindEffect(s, p, a, t, o);
  }

  // ---------------------------------------------------------------- such a bind is reached

  /** From every initial state with room for two that would admit either of two players, a run
      in which both join and bind the same address: the lookup then misses the first. */
  lemma ContestedReachable(s: State, h1: Hello, h2: Hello, a: Addr) returns (steps: seq<Step>)
    requires Initial(s) && s.rates.hello == map[] && s.cfg.maxPlayers >= 2
    requires Admissible(s, h1) && Admissible(s, h2) && h1.modHash == h2.modHash
    requires SanitizeKey(h1.playerKey) != SanitizeKey(h2.playerKey)
    ensures Run(s, steps)
    ensures var z := After(s, steps); FindByUdp(z, a).1 == Some(2) && BoundTo(z, 1, a) && BoundTo(z, 2, a)
  {
    hide Inv, Run, After, SanitizeKey, Apply, Enabled, FindByUdp, SameIntake;
    InitialInv(s);
    StartRun(s);
    assert ValidOrder([], s.clients.Keys) && ValidOrder([1], s.clients.Keys + {1});
    NoKeys(s.clients, SanitizeKey(h1.playerKey));
    var steps1, z1 := JoinRun(s, [], s, h1, [1]);
    assert z1.clients.Keys == {1} && |z1.clients| == 1 by { assert |z1.clients.Keys| == 1; }
    assert ValidOrder([1], z1.clients.Keys) && ValidOrder([1, 2], z1.clients.Keys + {2});
    OtherKey(z1.clients, SanitizeKey(h2.playerKey));
    StillAdmits(s, z1, h2);
    var steps2, z2 := JoinRun(s, steps1, z1, h2, [1, 2]);
    steps := BindBoth(s, steps2, z2, a);
  }

  lemma BindBoth(s: State, steps2: seq<Step>, z2: State, a: Addr) returns (steps: seq<Step>)
    requires Reaches(s, steps2, z2) && Inv(z2) && z2.clients.Keys == {1, 2}
    ensures Run(s, steps)
    ensures var z := After(s, steps); FindByUdp(z, a).1 == Some(2) && BoundTo(z, 1, a) && BoundTo(z, 2, a)
  {
    hide Inv, Run, After, Apply, Enabled, FindByUdp;
    var o := Oracle([1, 2], 0, 0.0);
    assert ValidOrder(o.order, z2.clients.Keys);
    InvAsm(z2);
    BindEffect(z2, 1, a, 1.0, o);
    var b1 := BindStep(z2, 1, a, 1.0, o);
    GoOn(s, steps2, z2, b1);
    var z3 := Apply(z2, b1).state;
    InvAsm(z3);
    ContestedLookup(z3, 2, 1, a, 1.0, o);
    var b2 := BindStep(z3, 2, a, 1.0, o);
    GoOn(s, steps2 + [b1], z3, b2);
    steps := steps2 + [b1] + [b2];
  }

  /** A player that would have been admitted to an empty session still is, with one other in. */
  lemma StillAdmits(s: State, z: State, h: Hello)
    requires Admissible(s, h) && s.clients == map[] && |z.clients| == 1 && s.cfg.maxPlayers >= 2
    requires z.cfg == s.cfg && z.banned == s.banned && (z.modHash == s.modHash || z.modHash == h.modHash)
    ensures Admissible(z, h)
  {
  }
}
