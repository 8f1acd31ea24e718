/** Who owns which connection, and which control commands announce a change of owner.
    Each step of the session changes the ownership table in one of seven ways. */
module Ownership {
  import opened Bytes
  import opened Blobs
  import opened RateLimit
  import opened Types
  import opened Session
  import opened SessionInv

  type Owners = map<PeerId, ConnId>

  ghost function Conns(clients: map<PeerId, Client>): Owners {
    map p | p in clients :: clients[p].connId
  }

  predicate IsSend(c: Cmd) { c.TcpSend? || c.UdpSend? }

  /** The control commands among the queued ones. */
  function Ctl(cmds: seq<Cmd>): seq<Cmd> {
    if cmds == [] then []
    else
      var last := cmds[|cmds| - 1];
      Ctl(cmds[..|cmds| - 1]) + (if IsSend(last) then [] else [last])
  }

  lemma {:induction false} CtlConcat(a: seq<Cmd>, b: seq<Cmd>)
    ensures Ctl(a + b) == Ctl(a) + Ctl(b)
    decreases |b|
  {
    if b == [] {
      assert a + b == a;
    } else {
      var n := |b| - 1;
      assert (a + b)[..|a + b| - 1] == a + b[..n];
      CtlConcat(a, b[..n]);
    }
  }

  ghost predicate SendsOnly(cmds: seq<Cmd>) {
    forall i :: 0 <= i < |cmds| ==> IsSend(cmds[i])
  }

  lemma {:induction false} SendsHaveNoCtl(cmds: seq<Cmd>)
    requires SendsOnly(cmds)
    ensures Ctl(cmds) == []
  {
    if cmds != [] {
      SendsHaveNoCtl(cmds[..|cmds| - 1]);
    }
  }

  lemma {:induction false} PacketsAreSends(c: Client, p: PeerId, kind: BlobKind, from: PeerId, packets: seq<seq<Byte>>)
    ensures SendsOnly(SendPackets(c, p, kind, from, packets))
  {
    if packets != [] {
      PacketsAreSends(c, p, kind, from, packets[..|packets| - 1]);
    }
  }

  lemma VisitSends(clients: map<PeerId, Client>, maxUu: real, f: Fan, p: PeerId)
    ensures SendsOnly(Visit(clients, maxUu, f, p))
  {
    hide Packets, InInterest, SendPackets;
    if p in clients {
      match f
      case BlobToOthers(from, kind, blob) =>
        PacketsAreSends(clients[p], p, kind, from, Packets(KindByte(kind), from % 0x1_0000_0000, blob));
      case CatchUp(to) =>
        if to in clients {
          var c := clients[p];
          PacketsAreSends(clients[to], to, Appearance, p, Packets(KindByte(Appearance), p % 0x1_0000_0000, c.appearance));
          PacketsAreSends(clients[to], to, Inventory, p, Packets(KindByte(Inventory), p % 0x1_0000_0000, c.inventory));
        }
      case _ =>
    }
  }

  lemma {:induction false} FanOutSends(clients: map<PeerId, Client>, maxUu: real, f: Fan, order: seq<PeerId>)
    ensures SendsOnly(FanOut(clients, maxUu, f, order))
  {
    hide Visit;
    if order != [] {
      FanOutSends(clients, maxUu, f, order[..|order| - 1]);
      VisitSends(clients, maxUu, f, order[|order| - 1]);
    }
  }

  lemma FanOutNoCtl(clients: map<PeerId, Client>, maxUu: real, f: Fan, order: seq<PeerId>)
    ensures Ctl(FanOut(clients, maxUu, f, order)) == []
  {
    FanOutSends(clients, maxUu, f, order);
    SendsHaveNoCtl(FanOut(clients, maxUu, f, order));
  }

  // ---------------------------------------------------------------- the seven changes

  datatype Change =
    | Same
    | Bind(p: PeerId, c: ConnId)
    | Rebind(p: PeerId, c0: ConnId, c: ConnId)
    | DropClose(p: PeerId)
    | DropKeep(p: PeerId)
    | DropSilent(p: PeerId)
    | ClosePending(c: ConnId)

  ghost predicate Unowned(own: Owners, c: ConnId) {
    forall p :: p in own ==> own[p] != c
  }

  /** How a change shows in the table and in the control commands. */
  ghost predicate Changed(own: Owners, own': Owners, ctl: seq<Cmd>, ch: Change) {
    match ch
    case Same => own' == own && ctl == []
    case Bind(p, c) => p != 0 && c != 0 && p !in own && Unowned(own, c) && own' == own[p := c] && ctl == [BindPeer(c, p)]
    case Rebind(p, c0, c) =>
      && p != 0 && c != 0 && c0 != 0 && p in own && own[p] == c0 && Unowned(own, c)
      && own' == own[p := c] && ctl == [CloseConn(c0), BindPeer(c, p)]
    case DropClose(p) => p in own && own' == own - {p} && ctl == [CloseConn(own[p])]
    case DropKeep(p) => p in own && own' == own - {p} && ctl == [KeepPending(p)]
    case DropSilent(p) => p in own && own' == own - {p} && ctl == []
    case ClosePending(c) => own' == own && c != 0 && Unowned(own, c) && ctl == [CloseConn(c)]
  }

  /** The change a step makes. */
  ghost function ChangeOf(s: State, step: Step): Change
    requires AsmOk(s.appearAsm) && AsmOk(s.invAsm)
  {
    match step.event
    case PendingTimeout(conn) => ClosePending(conn)
    case Net(TcpClosed(conn, peer)) =>
      var l := Leaver(s, step.event);
      if l.None? then Same else if peer != 0 then DropClose(l.value) else DropSilent(l.value)
    case Net(TcpFrame(conn, peer, m)) =>
      if FrameClient(s, conn, peer).Some? then
        (if m.InBye? then DropKeep(FrameClient(s, conn, peer).value) else Same)
      else if m.InHello? && FindPending(s.pending, conn) >= 0 then HelloChange(s, s.pending[FindPending(s.pending, conn)], m.hello, step.t, step.o)
      else Same
    case _ =>
      var l := Leaver(s, step.event);
      if l.Some? then DropClose(l.value) else Same
  }

  ghost function HelloChange(s: State, entry: PendingTcp, h: Hello, t: real, o: Oracle): Change {
    var same := ByKey(s.clients, SanitizeKey(h.playerKey));
    if !AllowRate(s.rates.hello, entry.addr, t, 2).1 || Gate(s, h, o).Some? then Same
    else if same.Some? then Rebind(same.value, s.clients[same.value].connId, entry.connId)
    else Bind(s.nextPeer, entry.connId)
  }

  // ---------------------------------------------------------------- per handler

  lemma CtlSingle(c: Cmd)
    requires !IsSend(c)
    ensures Ctl([c]) == [c]
  {
    assert [c][..0] == [];
  }

  lemma RemoveCmds(s: State, p: PeerId, keepTcp: bool, o: Oracle)
    requires p in s.clients && s.clients[p].connId != 0
    ensures RemoveClient(s, p, keepTcp, o).cmds
         == Broadcast(s, ToOthers(p, Bye(p)), o) + [if keepTcp then KeepPending(p) else CloseConn(s.clients[p].connId)]
  {
    hide FanOut;
  }

  lemma RemoveChange(s: State, p: PeerId, keepTcp: bool, o: Oracle)
    requires p in s.clients && s.clients[p].connId != 0
    ensures var e := RemoveClient(s, p, keepTcp, o);
            Changed(Conns(s.clients), Conns(e.state.clients), Ctl(e.cmds), if keepTcp then DropKeep(p) else DropClose(p))
  {
    hide FanOut, RemoveClient;
    RemoveCmds(s, p, keepTcp, o);
    FanOutNoCtl(s.clients, s.cfg.interestUu, ToOthers(p, Bye(p)), o.order);
    var ctl := if keepTcp then KeepPending(p) else CloseConn(s.clients[p].connId);
    CtlConcat(Broadcast(s, ToOthers(p, Bye(p)), o), [ctl]);
    CtlSingle(ctl);
    RemoveShape(s, p, keepTcp, o);
    assert Conns(s.clients - {p}) == Conns(s.clients) - {p};
  }

  lemma RemoveSilentChange(s: State, p: PeerId, o: Oracle)
    requires p in s.clients && s.clients[p].connId == 0
    ensures var e := RemoveClient(s, p, false, o);
            Changed(Conns(s.clients), Conns(e.state.clients), Ctl(e.cmds), DropSilent(p))
  {
    hide FanOut;
    FanOutNoCtl(s.clients, s.cfg.interestUu, ToOthers(p, Bye(p)), o.order);
    assert RemoveClient(s, p, false, o).cmds == Broadcast(s, ToOthers(p, Bye(p)), o);
    RemoveShape(s, p, false, o);
    assert Conns(s.clients - {p}) == Conns(s.clients) - {p};
  }

  lemma KickChange(s: State, p: PeerId, ban: bool, o: Oracle)
    requires p in s.clients && s.clients[p].connId != 0
    ensures var e := AdminKick(s, p, ban, o);
            Changed(Conns(s.clients), Conns(e.state.clients), Ctl(e.cmds), DropClose(p))
  {
    var c := s.clients[p];
    KickShape(s, p, ban, o);
    assert Conns(s.clients - {p}) == Conns(s.clients) - {p};
    var bye := TcpSend(c.connId, p, Bye(p));
    assert AdminKick(s, p, ban, o).cmds == [bye] + [CloseConn(c.connId)];
    CtlConcat([bye], [CloseConn(c.connId)]);
    assert [bye][..0] == [];
    CtlSingle(CloseConn(c.connId));
  }

  /** Handlers that only touch data: no change of owner, of the pending list or of the
      peer counter, only sends. */
  ghost predicate Harmless(s: State, e: Effect) {
    && Conns(e.state.clients) == Conns(s.clients)
    && e.state.pending == s.pending && e.state.nextPeer == s.nextPeer
    && SendsOnly(e.cmds)
  }

  lemma UnbindConns(s: State, p: PeerId)
    requires p in s.clients
    ensures Conns(UnbindUdp(s, p).clients) == Conns(s.clients)
  {
  }

  lemma UdpBindHarmless(s: State, p: PeerId, token: Word32, from: Addr, t: real, o: Oracle)
    ensures Harmless(s, OnUdpBind(s, p, token, from, t, o))
  {
    hide FanOut, UnbindUdp;
    if p in s.clients && s.clients[p].udpToken != 0 && s.clients[p].udpToken == token {
      UnbindConns(s, p);
      UnbindFrame(s, p);
      var e := OnUdpBind(s, p, token, from, t, o);
      FanOutSends(e.state.clients, e.state.cfg.interestUu, PosesOfOthers(p), o.order);
    }
  }

  lemma TakePoseConns(s: State, p: PeerId, pose: Pose)
    requires p in s.clients
    ensures var s' := TakePose(s, p, pose);
            Conns(s'.clients) == Conns(s.clients) && s'.pending == s.pending && s'.nextPeer == s.nextPeer
  {
  }

  lemma PoseHarmless(s: State, p: PeerId, raw: Pose, t: real, o: Oracle)
    requires p in s.clients
    ensures Harmless(s, OnPose(s, p, raw, t, o))
  {
    hide FanOut, TakePose;
    var s1 := s.(rates := s.rates.(pose := AllowRate(s.rates.pose, p, t, 30).0));
    TakePoseConns(s1, p, raw.(peerId := p));
    var e := OnPose(s, p, raw, t, o);
    FanOutSends(e.state.clients, e.state.cfg.interestUu, PoseToInterested(p, raw.(peerId := p)), o.order);
  }

  lemma TouchConns(s: State, p: PeerId, t: real)
    requires p in s.clients
    ensures Conns(Touch(s, p, t).clients) == Conns(s.clients)
  {
  }

  lemma HandleUdpHarmless(s: State, from: Addr, m: InMsg, t: real, o: Oracle)
    requires Inv(s)
    ensures Harmless(s, HandleUdp(s, from, m, t, o))
  {
    hide FanOut, OnUdpBind, OnPose, Inv, Conns;
    if m.InUdpBind? {
      UdpBindHarmless(s, m.peer, m.token, from, t, o);
    } else if IsUdpOnly(m) {
      FindByUdpIsIndex(s, from);
      var who := FindByUdp(s, from).1;
      if who.Some? {
        var p := who.value;
        var s2 := Touch(s, p, t);
        TouchConns(s, p, t);
        if m.InPlayerPose? {
          PoseHarmless(s2, p, m.pose, t, o);
        } else {
          FanOutSends(s2.clients, s2.cfg.interestUu, ActorToInterested(p, m.actor), o.order);
        }
      }
    }
  }

  lemma KeepBlobConns(s: State, p: PeerId, kind: BlobKind, blob: seq<Byte>)
    requires p in s.clients
    ensures Conns(KeepBlob(s, p, kind, blob).clients) == Conns(s.clients)
    ensures KeepBlob(s, p, kind, blob).pending == s.pending && KeepBlob(s, p, kind, blob).nextPeer == s.nextPeer
  {
  }

  lemma BlobHarmless(s: State, p: PeerId, kind: BlobKind, datagram: seq<Byte>, t: real, o: Oracle)
    requires Inv(s) && p in s.clients
    ensures Harmless(s, OnBlob(s, p, kind, datagram, t, o))
  {
    hide FanOut, Accept, Inv, KeepBlob;
    InvAsm(s);
    var (b, ok) := AllowRate(s.rates.blob, p, t, 64);
    var s1 := s.(rates := s.rates.(blob := b));
    var table := AsmTable(s1, kind);
    var (asm, status) := Accept(AsmOf(table, p), datagram);
    if ok && status.Complete? {
      var s0 := WithAsm(s1, kind, table - {p});
      var s2 := KeepBlob(s0, p, kind, status.blob);
      KeepBlobConns(s0, p, kind, status.blob);
      FanOutSends(s2.clients, s2.cfg.interestUu, BlobToOthers(p, kind, status.blob), o.order);
    }
  }

  lemma HelloAgainHarmless(s: State, p: PeerId)
    requires p in s.clients
    ensures Harmless(s, HelloAgain(s, p))
  {
    hide UnbindUdp;
    var token := NextToken(s.tokenSeed);
    var s0 := s.(tokenSeed := token, clients := s.clients[p := s.clients[p].(udpToken := token)]);
    UnbindConns(s0, p);
    UnbindFrame(s0, p);
  }

  lemma RelayHarmless(s: State, p: PeerId, m: InMsg, t: real, o: Oracle)
    requires p in s.clients
    ensures Harmless(s, Relay(s, p, m, t, o))
  {
    hide FanOut, SameTables;
    RelayFrame(s, p, m, t, o);
    TablesOf(s, Relay(s, p, m, t, o).state);
    match m
    case InChat(text) => FanOutSends(s.clients, s.cfg.interestUu, ToOthers(p, Chat(p, text)), o.order);
    case InKick(target, reason) => FanOutSends(s.clients, s.cfg.interestUu, ToOne(target, Kick(target, reason)), o.order);
    case InTeleport(target, place) => FanOutSends(s.clients, s.cfg.interestUu, ToOne(target, Teleport(target, place)), o.order);
    case InHit(_, target, damage, flags) =>
      FanOutSends(s.clients, s.cfg.interestUu, ToOne(target, Hit(p, target, ClampHitDamage(damage), flags)), o.order);
    case _ =>
  }

  lemma TablesOf(s: State, s': State)
    requires SameTables(s, s')
    ensures s'.clients == s.clients && s'.pending == s.pending && s'.nextPeer == s.nextPeer
  {
  }

  lemma HandleTcpHarmless(s: State, p: PeerId, m: InMsg, t: real, o: Oracle)
    requires Inv(s) && p in s.clients && !m.InBye?
    ensures Harmless(s, HandleTcp(s, p, m, t, o))
  {
    hide RemoveClient, HelloAgain, OnBlob, Relay, Inv, Conns;
    InvAsm(s);
    if !m.BadHeader? && !IsUdpOnly(m) {
      TouchKeepsInv(s, p, t);
      TouchConns(s, p, t);
      var s1 := Touch(s, p, t);
      if m.InHello? {
        HelloAgainHarmless(s1, p);
      } else if m.InBlob? {
        BlobHarmless(s1, p, m.kind, m.datagram, t, o);
      } else {
        RelayHarmless(s1, p, m, t, o);
      }
    }
  }

  lemma IdleHarmless(s: State, e: Event, o: Oracle)
    ensures Harmless(s, ApplyIdle(s, e, o))
  {
    hide FanOut, SanitizeKey;
    IdleFrame(s, e, o);
    var s' := ApplyIdle(s, e, o).state;
    match e
    case HeartbeatTick => FanOutSends(s.clients, s.cfg.interestUu, ToAll(Heartbeat(0, 0)), o.order);
    case Say(text) => FanOutSends(s.clients, s.cfg.interestUu, ToAll(Chat(0, text)), o.order);
    case _ => FanOutSends(s'.clients, s'.cfg.interestUu, ToAll(SessionRules(SessionFlags(s'.cfg))), o.order);
  }

  lemma HarmlessIsSame(s: State, e: Effect)
    requires Harmless(s, e)
    ensures Changed(Conns(s.clients), Conns(e.state.clients), Ctl(e.cmds), Same)
  {
    SendsHaveNoCtl(e.cmds);
  }

  // ---------------------------------------------------------------- joining

  lemma GreetSends(s: State, p: PeerId, isNew: bool, requireHost: bool, o: Oracle)
    requires p in s.clients
    ensures SendsOnly(Greet(s, p, isNew, requireHost, o))
  {
    hide FanOut;
    FanOutSends(s.clients, s.cfg.interestUu, CatchUp(p), o.order);
  }

  lemma PendingUnowned(s: State, conn: ConnId)
    requires Inv(s) && IsPending(s.pending, conn)
    ensures conn != 0 && Unowned(Conns(s.clients), conn)
  {
  }

  lemma ReattachChange(s: State, p: PeerId, conn: ConnId, addr: Addr, h: Hello, t: real)
    requires Inv(s) && IsPending(s.pending, conn) && p in s.clients
    ensures var e := Reattach(s, p, conn, addr, h, t);
            Changed(Conns(s.clients), Conns(e.state.clients), e.cmds, Rebind(p, s.clients[p].connId, conn))
  {
    hide UnbindUdp, Inv, SanitizeKey;
    PendingUnowned(s, conn);
    FacesAt(s, p);
    UnbindConns(s, p);
    UnbindFrame(s, p);
    assert Conns(s.clients)[p] != conn;
    assert Reattach(s, p, conn, addr, h, t).cmds == [CloseConn(s.clients[p].connId)] + [BindPeer(conn, p)];
  }

  lemma AddChange(s: State, conn: ConnId, addr: Addr, h: Hello, t: real)
    requires Inv(s) && IsPending(s.pending, conn)
    ensures var e := AddClient(s, conn, addr, h, t);
            Changed(Conns(s.clients), Conns(e.state.clients), e.cmds, Bind(s.nextPeer, conn))
  {
    hide SanitizeKey, NewClient, Inv, AddClient;
    PendingUnowned(s, conn);
    NextIsNew(s);
    AddFrame(s, conn, addr, h, t);
    AddCmds(s, conn, addr, h, t);
    var own' := Conns(AddClient(s, conn, addr, h, t).state.clients);
    assert own' == Conns(s.clients)[s.nextPeer := conn];
  }

  lemma NextIsNew(s: State)
    requires Inv(s)
    ensures s.nextPeer !in s.clients && s.nextPeer != 0
  {
  }

  lemma AddCmds(s: State, conn: ConnId, addr: Addr, h: Hello, t: real)
    requires conn != 0 && s.nextPeer != 0
    ensures AddClient(s, conn, addr, h, t).cmds == [BindPeer(conn, s.nextPeer)]
    ensures NewClient(s, conn, addr, h, t).connId == conn
  {
  }

  lemma {:induction false} CtlOfCtl(cmds: seq<Cmd>)
    requires forall i :: 0 <= i < |cmds| ==> !IsSend(cmds[i])
    ensures Ctl(cmds) == cmds
  {
    if cmds != [] {
      CtlOfCtl(cmds[..|cmds| - 1]);
    }
  }

  lemma CtlOfBinding(own: Owners, own': Owners, cmds: seq<Cmd>, ch: Change, sends: seq<Cmd>)
    requires Changed(own, own', cmds, ch) && (ch.Bind? || ch.Rebind?) && SendsOnly(sends)
    ensures Ctl(cmds + sends) == cmds
  {
    hide Ctl;
    CtlConcat(cmds, sends);
    SendsHaveNoCtl(sends);
    CtlOfCtl(cmds);
  }

  lemma AdmitChange(s: State, conn: ConnId, addr: Addr, h: Hello, t: real, o: Oracle)
    requires Inv(s) && IsPending(s.pending, conn) && Gate(s, h, o).None?
    ensures var e := Admit(s, conn, addr, h, t, o);
            var same := ByKey(s.clients, SanitizeKey(h.playerKey));
            Changed(Conns(s.clients), Conns(e.state.clients), Ctl(e.cmds),
                    if same.Some? then Rebind(same.value, s.clients[same.value].connId, conn) else Bind(s.nextPeer, conn))
  {
    hide Inv, Gate, FanOut, Reattach, AddClient, Enroll, Greet, Without, SanitizeKey;
    if h.requireHost { LateFallbackUnreachable(s, h, o); }
    EnrollKeepsInv(s, h);
    EnrollFrame(s, h);
    var s1 := Enroll(s, h);
    var same := ByKey(s.clients, SanitizeKey(h.playerKey));
    var e := if same.Some? then Reattach(s1, same.value, conn, addr, h, t) else AddClient(s1, conn, addr, h, t);
    var p := if same.Some? then same.value else s1.nextPeer;
    if same.Some? {
      ReattachChange(s1, p, conn, addr, h, t);
      assert p in Conns(e.state.clients);
    } else {
      AddChange(s1, conn, addr, h, t);
      AddFrame(s1, conn, addr, h, t);
    }
    var s2 := HostHello(e.state.(pending := Without(e.state.pending, conn)), p, h);
    assert s2.clients == e.state.clients;
    var isNew := !RecOf(s.players, SanitizeKey(h.playerKey)).havePose;
    GreetSends(s2, p, isNew, h.requireHost, o);
    CtlOfBinding(Conns(s1.clients), Conns(s2.clients), e.cmds,
                 if same.Some? then Rebind(same.value, s.clients[same.value].connId, conn) else Bind(s.nextPeer, conn),
                 Greet(s2, p, isNew, h.requireHost, o));
  }

  lemma HandlePendingChange(s: State, entry: PendingTcp, m: InMsg, t: real, o: Oracle)
    requires Inv(s) && IsPending(s.pending, entry.connId)
    ensures var e := HandlePending(s, entry, m, t, o);
            Changed(Conns(s.clients), Conns(e.state.clients), Ctl(e.cmds), if m.InHello? then HelloChange(s, entry, m.hello, t, o) else Same)
  {
    hide Inv, SanitizeKey, Gate, Changed, OnHello, AllowRate, Ctl, Conns, Query, ByKey;
    var e := HandlePending(s, entry, m, t, o);
    if m.InHello? {
      var (q, ok) := AllowRate(s.rates.hello, entry.addr, t, 2);
      var s1 := s.(rates := s.rates.(hello := q));
      InvFrame(s, s1);
      GateIgnoresRates(s, s1.rates, m.hello, o);
      if ok {
        OnHelloChange(s1, entry, m.hello, t, o);
      } else {
        HarmlessIsSame(s, e);
      }
    } else {
      if m.InSessionQuery? {
        QueryHarmless(s.(rates := s.rates.(query := AllowRate(s.rates.query, entry.addr, t, 4).0)), entry.connId, o);
      }
      HarmlessIsSame(s, e);
    }
  }

  lemma QueryHarmless(s: State, conn: ConnId, o: Oracle)
    ensures Harmless(s, Query(s, conn, o))
  {
    hide FindHost, SessionFlags;
  }

  lemma OnHelloChange(s: State, entry: PendingTcp, h: Hello, t: real, o: Oracle)
    requires Inv(s) && IsPending(s.pending, entry.connId)
    ensures var e := OnHello(s, entry.connId, entry.addr, h, t, o);
            var same := ByKey(s.clients, SanitizeKey(h.playerKey));
            Changed(Conns(s.clients), Conns(e.state.clients), Ctl(e.cmds),
                    if Gate(s, h, o).Some? then Same
                    else if same.Some? then Rebind(same.value, s.clients[same.value].connId, entry.connId)
                    else Bind(s.nextPeer, entry.connId))
  {
    hide Inv, SanitizeKey, Gate, Changed, Admit;
    HostLookupIdle(s, o);
    if Gate(s, h, o).Some? {
      HarmlessIsSame(s, OnHello(s, entry.connId, entry.addr, h, t, o));
    } else {
      AdmitChange(s, entry.connId, entry.addr, h, t, o);
    }
  }

  lemma GateIgnoresRates(s: State, rates: Rates, h: Hello, o: Oracle)
    ensures Gate(s.(rates := rates), h, o) == Gate(s, h, o)
  {
  }

  // ---------------------------------------------------------------- every step

  lemma FrameChange(s: State, conn: ConnId, peer: PeerId, m: InMsg, t: real, o: Oracle)
    requires Inv(s)
    ensures var e := OnFrame(s, conn, peer, m, t, o);
            Changed(Conns(s.clients), Conns(e.state.clients), Ctl(e.cmds), ChangeOf(s, Step(Net(TcpFrame(conn, peer, m)), t, o)))
  {
    hide Inv, HandleTcp, HandlePending, HelloChange;
    InvAsm(s);
    var e := OnFrame(s, conn, peer, m, t, o);
    var f := FrameClient(s, conn, peer);
    if f.Some? {
      if m.InBye? {
        ByeChange(s, f.value, t, o);
      } else {
        HandleTcpHarmless(s, f.value, m, t, o);
        HarmlessIsSame(s, e);
      }
    } else {
      var i := FindPending(s.pending, conn);
      if i >= 0 {
        assert IsPending(s.pending, s.pending[i].connId);
        HandlePendingChange(s, s.pending[i], m, t, o);
      } else {
        HarmlessIsSame(s, e);
      }
    }
  }

  lemma ByeChange(s: State, p: PeerId, t: real, o: Oracle)
    requires Inv(s) && p in s.clients
    ensures var e := HandleTcp(s, p, InBye, t, o);
            Changed(Conns(s.clients), Conns(e.state.clients), Ctl(e.cmds), DropKeep(p))
  {
    hide Inv, RemoveClient;
    InvAsm(s);
    FacesAt(s, p);
    var s1 := Touch(s, p, t);
    assert Conns(s1.clients) == Conns(s.clients);
    RemoveChange(s1, p, true, o);
  }

  lemma ClosedChange(s: State, conn: ConnId, peer: PeerId, t: real, o: Oracle)
    requires Inv(s)
    ensures var e := OnClosed(s, conn, peer, o);
            Changed(Conns(s.clients), Conns(e.state.clients), Ctl(e.cmds), ChangeOf(s, Step(Net(TcpClosed(conn, peer)), t, o)))
  {
    hide Inv, RemoveClient, Without;
    InvAsm(s);
    var s1 := s.(pending := Without(s.pending, conn));
    if peer != 0 {
      if peer in s.clients {
        FacesAt(s, peer);
        RemoveChange(s1, peer, false, o);
      } else {
        RemoveAbsent(s1, peer, false, o);
      }
    } else {
      var owner := OwnerOf(s1.clients, conn);
      if owner.Some? {
        var p := owner.value;
        var cs := s1.clients[p := s1.clients[p].(connId := 0)];
        RemoveSilentChange(s1.(clients := cs), p, o);
        assert Conns(cs) - {p} == Conns(s1.clients) - {p};
      }
    }
  }

  lemma NetStepChange(s: State, ev: NetEvent, t: real, o: Oracle)
    requires Inv(s)
    ensures var e := ApplyNet(s, ev, t, o);
            Changed(Conns(s.clients), Conns(e.state.clients), Ctl(e.cmds), ChangeOf(s, Step(Net(ev), t, o)))
  {
    hide Inv, OnFrame, OnClosed, HandleUdp, FindPending, HelloChange, Conns;
    InvAsm(s);
    match ev
    case TcpAccept(conn, addr) =>
    case TcpFrame(conn, peer, m) => FrameChange(s, conn, peer, m, t, o);
    case TcpClosed(conn, peer) => ClosedChange(s, conn, peer, t, o);
    case UdpDatagram(from, m) =>
      HandleUdpHarmless(s, from, m, t, o);
      HarmlessIsSame(s, ApplyNet(s, ev, t, o));
  }

  /** The local events, by who leaves. */
  lemma ChangeOfLocal(s: State, step: Step)
    requires AsmOk(s.appearAsm) && AsmOk(s.invAsm) && !step.event.Net?
    ensures ChangeOf(s, step) ==
      match step.event
      case PendingTimeout(conn) => ClosePending(conn)
      case ClientTimeout(p) => if p in s.clients then DropClose(p) else Same
      case Kicked(p, _) => if p in s.clients then DropClose(p) else Same
      case _ => Same
  {
  }

  lemma LocalStepChange(s: State, step: Step)
    requires Inv(s) && Choices(s, step) && !step.event.Net?
    ensures var e := Apply(s, step);
            Changed(Conns(s.clients), Conns(e.state.clients), Ctl(e.cmds), ChangeOf(s, step))
  {
    hide Inv, RemoveClient, AdminKick, ApplyIdle, Without, ValidOrder, HostAtHand, Conns, ChangeOf, Changed;
    InvAsm(s);
    ChangeOfLocal(s, step);
    match step.event
    case PendingTimeout(conn) =>
      assert IsPending(s.pending, conn);
      PendingUnowned(s, conn);
      ClosePendingChange(s, conn);
    case ClientTimeout(p) => FacesAt(s, p); RemoveChange(s, p, false, step.o);
    case Kicked(p, ban) => FacesAt(s, p); KickChange(s, p, ban, step.o);
    case _ =>
      IdleHarmless(s, step.event, step.o);
      HarmlessIsSame(s, ApplyIdle(s, step.event, step.o));
  }

  lemma ClosePendingChange(s: State, conn: ConnId)
    requires conn != 0 && Unowned(Conns(s.clients), conn)
    ensures Changed(Conns(s.clients), Conns(s.clients), Ctl([CloseConn(conn)]), ClosePending(conn))
  {
    CtlSingle(CloseConn(conn));
  }

  /** Every step changes the ownership table as its control commands say. */
  lemma StepChange(s: State, step: Step)
    requires Inv(s) && Enabled(s, step)
    ensures var e := Apply(s, step);
            Changed(Conns(s.clients), Conns(e.state.clients), Ctl(e.cmds), ChangeOf(s, step))
  {
    hide Inv, ApplyNet, RemoveClient, AdminKick, ApplyIdle, Without, Choices, Conns, ChangeOf, Changed;
    InvAsm(s);
    if step.event.Net? {
      NetStepChange(s, step.event.ev, step.t, step.o);
    } else {
      LocalStepChange(s, step);
    }
  }

  // ---------------------------------------------------------------- no connection out of nowhere

  ghost predicate Known(s: State, c: ConnId) {
    IsPending(s.pending, c) || exists p :: Owns(s.clients, p, c)
  }

  lemma AdmitPending(s: State, conn: ConnId, addr: Addr, h: Hello, t: real, o: Oracle)
    ensures Admit(s, conn, addr, h, t, o).state.pending == Without(s.pending, conn)
  {
    hide Without, FanOut, Gate, SanitizeKey, UnbindUdp, Greet;
    var same := ByKey(s.clients, SanitizeKey(h.playerKey));
    if same.Some? {
      UnbindFrame(Enroll(s, h), same.value);
    }
  }

  lemma HandlePendingPending(s: State, entry: PendingTcp, m: InMsg, t: real, o: Oracle)
    ensures var s' := HandlePending(s, entry, m, t, o).state;
            s'.pending == s.pending || s'.pending == Without(s.pending, entry.connId)
  {
    hide Admit, Without, Gate;
    if m.InHello? {
      var s1 := s.(rates := s.rates.(hello := AllowRate(s.rates.hello, entry.addr, t, 2).0));
      AdmitPending(s1, entry.connId, entry.addr, m.hello, t, o);
      AdmitPending(WithHost(s1, o), entry.connId, entry.addr, m.hello, t, o);
    }
  }

  /** How a frame changes the pending list: not at all, by giving up the connection it
      came on, or by taking back the connection of a client that said Bye. */
  lemma FramePending(s: State, conn: ConnId, peer: PeerId, m: InMsg, t: real, o: Oracle)
    requires Inv(s)
    ensures var s' := OnFrame(s, conn, peer, m, t, o).state;
            var f := FrameClient(s, conn, peer);
            || s'.pending == s.pending
            || s'.pending == Without(s.pending, conn)
            || (f.Some? && exists e: PendingTcp :: e.connId == s.clients[f.value].connId && s'.pending == s.pending + [e])
  {
    hide Inv, HandleTcp, HandlePending, Without;
    InvAsm(s);
    var f := FrameClient(s, conn, peer);
    if f.Some? {
      if m.InBye? {
        ByePending(s, f.value, t, o);
      } else {
        HandleTcpHarmless(s, f.value, m, t, o);
      }
    } else {
      var i := FindPending(s.pending, conn);
      if i >= 0 {
        HandlePendingPending(s, s.pending[i], m, t, o);
      }
    }
  }

  lemma ByePending(s: State, p: PeerId, t: real, o: Oracle)
    requires Inv(s) && p in s.clients
    ensures var c := s.clients[p];
            HandleTcp(s, p, InBye, t, o).state.pending == s.pending + [PendingTcp(c.connId, c.tcpAddr, o.now)]
  {
    hide Inv, RemoveClient;
    InvAsm(s);
    FacesAt(s, p);
    RemoveShape(Touch(s, p, t), p, true, o);
  }

  lemma ClosedPending(s: State, conn: ConnId, peer: PeerId, o: Oracle)
    ensures OnClosed(s, conn, peer, o).state.pending == Without(s.pending, conn)
  {
    hide RemoveClient, Without;
    var s1 := s.(pending := Without(s.pending, conn));
    if peer != 0 {
      if peer in s1.clients { RemoveShape(s1, peer, false, o); } else { RemoveAbsent(s1, peer, false, o); }
    } else {
      var owner := OwnerOf(s1.clients, conn);
      if owner.Some? {
        RemoveShape(s1.(clients := s1.clients[owner.value := s1.clients[owner.value].(connId := 0)]), owner.value, false, o);
      }
    }
  }

  /** The pending list after a step holds nothing that was not known or just accepted. */
  lemma StepPending(s: State, step: Step, c: ConnId)
    requires Inv(s) && Enabled(s, step)
    requires IsPending(Apply(s, step).state.pending, c)
    ensures Known(s, c) || (step.event.Net? && step.event.ev.TcpAccept? && step.event.ev.connId == c)
  {
    hide Inv, OnFrame, OnClosed, HandleUdp, RemoveClient, AdminKick, ApplyIdle, Without, FindPending, Visited, ValidOrder,
         HostAtHand, FrameClient;
    InvAsm(s);
    match step.event
    case Net(TcpAccept(conn, addr)) => AppendPending(s.pending, PendingTcp(conn, addr, step.t));
    case Net(TcpFrame(conn, peer, m)) =>
      FramePending(s, conn, peer, m, step.t, step.o);
      WithoutDrops(s.pending, conn);
      var f := FrameClient(s, conn, peer);
      if f.Some? {
        assert Owns(s.clients, f.value, s.clients[f.value].connId);
        forall e: PendingTcp { AppendPending(s.pending, e); }
      }
    case Net(TcpClosed(conn, peer)) =>
      ClosedPending(s, conn, peer, step.o);
      WithoutDrops(s.pending, conn);
    case Net(UdpDatagram(from, m)) => HandleUdpHarmless(s, from, m, step.t, step.o);
    case PendingTimeout(conn) => WithoutDrops(s.pending, conn);
    case ClientTimeout(p) => RemoveShape(s, p, false, step.o);
    case Kicked(p, ban) => KickShape(s, p, ban, step.o);
    case _ => IdleHarmless(s, step.event, step.o);
  }

  /** The connections a change speaks about were known before. */
  lemma ChangeKnown(s: State, step: Step)
    requires Inv(s) && Enabled(s, step)
    ensures var ch := ChangeOf(s, step);
            && ((ch.Bind? || ch.Rebind? || ch.ClosePending?) ==> Known(s, ch.c))
            && (ch.Rebind? ==> Known(s, ch.c0))
            && ((ch.DropClose? || ch.DropKeep? || ch.DropSilent?) ==> ch.p in s.clients && Known(s, s.clients[ch.p].connId))
  {
    hide Inv, Gate, SanitizeKey, Visited, ValidOrder, HostAtHand;
    InvAsm(s);
    var ch := ChangeOf(s, step);
    if ch.DropClose? || ch.DropKeep? || ch.DropSilent? {
      assert Owns(s.clients, ch.p, s.clients[ch.p].connId);
    } else if ch.Rebind? {
      assert Owns(s.clients, ch.p, ch.c0);
    }
  }
}
