/** Who gets in: the chain of checks in the Hello handler is equivalent to a plain
    statement about the session, and a rejected Hello leaves no trace but its rate count. */
module Admission {
  import opened Bytes
  import opened Blobs
  import opened RateLimit
  import opened Types
  import opened Session
  import opened SessionInv
  import opened Ownership
  import opened SessionFacts

  /** The conditions of admission, in no particular order. */
  ghost predicate Admissible(s: State, h: Hello) {
    && h.protocol == 12 && h.headerVersion == 12 && h.pluginVersion == 12
    && h.inWorld
    && SanitizeKey(h.playerKey) !in s.banned
    && (s.cfg.password == "" || h.password == s.cfg.password)
    && (s.modHash == 0 || h.modHash == s.modHash)
    && (h.requireHost ==> s.clients != map[] && s.world.host.location == COMMONWEALTH)
    && (|s.clients| < s.cfg.maxPlayers || exists p :: HasKey(s.clients, p, SanitizeKey(h.playerKey)))
  }

  lemma LiveHostIffAnyone(s: State)
    requires Inv(s)
    ensures LiveHost(s) <==> s.clients != map[]
  {
    if s.clients != map[] {
      FacesAt(s, s.world.hostPeerId);
    }
  }

  lemma GateIffAdmissible(s: State, h: Hello, o: Oracle)
    requires Inv(s)
    ensures Gate(s, h, o).None? <==> Admissible(s, h)
  {
    hide Inv, SanitizeKey;
    HostLookupIdle(s, o);
    LiveHostIffAnyone(s);
    var same := ByKey(s.clients, SanitizeKey(h.playerKey));
    assert same.Some? <==> exists p :: HasKey(s.clients, p, SanitizeKey(h.playerKey)) by {
      if same.Some? { assert HasKey(s.clients, same.value, SanitizeKey(h.playerKey)); }
    }
  }

  ghost predicate SendsWelcome(cmds: seq<Cmd>, conn: ConnId) {
    exists i :: 0 <= i < |cmds| && cmds[i].TcpSend? && cmds[i].connId == conn && cmds[i].msg.Welcome?
  }

  lemma GreetWelcomes(s: State, p: PeerId, isNew: bool, requireHost: bool, o: Oracle, before: seq<Cmd>)
    requires p in s.clients && s.clients[p].connId != 0
    ensures SendsWelcome(before + Greet(s, p, isNew, requireHost, o), s.clients[p].connId)
  {
    hide FanOut;
    var g := Greet(s, p, isNew, requireHost, o);
    assert (before + g)[|before|] == g[0];
  }

  /** A Hello on a pending connection that passes its rate check is welcomed exactly when it
      is admissible. If it is not, one Reject is queued and clients, records, pending list,
      host and world are as before. */
  lemma AdmissionIff(s: State, entry: PendingTcp, h: Hello, t: real, o: Oracle)
    requires Inv(s) && IsPending(s.pending, entry.connId)
    requires AllowRate(s.rates.hello, entry.addr, t, 2).1
    ensures var e := HandlePending(s, entry, InHello(h), t, o);
            && (SendsWelcome(e.cmds, entry.connId) <==> Admissible(s, h))
            && (!Admissible(s, h) ==>
                  && e.state == s.(rates := e.state.rates)
                  && Gate(s, h, o).Some?
                  && e.cmds == [TcpSend(entry.connId, 0, Reject(Gate(s, h, o).value))]
                  && e.jobs == [])
            && (Admissible(s, h) ==>
                  && Joined(s, h) in e.state.clients
                  && e.state.clients[Joined(s, h)].connId == entry.connId
                  && e.state.pending == Without(s.pending, entry.connId))
  {
    hide Inv, Admit, SanitizeKey, Gate, Without, Greet, BindingCmds, Joined, Admissible;
    var s1 := s.(rates := s.rates.(hello := AllowRate(s.rates.hello, entry.addr, t, 2).0));
    InvFrame(s, s1);
    HostLookupIdle(s1, o);
    GateIgnoresRates(s, s1.rates, h, o);
    GateIffAdmissible(s, h, o);
    if Gate(s1, h, o).None? {
      var e := Admit(s1, entry.connId, entry.addr, h, t, o);
      AdmitShape(s1, entry.connId, entry.addr, h, t, o);
      AdmitPending(s1, entry.connId, entry.addr, h, t, o);
      JoinedIgnoresRates(s, s1.rates, h);
      PendingNonZero(s, entry.connId);
      GreetWelcomes(e.state, Joined(s1, h), !RecOf(s1.players, SanitizeKey(h.playerKey)).havePose, h.requireHost, o,
                    BindingCmds(s1, entry.connId, h));
    }
  }

  lemma JoinedIgnoresRates(s: State, rates: Rates, h: Hello)
    ensures Joined(s.(rates := rates), h) == Joined(s, h)
  {
  }

  // ---------------------------------------------------------------- poses at joining time

  ghost predicate NoDatagrams(cmds: seq<Cmd>) { forall i :: 0 <= i < |cmds| ==> !cmds[i].UdpSend? }

  lemma {:induction false} PacketsByTcp(c: Client, p: PeerId, kind: BlobKind, from: PeerId, packets: seq<seq<Byte>>)
    ensures NoDatagrams(SendPackets(c, p, kind, from, packets))
  {
    if packets != [] {
      PacketsByTcp(c, p, kind, from, packets[..|packets| - 1]);
    }
  }

  lemma {:induction false} CatchUpByTcp(clients: map<PeerId, Client>, maxUu: real, p: PeerId, order: seq<PeerId>)
    requires p in clients && !clients[p].udpBound
    ensures NoDatagrams(FanOut(clients, maxUu, CatchUp(p), order))
  {
    hide SendPackets, Packets;
    if order != [] {
      var n := |order| - 1;
      CatchUpByTcp(clients, maxUu, p, order[..n]);
      if order[n] in clients {
        var other := clients[order[n]];
        PacketsByTcp(clients[p], p, Appearance, order[n], Packets(KindByte(Appearance), order[n] % 0x1_0000_0000, other.appearance));
        PacketsByTcp(clients[p], p, Inventory, order[n], Packets(KindByte(Inventory), order[n] % 0x1_0000_0000, other.inventory));
      }
    }
  }

  lemma JoinerUnbound(s: State, conn: ConnId, addr: Addr, h: Hello, t: real, o: Oracle)
    requires Inv(s) && IsPending(s.pending, conn) && Gate(s, h, o).None?
    ensures var e := Admit(s, conn, addr, h, t, o); Joined(s, h) in e.state.clients && !e.state.clients[Joined(s, h)].udpBound
  {
    hide Inv, Gate, FanOut, Enroll, Greet, Without, SanitizeKey, UnbindUdp, RecOf;
    AdmitShape(s, conn, addr, h, t, o);
    if h.requireHost { LateFallbackUnreachable(s, h, o); }
    EnrollFrame(s, h);
  }

  /** The poses meant for a client that joins are never sent: it has no UDP address yet. */
  lemma JoinSendsNoPose(s: State, conn: ConnId, addr: Addr, h: Hello, t: real, o: Oracle)
    requires Inv(s) && IsPending(s.pending, conn) && Gate(s, h, o).None?
    ensures NoDatagrams(Admit(s, conn, addr, h, t, o).cmds)
  {
    hide Inv, Gate, FanOut, Admit, SanitizeKey;
    AdmitShape(s, conn, addr, h, t, o);
    JoinerUnbound(s, conn, addr, h, t, o);
    var s' := Admit(s, conn, addr, h, t, o).state;
    CatchUpByTcp(s'.clients, s'.cfg.interestUu, Joined(s, h), o.order);
  }
}
