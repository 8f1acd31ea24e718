/** What every step queues, message by message: to whom, with what content, and nothing else. */
module Messages {
  import opened Bytes
  import opened Blobs
  import opened RateLimit
  import opened Types
  import opened Session
  import opened SessionInv
  import opened Ownership
  import opened SessionFacts
  import opened Admission

  // ---------------------------------------------------------------- who speaks

  /** A frame from connection `conn`, tagged `peer`, is the word of client `p`. */
  ghost predicate SpeaksFor(s: State, conn: ConnId, peer: PeerId, p: PeerId) {
    && p in s.clients
    && (|| (peer == p && p != 0)
        || ((peer == 0 || peer !in s.clients) && s.clients[p].connId == conn && !IsPending(s.pending, conn)))
  }

  /** ... or of the stranger that pending entry `i` stands for. */
  ghost predicate Stranger(s: State, conn: ConnId, peer: PeerId, i: nat) {
    (peer == 0 || peer !in s.clients) && i < |s.pending| && s.pending[i].connId == conn
  }

  function Said(conn: ConnId, peer: PeerId, m: InMsg, t: real, o: Oracle): Step { Step(Net(TcpFrame(conn, peer, m)), t, o) }

  lemma SpeaksIff(s: State, conn: ConnId, peer: PeerId, p: PeerId)
    requires Inv(s)
    ensures FrameClient(s, conn, peer) == Some(p) <==> SpeaksFor(s, conn, peer, p)
  {
    if p in s.clients && s.clients[p].connId == conn {
      assert Owns(s.clients, p, conn);
    }
    var i := FindPending(s.pending, conn);
    assert i >= 0 ==> IsPending(s.pending, conn);
  }

  lemma StrangerFound(s: State, conn: ConnId, peer: PeerId, i: nat)
    requires Inv(s) && Stranger(s, conn, peer, i)
    ensures FindPending(s.pending, conn) == i && IsPending(s.pending, conn)
  {
  }

  lemma ClientFrame(s: State, conn: ConnId, peer: PeerId, p: PeerId, m: InMsg, t: real, o: Oracle)
    requires Inv(s) && SpeaksFor(s, conn, peer, p)
    ensures AsmOk(s.appearAsm) && AsmOk(s.invAsm)
    ensures Apply(s, Said(conn, peer, m, t, o)) == HandleTcp(s, p, m, t, o)
  {
    hide Inv, HandleTcp, HandlePending, SpeaksFor;
    InvAsm(s);
    SpeaksIff(s, conn, peer, p);
  }

  lemma StrangerFrame(s: State, conn: ConnId, peer: PeerId, i: nat, m: InMsg, t: real, o: Oracle)
    requires Inv(s) && Stranger(s, conn, peer, i)
    ensures Apply(s, Said(conn, peer, m, t, o)) == HandlePending(s, s.pending[i], m, t, o)
  {
    hide Inv, HandleTcp, HandlePending;
    InvAsm(s);
    StrangerFound(s, conn, peer, i);
  }

  // ---------------------------------------------------------------- loops that queue one command a client

  /** The clients among `order` whose visit queues just `x`. */
  function Hit1(cs: map<PeerId, Client>, u: real, f: Fan, order: seq<PeerId>, x: Cmd): set<PeerId> {
    set q | q in order && Visit(cs, u, f, q) == [x]
  }

  function Any1(cs: map<PeerId, Client>, u: real, f: Fan, order: seq<PeerId>): set<PeerId> {
    set q | q in order && Visit(cs, u, f, q) != []
  }

  predicate Single(f: Fan) { !f.BlobToOthers? && !f.CatchUp? }

  lemma VisitShort(cs: map<PeerId, Client>, u: real, f: Fan, q: PeerId)
    requires Single(f)
    ensures |Visit(cs, u, f, q)| <= 1
  {
    hide InInterest;
  }

  lemma CountShort(xs: seq<Cmd>, x: Cmd)
    requires |xs| <= 1
    ensures Count(xs, x) == if xs == [x] then 1 else 0
  {
    if |xs| == 1 { assert xs[..0] == []; }
  }

  lemma {:induction false} FanCount(cs: map<PeerId, Client>, u: real, f: Fan, order: seq<PeerId>, x: Cmd)
    requires Single(f) && forall i, j :: 0 <= i < j < |order| ==> order[i] != order[j]
    ensures Count(FanOut(cs, u, f, order), x) == |Hit1(cs, u, f, order, x)|
    ensures |FanOut(cs, u, f, order)| == |Any1(cs, u, f, order)|
  {
    hide Visit, Hit1, Any1, Count;
    if order == [] {
      NoneVisited(cs, u, f, x);
    } else {
      var n := |order| - 1;
      var front, q := order[..n], order[n];
      HitInOrder(cs, u, f, front, x);
      FanCount(cs, u, f, front, x);
      VisitShort(cs, u, f, q);
      CountShort(Visit(cs, u, f, q), x);
      CountConcat(FanOut(cs, u, f, front), Visit(cs, u, f, q), x);
      assert q !in front;
      VisitedSnoc(cs, u, f, order, x);
    }
  }

  lemma NoneVisited(cs: map<PeerId, Client>, u: real, f: Fan, x: Cmd)
    ensures Hit1(cs, u, f, [], x) == {} && Any1(cs, u, f, []) == {} && Count([], x) == 0
  {
  }

  lemma HitInOrder(cs: map<PeerId, Client>, u: real, f: Fan, order: seq<PeerId>, x: Cmd)
    ensures forall q :: q in Hit1(cs, u, f, order, x) ==> q in order
    ensures forall q :: q in Any1(cs, u, f, order) ==> q in order
  {
  }

  lemma VisitedSnoc(cs: map<PeerId, Client>, u: real, f: Fan, order: seq<PeerId>, x: Cmd)
    requires order != []
    ensures var front, q := order[..|order| - 1], order[|order| - 1];
            && Hit1(cs, u, f, order, x) == Hit1(cs, u, f, front, x) + (if Visit(cs, u, f, q) == [x] then {q} else {})
            && Any1(cs, u, f, order) == Any1(cs, u, f, front) + (if Visit(cs, u, f, q) != [] then {q} else {})
  {
    hide Visit;
    var front, q := order[..|order| - 1], order[|order| - 1];
    assert order == front + [q];
    assert forall r :: r in order <==> r in front || r == q;
  }

  /** A loop that reaches one client queues one command. */
  lemma {:induction false} OneTarget(cs: map<PeerId, Client>, u: real, target: PeerId, m: OutMsg, order: seq<PeerId>)
    requires forall i, j :: 0 <= i < j < |order| ==> order[i] != order[j]
    requires target in cs ==> cs[target].connId != 0
    ensures FanOut(cs, u, ToOne(target, m), order)
         == if target in cs && target in order then [TcpSend(cs[target].connId, target, m)] else []
  {
    if order != [] {
      var n := |order| - 1;
      OneTarget(cs, u, target, m, order[..n]);
      assert order == order[..n] + [order[n]];
      assert target in order <==> target in order[..n] || target == order[n];
    }
  }

  lemma ToTarget(s: State, target: PeerId, m: OutMsg, o: Oracle)
    requires Inv(s) && ValidOrder(o.order, s.clients.Keys)
    ensures Broadcast(s, ToOne(target, m), o) == if target in s.clients then [TcpSend(s.clients[target].connId, target, m)] else []
  {
    hide Inv;
    if target in s.clients { FacesAt(s, target); ConnNonZero(s, target); }
    OneTarget(s.clients, s.cfg.interestUu, target, m, o.order);
  }

  lemma ConnNonZero(s: State, q: PeerId)
    requires Inv(s) && q in s.clients
    ensures s.clients[q].connId != 0
  {
  }

  /** Every client but `except` (0 for none) gets one copy, and that is all. */
  ghost predicate OneCopyEach(s: State, cmds: seq<Cmd>, except: PeerId, m: OutMsg) {
    && (forall q :: q in s.clients && q != except ==> Count(cmds, TcpSend(s.clients[q].connId, q, m)) == 1)
    && |cmds| == |s.clients.Keys - {except}|
  }

  lemma VisitOther(cs: map<PeerId, Client>, u: real, except: PeerId, m: OutMsg, q: PeerId)
    ensures Visit(cs, u, ToOthers(except, m), q)
         == if q in cs && q != except && cs[q].connId != 0 then [TcpSend(cs[q].connId, q, m)] else []
  {
  }

  lemma OthersOnce(s: State, except: PeerId, m: OutMsg, o: Oracle)
    requires Inv(s) && ValidOrder(o.order, s.clients.Keys)
    ensures OneCopyEach(s, Broadcast(s, ToOthers(except, m), o), except, m)
  {
    hide Inv, Visit, FanOut, Count;
    var f, u := ToOthers(except, m), s.cfg.interestUu;
    forall q | q in s.clients ensures s.clients[q].connId != 0 { ConnNonZero(s, q); }
    forall q | q in s.clients && q != except
      ensures Count(Broadcast(s, f, o), TcpSend(s.clients[q].connId, q, m)) == 1
    {
      var x := TcpSend(s.clients[q].connId, q, m);
      FanCount(s.clients, u, f, o.order, x);
      forall r ensures r in Hit1(s.clients, u, f, o.order, x) <==> r == q {
        VisitOther(s.clients, u, except, m, r);
      }
      assert Hit1(s.clients, u, f, o.order, x) == {q};
    }
    FanCount(s.clients, u, f, o.order, CloseConn(0));
    forall r ensures r in Any1(s.clients, u, f, o.order) <==> r in s.clients.Keys - {except} {
      VisitOther(s.clients, u, except, m, r);
    }
    assert Any1(s.clients, u, f, o.order) == s.clients.Keys - {except};
  }

  lemma VisitAll(cs: map<PeerId, Client>, u: real, m: OutMsg, q: PeerId)
    ensures Visit(cs, u, ToAll(m), q) == if q in cs && cs[q].connId != 0 then [TcpSend(cs[q].connId, q, m)] else []
  {
  }

  lemma AllOnce(s: State, m: OutMsg, o: Oracle)
    requires Inv(s) && ValidOrder(o.order, s.clients.Keys)
    ensures OneCopyEach(s, Broadcast(s, ToAll(m), o), 0, m)
  {
    hide Inv, Visit, FanOut, Count;
    var f, u := ToAll(m), s.cfg.interestUu;
    NoZero(s);
    forall q | q in s.clients ensures s.clients[q].connId != 0 { ConnNonZero(s, q); }
    forall q | q in s.clients
      ensures Count(Broadcast(s, f, o), TcpSend(s.clients[q].connId, q, m)) == 1
    {
      var x := TcpSend(s.clients[q].connId, q, m);
      FanCount(s.clients, u, f, o.order, x);
      forall r ensures r in Hit1(s.clients, u, f, o.order, x) <==> r == q { VisitAll(s.clients, u, m, r); }
      assert Hit1(s.clients, u, f, o.order, x) == {q};
    }
    FanCount(s.clients, u, f, o.order, CloseConn(0));
    forall r ensures r in Any1(s.clients, u, f, o.order) <==> r in s.clients.Keys - {0} { VisitAll(s.clients, u, m, r); }
    assert Any1(s.clients, u, f, o.order) == s.clients.Keys - {0};
  }

  lemma NoZero(s: State)
    requires Inv(s)
    ensures 0 !in s.clients
  {
  }

  // ---------------------------------------------------------------- messages of live clients

  /** The same session, the client heard from at `t`. */
  lemma TouchedInv(s: State, p: PeerId, t: real)
    requires Inv(s) && p in s.clients
    ensures var s1 := Touch(s, p, t);
            && Inv(s1) && s1.clients.Keys == s.clients.Keys && s1.world == s.world && s1.cfg == s.cfg && s1.rates == s.rates
            && s1.players == s.players && s1.tokenSeed == s.tokenSeed
            && forall q :: q in s.clients ==> s1.clients[q] == if q == p then s.clients[q].(lastSeen := t) else s.clients[q]
  {
    hide Inv;
    TouchKeepsInv(s, p, t);
  }

  /** A Kick or Teleport is relayed exactly when it comes from the host and its target is
      live: one copy, to that target, and nothing to anybody else. */
  lemma KickRelayed(s: State, conn: ConnId, peer: PeerId, p: PeerId, target: PeerId, reason: string, t: real, o: Oracle)
    requires Inv(s) && SpeaksFor(s, conn, peer, p) && ValidOrder(o.order, s.clients.Keys)
    ensures (InvAsm(s); Apply(s, Said(conn, peer, InKick(target, reason), t, o)).cmds)
         == if p == s.world.hostPeerId && target in s.clients then [TcpSend(s.clients[target].connId, target, Kick(target, reason))] else []
  {
    hide Inv, SpeaksFor, Broadcast;
    ClientFrame(s, conn, peer, p, InKick(target, reason), t, o);
    assert p in s.clients by { SpeaksIff(s, conn, peer, p); }
    TouchedInv(s, p, t);
    ToTarget(Touch(s, p, t), target, Kick(target, reason), o);
  }

  lemma TeleportRelayed(s: State, conn: ConnId, peer: PeerId, p: PeerId, target: PeerId, place: Place, t: real, o: Oracle)
    requires Inv(s) && SpeaksFor(s, conn, peer, p) && ValidOrder(o.order, s.clients.Keys)
    ensures (InvAsm(s); Apply(s, Said(conn, peer, InTeleport(target, place), t, o)).cmds)
         == if p == s.world.hostPeerId && target in s.clients then [TcpSend(s.clients[target].connId, target, Teleport(target, place))] else []
  {
    hide Inv, SpeaksFor, Broadcast;
    ClientFrame(s, conn, peer, p, InTeleport(target, place), t, o);
    assert p in s.clients by { SpeaksIff(s, conn, peer, p); }
    TouchedInv(s, p, t);
    ToTarget(Touch(s, p, t), target, Teleport(target, place), o);
  }

  /** A hit goes to its live target alone, when hits are allowed, the sender hits as itself and
      somebody else, within 24 a second, with a positive damage of at most 500. */
  lemma HitRelayed(s: State, conn: ConnId, peer: PeerId, p: PeerId, attacker: PeerId, target: PeerId, damage: real, flags: nat, t: real, o: Oracle)
    requires Inv(s) && SpeaksFor(s, conn, peer, p) && ValidOrder(o.order, s.clients.Keys)
    ensures (InvAsm(s); Apply(s, Said(conn, peer, InHit(attacker, target, damage, flags), t, o)).cmds)
         == if s.cfg.pvp && AllowRate(s.rates.hit, p, t, 24).1 && attacker == p && target in s.clients && target != p && damage > 0.0
            then [TcpSend(s.clients[target].connId, target, Hit(p, target, if damage > 500.0 then 500.0 else damage, flags))] else []
  {
    hide Inv, SpeaksFor, Broadcast, AllowRate;
    var m := InHit(attacker, target, damage, flags);
    ClientFrame(s, conn, peer, p, m, t, o);
    assert p in s.clients by { SpeaksIff(s, conn, peer, p); }
    TouchedInv(s, p, t);
    NoZero(s);
    var s1 := Touch(s, p, t);
    var s2 := s1.(rates := s1.rates.(hit := AllowRate(s1.rates.hit, p, t, 24).0));
    InvFrame(s1, s2);
    ToTarget(s2, target, Hit(p, target, if damage > 500.0 then 500.0 else damage, flags), o);
  }

  /** A chat line goes once to every other client, within 4 a second. */
  lemma ChatRelayed(s: State, conn: ConnId, peer: PeerId, p: PeerId, text: string, t: real, o: Oracle)
    requires Inv(s) && SpeaksFor(s, conn, peer, p) && ValidOrder(o.order, s.clients.Keys)
    ensures var cmds := (InvAsm(s); Apply(s, Said(conn, peer, InChat(text), t, o)).cmds);
            if AllowRate(s.rates.chat, p, t, 4).1 then OneCopyEach(s, cmds, p, Chat(p, text)) else cmds == []
  {
    hide Inv, SpeaksFor, Broadcast, AllowRate, Count;
    ClientFrame(s, conn, peer, p, InChat(text), t, o);
    assert p in s.clients by { SpeaksIff(s, conn, peer, p); }
    TouchedInv(s, p, t);
    var s1 := Touch(s, p, t);
    var s2 := s1.(rates := s1.rates.(chat := AllowRate(s1.rates.chat, p, t, 4).0));
    InvFrame(s1, s2);
    OthersOnce(s2, p, Chat(p, text), o);
  }

  /** A heartbeat is echoed to its sender, under the sender's own id. */
  lemma HeartbeatEchoed(s: State, conn: ConnId, peer: PeerId, p: PeerId, stamp: nat, t: real, o: Oracle)
    requires Inv(s) && SpeaksFor(s, conn, peer, p)
    ensures (InvAsm(s); Apply(s, Said(conn, peer, InHeartbeat(stamp), t, o)).cmds)
         == [TcpSend(s.clients[p].connId, p, Heartbeat(p, stamp))]
  {
    hide Inv, SpeaksFor;
    ClientFrame(s, conn, peer, p, InHeartbeat(stamp), t, o);
    assert p in s.clients by { SpeaksIff(s, conn, peer, p); }
    ConnNonZero(s, p);
  }

  /** A second Hello is answered by one Welcome, with a token that replaces the old one. */
  lemma HelloAnswered(s: State, conn: ConnId, peer: PeerId, p: PeerId, h: Hello, t: real, o: Oracle)
    requires Inv(s) && SpeaksFor(s, conn, peer, p)
    ensures var e := (InvAsm(s); Apply(s, Said(conn, peer, InHello(h), t, o)));
            && p in e.state.clients && e.state.clients[p].connId == s.clients[p].connId && e.state.world == s.world && e.state.cfg == s.cfg
            && e.state.clients[p].udpToken == e.state.tokenSeed == NextToken(s.tokenSeed) && e.state.clients[p].key == s.clients[p].key
            && e.cmds == [TcpSend(s.clients[p].connId, p,
                           Welcome(p, !RecOf(s.players, s.clients[p].key).havePose, p == s.world.hostPeerId,
                                   (if s.cfg.pvp then 1 else 0) + (if s.cfg.password != "" then 2 else 0), e.state.clients[p].udpToken))]
  {
    hide Inv, SpeaksFor, UnbindUdp, RecOf;
    ClientFrame(s, conn, peer, p, InHello(h), t, o);
    assert p in s.clients by { SpeaksIff(s, conn, peer, p); }
    ConnNonZero(s, p);
    TouchedInv(s, p, t);
    var s1 := Touch(s, p, t);
    var token := NextToken(s1.tokenSeed);
    UnbindFrame(s1.(tokenSeed := token, clients := s1.clients[p := s1.clients[p].(udpToken := token)]), p);
  }

  // ---------------------------------------------------------------- strangers

  /** The answer to a query, within 4 a second: the host and its place if there is one, and
      whether that is inside somewhere. */
  lemma QueryAnswered(s: State, conn: ConnId, peer: PeerId, i: nat, t: real, o: Oracle)
    requires Inv(s) && Stranger(s, conn, peer, i)
    ensures (InvAsm(s); Apply(s, Said(conn, peer, InSessionQuery, t, o)).cmds)
         == if !AllowRate(s.rates.query, s.pending[i].addr, t, 4).1 then []
            else [TcpSend(conn, 0, SessionInfo(
                    s.world.hostPeerId, if s.clients != map[] then s.world.host else Place(0, 0.0, 0.0, 0.0), |s.clients|, s.clients != map[],
                    s.clients != map[] && s.world.host.location != 0 && s.world.host.location != 0x3C, s.cfg.name, s.cfg.maxPlayers, s.cfg.motd,
                    (if s.cfg.pvp then 1 else 0) + (if s.cfg.password != "" then 2 else 0)))]
  {
    hide Inv, AllowRate;
    StrangerFrame(s, conn, peer, i, InSessionQuery, t, o);
    var s1 := s.(rates := s.rates.(query := AllowRate(s.rates.query, s.pending[i].addr, t, 4).0));
    InvFrame(s, s1);
    HostLookupIdle(s1, o);
    HostThere(s1);
  }

  lemma HostThere(s: State)
    requires Inv(s)
    ensures if s.clients == map[] then s.world.hostPeerId == 0
            else s.world.hostPeerId in s.clients && s.world.hostPeerId != 0 && s.clients[s.world.hostPeerId].havePose
  {
  }

  /** Why a Hello is turned away: the first condition that fails, in the order of the code. */
  lemma RejectReasons(s: State, conn: ConnId, peer: PeerId, i: nat, h: Hello, t: real, o: Oracle)
    requires Inv(s) && Stranger(s, conn, peer, i) && AllowRate(s.rates.hello, s.pending[i].addr, t, 2).1 && !Admissible(s, h)
    ensures (InvAsm(s); Apply(s, Said(conn, peer, InHello(h), t, o)).cmds)
         == [TcpSend(conn, 0, Reject(
              if h.protocol != 12 || h.headerVersion != 12 then Protocol
              else if h.pluginVersion != 12 then PluginVersion
              else if !h.inWorld then NotInWorld
              else if SanitizeKey(h.playerKey) in s.banned then Banned
              else if s.cfg.password != "" && h.password != s.cfg.password then Password
              else if s.modHash != 0 && h.modHash != s.modHash then ModMismatch
              else if h.requireHost && s.clients == map[] then NoHost
              else if h.requireHost && s.world.host.location != 0x3C then HostNotStreaming
              else Full))]
  {
    hide Inv, AllowRate, SanitizeKey, Admit, Admissible, HasKey;
    StrangerFrame(s, conn, peer, i, InHello(h), t, o);
    var s1 := s.(rates := s.rates.(hello := AllowRate(s.rates.hello, s.pending[i].addr, t, 2).0));
    InvFrame(s, s1);
    GateIffAdmissible(s, h, o);
    GateIgnoresRates(s, s1.rates, h, o);
    HostLookupIdle(s, o);
    HostLookupIdle(s1, o);
    HostThere(s);
  }

  /** A stranger that is let in: bound, welcomed, told where the world is, and told what
      everybody else looks like and carries; nothing else, and nobody else is told. */
  lemma HelloWelcomed(s: State, conn: ConnId, peer: PeerId, i: nat, h: Hello, t: real, o: Oracle) returns (looks: seq<Cmd>)
    requires Inv(s) && Stranger(s, conn, peer, i) && AllowRate(s.rates.hello, s.pending[i].addr, t, 2).1 && Admissible(s, h)
    ensures var e, p := (InvAsm(s); Apply(s, Said(conn, peer, InHello(h), t, o))), Joined(s, h);
            var rec, w, isNew := RecOf(e.state.players, SanitizeKey(h.playerKey)), e.state.world, !RecOf(s.players, SanitizeKey(h.playerKey)).havePose;
            && p in e.state.clients && e.state.clients[p].connId == conn && e.state.clients[p].key == SanitizeKey(h.playerKey)
            && e.cmds == BindingCmds(s, conn, h)
                 + [TcpSend(conn, p, Welcome(p, isNew, p == w.hostPeerId,
                      (if s.cfg.pvp then 1 else 0) + (if s.cfg.password != "" then 2 else 0), e.state.clients[p].udpToken))]
                 + [TcpSend(conn, p, WorldSnapshot(w,
                      if h.requireHost then w.host.(x := w.host.x + 80.0)
                      else if rec.havePose && rec.place.location != 0 && rec.place.location == w.host.location then rec.place
                      else w.host, isNew))]
                 + looks
            && looks == Broadcast(e.state, CatchUp(p), o)
            && e.jobs == []
  {
    hide Inv, AllowRate, SanitizeKey, Admit, Admissible, Broadcast, Gate, BindingCmds, RecOf;
    StrangerFrame(s, conn, peer, i, InHello(h), t, o);
    StrangerFound(s, conn, peer, i);
    var s1 := s.(rates := s.rates.(hello := AllowRate(s.rates.hello, s.pending[i].addr, t, 2).0));
    InvFrame(s, s1);
    GateIffAdmissible(s, h, o);
    GateIgnoresRates(s, s1.rates, h, o);
    HostLookupIdle(s1, o);
    AdmitShape(s1, conn, s.pending[i].addr, h, t, o);
    AdmitRecord(s1, conn, s.pending[i].addr, h, t, o);
    PendingNonZero(s, conn);
    SameBinding1(s, s1, conn, h);
    looks := Broadcast(Admit(s1, conn, s.pending[i].addr, h, t, o).state, CatchUp(Joined(s, h)), o);
  }

  lemma SameBinding1(s: State, s1: State, conn: ConnId, h: Hello)
    requires s1 == s.(rates := s1.rates)
    ensures BindingCmds(s1, conn, h) == BindingCmds(s, conn, h) && Joined(s1, h) == Joined(s, h)
  {
  }

  lemma AdmitRecord(s: State, conn: ConnId, addr: Addr, h: Hello, t: real, o: Oracle)
    requires Inv(s) && IsPending(s.pending, conn) && Gate(s, h, o).None?
    ensures var e := Admit(s, conn, addr, h, t, o);
            && Joined(s, h) in e.state.clients && e.state.clients[Joined(s, h)].key == SanitizeKey(h.playerKey)
            && e.state.cfg == s.cfg
            && RecOf(e.state.players, SanitizeKey(h.playerKey)).havePose == RecOf(s.players, SanitizeKey(h.playerKey)).havePose
  {
    hide Inv, Gate, FanOut, Greet, Without, SanitizeKey, Enroll, Reattach, AddClient;
    AdmitShape(s, conn, addr, h, t, o);
    if h.requireHost { LateFallbackUnreachable(s, h, o); }
    EnrollFrame(s, h);
    EnrollPose(s, h);
    var same := ByKey(s.clients, SanitizeKey(h.playerKey));
    if same.Some? {
      ReattachFrame(Enroll(s, h), same.value, conn, addr, h, t);
      ReattachKey(Enroll(s, h), same.value, conn, addr, h, t);
    } else {
      AddFrame(Enroll(s, h), conn, addr, h, t);
      NewClientKey(Enroll(s, h), conn, addr, h, t);
    }
  }

  lemma EnrollPose(s: State, h: Hello)
    ensures RecOf(Enroll(s, h).players, SanitizeKey(h.playerKey)).havePose == RecOf(s.players, SanitizeKey(h.playerKey)).havePose
  {
    hide SanitizeKey;
  }

  lemma ReattachKey(s: State, p: PeerId, conn: ConnId, addr: Addr, h: Hello, t: real)
    requires p in s.clients
    ensures var cs := Reattach(s, p, conn, addr, h, t).state.clients; p in cs && cs[p].key == SanitizeKey(h.playerKey)
  {
    hide SanitizeKey, RecOf, NextToken;
  }

  lemma NewClientKey(s: State, conn: ConnId, addr: Addr, h: Hello, t: real)
    ensures NewClient(s, conn, addr, h, t).key == SanitizeKey(h.playerKey)
  {
    hide SanitizeKey;
  }
}
