/** Departures, step by step: what each leaves behind, what it queues and what it saves. */
module Exits {
  import opened Bytes
  import opened Blobs
  import opened Types
  import opened Session
  import opened SessionInv
  import opened Ownership
  import opened SessionFacts
  import opened Messages
  import opened Posts

  // ---------------------------------------------------------------- one departure

  /** The tables after client `p` left and everything dirty went to the worker: the host role
      stays, unless it was the leaver's; then it falls on the client at hand, if any is left. */
  function Departed(s: State, p: PeerId, pending': seq<PendingTcp>, next: PeerId): State
    requires p in s.clients
  {
    s.(clients := s.clients - {p},
       udpIndex := if s.clients[p].udpBound then s.udpIndex - {s.clients[p].udpAddr} else s.udpIndex,
       pending := pending',
       world := s.world.(hostPeerId := if s.world.hostPeerId != p then s.world.hostPeerId else if s.clients.Keys == {p} then 0 else next),
       dirty := {}, worldDirty := false)
  }

  /** The one job of a departure: the world if it changed, and every marked record, the
      leaver's among them. */
  function LeaveJob(s: State, p: PeerId, world': World): Job
    requires p in s.clients
  {
    Job(if s.worldDirty then Some(world') else None,
        map k | k in s.dirty + {s.clients[p].key} && k in s.players :: s.players[k], None)
  }

  lemma HostAfter(s: State, p: PeerId, next: PeerId)
    requires p in s.clients && HostOk(s.clients, s.world.hostPeerId) && HostChoice(s.clients - {p}, next) && 0 !in s.clients
    ensures FindHost(s.clients - {p}, Leaving(s, p).world, next)
         == s.world.(hostPeerId := if s.world.hostPeerId != p then s.world.hostPeerId else if s.clients.Keys == {p} then 0 else next)
  {
    var rest := s.clients - {p};
    assert rest.Keys == s.clients.Keys - {p};
    assert s.clients.Keys == rest.Keys + {p};
  }

  lemma DepartedIs(s: State, p: PeerId, keepTcp: bool, o: Oracle)
    requires p in s.clients && s.clients[p].key in s.players
    requires HostOk(s.clients, s.world.hostPeerId) && HostChoice(s.clients - {p}, o.host) && 0 !in s.clients
    ensures var e, c := RemoveClient(s, p, keepTcp, o), s.clients[p];
            && e.state == Departed(s, p, if keepTcp && c.connId != 0 then s.pending + [PendingTcp(c.connId, c.tcpAddr, o.now)] else s.pending, o.host)
            && e.jobs == [LeaveJob(s, p, e.state.world)]
  {
    hide Broadcast, FindHost, UnbindUdp, HostOk, HostChoice;
    var s1 := Leaving(s, p);
    UnbindShape(s1, p);
    HostAfter(s, p, o.host);
    LeaverSaved(s, p);
  }

  lemma LeaverSaved(s: State, p: PeerId)
    requires p in s.clients && s.clients[p].key in s.players
    ensures (map k | k in s.dirty + {s.clients[p].key} && k in s.players :: s.players[k]) != map[]
  {
    var snap := map k | k in s.dirty + {s.clients[p].key} && k in s.players :: s.players[k];
    assert s.clients[p].key in snap;
  }

  lemma InvHost(s: State)
    requires Inv(s)
    ensures HostOk(s.clients, s.world.hostPeerId) && 0 !in s.clients
  {
  }

  /** One Bye to each other client, and one last word on the leaver's connection. */
  ghost predicate Farewell(s: State, cmds: seq<Cmd>, p: PeerId, lastly: seq<Cmd>) {
    && (forall q :: q in s.clients && q != p ==> Count(cmds, TcpSend(s.clients[q].connId, q, Bye(p))) == 1)
    && |cmds| == |s.clients| - 1 + |lastly|
    && |lastly| <= |cmds| && cmds[|cmds| - |lastly|..] == lastly
  }

  lemma FarewellIs(s: State, p: PeerId, keepTcp: bool, o: Oracle)
    requires Inv(s) && p in s.clients && ValidOrder(o.order, s.clients.Keys)
    ensures Farewell(s, RemoveClient(s, p, keepTcp, o).cmds, p, [if keepTcp then KeepPending(p) else CloseConn(s.clients[p].connId)])
  {
    hide Inv, RemoveClient, Count;
    OneByeEach(s, p, keepTcp, o);
    var cmds := RemoveClient(s, p, keepTcp, o).cmds;
    assert s.clients.Keys != {} && |s.clients| == |s.clients.Keys|;
    assert cmds[|cmds| - 1..] == [cmds[|cmds| - 1]];
  }

  // ---------------------------------------------------------------- a Bye

  lemma Freshened(s: State, p: PeerId, t: real)
    requires p in s.clients
    ensures var s1 := Touch(s, p, t);
            && s1.clients - {p} == s.clients - {p} && s1.clients.Keys == s.clients.Keys && s1 == s.(clients := s1.clients)
            && s1.clients[p] == s.clients[p].(lastSeen := t)
            && forall q :: q in s.clients && q != p ==> s1.clients[q] == s.clients[q]
  {
  }

  /** A client that says Bye leaves; its connection becomes a stranger's again. */
  lemma ByePost(s: State, conn: ConnId, peer: PeerId, p: PeerId, t: real, o: Oracle)
    requires Inv(s) && SpeaksFor(s, conn, peer, p) && HostChoice(s.clients - {p}, o.host)
    ensures p in s.clients
    ensures var e, c := (InvAsm(s); Apply(s, Said(conn, peer, InBye, t, o))), s.clients[p];
            && e.state == Departed(s, p, s.pending + [PendingTcp(c.connId, c.tcpAddr, o.now)], o.host)
            && e.jobs == [LeaveJob(s, p, e.state.world)]
            && (ValidOrder(o.order, s.clients.Keys) ==> Farewell(s, e.cmds, p, [KeepPending(p)]))
  {
    hide Inv, SpeaksFor, Apply, RemoveClient, HostChoice, ValidOrder, Count;
    InClients(s, conn, peer, p);
    ClientFrame(s, conn, peer, p, InBye, t, o);
    TouchedInv(s, p, t);
    Freshened(s, p, t);
    var s1 := Touch(s, p, t);
    CachedAt(s, p);
    InvHost(s);
    FacesAt(s, p);
    DepartedIs(s1, p, true, o);
    if ValidOrder(o.order, s.clients.Keys) { FarewellIs(s1, p, true, o); }
  }

  // ---------------------------------------------------------------- timeouts

  /** A client that is overdue leaves, and its connection is closed. */
  lemma TimeoutPost(s: State, p: PeerId, t: real, o: Oracle)
    requires Inv(s) && p in s.clients && HostChoice(s.clients - {p}, o.host)
    ensures var e := (InvAsm(s); Apply(s, Step(ClientTimeout(p), t, o)));
            && e.state == Departed(s, p, s.pending, o.host)
            && e.jobs == [LeaveJob(s, p, e.state.world)]
            && (ValidOrder(o.order, s.clients.Keys) ==> Farewell(s, e.cmds, p, [CloseConn(s.clients[p].connId)]))
  {
    hide Inv, RemoveClient, HostChoice, ValidOrder, Count;
    InvAsm(s);
    CachedAt(s, p);
    InvHost(s);
    DepartedIs(s, p, false, o);
    if ValidOrder(o.order, s.clients.Keys) { FarewellIs(s, p, false, o); }
  }

  /** A stranger's time runs out after ten seconds, and not before. */
  lemma StrangerExpires(s: State, conn: ConnId, i: nat, t: real, o: Oracle)
    requires Inv(s) && i < |s.pending| && s.pending[i].connId == conn && ValidOrder(o.order, s.clients.Keys)
    ensures Enabled(s, Step(PendingTimeout(conn), t, o)) <==> t - s.pending[i].connectedAt > 10.0
    ensures (InvAsm(s); Apply(s, Step(PendingTimeout(conn), t, o)))
         == Effect(s.(pending := s.pending[..i] + s.pending[i + 1..]), [CloseConn(conn)], [])
  {
    CutOut(s, conn, i);
  }

  // ---------------------------------------------------------------- closed connections

  /** The pending list without the closed connection. */
  function Unlisted(pending: seq<PendingTcp>, conn: ConnId): seq<PendingTcp> {
    var i := FindPending(pending, conn);
    if i >= 0 then pending[..i] + pending[i + 1..] else pending
  }

  lemma UnlistedIs(s: State, conn: ConnId)
    requires Inv(s)
    ensures Without(s.pending, conn) == Unlisted(s.pending, conn)
  {
    hide Inv;
    var i := FindPending(s.pending, conn);
    if i >= 0 { CutOut(s, conn, i); } else { CutNothing(s.pending, conn); }
  }

  /** The event names a client: it leaves, and its connection, whichever it is now, is closed. */
  lemma ClosedPost(s: State, conn: ConnId, p: PeerId, t: real, o: Oracle)
    requires Inv(s) && p in s.clients && HostChoice(s.clients - {p}, o.host)
    ensures var e := (InvAsm(s); Apply(s, Step(Net(TcpClosed(conn, p)), t, o)));
            && e.state == Departed(s, p, Unlisted(s.pending, conn), o.host)
            && e.jobs == [LeaveJob(s, p, e.state.world)]
            && (ValidOrder(o.order, s.clients.Keys) ==> Farewell(s, e.cmds, p, [CloseConn(s.clients[p].connId)]))
  {
    hide Inv, RemoveClient, HostChoice, ValidOrder, Without, Unlisted, Count;
    InvAsm(s);
    InvHost(s);
    UnlistedIs(s, conn);
    DropPendingKeepsInv(s, conn);
    var s1 := s.(pending := Without(s.pending, conn));
    CachedAt(s, p);
    DepartedIs(s1, p, false, o);
    if ValidOrder(o.order, s.clients.Keys) { FarewellIs(s1, p, false, o); }
  }

  /** The event names nobody: the client on the connection leaves, if there is one, and there
      is nothing left to close. */
  lemma ClosedUntagged(s: State, conn: ConnId, p: PeerId, t: real, o: Oracle)
    requires Inv(s) && Owns(s.clients, p, conn) && HostChoice(s.clients - {p}, o.host)
    ensures var e := (InvAsm(s); Apply(s, Step(Net(TcpClosed(conn, 0)), t, o)));
            && e.state == Departed(s, p, Unlisted(s.pending, conn), o.host)
            && e.jobs == [LeaveJob(s, p, e.state.world)]
            && (ValidOrder(o.order, s.clients.Keys) ==> OneCopyEach(s, e.cmds, p, Bye(p)))
  {
    hide Inv, RemoveClient, HostChoice, Without, Unlisted, ValidOrder, OneCopyEach;
    InvAsm(s);
    InvHost(s);
    UnlistedIs(s, conn);
    OneOwner(s, conn, p);
    CachedAt(s, p);
    var s1 := s.(pending := Without(s.pending, conn));
    var s2 := s1.(clients := s1.clients[p := s1.clients[p].(connId := 0)]);
    assert s2.clients - {p} == s.clients - {p};
    HostSame(s, s2);
    DepartedIs(s2, p, false, o);
    SilentByes(s, s2, p, o);
  }

  lemma ClosedNobody(s: State, conn: ConnId, t: real, o: Oracle)
    requires Inv(s) && forall p :: !Owns(s.clients, p, conn)
    ensures (InvAsm(s); Apply(s, Step(Net(TcpClosed(conn, 0)), t, o))) == Quiet(s.(pending := Unlisted(s.pending, conn)))
  {
    hide Inv, Without, Unlisted;
    InvAsm(s);
    UnlistedIs(s, conn);
  }

  lemma SilentByes(s: State, s2: State, p: PeerId, o: Oracle)
    requires Inv(s) && p in s.clients && s2.clients == s.clients[p := s.clients[p].(connId := 0)] && s2.cfg == s.cfg
    ensures ValidOrder(o.order, s.clients.Keys) ==> OneCopyEach(s, RemoveClient(s2, p, false, o).cmds, p, Bye(p))
  {
    hide Inv, FanOut, OneCopyEach, ValidOrder;
    OthersSame(s.clients, s2.clients, s.cfg.interestUu, p, Bye(p), o.order);
    var byes := Broadcast(s2, ToOthers(p, Bye(p)), o);
    assert byes + [] == byes;
    if ValidOrder(o.order, s.clients.Keys) { OthersOnce(s, p, Bye(p), o); }
  }

  /** What the others are told does not depend on the one left out. */
  lemma {:induction false} OthersSame(cs: map<PeerId, Client>, cs2: map<PeerId, Client>, u: real, p: PeerId, m: OutMsg, order: seq<PeerId>)
    requires p in cs && p in cs2 && cs2 == cs[p := cs2[p]]
    ensures FanOut(cs2, u, ToOthers(p, m), order) == FanOut(cs, u, ToOthers(p, m), order)
  {
    if order != [] {
      OthersSame(cs, cs2, u, p, m, order[..|order| - 1]);
    }
  }

  lemma HostSame(s: State, s2: State)
    requires Inv(s) && s2.clients.Keys == s.clients.Keys && s2.world == s.world
    ensures HostOk(s2.clients, s2.world.hostPeerId) && 0 !in s2.clients
  {
  }

  lemma OneOwner(s: State, conn: ConnId, p: PeerId)
    requires Inv(s) && Owns(s.clients, p, conn)
    ensures forall q :: Owns(s.clients, q, conn) ==> q == p
  {
  }

  lemma ClosedStranger(s: State, conn: ConnId, peer: PeerId, t: real, o: Oracle)
    requires Inv(s) && peer != 0 && peer !in s.clients
    ensures (InvAsm(s); Apply(s, Step(Net(TcpClosed(conn, peer)), t, o))) == Quiet(s.(pending := Unlisted(s.pending, conn)))
  {
    hide Inv, Without, Unlisted;
    InvAsm(s);
    UnlistedIs(s, conn);
  }

  // ---------------------------------------------------------------- kicks

  lemma KickedIs(s: State, p: PeerId, ban: bool, o: Oracle)
    requires p in s.clients && s.clients[p].connId != 0
    requires HostOk(s.clients, s.world.hostPeerId) && HostChoice(s.clients - {p}, o.host) && 0 !in s.clients && s.clients[p].key in s.players
    ensures var e, c := AdminKick(s, p, ban, o), s.clients[p];
            && e.state == Departed(s, p, s.pending, o.host).(
                 dirty := s.dirty + {c.key}, worldDirty := s.worldDirty, banned := if ban then s.banned + {c.key} else s.banned)
            && e.cmds == [TcpSend(c.connId, p, Bye(p)), CloseConn(c.connId)]
            && e.jobs == (if ban then [Job(None, map[], Some(s.banned + {c.key}))] else [])
  {
    hide FindHost, UnbindUdp, HostChoice, HostOk;
    var s1 := Leaving(s.(banned := if ban then s.banned + {s.clients[p].key} else s.banned), p);
    UnbindShape(s1, p);
    HostAfter(s.(banned := s1.banned), p, o.host);
  }

  /** An admin kick: the victim alone is told, its connection closed, its record marked; a ban
      is saved at once. */
  lemma KickPost(s: State, p: PeerId, ban: bool, t: real, o: Oracle)
    requires Inv(s) && p in s.clients && HostChoice(s.clients - {p}, o.host)
    ensures s.clients[p].key in s.players
    ensures var e, c := (InvAsm(s); Apply(s, Step(Kicked(p, ban), t, o))), s.clients[p];
            && e.state == Departed(s, p, s.pending, o.host).(
                 dirty := s.dirty + {c.key}, worldDirty := s.worldDirty, banned := if ban then s.banned + {c.key} else s.banned)
            && e.cmds == [TcpSend(c.connId, p, Bye(p)), CloseConn(c.connId)]
            && e.jobs == (if ban then [Job(None, map[], Some(s.banned + {c.key}))] else [])
  {
    hide Inv, AdminKick, HostChoice, HostOk, CacheOf, Departed;
    InvAsm(s);
    InvHost(s);
    CachedAt(s, p);
    FacesAt(s, p);
    KickedIs(s, p, ban, o);
  }
}
