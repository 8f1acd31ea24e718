/** Which events can cause which messages, and what follows for each message that is queued. */
module Origins {
  import opened Bytes
  import opened Blobs
  import opened RateLimit
  import opened Types
  import opened Session
  import opened SessionInv
  import opened Ownership
  import opened SessionFacts
  import opened Admission
  import opened Messages

  datatype MsgKind =
    | KReject | KSessionInfo | KWelcome | KWorldSnapshot | KSessionRules | KBye | KPlayerPose | KActorPose | KBlobPacket
    | KChat | KHit | KKick | KTeleport | KHeartbeat

  function KindOf(m: OutMsg): MsgKind {
    match m
    case Reject(_) => KReject
    case SessionInfo(_, _, _, _, _, _, _, _, _) => KSessionInfo
    case Welcome(_, _, _, _, _) => KWelcome
    case WorldSnapshot(_, _, _) => KWorldSnapshot
    case SessionRules(_) => KSessionRules
    case Bye(_) => KBye
    case PlayerPose(_) => KPlayerPose
    case ActorPoseMsg(_) => KActorPose
    case BlobPacket(_, _, _) => KBlobPacket
    case Chat(_, _) => KChat
    case Hit(_, _, _, _) => KHit
    case Kick(_, _) => KKick
    case Teleport(_, _) => KTeleport
    case Heartbeat(_, _) => KHeartbeat
  }

  /** What a received message can cause. */
  function FrameKinds(m: InMsg): set<MsgKind> {
    if m.InHello? then {KWelcome, KWorldSnapshot, KReject, KPlayerPose, KBlobPacket}
    else if m.InSessionQuery? then {KSessionInfo}
    else if m.InBye? then {KBye}
    else if m.InBlob? then {KBlobPacket}
    else if m.InHeartbeat? then {KHeartbeat}
    else if m.InChat? then {KChat}
    else if m.InKick? then {KKick}
    else if m.InTeleport? then {KTeleport}
    else if m.InHit? then {KHit}
    else {}
  }

  function DatagramKinds(m: InMsg): set<MsgKind> {
    if m.InUdpBind? || m.InPlayerPose? then {KPlayerPose} else if m.InActorPose? then {KActorPose} else {}
  }

  function EventKinds(e: Event): set<MsgKind> {
    if e.Net? then
      (if e.ev.TcpFrame? then FrameKinds(e.ev.msg)
       else if e.ev.TcpClosed? then {KBye}
       else if e.ev.UdpDatagram? then DatagramKinds(e.ev.msg)
       else {})
    else if e.ClientTimeout? || e.Kicked? then {KBye}
    else if e.HeartbeatTick? then {KHeartbeat}
    else if e.Say? then {KChat}
    else if e.Reload? || e.SetPvp? || e.SetPassword? then {KSessionRules}
    else {}
  }

  ghost predicate OnlyKinds(cmds: seq<Cmd>, ks: set<MsgKind>) {
    forall i :: 0 <= i < |cmds| && IsSend(cmds[i]) ==> KindOf(cmds[i].msg) in ks
  }

  lemma OnlyConcat(a: seq<Cmd>, b: seq<Cmd>, ks: set<MsgKind>)
    requires OnlyKinds(a, ks) && OnlyKinds(b, ks)
    ensures OnlyKinds(a + b, ks)
  {
    hide KindOf;
  }

  function FanKinds(f: Fan): set<MsgKind> {
    match f
    case ToOthers(_, m) => {KindOf(m)}
    case ToAll(m) => {KindOf(m)}
    case ToOne(_, m) => {KindOf(m)}
    case BlobToOthers(_, _, _) => {KBlobPacket}
    case PoseToInterested(_, _) => {KPlayerPose}
    case ActorToInterested(_, _) => {KActorPose}
    case PosesOfOthers(_) => {KPlayerPose}
    case CatchUp(_) => {KPlayerPose, KBlobPacket}
  }

  lemma {:induction false} PacketKinds(c: Client, p: PeerId, kind: BlobKind, from: PeerId, packets: seq<seq<Byte>>)
    ensures OnlyKinds(SendPackets(c, p, kind, from, packets), {KBlobPacket})
  {
    if packets != [] {
      PacketKinds(c, p, kind, from, packets[..|packets| - 1]);
    }
  }

  lemma VisitKinds(cs: map<PeerId, Client>, u: real, f: Fan, q: PeerId)
    ensures OnlyKinds(Visit(cs, u, f, q), FanKinds(f))
  {
    hide SendPackets, Packets, InInterest;
    if q in cs {
      var c := cs[q];
      match f
      case BlobToOthers(from, kind, blob) => PacketKinds(c, q, kind, from, Packets(KindByte(kind), from % 0x1_0000_0000, blob));
      case CatchUp(to) =>
        if to in cs {
          PacketKinds(cs[to], to, Appearance, q, Packets(KindByte(Appearance), q % 0x1_0000_0000, c.appearance));
          PacketKinds(cs[to], to, Inventory, q, Packets(KindByte(Inventory), q % 0x1_0000_0000, c.inventory));
        }
      case _ =>
    }
  }

  lemma {:induction false} FanOutKinds(cs: map<PeerId, Client>, u: real, f: Fan, order: seq<PeerId>)
    ensures OnlyKinds(FanOut(cs, u, f, order), FanKinds(f))
  {
    hide Visit, FanKinds, KindOf;
    if order != [] {
      var n := |order| - 1;
      FanOutKinds(cs, u, f, order[..n]);
      VisitKinds(cs, u, f, order[n]);
      OnlyConcat(FanOut(cs, u, f, order[..n]), Visit(cs, u, f, order[n]), FanKinds(f));
    }
  }

  lemma BroadcastKinds(s: State, f: Fan, o: Oracle)
    ensures OnlyKinds(Broadcast(s, f, o), FanKinds(f))
  {
    FanOutKinds(s.clients, s.cfg.interestUu, f, o.order);
  }

  lemma Wider(cmds: seq<Cmd>, ks: set<MsgKind>, more: set<MsgKind>)
    requires OnlyKinds(cmds, ks) && ks <= more
    ensures OnlyKinds(cmds, more)
  {
    hide KindOf;
  }

  // ---------------------------------------------------------------- handlers

  lemma RemoveKinds(s: State, p: PeerId, keepTcp: bool, o: Oracle)
    ensures OnlyKinds(RemoveClient(s, p, keepTcp, o).cmds, {KBye})
  {
    hide Broadcast, UnbindUdp, Flush;
    BroadcastKinds(s, ToOthers(p, Bye(p)), o);
    if p in s.clients {
      OnlyConcat(Broadcast(s, ToOthers(p, Bye(p)), o), LeaveCmds(s.clients[p], p, keepTcp), {KBye});
    }
  }

  lemma KickKinds(s: State, p: PeerId, ban: bool, o: Oracle)
    ensures OnlyKinds(AdminKick(s, p, ban, o).cmds, {KBye})
  {
    hide UnbindUdp, FindHost;
  }

  lemma UdpKinds(s: State, from: Addr, m: InMsg, t: real, o: Oracle)
    ensures OnlyKinds(HandleUdp(s, from, m, t, o).cmds, DatagramKinds(m))
  {
    hide Broadcast, UnbindUdp, AllowRate, TakePose, OnlyKinds, KindOf;
    NoneKinds(DatagramKinds(m));
    forall s2: State, f: Fan ensures OnlyKinds(Broadcast(s2, f, o), FanKinds(f)) { BroadcastKinds(s2, f, o); }
  }

  lemma NoneKinds(ks: set<MsgKind>)
    ensures OnlyKinds([], ks)
  {
  }

  lemma RelayKinds(s: State, p: PeerId, m: InMsg, t: real, o: Oracle)
    requires p in s.clients && !m.InHello? && !m.InBye? && !m.InBlob? && !m.InSessionQuery?
    ensures OnlyKinds(Relay(s, p, m, t, o).cmds, FrameKinds(m))
  {
    hide Broadcast, AllowRate, ClampHitDamage, OnlyKinds;
    NoneKinds(FrameKinds(m));
    if m.InHeartbeat? { HeartbeatKind(s.clients[p], p, m.stampMs); }
    forall s2: State, f: Fan ensures OnlyKinds(Broadcast(s2, f, o), FanKinds(f)) { BroadcastKinds(s2, f, o); }
  }

  lemma HeartbeatKind(c: Client, p: PeerId, stamp: nat)
    ensures OnlyKinds(SendTcp(c, p, Heartbeat(p, stamp)), {KHeartbeat})
  {
  }

  lemma BlobKinds(s: State, p: PeerId, kind: BlobKind, d: seq<Byte>, t: real, o: Oracle)
    requires p in s.clients && AsmOk(AsmTable(s, kind))
    ensures OnlyKinds(OnBlob(s, p, kind, d, t, o).cmds, {KBlobPacket})
  {
    hide Broadcast, AllowRate, Accept, KeepBlob, WithAsm, OnlyKinds, KindOf;
    NoneKinds({KBlobPacket});
    forall s2: State, f: Fan ensures OnlyKinds(Broadcast(s2, f, o), FanKinds(f)) { BroadcastKinds(s2, f, o); }
  }

  lemma AgainKinds(s: State, p: PeerId)
    requires p in s.clients
    ensures OnlyKinds(HelloAgain(s, p).cmds, {KWelcome})
  {
    hide UnbindUdp, RecOf;
  }

  lemma TcpKinds(s: State, p: PeerId, m: InMsg, t: real, o: Oracle)
    requires p in s.clients && AsmOk(s.appearAsm) && AsmOk(s.invAsm)
    ensures OnlyKinds(HandleTcp(s, p, m, t, o).cmds, FrameKinds(m))
  {
    hide RemoveClient, HelloAgain, OnBlob, Relay, OnlyKinds;
    NoneKinds(FrameKinds(m));
    if !m.BadHeader? && !IsUdpOnly(m) {
      var s1 := Touch(s, p, t);
      if m.InBye? {
        RemoveKinds(s1, p, true, o);
      } else if m.InHello? {
        AgainKinds(s1, p);
        Wider(HelloAgain(s1, p).cmds, {KWelcome}, FrameKinds(m));
      } else if m.InBlob? {
        BlobKinds(s1, p, m.kind, m.datagram, t, o);
      } else if m.InSessionQuery? {
        assert Relay(s1, p, m, t, o) == Quiet(s1) by { QueryIgnored(s1, p, t, o); }
      } else {
        RelayKinds(s1, p, m, t, o);
      }
    }
  }

  lemma QueryIgnored(s: State, p: PeerId, t: real, o: Oracle)
    requires p in s.clients
    ensures Relay(s, p, InSessionQuery, t, o) == Quiet(s)
  {
  }

  lemma GreetKinds(s: State, p: PeerId, isNew: bool, requireHost: bool, o: Oracle)
    requires p in s.clients
    ensures OnlyKinds(Greet(s, p, isNew, requireHost, o), {KWelcome, KWorldSnapshot, KReject, KPlayerPose, KBlobPacket})
  {
    hide Broadcast;
    BroadcastKinds(s, CatchUp(p), o);
    Wider(Broadcast(s, CatchUp(p), o), {KPlayerPose, KBlobPacket}, {KWelcome, KWorldSnapshot, KReject, KPlayerPose, KBlobPacket});
  }

  lemma AdmitKinds(s: State, conn: ConnId, addr: Addr, h: Hello, t: real, o: Oracle)
    ensures OnlyKinds(Admit(s, conn, addr, h, t, o).cmds, FrameKinds(InHello(h)))
  {
    hide OnlyKinds, Enroll, Greet, Without, SanitizeKey, UnbindUdp, Refreshed, NewClient, KindOf;
    var s1 := Enroll(s, h);
    EnrollFrame(s, h);
    var same := ByKey(s.clients, SanitizeKey(h.playerKey));
    if same.None? && h.requireHost && s1.world.hostPeerId == 0 {
      LateKinds(s1, conn);
    } else {
      var e := if same.Some? then Reattach(s1, same.value, conn, addr, h, t) else AddClient(s1, conn, addr, h, t);
      var p := if same.Some? then same.value else s1.nextPeer;
      var s2 := HostHello(e.state.(pending := Without(e.state.pending, conn)), p, h);
      var isNew := !RecOf(s.players, SanitizeKey(h.playerKey)).havePose;
      ControlKinds(e.cmds, FrameKinds(InHello(h)));
      GreetKinds(s2, p, isNew, h.requireHost, o);
      OnlyConcat(e.cmds, Greet(s2, p, isNew, h.requireHost, o), FrameKinds(InHello(h)));
    }
  }

  lemma LateKinds(s: State, conn: ConnId)
    ensures OnlyKinds(LateNoHost(s, conn).cmds, {KWelcome, KWorldSnapshot, KReject, KPlayerPose, KBlobPacket})
  {
  }

  lemma ControlKinds(cmds: seq<Cmd>, ks: set<MsgKind>)
    requires forall i :: 0 <= i < |cmds| ==> !IsSend(cmds[i])
    ensures OnlyKinds(cmds, ks)
  {
  }

  lemma RejectKind(conn: ConnId, why: RejectReason)
    ensures OnlyKinds([TcpSend(conn, 0, Reject(why))], {KWelcome, KWorldSnapshot, KReject, KPlayerPose, KBlobPacket})
  {
  }

  lemma QueryKinds(s: State, conn: ConnId, o: Oracle)
    ensures OnlyKinds(Query(s, conn, o).cmds, {KSessionInfo})
  {
    hide FindHost, SessionFlags;
  }

  lemma PendingKinds(s: State, entry: PendingTcp, m: InMsg, t: real, o: Oracle)
    ensures OnlyKinds(HandlePending(s, entry, m, t, o).cmds, FrameKinds(m))
  {
    hide OnlyKinds, Admit, Gate, AllowRate, Query;
    NoneKinds(FrameKinds(m));
    if m.InSessionQuery? {
      QueryKinds(s.(rates := s.rates.(query := AllowRate(s.rates.query, entry.addr, t, 4).0)), entry.connId, o);
    } else if m.InHello? {
      var s1 := s.(rates := s.rates.(hello := AllowRate(s.rates.hello, entry.addr, t, 2).0));
      var looked := if m.hello.requireHost && StaticGate(s1, m.hello).None? then WithHost(s1, o) else s1;
      AdmitKinds(looked, entry.connId, entry.addr, m.hello, t, o);
      var g := Gate(s1, m.hello, o);
      if g.Some? { RejectKind(entry.connId, g.value); }
    }
  }

  lemma IdleKinds(s: State, e: Event, o: Oracle)
    ensures OnlyKinds(ApplyIdle(s, e, o).cmds, EventKinds(e))
  {
    hide OnlyKinds, Broadcast, SanitizeKey, Flush, ClipPassword, Max, SessionFlags;
    NoneKinds(EventKinds(e));
    forall s2: State, f: Fan ensures OnlyKinds(Broadcast(s2, f, o), FanKinds(f)) { BroadcastKinds(s2, f, o); }
  }

  lemma NetKinds(s: State, ev: NetEvent, t: real, o: Oracle)
    requires AsmOk(s.appearAsm) && AsmOk(s.invAsm)
    ensures OnlyKinds(ApplyNet(s, ev, t, o).cmds, EventKinds(Net(ev)))
  {
    hide OnlyKinds, HandleTcp, HandlePending, RemoveClient, HandleUdp, Without, FindPending, FrameKinds, DatagramKinds;
    NoneKinds(EventKinds(Net(ev)));
    match ev
    case TcpAccept(_, _) =>
    case TcpFrame(conn, peer, m) =>
      var f, i := FrameClient(s, conn, peer), FindPending(s.pending, conn);
      if f.Some? {
        TcpKinds(s, f.value, m, t, o);
      } else if i >= 0 {
        PendingKinds(s, s.pending[i], m, t, o);
      }
    case TcpClosed(conn, peer) =>
      var s1 := s.(pending := Without(s.pending, conn));
      RemoveKinds(s1, peer, false, o);
      var owner := OwnerOf(s1.clients, conn);
      if owner.Some? {
        RemoveKinds(s1.(clients := s1.clients[owner.value := s1.clients[owner.value].(connId := 0)]), owner.value, false, o);
      }
    case UdpDatagram(from, m) => UdpKinds(s, from, m, t, o);
  }

  /** Every message a step queues is of a kind that its event can cause. */
  lemma StepKinds(s: State, step: Step)
    requires AsmOk(s.appearAsm) && AsmOk(s.invAsm)
    ensures OnlyKinds(Apply(s, step).cmds, EventKinds(step.event))
  {
    hide OnlyKinds, ApplyNet, ApplyIdle, RemoveClient, AdminKick, Without;
    match step.event
    case Net(ev) => NetKinds(s, ev, step.t, step.o);
    case PendingTimeout(_) => ControlKinds(Apply(s, step).cmds, {});
    case ClientTimeout(p) => RemoveKinds(s, p, false, step.o);
    case Kicked(p, ban) => KickKinds(s, p, ban, step.o);
    case _ => IdleKinds(s, step.event, step.o);
  }

  // ---------------------------------------------------------------- Kick and Teleport

  ghost predicate Queues(s: State, step: Step, i: nat, conn: ConnId, q: PeerId, m: OutMsg)
    requires Inv(s)
  {
    InvAsm(s);
    i < |Apply(s, step).cmds| && Apply(s, step).cmds[i] == TcpSend(conn, q, m)
  }

  lemma QueuedKind(s: State, step: Step, i: nat, conn: ConnId, q: PeerId, m: OutMsg)
    requires Inv(s) && Queues(s, step, i, conn, q, m)
    ensures KindOf(m) in EventKinds(step.event)
  {
    hide Inv, Apply, EventKinds, KindOf;
    InvAsm(s);
    StepKinds(s, step);
  }

  /** A frame is the word of a client, or of a stranger, or comes too late for either. */
  lemma WhoseFrame(s: State, conn: ConnId, peer: PeerId)
    requires Inv(s)
    ensures FrameClient(s, conn, peer).Some? ==> SpeaksFor(s, conn, peer, FrameClient(s, conn, peer).value)
    ensures FrameClient(s, conn, peer).None? && FindPending(s.pending, conn) >= 0 ==> Stranger(s, conn, peer, FindPending(s.pending, conn))
  {
    hide Inv, SpeaksFor;
    if FrameClient(s, conn, peer).Some? { SpeaksIff(s, conn, peer, FrameClient(s, conn, peer).value); }
  }

  lemma StrangersKickNobody(s: State, entry: PendingTcp, m: InMsg, t: real, o: Oracle)
    requires m.InKick? || m.InTeleport?
    ensures HandlePending(s, entry, m, t, o).cmds == []
  {
  }

  lemma NotHeard(s: State, conn: ConnId, peer: PeerId, m: InMsg, t: real, o: Oracle)
    requires Inv(s) && FrameClient(s, conn, peer).None? && FindPending(s.pending, conn) < 0
    ensures (InvAsm(s); Apply(s, Said(conn, peer, m, t, o))) == Quiet(s)
  {
    hide Inv, HandleTcp, HandlePending;
    InvAsm(s);
  }

  /** Wherever a Kick is queued, the host said so: it goes to its live target, once, and the
      step queues nothing else. */
  lemma KickIsFromHost(s: State, step: Step, i: nat, c: ConnId, q: PeerId, target: PeerId, reason: string)
    requires Inv(s) && Enabled(s, step) && Queues(s, step, i, c, q, Kick(target, reason))
    ensures step.event.Net? && step.event.ev.TcpFrame? && step.event.ev.msg == InKick(target, reason)
    ensures SpeaksFor(s, step.event.ev.connId, step.event.ev.peerId, s.world.hostPeerId)
    ensures q == target && target in s.clients && c == s.clients[target].connId
    ensures (InvAsm(s); |Apply(s, step).cmds|) == 1
  {
    hide Inv, Apply, SpeaksFor, HandlePending, FindPending, FrameClient, Stranger;
    QueuedKind(s, step, i, c, q, Kick(target, reason));
    var ev := step.event.ev;
    var f := FrameClient(s, ev.connId, ev.peerId);
    WhoseFrame(s, ev.connId, ev.peerId);
    InvAsm(s);
    assert step == Said(ev.connId, ev.peerId, ev.msg, step.t, step.o);
    if f.Some? {
      KickRelayed(s, ev.connId, ev.peerId, f.value, ev.msg.target, ev.msg.reason, step.t, step.o);
    } else if FindPending(s.pending, ev.connId) >= 0 {
      var j := FindPending(s.pending, ev.connId);
      StrangerFrame(s, ev.connId, ev.peerId, j, ev.msg, step.t, step.o);
      StrangersKickNobody(s, s.pending[j], ev.msg, step.t, step.o);
    } else {
      NotHeard(s, ev.connId, ev.peerId, ev.msg, step.t, step.o);
    }
  }

  lemma TeleportIsFromHost(s: State, step: Step, i: nat, c: ConnId, q: PeerId, target: PeerId, place: Place)
    requires Inv(s) && Enabled(s, step) && Queues(s, step, i, c, q, Teleport(target, place))
    ensures step.event.Net? && step.event.ev.TcpFrame? && step.event.ev.msg == InTeleport(target, place)
    ensures SpeaksFor(s, step.event.ev.connId, step.event.ev.peerId, s.world.hostPeerId)
    ensures q == target && target in s.clients && c == s.clients[target].connId
    ensures (InvAsm(s); |Apply(s, step).cmds|) == 1
  {
    hide Inv, Apply, SpeaksFor, HandlePending, FindPending, FrameClient, Stranger;
    QueuedKind(s, step, i, c, q, Teleport(target, place));
    var ev := step.event.ev;
    var f := FrameClient(s, ev.connId, ev.peerId);
    WhoseFrame(s, ev.connId, ev.peerId);
    InvAsm(s);
    assert step == Said(ev.connId, ev.peerId, ev.msg, step.t, step.o);
    if f.Some? {
      TeleportRelayed(s, ev.connId, ev.peerId, f.value, ev.msg.target, ev.msg.place, step.t, step.o);
    } else if FindPending(s.pending, ev.connId) >= 0 {
      var j := FindPending(s.pending, ev.connId);
      StrangerFrame(s, ev.connId, ev.peerId, j, ev.msg, step.t, step.o);
      StrangersKickNobody(s, s.pending[j], ev.msg, step.t, step.o);
    } else {
      NotHeard(s, ev.connId, ev.peerId, ev.msg, step.t, step.o);
    }
  }
}
