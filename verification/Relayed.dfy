/** Blobs all the way: uploaded by one client in any run of the session, relayed by the
    server, and received by another client among the packets of everybody else. */
module Relayed {
  import opened Bytes
  import opened Wire
  import opened Blobs
  import opened RateLimit
  import opened Types
  import opened Session
  import opened SessionInv
  import opened Uploads
  import opened Pipeline
  import SendQueue
  import Framing
  import Sheets = Inventory

  // ---------------------------------------------------------------- packets on one connection

  function IdOf(p: PeerId): Word32 { p % 0x1_0000_0000 }

  /** The packets of one kind and sender among the messages. */
  function PacketsOf(ms: seq<OutMsg>, kind: BlobKind, id: Word32): seq<seq<Byte>> {
    if ms == [] then []
    else (if ms[0].BlobPacket? && ms[0].kind == kind && IdOf(ms[0].from) == id then [ms[0].packet] else []) + PacketsOf(ms[1..], kind, id)
  }

  /** ... among what is sent on one connection. */
  function PacketsOn(cmds: seq<Cmd>, c: ConnId, kind: BlobKind, id: Word32): seq<seq<Byte>> {
    PacketsOf(SentTo(cmds, c), kind, id)
  }

  /** A blob message holds a packet of its kind and sender. */
  ghost predicate Proper(m: OutMsg) {
    m.BlobPacket? ==>
      && WellFormedFrame(m.packet) && |m.packet| >= BLOB_HEADER_SIZE
      && HeaderKind(m.packet) == KindByte(m.kind) && DecodeChunk(m.packet).peerId == IdOf(m.from)
  }

  ghost predicate AllProper(cmds: seq<Cmd>) {
    forall i :: 0 <= i < |cmds| && cmds[i].TcpSend? ==> Proper(cmds[i].msg)
  }

  /** The packets are those of whole blobs, one after the other. */
  ghost predicate Carries(cmds: seq<Cmd>, c: ConnId, kind: BlobKind, id: Word32, blobs: seq<seq<Byte>>) {
    AllSplittable(blobs) && PacketsOn(cmds, c, kind, id) == AllPackets(KindByte(kind), id, blobs)
  }

  ghost predicate WholeOn(cmds: seq<Cmd>, c: ConnId, kind: BlobKind, id: Word32) {
    exists blobs :: Carries(cmds, c, kind, id, blobs)
  }

  /** On every connection, for every kind and sender, only whole blobs are sent. */
  ghost predicate Whole(cmds: seq<Cmd>) {
    AllProper(cmds) && forall c: ConnId, kind: BlobKind, id: Word32 :: c != 0 ==> WholeOn(cmds, c, kind, id)
  }

  lemma {:induction false} PacketsOfConcat(a: seq<OutMsg>, b: seq<OutMsg>, kind: BlobKind, id: Word32)
    ensures PacketsOf(a + b, kind, id) == PacketsOf(a, kind, id) + PacketsOf(b, kind, id)
    decreases |a|
  {
    if a == [] {
      assert a + b == b;
    } else {
      assert (a + b)[1..] == a[1..] + b;
      PacketsOfConcat(a[1..], b, kind, id);
    }
  }

  lemma PacketsOnConcat(a: seq<Cmd>, b: seq<Cmd>, c: ConnId, kind: BlobKind, id: Word32)
    ensures PacketsOn(a + b, c, kind, id) == PacketsOn(a, c, kind, id) + PacketsOn(b, c, kind, id)
  {
    hide PacketsOf, SentTo;
    SentToConcat(a, b, c);
    PacketsOfConcat(SentTo(a, c), SentTo(b, c), kind, id);
  }

  lemma {:induction false} AllPacketsConcat(kind: Byte, id: Word32, xs: seq<seq<Byte>>, ys: seq<seq<Byte>>)
    ensures AllPackets(kind, id, xs + ys) == AllPackets(kind, id, xs) + AllPackets(kind, id, ys)
    decreases |ys|
  {
    hide Packets;
    if ys == [] {
      assert xs + ys == xs;
    } else {
      var n := |ys| - 1;
      assert (xs + ys)[..|xs| + n] == xs + ys[..n];
      AllPacketsConcat(kind, id, xs, ys[..n]);
    }
  }

  lemma CarriesConcat(a: seq<Cmd>, b: seq<Cmd>, c: ConnId, kind: BlobKind, id: Word32, xs: seq<seq<Byte>>, ys: seq<seq<Byte>>)
    requires Carries(a, c, kind, id, xs) && Carries(b, c, kind, id, ys)
    ensures Carries(a + b, c, kind, id, xs + ys)
  {
    hide PacketsOn, AllPackets, Splittable;
    PacketsOnConcat(a, b, c, kind, id);
    AllPacketsConcat(KindByte(kind), id, xs, ys);
  }

  lemma WholeConcat(a: seq<Cmd>, b: seq<Cmd>)
    requires Whole(a) && Whole(b)
    ensures Whole(a + b)
  {
    hide Carries, Proper;
    forall c: ConnId, kind: BlobKind, id: Word32 | c != 0 ensures WholeOn(a + b, c, kind, id) {
      assert WholeOn(a, c, kind, id) && WholeOn(b, c, kind, id);
      var xs :| Carries(a, c, kind, id, xs);
      var ys :| Carries(b, c, kind, id, ys);
      CarriesConcat(a, b, c, kind, id, xs, ys);
    }
  }

  // ---------------------------------------------------------------- the parts of a step

  /** Commands without blob packets. */
  ghost predicate Plain(cmds: seq<Cmd>) {
    forall i :: 0 <= i < |cmds| && cmds[i].TcpSend? ==> !cmds[i].msg.BlobPacket?
  }

  lemma {:induction false} PlainSentTo(cmds: seq<Cmd>, c: ConnId)
    requires Plain(cmds)
    ensures forall i :: 0 <= i < |SentTo(cmds, c)| ==> !SentTo(cmds, c)[i].BlobPacket?
  {
    if cmds != [] {
      PlainSentTo(cmds[..|cmds| - 1], c);
    }
  }

  lemma {:induction false} NoPackets(ms: seq<OutMsg>, kind: BlobKind, id: Word32)
    requires forall i :: 0 <= i < |ms| ==> !ms[i].BlobPacket?
    ensures PacketsOf(ms, kind, id) == []
  {
    if ms != [] {
      NoPackets(ms[1..], kind, id);
    }
  }

  lemma PlainWhole(cmds: seq<Cmd>)
    requires Plain(cmds)
    ensures Whole(cmds)
  {
    hide PacketsOf, SentTo;
    forall c: ConnId, kind: BlobKind, id: Word32 | c != 0 ensures WholeOn(cmds, c, kind, id) {
      PlainSentTo(cmds, c);
      NoPackets(SentTo(cmds, c), kind, id);
      assert Carries(cmds, c, kind, id, []);
    }
  }

  lemma {:induction false} PacketMsgs(kind: BlobKind, from: PeerId, packets: seq<seq<Byte>>, k: BlobKind, id: Word32)
    ensures PacketsOf(BlobMsgs(kind, from, packets), k, id) == if kind == k && IdOf(from) == id then packets else []
    decreases |packets|
  {
    if packets != [] {
      var ms := BlobMsgs(kind, from, packets);
      assert ms[0] == BlobPacket(kind, from, packets[0]) && ms[1..] == BlobMsgs(kind, from, packets[1..]);
      PacketMsgs(kind, from, packets[1..], k, id);
      assert packets == [packets[0]] + packets[1..];
    }
  }

  lemma {:induction false} PacketsProper(c: Client, p: PeerId, kind: BlobKind, from: PeerId, blob: seq<Byte>, n: nat)
    requires Splittable(blob) && n <= ChunkCount(blob)
    ensures AllProper(SendPackets(c, p, kind, from, Packets(KindByte(kind), IdOf(from), blob)[..n]))
  {
    hide WellFormedFrame, ChunkAcceptable, DecodeChunk, Piece, EncodeChunk;
    if n > 0 {
      PacketsProper(c, p, kind, from, blob, n - 1);
      var ps := Packets(KindByte(kind), IdOf(from), blob);
      assert ps[..n][..n - 1] == ps[..n - 1];
      PacketAcceptable(KindByte(kind), IdOf(from), blob, n - 1);
    }
  }

  lemma OneBlobPackets(kind: Byte, id: Word32, blob: seq<Byte>)
    ensures AllPackets(kind, id, [blob]) == Packets(kind, id, blob) && AllPackets(kind, id, []) == []
  {
    hide Packets;
    assert [blob][..0] == [];
  }

  /** A blob sent to a client is sent whole. */
  lemma BlobWhole(c: Client, p: PeerId, kind: BlobKind, from: PeerId, blob: seq<Byte>)
    ensures Whole(SendBlob(c, p, kind, from, blob))
  {
    hide PacketsOf, SentTo, Packets, AllPackets, SendPackets, BlobMsgs, Proper, Splittable, ChunkCount;
    var ps := Packets(KindByte(kind), IdOf(from), blob);
    var cmds := SendPackets(c, p, kind, from, ps);
    if Splittable(blob) {
      PacketsProper(c, p, kind, from, blob, ChunkCount(blob));
      PacketsCount(KindByte(kind), IdOf(from), blob);
      assert ps[..ChunkCount(blob)] == ps;
    } else {
      NotSent(c, p, kind, from, blob);
    }
    forall conn: ConnId, k: BlobKind, id: Word32 | conn != 0 ensures WholeOn(cmds, conn, k, id) {
      SentPackets(c, p, kind, from, ps, conn);
      PacketMsgs(kind, from, ps, k, id);
      OneBlobPackets(KindByte(kind), id, blob);
      PacketsOfNone(k, id);
      if c.connId == conn && kind == k && IdOf(from) == id && Splittable(blob) {
        assert Carries(cmds, conn, k, id, [blob]);
      } else {
        NotSplit(KindByte(kind), IdOf(from), blob);
        OneBlobPackets(KindByte(k), id, blob);
        assert Carries(cmds, conn, k, id, []);
      }
    }
  }

  lemma PacketsOfNone(kind: BlobKind, id: Word32)
    ensures PacketsOf([], kind, id) == []
  {
  }

  lemma PacketsCount(kind: Byte, id: Word32, blob: seq<Byte>)
    requires Splittable(blob)
    ensures |Packets(kind, id, blob)| == ChunkCount(blob)
  {
  }

  lemma NotSplit(kind: Byte, id: Word32, blob: seq<Byte>)
    ensures !Splittable(blob) ==> Packets(kind, id, blob) == []
  {
  }

  lemma NotSent(c: Client, p: PeerId, kind: BlobKind, from: PeerId, blob: seq<Byte>)
    requires !Splittable(blob)
    ensures SendPackets(c, p, kind, from, Packets(KindByte(kind), IdOf(from), blob)) == []
  {
  }

  /** The loops whose own message is not a blob packet. */
  predicate PlainFan(f: Fan) {
    f.ToOthers? || f.ToAll? || f.ToOne? ==> !f.msg.BlobPacket?
  }

  lemma VisitWhole(clients: map<PeerId, Client>, maxUu: real, f: Fan, p: PeerId)
    requires PlainFan(f)
    ensures Whole(Visit(clients, maxUu, f, p))
  {
    hide Whole, SendBlob, InInterest;
    PlainWhole([]);
    if p in clients {
      var c := clients[p];
      match f
      case BlobToOthers(from, kind, blob) => BlobWhole(c, p, kind, from, blob);
      case CatchUp(to) =>
        if p != to && c.havePose && to in clients {
          var pose := SendUdp(clients[to], PlayerPose(c.lastPose));
          var look := if c.appearance != [] then SendBlob(clients[to], to, Appearance, p, c.appearance) else [];
          var inv := if c.inventory != [] then SendBlob(clients[to], to, Inventory, p, c.inventory) else [];
          PlainWhole(pose);
          BlobWhole(clients[to], to, Appearance, p, c.appearance);
          BlobWhole(clients[to], to, Inventory, p, c.inventory);
          WholeConcat(pose, look);
          WholeConcat(pose + look, inv);
        }
      case _ => PlainWhole(Visit(clients, maxUu, f, p));
    }
  }

  lemma {:induction false} FanOutWhole(clients: map<PeerId, Client>, maxUu: real, f: Fan, order: seq<PeerId>)
    requires PlainFan(f)
    ensures Whole(FanOut(clients, maxUu, f, order))
  {
    hide Whole, Visit;
    if order == [] {
      PlainWhole([]);
    } else {
      var n := |order| - 1;
      FanOutWhole(clients, maxUu, f, order[..n]);
      VisitWhole(clients, maxUu, f, order[n]);
      WholeConcat(FanOut(clients, maxUu, f, order[..n]), Visit(clients, maxUu, f, order[n]));
    }
  }

  lemma BroadcastWhole(s: State, f: Fan, o: Oracle)
    requires PlainFan(f)
    ensures Whole(Broadcast(s, f, o))
  {
    FanOutWhole(s.clients, s.cfg.interestUu, f, o.order);
  }

  // ---------------------------------------------------------------- every handler

  lemma RemoveWhole(s: State, p: PeerId, keepTcp: bool, o: Oracle)
    ensures Whole(RemoveClient(s, p, keepTcp, o).cmds)
  {
    hide Whole, Broadcast, UnbindUdp, Flush;
    PlainWhole([]);
    if p in s.clients {
      var leave := LeaveCmds(s.clients[p], p, keepTcp);
      BroadcastWhole(s, ToOthers(p, Bye(p)), o);
      PlainWhole(leave);
      WholeConcat(Broadcast(s, ToOthers(p, Bye(p)), o), leave);
    }
  }

  lemma KickWhole(s: State, p: PeerId, ban: bool, o: Oracle)
    ensures Whole(AdminKick(s, p, ban, o).cmds)
  {
    hide Whole, UnbindUdp;
    PlainWhole(AdminKick(s, p, ban, o).cmds);
  }

  lemma HandleUdpWhole(s: State, from: Addr, m: InMsg, t: real, o: Oracle)
    ensures Whole(HandleUdp(s, from, m, t, o).cmds)
  {
    hide Whole, Broadcast, UnbindUdp, AllowRate, TakePose;
    PlainWhole([]);
    forall s2: State, f: Fan | PlainFan(f) ensures Whole(Broadcast(s2, f, o)) { BroadcastWhole(s2, f, o); }
  }

  lemma RelayWhole(s: State, p: PeerId, m: InMsg, t: real, o: Oracle)
    requires p in s.clients
    ensures Whole(Relay(s, p, m, t, o).cmds)
  {
    hide Whole, Broadcast, AllowRate, ClampHitDamage;
    PlainWhole([]);
    if m.InHeartbeat? { PlainWhole(SendTcp(s.clients[p], p, Heartbeat(p, m.stampMs))); }
    forall s2: State, f: Fan | PlainFan(f) ensures Whole(Broadcast(s2, f, o)) { BroadcastWhole(s2, f, o); }
  }

  lemma BlobStepWhole(s: State, p: PeerId, kind: BlobKind, datagram: seq<Byte>, t: real, o: Oracle)
    requires p in s.clients && AsmOk(AsmTable(s, kind))
    ensures Whole(OnBlob(s, p, kind, datagram, t, o).cmds)
  {
    hide Whole, Broadcast, AllowRate, Accept, KeepBlob, WithAsm;
    PlainWhole([]);
    forall s2: State, f: Fan | PlainFan(f) ensures Whole(Broadcast(s2, f, o)) { BroadcastWhole(s2, f, o); }
  }

  lemma HandleTcpWhole(s: State, p: PeerId, m: InMsg, t: real, o: Oracle)
    requires p in s.clients && AsmOk(s.appearAsm) && AsmOk(s.invAsm)
    ensures Whole(HandleTcp(s, p, m, t, o).cmds)
  {
    hide Whole, RemoveClient, OnBlob, Relay, Retoken;
    PlainWhole([]);
    if !m.BadHeader? && !IsUdpOnly(m) {
      var s1 := Touch(s, p, t);
      if m.InBye? {
        RemoveWhole(s1, p, true, o);
      } else if m.InHello? {
        HelloAgainWhole(s1, p);
      } else if m.InBlob? {
        BlobStepWhole(s1, p, m.kind, m.datagram, t, o);
      } else {
        RelayWhole(s1, p, m, t, o);
      }
    }
  }

  lemma HelloAgainWhole(s: State, p: PeerId)
    requires p in s.clients
    ensures Whole(HelloAgain(s, p).cmds)
  {
    hide Whole;
    PlainWhole(HelloAgain(s, p).cmds);
  }

  lemma GreetWhole(s: State, p: PeerId, isNew: bool, requireHost: bool, o: Oracle)
    requires p in s.clients
    ensures Whole(Greet(s, p, isNew, requireHost, o))
  {
    hide Whole, Broadcast;
    var c := s.clients[p];
    var welcome := SendTcp(c, p, Welcome(p, isNew, p == s.world.hostPeerId, SessionFlags(s.cfg), c.udpToken));
    var snap := SendTcp(c, p, WorldSnapshot(s.world, PlaceFor(s, RecOf(s.players, c.key), isNew, requireHost), isNew));
    PlainWhole(welcome + snap);
    BroadcastWhole(s, CatchUp(p), o);
    WholeConcat(welcome + snap, Broadcast(s, CatchUp(p), o));
  }

  lemma AdmitWhole(s: State, conn: ConnId, addr: Addr, h: Hello, t: real, o: Oracle)
    ensures Whole(Admit(s, conn, addr, h, t, o).cmds)
  {
    hide Whole, Enroll, Greet, Without, SanitizeKey, UnbindUdp, Refreshed, NewClient;
    var s1 := Enroll(s, h);
    EnrollFrame(s, h);
    var same := ByKey(s.clients, SanitizeKey(h.playerKey));
    if same.None? && h.requireHost && s1.world.hostPeerId == 0 {
      PlainWhole(LateNoHost(s1, conn).cmds);
    } else {
      var e := if same.Some? then Reattach(s1, same.value, conn, addr, h, t) else AddClient(s1, conn, addr, h, t);
      var p := if same.Some? then same.value else s1.nextPeer;
      var s2 := HostHello(e.state.(pending := Without(e.state.pending, conn)), p, h);
      var isNew := !RecOf(s.players, SanitizeKey(h.playerKey)).havePose;
      PlainWhole(e.cmds);
      GreetWhole(s2, p, isNew, h.requireHost, o);
      WholeConcat(e.cmds, Greet(s2, p, isNew, h.requireHost, o));
    }
  }

  lemma HandlePendingWhole(s: State, entry: PendingTcp, m: InMsg, t: real, o: Oracle)
    ensures Whole(HandlePending(s, entry, m, t, o).cmds)
  {
    hide Whole, Admit, Gate, AllowRate;
    PlainWhole([]);
    if m.InSessionQuery? {
      PlainWhole(HandlePending(s, entry, m, t, o).cmds);
    } else if m.InHello? {
      var s1 := s.(rates := s.rates.(hello := AllowRate(s.rates.hello, entry.addr, t, 2).0));
      var looked := if m.hello.requireHost && StaticGate(s1, m.hello).None? then WithHost(s1, o) else s1;
      AdmitWhole(looked, entry.connId, entry.addr, m.hello, t, o);
      var g := Gate(s1, m.hello, o);
      if g.Some? { PlainWhole([TcpSend(entry.connId, 0, Reject(g.value))]); }
    }
  }

  lemma IdleWhole(s: State, e: Event, o: Oracle)
    ensures Whole(ApplyIdle(s, e, o).cmds)
  {
    hide Whole, Broadcast, SanitizeKey, Flush, ClipPassword, Max, SessionFlags;
    PlainWhole([]);
    forall s2: State, f: Fan | PlainFan(f) ensures Whole(Broadcast(s2, f, o)) { BroadcastWhole(s2, f, o); }
  }

  lemma NetStepWhole(s: State, ev: NetEvent, t: real, o: Oracle)
    requires AsmOk(s.appearAsm) && AsmOk(s.invAsm)
    ensures Whole(ApplyNet(s, ev, t, o).cmds)
  {
    hide Whole, HandleTcp, HandlePending, RemoveClient, HandleUdp, Without, FindPending;
    PlainWhole([]);
    match ev
    case TcpAccept(_, _) =>
    case TcpFrame(conn, peer, m) =>
      var f, i := FrameClient(s, conn, peer), FindPending(s.pending, conn);
      if f.Some? {
        HandleTcpWhole(s, f.value, m, t, o);
      } else if i >= 0 {
        HandlePendingWhole(s, s.pending[i], m, t, o);
      }
    case TcpClosed(conn, peer) =>
      var s1 := s.(pending := Without(s.pending, conn));
      RemoveWhole(s1, peer, false, o);
      var owner := OwnerOf(s1.clients, conn);
      if owner.Some? {
        RemoveWhole(s1.(clients := s1.clients[owner.value := s1.clients[owner.value].(connId := 0)]), owner.value, false, o);
      }
    case UdpDatagram(from, m) => HandleUdpWhole(s, from, m, t, o);
  }

  /** Every step sends blobs whole: on each connection and for each kind and sender. */
  lemma StepWhole(s: State, step: Step)
    requires AsmOk(s.appearAsm) && AsmOk(s.invAsm)
    ensures Whole(Apply(s, step).cmds)
  {
    hide Whole, ApplyNet, ApplyIdle, RemoveClient, AdminKick, Without;
    match step.event
    case Net(ev) => NetStepWhole(s, ev, step.t, step.o);
    case PendingTimeout(_) => PlainWhole(Apply(s, step).cmds);
    case ClientTimeout(p) => RemoveWhole(s, p, false, step.o);
    case Kicked(p, ban) => KickWhole(s, p, ban, step.o);
    case _ => IdleWhole(s, step.event, step.o);
  }

  /** Over any run, what a connection carries of one kind and sender are whole blobs. */
  lemma {:induction false} RunWhole(s: State, steps: seq<Step>)
    requires Run(s, steps)
    ensures Whole(CmdsOf(s, steps))
    decreases |steps|
  {
    hide Whole, Inv, Enabled, Apply;
    if steps == [] {
      PlainWhole([]);
    } else {
      var n := |steps| - 1;
      RunWhole(s, steps[..n]);
      InvAsm(After(s, steps[..n]));
      StepWhole(After(s, steps[..n]), steps[n]);
      WholeConcat(CmdsOf(s, steps[..n]), Apply(After(s, steps[..n]), steps[n]).cmds);
    }
  }

  // ---------------------------------------------------------------- on the wire

  /** How messages are laid out: a blob message is its packet; every other message is a well
      formed frame of another kind. */
  ghost predicate Layout(wire: OutMsg -> seq<Byte>) {
    forall m: OutMsg ::
      if m.BlobPacket? then wire(m) == m.packet
      else WellFormedFrame(wire(m)) && HeaderKind(wire(m)) != APPEARANCE_CHUNK && HeaderKind(wire(m)) != INVENTORY_CHUNK
  }

  function Stream(ms: seq<OutMsg>, wire: OutMsg -> seq<Byte>): (r: seq<seq<Byte>>)
    ensures |r| == |ms|
  {
    seq(|ms|, i requires 0 <= i < |ms| => wire(ms[i]))
  }

  ghost predicate ProperMsgs(ms: seq<OutMsg>) { forall i :: 0 <= i < |ms| ==> Proper(ms[i]) }

  lemma {:induction false} SentProper(cmds: seq<Cmd>, c: ConnId)
    requires AllProper(cmds)
    ensures ProperMsgs(SentTo(cmds, c))
  {
    hide Proper;
    if cmds != [] {
      SentProper(cmds[..|cmds| - 1], c);
    }
  }

  /** A receiver that dispatches by kind and sender sees exactly their packets. */
  lemma MessageTaken(m: OutMsg, wire: OutMsg -> seq<Byte>, kind: BlobKind, id: Word32)
    requires Layout(wire) && Proper(m)
    ensures WellFormedFrame(wire(m))
    ensures Takes(BySender(KindByte(kind), id), wire(m)) <==> m.BlobPacket? && m.kind == kind && IdOf(m.from) == id
    ensures m.BlobPacket? ==> wire(m) == m.packet
  {
    hide WellFormedFrame, DecodeChunk;
  }

  lemma {:induction false} SelectStream(ms: seq<OutMsg>, wire: OutMsg -> seq<Byte>, kind: BlobKind, id: Word32)
    requires Layout(wire) && ProperMsgs(ms)
    ensures Select(Stream(ms, wire), BySender(KindByte(kind), id)) == PacketsOf(ms, kind, id)
    ensures Framing.AllWellFormed(Stream(ms, wire))
    decreases |ms|
  {
    hide Layout, Takes, WellFormedFrame, Proper;
    if ms != [] {
      SelectStream(ms[1..], wire, kind, id);
      MessageTaken(ms[0], wire, kind, id);
      var all := Stream(ms, wire);
      assert all[0] == wire(ms[0]) && all[1..] == Stream(ms[1..], wire);
      forall i | 0 <= i < |all| ensures WellFormedFrame(all[i]) {
        if i > 0 { assert all[i] == all[1..][i - 1]; }
      }
    }
  }

  /** Everything sent on connection `c` went through its send queue and left it. */
  ghost predicate Transported(cmds: seq<Cmd>, c: ConnId, wire: OutMsg -> seq<Byte>, ops: seq<SendQueue.Op>, cuts: seq<seq<Byte>>) {
    var q := SendQueue.PerformAll(SendQueue.EMPTY_QUEUE, ops);
    && q.accepted == Stream(SentTo(cmds, c), wire) && q.offset == |q.bytes|
    && Flatten(cuts) == q.sent
  }

  lemma ReceivesCarried(cmds: seq<Cmd>, c: ConnId, kind: BlobKind, id: Word32, blobs: seq<seq<Byte>>,
                        wire: OutMsg -> seq<Byte>, ops: seq<SendQueue.Op>, cuts: seq<seq<Byte>>)
    requires AllProper(cmds) && Carries(cmds, c, kind, id, blobs) && Layout(wire) && Transported(cmds, c, wire, ops, cuts)
    ensures Receive(cuts, BySender(KindByte(kind), id)) == blobs
  {
    hide SendQueue.PerformAll, Receive, AllPackets, Select, PacketsOf, Stream, SentTo, Layout, Framing.AllWellFormed, ProperMsgs;
    var sel := BySender(KindByte(kind), id);
    SentProper(cmds, c);
    SelectStream(SentTo(cmds, c), wire, kind, id);
    BlobsArrive(ops, cuts, sel, id, blobs);
  }

  /** For any run of the session, any receiver and any sender, with everybody else's packets
      and messages in between: the receiver completes exactly the blobs it was sent, whole. */
  lemma BlobsThroughSession(s: State, steps: seq<Step>, c: ConnId, kind: BlobKind, id: Word32,
                            wire: OutMsg -> seq<Byte>, ops: seq<SendQueue.Op>, cuts: seq<seq<Byte>>) returns (blobs: seq<seq<Byte>>)
    requires Run(s, steps) && c != 0 && Layout(wire) && Transported(CmdsOf(s, steps), c, wire, ops, cuts)
    ensures Carries(CmdsOf(s, steps), c, kind, id, blobs)
    ensures Receive(cuts, BySender(KindByte(kind), id)) == blobs
  {
    hide Run, CmdsOf, Carries, Transported, Layout, Receive, AllProper;
    RunWhole(s, steps);
    assert WholeOn(CmdsOf(s, steps), c, kind, id);
    blobs :| Carries(CmdsOf(s, steps), c, kind, id, blobs);
    ReceivesCarried(CmdsOf(s, steps), c, kind, id, blobs, wire, ops, cuts);
  }

  /** What the step that completes an upload carries to another client: that blob. */
  lemma DueCarries(cmds: seq<Cmd>, c: ConnId, kind: BlobKind, p: PeerId, q: PeerId, blob: seq<Byte>)
    requires p != q && Splittable(blob) && SentTo(cmds, c) == Due(BlobToOthers(p, kind, blob), q)
    ensures Carries(cmds, c, kind, IdOf(p), [blob])
  {
    hide PacketsOf, AllPackets, Packets, BlobMsgs, Splittable;
    PacketMsgs(kind, p, Packets(KindByte(kind), IdOf(p), blob), kind, IdOf(p));
    OneBlobPackets(KindByte(kind), IdOf(p), blob);
  }

  /** End to end through the session: client `p` uploads an encoded sheet, in any run with any
      other steps in between and whatever else the connections carry. Then every other client
      `q`, receiving all it was sent, ends up with the normal form of exactly that sheet as
      the latest of `p`. */
  lemma SheetThroughSession(s: State, steps: seq<Step>, last: Step, p: PeerId, q: PeerId, id: Word32, sheet: Sheets.Sheet, d: seq<Byte>,
                            wire: OutMsg -> seq<Byte>, ops: seq<SendQueue.Op>, cuts: seq<seq<Byte>>) returns (earlier: seq<seq<Byte>>)
    requires Run(s, steps) && Enabled(After(s, steps), last)
    requires UploadOf(After(s, steps), last) == Some(Chunk(p, Inventory, d))
    requires ChunksOf(s, steps, p, Inventory) + [d] == Packets(INVENTORY_CHUNK, id, Sheets.Encode(sheet))
    requires AsmAt(s, p, Inventory) == EMPTY
    requires q in After(s, steps).clients && q != p
    requires Run(s, steps + [last]) && Layout(wire)
    requires Transported(CmdsOf(s, steps + [last]), After(s, steps).clients[q].connId, wire, ops, cuts)
    ensures Receive(cuts, BySender(INVENTORY_CHUNK, IdOf(p))) == earlier + [Sheets.Encode(sheet)]
    ensures Sheets.Decode(Sheets.Encode(sheet)) == Some(Sheets.Normal(sheet))
  {
    hide Run, After, CmdsOf, Carries, Transported, Layout, Receive, AllProper, Inv, Enabled, Apply, UploadOf, ChunksOf, Due, SentTo,
         Sheets.Encode, Sheets.Decode, Sheets.Normal, Packets, BlobOf;
    var blob, before := Sheets.Encode(sheet), After(s, steps);
    var c := before.clients[q].connId;
    NonZeroConn(before, q);
    Sheets.EncodingSplittable(sheet);
    assert blob + [] == blob;
    Sheets.RoundTrip(sheet, []);
    EmptyFits(blob);
    UploadArrives(s, steps, last, p, Inventory, id, blob, d);
    InvAsm(before);
    var e := Apply(before, last);
    DueCarries(e.cmds, c, Inventory, p, q, blob);
    RunWhole(s, steps);
    assert WholeOn(CmdsOf(s, steps), c, Inventory, IdOf(p));
    earlier :| Carries(CmdsOf(s, steps), c, Inventory, IdOf(p), earlier);
    RunSnoc(s, steps, last);
    CarriesConcat(CmdsOf(s, steps), e.cmds, c, Inventory, IdOf(p), earlier, [blob]);
    RunWhole(s, steps + [last]);
    ReceivesCarried(CmdsOf(s, steps + [last]), c, Inventory, IdOf(p), earlier + [blob], wire, ops, cuts);
  }

  lemma NonZeroConn(s: State, q: PeerId)
    requires Inv(s) && q in s.clients
    ensures s.clients[q].connId != 0
  {
  }

  lemma EmptyFits(blob: seq<Byte>)
    requires Splittable(blob)
    ensures ValidAssembly(EMPTY) && EMPTY.chunkCount != ChunkCount(blob)
  {
  }
}
