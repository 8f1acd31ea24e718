/** Facts about every run of the session: peer ids, capacity, who is named as a sender. */
module SessionFacts {
  import opened Bytes
  import opened Blobs
  import opened RateLimit
  import opened Types
  import opened Session
  import opened SessionInv
  import opened Ownership

  // ---------------------------------------------------------------- peer ids are never reused

  lemma AdmitNextPeer(s: State, conn: ConnId, addr: Addr, h: Hello, t: real, o: Oracle)
    requires Inv(s) && Gate(s, h, o).None?
    ensures Admit(s, conn, addr, h, t, o).state.nextPeer
         == if ByKey(s.clients, SanitizeKey(h.playerKey)).Some? then s.nextPeer else s.nextPeer + 1
  {
    hide Inv, Gate, FanOut, UnbindUdp, Without, Greet, SanitizeKey;
    if h.requireHost { LateFallbackUnreachable(s, h, o); }
    var same := ByKey(s.clients, SanitizeKey(h.playerKey));
    if same.Some? {
      UnbindFrame(Enroll(s, h), same.value);
    }
  }

  lemma HandlePendingNextPeer(s: State, entry: PendingTcp, m: InMsg, t: real, o: Oracle)
    requires Inv(s)
    ensures HandlePending(s, entry, m, t, o).state.nextPeer
         == if m.InHello? && HelloChange(s, entry, m.hello, t, o).Bind? then s.nextPeer + 1 else s.nextPeer
  {
    hide Inv, Admit, SanitizeKey, Gate;
    if m.InHello? {
      var s1 := s.(rates := s.rates.(hello := AllowRate(s.rates.hello, entry.addr, t, 2).0));
      InvFrame(s, s1);
      HostLookupIdle(s1, o);
      GateIgnoresRates(s, s1.rates, m.hello, o);
      if Gate(s1, m.hello, o).None? {
        AdmitNextPeer(s1, entry.connId, entry.addr, m.hello, t, o);
      }
    }
  }

  lemma FrameNextPeer(s: State, conn: ConnId, peer: PeerId, m: InMsg, t: real, o: Oracle)
    requires Inv(s)
    ensures OnFrame(s, conn, peer, m, t, o).state.nextPeer
         == if ChangeOf(s, Step(Net(TcpFrame(conn, peer, m)), t, o)).Bind? then s.nextPeer + 1 else s.nextPeer
  {
    hide Inv, HandleTcp, HandlePending, HelloChange;
    InvAsm(s);
    var f := FrameClient(s, conn, peer);
    if f.Some? {
      if m.InBye? {
        ByeNextPeer(s, f.value, t, o);
      } else {
        HandleTcpHarmless(s, f.value, m, t, o);
      }
    } else {
      var i := FindPending(s.pending, conn);
      if i >= 0 {
        HandlePendingNextPeer(s, s.pending[i], m, t, o);
      }
    }
  }

  lemma ByeNextPeer(s: State, p: PeerId, t: real, o: Oracle)
    requires Inv(s) && p in s.clients
    ensures HandleTcp(s, p, InBye, t, o).state.nextPeer == s.nextPeer
  {
    hide Inv, RemoveClient;
    InvAsm(s);
    RemoveShape(Touch(s, p, t), p, true, o);
  }

  lemma ClosedNextPeer(s: State, conn: ConnId, peer: PeerId, o: Oracle)
    ensures OnClosed(s, conn, peer, o).state.nextPeer == s.nextPeer
  {
    hide RemoveClient, Without;
    var s1 := s.(pending := Without(s.pending, conn));
    if peer != 0 {
      if peer in s1.clients { RemoveShape(s1, peer, false, o); } else { RemoveAbsent(s1, peer, false, o); }
    } else {
      var owner := OwnerOf(s1.clients, conn);
      if owner.Some? {
        RemoveShape(s1.(clients := s1.clients[owner.value := s1.clients[owner.value].(connId := 0)]), owner.value, false, o);
      }
    }
  }

  /** The counter moves exactly when a new client is bound. */
  lemma StepNextPeer(s: State, step: Step)
    requires Inv(s)
    ensures Apply(s, step).state.nextPeer == if ChangeOf(s, step).Bind? then s.nextPeer + 1 else s.nextPeer
  {
    hide Inv, OnFrame, OnClosed, HandleUdp, RemoveClient, AdminKick, ApplyIdle, HelloChange, FrameClient, Without, FindPending;
    InvAsm(s);
    match step.event
    case Net(TcpAccept(conn, addr)) =>
    case Net(TcpFrame(conn, peer, m)) => FrameNextPeer(s, conn, peer, m, step.t, step.o);
    case Net(TcpClosed(conn, peer)) => ClosedNextPeer(s, conn, peer, step.o);
    case Net(UdpDatagram(from, m)) => HandleUdpHarmless(s, from, m, step.t, step.o);
    case PendingTimeout(conn) =>
    case ClientTimeout(p) =>
      if p in s.clients { RemoveShape(s, p, false, step.o); } else { RemoveAbsent(s, p, false, step.o); }
    case Kicked(p, ban) =>
      if p in s.clients { KickShape(s, p, ban, step.o); } else { KickAbsent(s, p, ban, step.o); }
    case _ => IdleHarmless(s, step.event, step.o);
  }

  /** A peer id that was handed out and is not live. */
  ghost predicate Gone(s: State, p: PeerId) {
    p < s.nextPeer && p !in s.clients
  }

  lemma KeysOfConns(clients: map<PeerId, Client>)
    ensures Conns(clients).Keys == clients.Keys
  {
  }

  lemma BindIsNext(s: State, step: Step)
    requires Inv(s) && ChangeOf(s, step).Bind?
    ensures ChangeOf(s, step).p == s.nextPeer
  {
    hide Inv, Gate, SanitizeKey, FrameClient;
    InvAsm(s);
  }

  lemma StepKeepsGone(s: State, step: Step, p: PeerId)
    requires Inv(s) && Enabled(s, step) && Gone(s, p)
    ensures Gone(Apply(s, step).state, p)
  {
    hide Inv, Apply, Enabled, ChangeOf, Conns;
    InvAsm(s);
    StepChange(s, step);
    StepNextPeer(s, step);
    var s' := Apply(s, step).state;
    KeysOfConns(s.clients);
    KeysOfConns(s'.clients);
    if ChangeOf(s, step).Bind? { BindIsNext(s, step); }
    assert p in Conns(s'.clients) ==> p in Conns(s.clients);
  }

  /** Once gone, gone for good: a peer id is never live again. */
  lemma {:induction false} GoneForGood(s: State, steps: seq<Step>, k: nat, p: PeerId)
    requires Run(s, steps) && k <= |steps|
    requires Run(s, steps[..k]) && Gone(After(s, steps[..k]), p)
    ensures Gone(After(s, steps), p)
    decreases |steps|
  {
    hide Inv, Enabled, Apply, Gone;
    if k == |steps| {
      assert steps[..k] == steps;
    } else {
      var n := |steps| - 1;
      assert steps[..n][..k] == steps[..k];
      GoneForGood(s, steps[..n], k, p);
      StepKeepsGone(After(s, steps[..n]), steps[n], p);
    }
  }

  // ---------------------------------------------------------------- capacity

  lemma BindHasRoom(s: State, step: Step)
    requires Inv(s) && ChangeOf(s, step).Bind?
    ensures |s.clients| < s.cfg.maxPlayers
  {
    hide Inv, SanitizeKey, FrameClient;
    InvAsm(s);
  }

  lemma ConnsSize(clients: map<PeerId, Client>)
    ensures |Conns(clients)| == |clients|
  {
    KeysOfConns(clients);
    assert |Conns(clients)| == |Conns(clients).Keys| == |clients.Keys|;
  }

  lemma ChangedSize(own: Owners, own': Owners, ctl: seq<Cmd>, ch: Change)
    requires Changed(own, own', ctl, ch)
    ensures |own'| <= |own| + (if ch.Bind? then 1 else 0)
  {
    if ch.Bind? || ch.Rebind? {
      assert own'.Keys == own.Keys + {ch.p};
    } else if ch.DropClose? || ch.DropKeep? || ch.DropSilent? {
      assert own.Keys == own'.Keys + {ch.p};
    }
  }

  /** A step that does not lower the limit keeps the client count within it. */
  lemma StepKeepsCapacity(s: State, step: Step)
    requires Inv(s) && Enabled(s, step) && |s.clients| <= s.cfg.maxPlayers
    requires Apply(s, step).state.cfg.maxPlayers >= s.cfg.maxPlayers
    ensures var s' := Apply(s, step).state; |s'.clients| <= s'.cfg.maxPlayers
  {
    hide Inv, Apply, Enabled, ChangeOf, Conns, Changed;
    InvAsm(s);
    StepChange(s, step);
    var e := Apply(s, step);
    ConnsSize(s.clients);
    ConnsSize(e.state.clients);
    ChangedSize(Conns(s.clients), Conns(e.state.clients), Ctl(e.cmds), ChangeOf(s, step));
    if ChangeOf(s, step).Bind? { BindHasRoom(s, step); }
  }

  ghost predicate NeverLowered(s: State, steps: seq<Step>)
    requires Run(s, steps)
  {
    forall k :: 0 <= k < |steps| ==>
      (RunPrefix(s, steps, k); EffectAt(s, steps, k).state.cfg.maxPlayers >= After(s, steps[..k]).cfg.maxPlayers)
  }

  lemma {:induction false} CapacityUpTo(s: State, steps: seq<Step>, k: nat)
    requires Run(s, steps) && k <= |steps| && NeverLowered(s, steps) && |s.clients| <= s.cfg.maxPlayers
    ensures Run(s, steps[..k])
    ensures |After(s, steps[..k]).clients| <= After(s, steps[..k]).cfg.maxPlayers
  {
    hide Inv, Enabled, Apply;
    RunPrefix(s, steps, k);
    if k > 0 {
      CapacityUpTo(s, steps, k - 1);
      AfterStep(s, steps, k - 1);
      StepKeepsCapacity(After(s, steps[..k - 1]), steps[k - 1]);
    } else {
      assert steps[..k] == [];
    }
  }

  /** With no lowering of the limit the number of clients never exceeds it. */
  lemma CapacityHolds(s: State, steps: seq<Step>)
    requires Initial(s) && Run(s, steps) && NeverLowered(s, steps) && s.cfg.maxPlayers >= 0
    ensures |After(s, steps).clients| <= After(s, steps).cfg.maxPlayers
  {
    CapacityUpTo(s, steps, |steps|);
    assert steps[..|steps|] == steps;
  }

  // ---------------------------------------------------------------- attribution

  /** The client a relayed message speaks for. */
  function Sender(m: OutMsg): Option<PeerId> {
    match m
    case PlayerPose(pose) => Some(pose.peerId)
    case Chat(from, _) => if from == 0 then None else Some(from)
    case Hit(attacker, _, _, _) => Some(attacker)
    case BlobPacket(_, from, _) => Some(from)
    case _ => None
  }

  /** A live client other than `p` that is bound to the address. */
  ghost predicate BoundOther(cs: map<PeerId, Client>, p: PeerId, a: Addr, q: PeerId) {
    q in cs && q != p && cs[q].udpBound && cs[q].udpAddr == a
  }

  /** The command names a live sender other than the client it goes to. */
  ghost predicate Truthful(cs: map<PeerId, Client>, cmd: Cmd) {
    match cmd
    case TcpSend(conn, q, m) =>
      Sender(m).Some? ==> Sender(m).value in cs && q in cs && q != Sender(m).value && conn == cs[q].connId
    case UdpSend(a, m) => Sender(m).Some? ==> Sender(m).value in cs && exists q :: BoundOther(cs, Sender(m).value, a, q)
    case _ => true
  }

  ghost predicate AllTruthful(cs: map<PeerId, Client>, cmds: seq<Cmd>) {
    forall i :: 0 <= i < |cmds| ==> Truthful(cs, cmds[i])
  }

  /** A loop whose messages speak for the right client. */
  ghost predicate FanOk(cs: map<PeerId, Client>, f: Fan) {
    match f
    case ToOthers(except, m) => Sender(m).Some? ==> Sender(m).value == except && except in cs
    case ToAll(m) => Sender(m).None?
    case ToOne(target, m) => Sender(m).Some? ==> Sender(m).value in cs && Sender(m).value != target
    case BlobToOthers(from, _, _) => from in cs
    case PoseToInterested(from, pose) => pose.peerId == from && from in cs
    case ActorToInterested(_, _) => true
    case PosesOfOthers(_) => Faces(cs)
    case CatchUp(_) => Faces(cs)
  }

  lemma {:induction false} PacketsTruthful(cs: map<PeerId, Client>, q: PeerId, kind: BlobKind, from: PeerId, packets: seq<seq<Byte>>)
    requires q in cs && from in cs && q != from
    ensures AllTruthful(cs, SendPackets(cs[q], q, kind, from, packets))
  {
    if packets != [] {
      PacketsTruthful(cs, q, kind, from, packets[..|packets| - 1]);
    }
  }

  lemma BlobTruthful(cs: map<PeerId, Client>, q: PeerId, kind: BlobKind, from: PeerId, blob: seq<Byte>)
    requires q in cs && from in cs && q != from
    ensures AllTruthful(cs, SendBlob(cs[q], q, kind, from, blob))
  {
    hide Packets, SendPackets;
    PacketsTruthful(cs, q, kind, from, Packets(KindByte(kind), from % 0x1_0000_0000, blob));
  }

  lemma UdpTruthful(cs: map<PeerId, Client>, q: PeerId, m: OutMsg)
    requires q in cs && (Sender(m).Some? ==> Sender(m).value in cs && Sender(m).value != q)
    ensures AllTruthful(cs, SendUdp(cs[q], m))
  {
    if Sender(m).Some? && cs[q].udpBound {
      assert BoundOther(cs, Sender(m).value, cs[q].udpAddr, q);
    }
  }

  lemma ConcatTruthful(cs: map<PeerId, Client>, a: seq<Cmd>, b: seq<Cmd>)
    requires AllTruthful(cs, a) && AllTruthful(cs, b)
    ensures AllTruthful(cs, a + b)
  {
  }

  lemma CatchUpTruthful(cs: map<PeerId, Client>, maxUu: real, to: PeerId, p: PeerId)
    requires Faces(cs) && p in cs && to in cs && p != to
    ensures AllTruthful(cs, Visit(cs, maxUu, CatchUp(to), p))
  {
    hide SendBlob, SendUdp, AllTruthful;
    var c := cs[p];
    UdpTruthful(cs, to, PlayerPose(c.lastPose));
    BlobTruthful(cs, to, Appearance, p, c.appearance);
    BlobTruthful(cs, to, Inventory, p, c.inventory);
    var pose := SendUdp(cs[to], PlayerPose(c.lastPose));
    var app := if c.appearance != [] then SendBlob(cs[to], to, Appearance, p, c.appearance) else [];
    var inv := if c.inventory != [] then SendBlob(cs[to], to, Inventory, p, c.inventory) else [];
    NothingTruthful(cs);
    ConcatTruthful(cs, pose, app);
    ConcatTruthful(cs, pose + app, inv);
  }

  lemma NothingTruthful(cs: map<PeerId, Client>)
    ensures AllTruthful(cs, [])
  {
  }

  lemma VisitTruthful(cs: map<PeerId, Client>, maxUu: real, f: Fan, p: PeerId)
    requires FanOk(cs, f)
    ensures AllTruthful(cs, Visit(cs, maxUu, f, p))
  {
    hide SendBlob, SendUdp, InInterest;
    if p in cs {
      match f
      case BlobToOthers(from, kind, blob) => if p != from { BlobTruthful(cs, p, kind, from, blob); }
      case PoseToInterested(from, pose) => if p != from { UdpTruthful(cs, p, PlayerPose(pose)); }
      case ActorToInterested(from, actor) => UdpTruthful(cs, p, ActorPoseMsg(actor));
      case PosesOfOthers(to) => if p != to && to in cs { UdpTruthful(cs, to, PlayerPose(cs[p].lastPose)); }
      case CatchUp(to) => if p != to && to in cs { CatchUpTruthful(cs, maxUu, to, p); }
      case _ =>
    }
  }

  lemma {:induction false} FanOutTruthful(cs: map<PeerId, Client>, maxUu: real, f: Fan, order: seq<PeerId>)
    requires FanOk(cs, f)
    ensures AllTruthful(cs, FanOut(cs, maxUu, f, order))
  {
    hide Visit, Truthful;
    if order != [] {
      FanOutTruthful(cs, maxUu, f, order[..|order| - 1]);
      VisitTruthful(cs, maxUu, f, order[|order| - 1]);
    }
  }

  /** What a handler queues speaks truly, judged by the clients it leaves live. */
  ghost predicate Honest(e: Effect) {
    AllTruthful(e.state.clients, e.cmds)
  }

  lemma FacesOf(s: State)
    requires Inv(s)
    ensures Faces(s.clients)
  {
  }

  lemma RelayHonest(s: State, p: PeerId, m: InMsg, t: real, o: Oracle)
    requires Inv(s) && p in s.clients
    ensures Honest(Relay(s, p, m, t, o))
  {
    hide FanOut, Inv, Truthful;
    var e := Relay(s, p, m, t, o);
    RelayFrame(s, p, m, t, o);
    match m
    case InHeartbeat(stamp) => PlainTruthful(s.clients, TcpSend(s.clients[p].connId, p, Heartbeat(p, stamp)));
    case InChat(text) => FanOutTruthful(s.clients, s.cfg.interestUu, ToOthers(p, Chat(p, text)), o.order);
    case InKick(target, reason) => FanOutTruthful(s.clients, s.cfg.interestUu, ToOne(target, Kick(target, reason)), o.order);
    case InTeleport(target, place) => FanOutTruthful(s.clients, s.cfg.interestUu, ToOne(target, Teleport(target, place)), o.order);
    case InHit(attacker, target, damage, flags) =>
      if attacker == p && target != attacker {
        FanOutTruthful(s.clients, s.cfg.interestUu, ToOne(target, Hit(p, target, ClampHitDamage(damage), flags)), o.order);
      }
    case _ =>
  }

  lemma PlainTruthful(cs: map<PeerId, Client>, cmd: Cmd)
    requires cmd.TcpSend? && Sender(cmd.msg).None?
    ensures Truthful(cs, cmd)
  {
  }

  lemma BlobHonest(s: State, p: PeerId, kind: BlobKind, datagram: seq<Byte>, t: real, o: Oracle)
    requires Inv(s) && p in s.clients
    ensures Honest(OnBlob(s, p, kind, datagram, t, o))
  {
    hide FanOut, Accept, Inv, Truthful;
    InvAsm(s);
    var e := OnBlob(s, p, kind, datagram, t, o);
    var (asm, status) := Accept(AsmOf(AsmTable(s, kind), p), datagram);
    if status.Complete? && AllowRate(s.rates.blob, p, t, 64).1 {
      FanOutTruthful(e.state.clients, e.state.cfg.interestUu, BlobToOthers(p, kind, status.blob), o.order);
    }
  }

  lemma {:induction false} ByesTruthful(cs: map<PeerId, Client>, cs': map<PeerId, Client>, maxUu: real, p: PeerId, order: seq<PeerId>)
    ensures AllTruthful(cs', FanOut(cs, maxUu, ToOthers(p, Bye(p)), order))
  {
    if order != [] {
      ByesTruthful(cs, cs', maxUu, p, order[..|order| - 1]);
    }
  }

  lemma RemoveHonest(s: State, p: PeerId, keepTcp: bool, o: Oracle)
    ensures Honest(RemoveClient(s, p, keepTcp, o))
  {
    hide FanOut;
    if p in s.clients {
      var e := RemoveClient(s, p, keepTcp, o);
      ByesTruthful(s.clients, e.state.clients, s.cfg.interestUu, p, o.order);
    }
  }

  lemma HandleTcpHonest(s: State, p: PeerId, m: InMsg, t: real, o: Oracle)
    requires Inv(s) && p in s.clients
    ensures Honest(HandleTcp(s, p, m, t, o))
  {
    hide RemoveClient, OnBlob, Relay, Inv, UnbindUdp, AllTruthful;
    InvAsm(s);
    NothingTruthful(s.clients);
    if !m.BadHeader? && !IsUdpOnly(m) {
      TouchKeepsInv(s, p, t);
      var s1 := Touch(s, p, t);
      if m.InBye? {
        RemoveHonest(s1, p, true, o);
      } else if m.InHello? {
        HelloAgainHonest(s1, p);
      } else if m.InBlob? {
        BlobHonest(s1, p, m.kind, m.datagram, t, o);
      } else {
        RelayHonest(s1, p, m, t, o);
      }
    }
  }

  lemma HelloAgainHonest(s: State, p: PeerId)
    requires p in s.clients
    ensures Honest(HelloAgain(s, p))
  {
    hide UnbindUdp;
    UnbindFrame(s.(tokenSeed := NextToken(s.tokenSeed), clients := s.clients[p := s.clients[p].(udpToken := NextToken(s.tokenSeed))]), p);
  }

  lemma HandleUdpHonest(s: State, from: Addr, m: InMsg, t: real, o: Oracle)
    requires Inv(s)
    ensures Honest(HandleUdp(s, from, m, t, o))
  {
    hide FanOut, Inv, Truthful, OnPose, OnUdpBind;
    if m.InUdpBind? {
      UdpBindHonest(s, m.peer, m.token, from, t, o);
    } else if IsUdpOnly(m) {
      FindByUdpIsIndex(s, from);
      var who := FindByUdp(s, from).1;
      if who.Some? {
        var p := who.value;
        var s2 := Touch(s, p, t);
        if m.InPlayerPose? {
          PoseHonest(s2, p, m.pose, t, o);
        } else {
          FanOutTruthful(s2.clients, s2.cfg.interestUu, ActorToInterested(p, m.actor), o.order);
        }
      }
    }
  }

  lemma UdpBindHonest(s: State, p: PeerId, token: Word32, from: Addr, t: real, o: Oracle)
    requires Inv(s)
    ensures Honest(OnUdpBind(s, p, token, from, t, o))
  {
    hide FanOut, Inv, Truthful, UnbindUdp, Faces;
    UdpBindKeepsInv(s, p, token, from, t, o);
    var e := OnUdpBind(s, p, token, from, t, o);
    FacesOf(e.state);
    FanOutTruthful(e.state.clients, e.state.cfg.interestUu, PosesOfOthers(p), o.order);
  }

  lemma PoseHonest(s: State, p: PeerId, raw: Pose, t: real, o: Oracle)
    requires p in s.clients
    ensures Honest(OnPose(s, p, raw, t, o))
  {
    hide FanOut, Truthful, RecOf;
    var e := OnPose(s, p, raw, t, o);
    FanOutTruthful(e.state.clients, e.state.cfg.interestUu, PoseToInterested(p, raw.(peerId := p)), o.order);
  }

  lemma GreetHonest(s: State, p: PeerId, isNew: bool, requireHost: bool, o: Oracle)
    requires p in s.clients && Faces(s.clients)
    ensures AllTruthful(s.clients, Greet(s, p, isNew, requireHost, o))
  {
    hide FanOut;
    FanOutTruthful(s.clients, s.cfg.interestUu, CatchUp(p), o.order);
  }

  lemma AdmitHonest(s: State, conn: ConnId, addr: Addr, h: Hello, t: real, o: Oracle)
    requires Inv(s) && IsPending(s.pending, conn) && Gate(s, h, o).None?
    ensures Honest(Admit(s, conn, addr, h, t, o))
  {
    hide Inv, Gate, FanOut, Greet, Without, SanitizeKey, Truthful, Enroll, Reattach, AddClient;
    AdmitKeepsInv(s, conn, addr, h, t, o);
    AdmitShape(s, conn, addr, h, t, o);
    var s2 := Admit(s, conn, addr, h, t, o).state;
    FacesOf(s2);
    var p := Joined(s, h);
    var isNew := !RecOf(s.players, SanitizeKey(h.playerKey)).havePose;
    GreetHonest(s2, p, isNew, h.requireHost, o);
    CtlTruthful(s2.clients, BindingCmds(s, conn, h));
    ConcatTruthful(s2.clients, BindingCmds(s, conn, h), Greet(s2, p, isNew, h.requireHost, o));
  }

  lemma CtlTruthful(cs: map<PeerId, Client>, cmds: seq<Cmd>)
    requires forall i :: 0 <= i < |cmds| ==> !IsSend(cmds[i])
    ensures AllTruthful(cs, cmds)
  {
  }

  /** The peer a welcomed Hello ends up as. */
  ghost function Joined(s: State, h: Hello): PeerId {
    var same := ByKey(s.clients, SanitizeKey(h.playerKey));
    if same.Some? then same.value else s.nextPeer
  }

  /** The control commands of a welcomed Hello. */
  ghost function BindingCmds(s: State, conn: ConnId, h: Hello): seq<Cmd> {
    var same := ByKey(s.clients, SanitizeKey(h.playerKey));
    if same.Some? then [CloseConn(s.clients[same.value].connId), BindPeer(conn, same.value)] else [BindPeer(conn, s.nextPeer)]
  }

  /** A welcomed Hello: who joined, on which connection, and what was queued. */
  lemma AdmitShape(s: State, conn: ConnId, addr: Addr, h: Hello, t: real, o: Oracle)
    requires Inv(s) && IsPending(s.pending, conn) && Gate(s, h, o).None?
    ensures var e := Admit(s, conn, addr, h, t, o);
            var p := Joined(s, h);
            && p in e.state.clients && e.state.clients[p].connId == conn
            && e.cmds == BindingCmds(s, conn, h)
                         + Greet(e.state, p, !RecOf(s.players, SanitizeKey(h.playerKey)).havePose, h.requireHost, o)
            && e.jobs == []
  {
    hide Inv, Gate, FanOut, Reattach, AddClient, Enroll, Greet, Without, SanitizeKey;
    if h.requireHost { LateFallbackUnreachable(s, h, o); }
    EnrollKeepsInv(s, h);
    EnrollFrame(s, h);
    var s1 := Enroll(s, h);
    var same := ByKey(s.clients, SanitizeKey(h.playerKey));
    var p := Joined(s, h);
    if same.Some? {
      ReattachChange(s1, p, conn, addr, h, t);
      var own := Conns(Reattach(s1, p, conn, addr, h, t).state.clients);
      assert own[p] == conn;
    } else {
      AddChange(s1, conn, addr, h, t);
      var own := Conns(AddClient(s1, conn, addr, h, t).state.clients);
      assert own[p] == conn;
    }
  }

  lemma HandlePendingHonest(s: State, entry: PendingTcp, m: InMsg, t: real, o: Oracle)
    requires Inv(s) && IsPending(s.pending, entry.connId)
    ensures Honest(HandlePending(s, entry, m, t, o))
  {
    hide Inv, Admit, SanitizeKey, Gate;
    if m.InHello? {
      var s1 := s.(rates := s.rates.(hello := AllowRate(s.rates.hello, entry.addr, t, 2).0));
      InvFrame(s, s1);
      HostLookupIdle(s1, o);
      if Gate(s1, m.hello, o).None? {
        AdmitHonest(s1, entry.connId, entry.addr, m.hello, t, o);
      }
    }
  }

  lemma IdleHonest(s: State, e: Event, o: Oracle)
    ensures Honest(ApplyIdle(s, e, o))
  {
    hide FanOut, SanitizeKey, Truthful, Flush;
    var s' := ApplyIdle(s, e, o).state;
    match e
    case HeartbeatTick => FanOutTruthful(s.clients, s.cfg.interestUu, ToAll(Heartbeat(0, 0)), o.order);
    case Say(text) => FanOutTruthful(s.clients, s.cfg.interestUu, ToAll(Chat(0, text)), o.order);
    case _ => FanOutTruthful(s'.clients, s'.cfg.interestUu, ToAll(SessionRules(SessionFlags(s'.cfg))), o.order);
  }

  lemma KickHonest(s: State, p: PeerId, ban: bool, o: Oracle)
    ensures Honest(AdminKick(s, p, ban, o))
  {
  }

  lemma ClosedHonest(s: State, conn: ConnId, peer: PeerId, o: Oracle)
    ensures Honest(OnClosed(s, conn, peer, o))
  {
    hide RemoveClient, Without;
    var s1 := s.(pending := Without(s.pending, conn));
    if peer != 0 {
      RemoveHonest(s1, peer, false, o);
    } else {
      var owner := OwnerOf(s1.clients, conn);
      if owner.Some? {
        RemoveHonest(s1.(clients := s1.clients[owner.value := s1.clients[owner.value].(connId := 0)]), owner.value, false, o);
      }
    }
  }

  lemma FrameHonest(s: State, conn: ConnId, peer: PeerId, m: InMsg, t: real, o: Oracle)
    requires Inv(s)
    ensures Honest(OnFrame(s, conn, peer, m, t, o))
  {
    hide Inv, HandleTcp, HandlePending;
    InvAsm(s);
    var f := FrameClient(s, conn, peer);
    if f.Some? {
      HandleTcpHonest(s, f.value, m, t, o);
    } else {
      var i := FindPending(s.pending, conn);
      if i >= 0 {
        assert IsPending(s.pending, s.pending[i].connId);
        HandlePendingHonest(s, s.pending[i], m, t, o);
      }
    }
  }

  /** Every pose, chat line, hit or blob packet queued by any step names a sender that is
      live at that moment and different from the client it is queued to. */
  lemma StepHonest(s: State, step: Step)
    requires Inv(s)
    ensures AllTruthful(Apply(s, step).state.clients, Apply(s, step).cmds)
  {
    hide Inv, OnFrame, OnClosed, HandleUdp, RemoveClient, AdminKick, ApplyIdle, Without;
    InvAsm(s);
    match step.event
    case Net(TcpAccept(conn, addr)) =>
    case Net(TcpFrame(conn, peer, m)) => FrameHonest(s, conn, peer, m, step.t, step.o);
    case Net(TcpClosed(conn, peer)) => ClosedHonest(s, conn, peer, step.o);
    case Net(UdpDatagram(from, m)) => HandleUdpHonest(s, from, m, step.t, step.o);
    case PendingTimeout(conn) =>
    case ClientTimeout(p) => RemoveHonest(s, p, false, step.o);
    case Kicked(p, ban) => KickHonest(s, p, ban, step.o);
    case _ => IdleHonest(s, step.event, step.o);
  }

  /** Departure is final: nothing queued after a client is gone speaks for it. */
  lemma DepartureIsFinal(s: State, steps: seq<Step>, k: nat, j: nat, p: PeerId)
    requires Run(s, steps) && k <= j < |steps|
    requires Run(s, steps[..k]) && Gone(After(s, steps[..k]), p)
    ensures var cmds := EffectAt(s, steps, j).cmds;
            forall i :: 0 <= i < |cmds| && IsSend(cmds[i]) ==> Sender(cmds[i].msg) != Some(p)
  {
    hide Inv, Enabled, Apply, Gone, AllTruthful;
    RunPrefix(s, steps, j + 1);
    RunPrefix(s, steps, j);
    assert steps[..j + 1][..k] == steps[..k];
    GoneForGood(s, steps[..j + 1], k, p);
    AfterStep(s, steps, j);
    var e := EffectAt(s, steps, j);
    StepHonest(After(s, steps[..j]), steps[j]);
    TruthfulNotGone(e, p);
  }

  lemma TruthfulNotGone(e: Effect, p: PeerId)
    requires AllTruthful(e.state.clients, e.cmds) && Gone(e.state, p)
    ensures forall i :: 0 <= i < |e.cmds| && IsSend(e.cmds[i]) ==> Sender(e.cmds[i].msg) != Some(p)
  {
    forall i | 0 <= i < |e.cmds| && IsSend(e.cmds[i]) ensures Sender(e.cmds[i].msg) != Some(p) {
      assert Truthful(e.state.clients, e.cmds[i]);
    }
  }

  // ---------------------------------------------------------------- one Bye each

  function Count<T(==)>(xs: seq<T>, x: T): nat {
    if xs == [] then 0 else Count(xs[..|xs| - 1], x) + (if xs[|xs| - 1] == x then 1 else 0)
  }

  lemma {:induction false} CountConcat<T>(a: seq<T>, b: seq<T>, x: T)
    ensures Count(a + b, x) == Count(a, x) + Count(b, x)
    decreases |b|
  {
    if b == [] {
      assert a + b == a;
    } else {
      var n := |b| - 1;
      assert (a + b)[..|a + b| - 1] == a + b[..n];
      CountConcat(a, b[..n], x);
    }
  }

  lemma ByeVisit(cs: map<PeerId, Client>, maxUu: real, p: PeerId, v: PeerId, q: PeerId)
    requires q in cs && q != p && cs[q].connId != 0
    ensures Count(Visit(cs, maxUu, ToOthers(p, Bye(p)), v), TcpSend(cs[q].connId, q, Bye(p))) == if v == q then 1 else 0
  {
    var xs := Visit(cs, maxUu, ToOthers(p, Bye(p)), v);
    assert |xs| <= 1 && (|xs| == 1 ==> xs[..0] == []);
  }

  lemma {:induction false} ByeCount(cs: map<PeerId, Client>, maxUu: real, p: PeerId, order: seq<PeerId>, q: PeerId)
    requires q in cs && q != p && cs[q].connId != 0
    requires forall i, j :: 0 <= i < j < |order| ==> order[i] != order[j]
    ensures Count(FanOut(cs, maxUu, ToOthers(p, Bye(p)), order), TcpSend(cs[q].connId, q, Bye(p))) == if q in order then 1 else 0
  {
    hide Visit;
    if order != [] {
      var n := |order| - 1;
      var front, last := order[..n], order[n];
      ByeCount(cs, maxUu, p, front, q);
      ByeVisit(cs, maxUu, p, last, q);
      CountConcat(FanOut(cs, maxUu, ToOthers(p, Bye(p)), front), Visit(cs, maxUu, ToOthers(p, Bye(p)), last), TcpSend(cs[q].connId, q, Bye(p)));
      assert order == front + [last];
      assert q in order <==> q in front || q == last;
    }
  }

  lemma CountAbsent<T>(xs: seq<T>, x: T)
    requires x !in xs
    ensures Count(xs, x) == 0
  {
    if xs != [] { CountAbsent(xs[..|xs| - 1], x); }
  }

  lemma {:induction false} ByeTotal(cs: map<PeerId, Client>, maxUu: real, p: PeerId, order: seq<PeerId>)
    requires forall i :: 0 <= i < |order| ==> order[i] in cs && cs[order[i]].connId != 0
    requires forall i, j :: 0 <= i < j < |order| ==> order[i] != order[j]
    ensures |FanOut(cs, maxUu, ToOthers(p, Bye(p)), order)| == |order| - (if p in order then 1 else 0)
  {
    if order != [] {
      var n := |order| - 1;
      var front := order[..n];
      ByeTotal(cs, maxUu, p, front);
      assert order == front + [order[n]];
      assert p in order <==> p in front || p == order[n];
    }
  }

  lemma {:induction false} OrderSize(order: seq<PeerId>, keys: set<PeerId>)
    requires ValidOrder(order, keys)
    ensures |order| == |keys|
  {
    if order == [] {
      assert forall k :: k in keys <==> k in order;
      assert keys == {};
    } else {
      var n := |order| - 1;
      var front, last := order[..n], order[n];
      assert ValidOrder(front, keys - {last}) by {
        forall q ensures q in front <==> q in keys - {last} {
          assert order == front + [last];
          assert q in order <==> q in front || q == last;
        }
      }
      OrderSize(front, keys - {last});
      assert last in keys;
    }
  }

  /** `remove_client` queues exactly one Bye to each remaining client, one control command
      for the leaver's connection, and nothing else. */
  lemma OneByeEach(s: State, p: PeerId, keepTcp: bool, o: Oracle)
    requires Inv(s) && p in s.clients && ValidOrder(o.order, s.clients.Keys)
    ensures var cmds := RemoveClient(s, p, keepTcp, o).cmds;
            && (forall q :: q in s.clients && q != p ==> Count(cmds, TcpSend(s.clients[q].connId, q, Bye(p))) == 1)
            && |cmds| == |s.clients|
            && cmds[|cmds| - 1] == (if keepTcp then KeepPending(p) else CloseConn(s.clients[p].connId))
  {
    hide Inv, FanOut, RemoveClient;
    FacesAt(s, p);
    RemoveCmds(s, p, keepTcp, o);
    forall q | q in s.clients && q != p
      ensures Count(RemoveClient(s, p, keepTcp, o).cmds, TcpSend(s.clients[q].connId, q, Bye(p))) == 1
    {
      OneBye(s, p, keepTcp, o, q);
    }
    forall q | q in s.clients ensures s.clients[q].connId != 0 { FacesAt(s, q); }
    ByeTotal(s.clients, s.cfg.interestUu, p, o.order);
    OrderSize(o.order, s.clients.Keys);
  }

  lemma OneBye(s: State, p: PeerId, keepTcp: bool, o: Oracle, q: PeerId)
    requires Inv(s) && p in s.clients && ValidOrder(o.order, s.clients.Keys) && q in s.clients && q != p
    ensures Count(RemoveClient(s, p, keepTcp, o).cmds, TcpSend(s.clients[q].connId, q, Bye(p))) == 1
  {
    hide Inv, FanOut, RemoveClient;
    FacesAt(s, p);
    FacesAt(s, q);
    RemoveCmds(s, p, keepTcp, o);
    var x := TcpSend(s.clients[q].connId, q, Bye(p));
    var ctl := [if keepTcp then KeepPending(p) else CloseConn(s.clients[p].connId)];
    ByeCount(s.clients, s.cfg.interestUu, p, o.order, q);
    CountConcat(Broadcast(s, ToOthers(p, Bye(p)), o), ctl, x);
    CountAbsent(ctl, x);
  }
}
