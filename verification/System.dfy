/** Both threads and the two queues between them: every interleaving of simulation steps,
    single pushes, network-thread commands, accepts, frames and spontaneous closes. The
    simulation thread's own state is private to it, so a handler changes that state in one
    step; its commands are then pushed one by one, with the network thread free to act in
    between. */
module System {
  import opened Types
  import opened Blobs
  import opened Session
  import opened SessionInv
  import opened Ownership
  import opened Net

  const QUEUE_MAX := 8192

  /** The session, the network tables, the two queues, and the commands of the current
      handler that are still to be pushed. */
  datatype Sys = Sys(sim: State, net: Tables, inbound: seq<NetEvent>, outbound: seq<Cmd>, unsent: seq<Cmd>)

  /** `AsyncQueue::push`: refused when full. */
  function Push<T>(q: seq<T>, x: T): seq<T> {
    if |q| >= QUEUE_MAX then q else q + [x]
  }

  datatype SysStep =
    | SimEvent(t: real, o: Oracle)
    | SimLocal(event: Event, t: real, o: Oracle)
    | SimPush
    | NetCommand(lost: bool)
    | NetAccept(addr: Addr)
    | NetFrame(connId: ConnId, msg: InMsg)
    | NetDatagram(addr: Addr, msg: InMsg)
    | NetHangup(connId: ConnId)

  /** `close_conn` with notification. */
  function Hangup(y: Sys, c: ConnId): Sys {
    if c !in y.net.conns then y
    else y.(net := Close(y.net, c), inbound := Push(y.inbound, TcpClosed(c, y.net.conns[c].peer)))
  }

  /** The connection whose socket a send can find dead. */
  predicate LostBySend(y: Sys, cmd: Cmd, lost: bool) {
    lost && cmd.TcpSend? && Target(y.net, cmd.connId, cmd.peerId) in y.net.conns
  }

  /** One command off the outbound queue. */
  function Command(y: Sys, lost: bool): Sys
    requires y.outbound != []
  {
    var cmd := y.outbound[0];
    var y1 := y.(net := Exec(y.net, cmd), outbound := y.outbound[1..]);
    if LostBySend(y, cmd, lost) then Hangup(y1, Target(y.net, cmd.connId, cmd.peerId)) else y1
  }

  /** A frame read from a connection; a refused push closes it. */
  function Frame(y: Sys, c: ConnId, m: InMsg): Sys {
    if c !in y.net.conns then y
    else if |y.inbound| < QUEUE_MAX then y.(inbound := y.inbound + [TcpFrame(c, y.net.conns[c].peer, m)])
    else Hangup(y, c)
  }

  ghost function SimEffect(y: Sys, step: SysStep): Effect
    requires Inv(y.sim) && (step.SimEvent? || step.SimLocal?) && (step.SimEvent? ==> y.inbound != [])
  {
    Apply(y.sim, SimStep(y, step))
  }

  ghost function SimStep(y: Sys, step: SysStep): Step
    requires (step.SimEvent? || step.SimLocal?) && (step.SimEvent? ==> y.inbound != [])
  {
    if step.SimEvent? then Step(Net(y.inbound[0]), step.t, step.o) else Step(step.event, step.t, step.o)
  }

  /** Which steps can happen. Nothing is said here about the freshness of connections. */
  ghost predicate Can(y: Sys, step: SysStep) {
    match step
    case SimEvent(_, _) => y.unsent == [] && y.inbound != [] && Choices(y.sim, SimStep(y, step))
    case SimLocal(e, _, _) => y.unsent == [] && !e.Net? && Choices(y.sim, SimStep(y, step))
    case SimPush => y.unsent != []
    case NetCommand(_) => y.outbound != []
    case _ => true
  }

  ghost function Next(y: Sys, step: SysStep): Sys
    requires Inv(y.sim) && Can(y, step)
  {
    match step
    case SimEvent(_, _) =>
      var e := SimEffect(y, step);
      y.(sim := e.state, inbound := y.inbound[1..], unsent := e.cmds)
    case SimLocal(_, _, _) =>
      var e := SimEffect(y, step);
      y.(sim := e.state, unsent := e.cmds)
    case SimPush => y.(outbound := Push(y.outbound, y.unsent[0]), unsent := y.unsent[1..])
    case NetCommand(lost) => Command(y, lost)
    case NetAccept(addr) =>
      y.(net := Accepted(y.net, addr), inbound := Push(y.inbound, TcpAccept(y.net.nextConn, addr)))
    case NetFrame(c, m) => Frame(y, c, m)
    case NetDatagram(addr, m) => y.(inbound := Push(y.inbound, UdpDatagram(addr, m)))
    case NetHangup(c) => Hangup(y, c)
  }

  /** The outbound queue does not refuse this step's push. */
  predicate Room(y: Sys, step: SysStep) { step.SimPush? ==> |y.outbound| < QUEUE_MAX }

  // ---------------------------------------------------------------- the system invariant

  /** Connection numbers in the session were handed out by the listener. */
  ghost predicate Numbered(sim: State, next: ConnId) {
    forall c: ConnId :: Known(sim, c) ==> c < next
  }

  ghost predicate AllBelow(cmds: seq<Cmd>, next: ConnId) {
    forall i :: 0 <= i < |cmds| ==> Below(cmds[i], next)
  }

  /** Accept events in flight announce distinct connections the session has never seen. */
  ghost predicate AcceptsFresh(inbound: seq<NetEvent>, sim: State, next: ConnId) {
    && (forall i :: 0 <= i < |inbound| && inbound[i].TcpAccept? ==> 0 < inbound[i].connId < next && !Known(sim, inbound[i].connId))
    && forall i, j :: 0 <= i < j < |inbound| && inbound[i].TcpAccept? && inbound[j].TcpAccept? ==> inbound[i].connId != inbound[j].connId
  }

  /** A connection announced as closed stays closed. */
  ghost predicate ClosedGone(inbound: seq<NetEvent>, net: Tables) {
    forall i :: 0 <= i < |inbound| && inbound[i].TcpClosed? ==> inbound[i].connId < net.nextConn && inbound[i].connId !in net.conns
  }

  /** The commands on their way to the network thread. */
  function OnTheWay(y: Sys): seq<Cmd> { y.outbound + y.unsent }

  /** The session owners agree with the tables once the commands on their way have run. */
  ghost predicate Agreement(y: Sys) {
    Agree(Replay(y.net, OnTheWay(y)), Conns(y.sim.clients))
  }

  /** What holds in every run, refused pushes or not. */
  ghost predicate CoreInv(y: Sys) {
    && Inv(y.sim)
    && Inverse(y.net) && y.net.nextConn > 0
    && Numbered(y.sim, y.net.nextConn)
    && AllBelow(OnTheWay(y), y.net.nextConn)
    && AcceptsFresh(y.inbound, y.sim, y.net.nextConn)
    && ClosedGone(y.inbound, y.net)
  }

  /** ... and what holds as long as nothing is refused. */
  ghost predicate SysInv(y: Sys) {
    && CoreInv(y)
    && Safe(y.net, OnTheWay(y))
    && Agreement(y)
  }

  ghost predicate SysInitial(y: Sys) {
    && Initial(y.sim)
    && y.net == Tables(map[], map[], 1)
    && y.inbound == [] && y.outbound == [] && y.unsent == []
  }

  lemma InitialSysInv(y: Sys)
    requires SysInitial(y)
    ensures SysInv(y)
  {
    InitialInv(y.sim);
    forall c ensures !Known(y.sim, c) {
      assert !IsPending(y.sim.pending, c);
    }
  }

  // ---------------------------------------------------------------- simulation steps

  lemma OwnersInjective(s: State)
    requires Inv(s)
    ensures Injective(Conns(s.clients))
  {
  }

  /** A first accept event in flight is for a connection nobody has: what the session
      invariant needs is proved here, not assumed. */
  lemma HeadAcceptFresh(y: Sys)
    requires CoreInv(y) && y.inbound != []
    ensures FreshAccept(y.sim, Net(y.inbound[0]))
  {
    if y.inbound[0].TcpAccept? {
      var c := y.inbound[0].connId;
      assert !Known(y.sim, c);
      forall p ensures !Owns(y.sim.clients, p, c) { }
    }
  }

  lemma SimEnabled(y: Sys, step: SysStep)
    requires CoreInv(y) && Can(y, step) && (step.SimEvent? || step.SimLocal?)
    ensures Enabled(y.sim, SimStep(y, step))
  {
    hide Choices, CoreInv;
    if step.SimEvent? { HeadAcceptFresh(y); }
  }

  /** What becomes known by a step: only the connection just accepted. */
  lemma StepKnows(s: State, step: Step, c: ConnId)
    requires Inv(s) && Enabled(s, step) && Known(Apply(s, step).state, c)
    ensures Known(s, c) || (step.event.Net? && step.event.ev.TcpAccept? && step.event.ev.connId == c)
  {
    hide Inv, Apply, Enabled, IsPending;
    InvAsm(s);
    var s' := Apply(s, step).state;
    if IsPending(s'.pending, c) {
      StepPending(s, step, c);
    } else {
      var p :| Owns(s'.clients, p, c);
      StepChange(s, step);
      ChangeKnown(s, step);
      var ch := ChangeOf(s, step);
      assert Conns(s'.clients)[p] == c;
      OwnedByChange(s, Conns(s'.clients), Ctl(Apply(s, step).cmds), ch, p);
    }
  }

  lemma OwnedByChange(s: State, own': Owners, ctl: seq<Cmd>, ch: Change, p: PeerId)
    requires Changed(Conns(s.clients), own', ctl, ch) && p in own'
    requires (ch.Bind? || ch.Rebind?) ==> Known(s, ch.c)
    ensures Known(s, own'[p])
  {
    if p in s.clients && own'[p] == s.clients[p].connId {
      assert Owns(s.clients, p, own'[p]);
    }
  }

  /** The control commands of a step speak of known connections. */
  lemma CtlBelow(s: State, step: Step, next: ConnId)
    requires Inv(s) && Enabled(s, step) && Numbered(s, next)
    ensures AllBelow(Ctl(Apply(s, step).cmds), next)
  {
    hide Inv, Apply, Enabled, Known, ChangeOf;
    InvAsm(s);
    StepChange(s, step);
    ChangeKnown(s, step);
  }

  lemma {:induction false} BelowWithSends(cmds: seq<Cmd>, next: ConnId)
    requires AllBelow(Ctl(cmds), next)
    ensures AllBelow(cmds, next)
  {
    if cmds != [] {
      var k := |cmds| - 1;
      var ctl := Ctl(cmds);
      assert AllBelow(Ctl(cmds[..k]), next) by {
        forall i | 0 <= i < |Ctl(cmds[..k])| ensures Below(Ctl(cmds[..k])[i], next) { assert ctl[i] == Ctl(cmds[..k])[i]; }
      }
      BelowWithSends(cmds[..k], next);
      if !IsSend(cmds[k]) { assert ctl[|ctl| - 1] == cmds[k]; }
      forall i | 0 <= i < |cmds| ensures Below(cmds[i], next) {
        if i < k { assert cmds[..k][i] == cmds[i]; }
      }
    }
  }

  /** A silent drop happens only for a connection the network thread reported closed. */
  lemma SilentIsGone(y: Sys, step: SysStep)
    requires CoreInv(y) && Can(y, step) && (step.SimEvent? || step.SimLocal?)
    requires ChangeOf(y.sim, SimStep(y, step)).DropSilent?
    ensures var p := ChangeOf(y.sim, SimStep(y, step)).p;
            p in y.sim.clients && y.sim.clients[p].connId !in Replay(y.net, y.outbound).conns
  {
    hide Inv, Choices;
    InvAsm(y.sim);
    assert step.SimEvent? && y.inbound[0].TcpClosed?;
    ReplayInverse(y.net, y.outbound);
  }

  /** What a simulation step makes of the owners and of the tables the queue leads to. */
  lemma SimChange(y: Sys, step: SysStep)
    requires SysInv(y) && Can(y, step) && (step.SimEvent? || step.SimLocal?)
    ensures var e, m, own := SimEffect(y, step), Replay(y.net, y.outbound), Conns(y.sim.clients);
            var ch := (InvAsm(y.sim); ChangeOf(y.sim, SimStep(y, step)));
            && Changed(own, Conns(e.state.clients), Ctl(e.cmds), ch)
            && Inverse(m) && Agree(m, own) && Injective(own)
            && (ch.DropSilent? ==> own[ch.p] !in m.conns)
  {
    hide Inv, Apply, Enabled, Choices, Inverse, Agree, Changed, ChangeOf, Known, Conns;
    var st := SimStep(y, step);
    SimEnabled(y, step);
    InvAsm(y.sim);
    StepChange(y.sim, st);
    OwnersInjective(y.sim);
    ReplayInverse(y.net, y.outbound);
    assert OnTheWay(y) == y.outbound;
    var ch := ChangeOf(y.sim, st);
    if ch.DropSilent? {
      SilentIsGone(y, step);
      ConnsAt(y.sim, ch.p);
    }
  }

  lemma SimKeepsAgreement(y: Sys, step: SysStep)
    requires SysInv(y) && Can(y, step) && (step.SimEvent? || step.SimLocal?)
    ensures var e := SimEffect(y, step);
            && Agree(Replay(y.net, y.outbound + e.cmds), Conns(e.state.clients))
            && Safe(y.net, y.outbound + e.cmds)
  {
    hide Inv, Apply, Enabled, Choices, Inverse, Agree, Changed, ChangeOf, Known, Conns, Injective;
    InvAsm(y.sim);
    var e, m, own := SimEffect(y, step), Replay(y.net, y.outbound), Conns(y.sim.clients);
    SimChange(y, step);
    ChangeKeepsAgreement(m, own, Conns(e.state.clients), Ctl(e.cmds), ChangeOf(y.sim, SimStep(y, step)));
    ReplayCtl(m, e.cmds);
    assert OnTheWay(y) == y.outbound;
    ReplayConcat(y.net, y.outbound, e.cmds);
  }

  lemma ConnsAt(s: State, p: PeerId)
    requires p in s.clients
    ensures p in Conns(s.clients) && Conns(s.clients)[p] == s.clients[p].connId
  {
  }

  lemma SimKeepsFresh(y: Sys, step: SysStep)
    requires CoreInv(y) && Can(y, step) && (step.SimEvent? || step.SimLocal?)
    ensures var e := SimEffect(y, step);
            var rest := if step.SimEvent? then y.inbound[1..] else y.inbound;
            && Numbered(e.state, y.net.nextConn)
            && AcceptsFresh(rest, e.state, y.net.nextConn)
  {
    hide Inv, Apply, Enabled, Choices, Inverse, Agreement, Known;
    var st := SimStep(y, step);
    SimEnabled(y, step);
    InvAsm(y.sim);
    var e := SimEffect(y, step);
    var rest := if step.SimEvent? then y.inbound[1..] else y.inbound;
    var from := if step.SimEvent? then 1 else 0;
    forall c: ConnId | Known(e.state, c) ensures c < y.net.nextConn {
      StepKnows(y.sim, st, c);
    }
    forall i | 0 <= i < |rest| && rest[i].TcpAccept? ensures 0 < rest[i].connId < y.net.nextConn && !Known(e.state, rest[i].connId) {
      assert rest[i] == y.inbound[i + from];
      if Known(e.state, rest[i].connId) {
        StepKnows(y.sim, st, rest[i].connId);
      }
    }
  }

  lemma SimKeepsCore(y: Sys, step: SysStep)
    requires CoreInv(y) && Can(y, step) && (step.SimEvent? || step.SimLocal?)
    ensures CoreInv(Next(y, step))
  {
    hide Inv, Apply, Enabled, Choices, Inverse, AcceptsFresh, AllBelow, Numbered;
    SimEnabled(y, step);
    SimStepInv(y.sim, SimStep(y, step));
    SimKeepsFresh(y, step);
    SimKeepsBelow(y, step);
  }

  lemma SimKeepsBelow(y: Sys, step: SysStep)
    requires CoreInv(y) && Can(y, step) && (step.SimEvent? || step.SimLocal?)
    ensures AllBelow(y.outbound + SimEffect(y, step).cmds, y.net.nextConn)
  {
    hide Inv, Apply, Enabled, Choices, Inverse, AcceptsFresh, Numbered, Known;
    SimEnabled(y, step);
    CtlBelow(y.sim, SimStep(y, step), y.net.nextConn);
    BelowWithSends(SimEffect(y, step).cmds, y.net.nextConn);
    assert OnTheWay(y) == y.outbound;
  }

  lemma SimStepInv(s: State, step: Step)
    requires Inv(s) && Enabled(s, step)
    ensures Inv(Apply(s, step).state)
  {
    hide Inv, Apply;
    StepKeepsInv(s, step);
  }

  // ---------------------------------------------------------------- network steps

  lemma PushKeepsFresh(inbound: seq<NetEvent>, ev: NetEvent, sim: State, next: ConnId, next': ConnId)
    requires AcceptsFresh(inbound, sim, next) && next <= next'
    requires ev.TcpAccept? ==> ev.connId == next < next' && 0 < next && !Known(sim, next)
    ensures AcceptsFresh(Push(inbound, ev), sim, next')
  {
    hide Known;
  }

  lemma HangupKeepsCore(y: Sys, c: ConnId)
    requires CoreInv(y)
    ensures CoreInv(Hangup(y, c))
  {
    hide Inv, Inverse, AcceptsFresh, Known;
    if c in y.net.conns {
      CloseInverse(y.net, c);
      var ev := TcpClosed(c, y.net.conns[c].peer);
      PushKeepsFresh(y.inbound, ev, y.sim, y.net.nextConn, y.net.nextConn);
      InverseAt(y.net, c);
      assert ClosedGone(Push(y.inbound, ev), Close(y.net, c));
    }
  }

  lemma HangupKeepsAgreement(y: Sys, c: ConnId)
    requires SysInv(y)
    ensures Agreed(Hangup(y, c))
  {
    hide Inv, Inverse, Agree, Safe, Replay, AcceptsFresh, Known, Close;
    if c in y.net.conns {
      CloseCommutesReplay(y.net, c, OnTheWay(y));
      ReplayInverse(y.net, OnTheWay(y));
      AgreeAfterPendingClose(Replay(y.net, OnTheWay(y)), Conns(y.sim.clients), c);
    }
  }

  ghost predicate Agreed(y: Sys) { Safe(y.net, OnTheWay(y)) && Agreement(y) }

  lemma InverseAt(n: Tables, c: ConnId)
    requires Inverse(n) && c in n.conns
    ensures 0 < c < n.nextConn
  {
  }

  lemma CommandKeepsCore(y: Sys, lost: bool)
    requires CoreInv(y) && y.outbound != []
    ensures CoreInv(Command(y, lost))
  {
    hide Inv, Inverse, AcceptsFresh, Known, Exec, Hangup;
    var cmd := y.outbound[0];
    var y1 := y.(net := Exec(y.net, cmd), outbound := y.outbound[1..]);
    ExecInverse(y.net, cmd);
    assert OnTheWay(y1) == OnTheWay(y)[1..];
    assert CoreInv(y1);
    if cmd.TcpSend? { HangupKeepsCore(y1, Target(y.net, cmd.connId, cmd.peerId)); }
  }

  lemma CommandKeepsAgreement(y: Sys, lost: bool)
    requires SysInv(y) && y.outbound != []
    ensures Agreed(Command(y, lost))
  {
    hide CoreInv, Agree, Safe, Replay, Exec, Hangup, SafeCmd;
    var cmd := y.outbound[0];
    var y1 := y.(net := Exec(y.net, cmd), outbound := y.outbound[1..]);
    ReplayHead(y.net, OnTheWay(y));
    assert OnTheWay(y1) == OnTheWay(y)[1..] && OnTheWay(y)[0] == cmd;
    if LostBySend(y, cmd, lost) {
      CommandKeepsCore(y, false);
      HangupKeepsAgreement(y1, Target(y.net, cmd.connId, cmd.peerId));
    }
  }

  lemma AcceptKeepsAgree(n: Tables, own: Owners, addr: Addr)
    requires Agree(n, own) && Unowned(own, n.nextConn)
    ensures Agree(Accepted(n, addr), own)
  {
  }

  lemma AcceptKeepsCore(y: Sys, addr: Addr)
    requires CoreInv(y)
    ensures CoreInv(y.(net := Accepted(y.net, addr), inbound := Push(y.inbound, TcpAccept(y.net.nextConn, addr))))
  {
    hide Inv, Inverse, AcceptsFresh, Known;
    AcceptedInverse(y.net, addr);
    PushKeepsFresh(y.inbound, TcpAccept(y.net.nextConn, addr), y.sim, y.net.nextConn, y.net.nextConn + 1);
  }

  lemma AcceptKeepsAgreement(y: Sys, addr: Addr)
    requires SysInv(y)
    ensures Agreed(y.(net := Accepted(y.net, addr), inbound := Push(y.inbound, TcpAccept(y.net.nextConn, addr))))
  {
    hide Inv, Inverse, Agree, Safe, Replay, AcceptsFresh, Known, Accepted;
    AcceptCommutesReplay(y.net, addr, OnTheWay(y));
    ReplayInverse(y.net, OnTheWay(y));
    UnknownUnowned(y.sim, y.net.nextConn);
    AcceptKeepsAgree(Replay(y.net, OnTheWay(y)), Conns(y.sim.clients), addr);
  }

  lemma UnknownUnowned(s: State, next: ConnId)
    requires Numbered(s, next)
    ensures Unowned(Conns(s.clients), next)
  {
    forall p | p in s.clients ensures s.clients[p].connId != next {
      assert Owns(s.clients, p, s.clients[p].connId);
      assert Known(s, s.clients[p].connId);
    }
  }

  lemma FrameKeepsCore(y: Sys, c: ConnId, m: InMsg)
    requires CoreInv(y)
    ensures CoreInv(Frame(y, c, m))
  {
    hide Inv, Inverse, AcceptsFresh, Hangup, Known;
    HangupKeepsCore(y, c);
    if c in y.net.conns && |y.inbound| < QUEUE_MAX {
      PushKeepsFresh(y.inbound, TcpFrame(c, y.net.conns[c].peer, m), y.sim, y.net.nextConn, y.net.nextConn);
    }
  }

  lemma DatagramKeepsCore(y: Sys, addr: Addr, m: InMsg)
    requires CoreInv(y)
    ensures CoreInv(y.(inbound := Push(y.inbound, UdpDatagram(addr, m))))
  {
    hide Inv, Inverse, AcceptsFresh, Known;
    PushKeepsFresh(y.inbound, UdpDatagram(addr, m), y.sim, y.net.nextConn, y.net.nextConn);
  }

  lemma PushKeepsCore(y: Sys)
    requires CoreInv(y) && y.unsent != []
    ensures CoreInv(y.(outbound := Push(y.outbound, y.unsent[0]), unsent := y.unsent[1..]))
  {
    hide Inv, Inverse, AcceptsFresh, Numbered, ClosedGone, Below;
    var y' := y.(outbound := Push(y.outbound, y.unsent[0]), unsent := y.unsent[1..]);
    if |y.outbound| < QUEUE_MAX {
      PushMoves(y);
    } else {
      forall i | 0 <= i < |OnTheWay(y')| ensures Below(OnTheWay(y')[i], y.net.nextConn) {
        assert OnTheWay(y')[i] == OnTheWay(y)[if i < |y.outbound| then i else i + 1];
      }
    }
  }

  /** An accepted push changes nothing about what is on its way. */
  lemma PushMoves(y: Sys)
    requires y.unsent != [] && |y.outbound| < QUEUE_MAX
    ensures OnTheWay(y.(outbound := Push(y.outbound, y.unsent[0]), unsent := y.unsent[1..])) == OnTheWay(y)
  {
    assert y.unsent == [y.unsent[0]] + y.unsent[1..];
  }

  /** Every step keeps the core invariant, refused pushes included: the session invariant,
      inverse tables, and new connection numbers that are really new. */
  lemma NextKeepsCore(y: Sys, step: SysStep)
    requires CoreInv(y) && Can(y, step)
    ensures CoreInv(Next(y, step))
  {
    hide CoreInv, SimEffect, Command, Frame, Hangup, Choices, Push;
    InvOf(y);
    match step
    case SimEvent(_, _) => SimKeepsCore(y, step);
    case SimLocal(_, _, _) => SimKeepsCore(y, step);
    case SimPush => PushKeepsCore(y);
    case NetCommand(lost) => CommandKeepsCore(y, lost);
    case NetAccept(addr) => AcceptKeepsCore(y, addr);
    case NetFrame(c, m) => FrameKeepsCore(y, c, m);
    case NetDatagram(addr, m) => DatagramKeepsCore(y, addr, m);
    case NetHangup(c) => HangupKeepsCore(y, c);
  }

  /** Every step in which no push is refused keeps the system invariant. */
  lemma NextKeepsSysInv(y: Sys, step: SysStep)
    requires SysInv(y) && Can(y, step) && Room(y, step)
    ensures SysInv(Next(y, step))
  {
    hide CoreInv, SimEffect, Command, Hangup, Choices, Safe, Agree, Replay;
    InvOf(y);
    NextKeepsCore(y, step);
    match step
    case SimEvent(_, _) => SimKeepsAgreement(y, step);
    case SimLocal(_, _, _) => SimKeepsAgreement(y, step);
    case SimPush => PushMoves(y);
    case NetCommand(lost) => CommandKeepsAgreement(y, lost);
    case NetAccept(addr) => AcceptKeepsAgreement(y, addr);
    case NetFrame(c, m) => HangupKeepsAgreement(y, c);
    case NetDatagram(addr, m) =>
    case NetHangup(c) => HangupKeepsAgreement(y, c);
  }

  lemma InvOf(y: Sys)
    requires CoreInv(y)
    ensures Inv(y.sim)
  {
  }

  // ---------------------------------------------------------------- whole runs

  /** A run of both threads from `y`, refused pushes included: every step can happen in the
      state the earlier ones lead to. */
  ghost predicate Possible(y: Sys, steps: seq<SysStep>)
    decreases |steps|, 0
  {
    CoreInv(y) && (steps == [] || (Possible(y, steps[..|steps| - 1]) && Can(Final(y, steps[..|steps| - 1]), steps[|steps| - 1])))
  }

  ghost function Final(y: Sys, steps: seq<SysStep>): (r: Sys)
    requires Possible(y, steps)
    ensures CoreInv(r)
    decreases |steps|, 1
  {
    if steps == [] then y
    else
      var z := Final(y, steps[..|steps| - 1]);
      NextKeepsCore(z, steps[|steps| - 1]);
      Next(z, steps[|steps| - 1])
  }

  /** A run in which the outbound queue refuses nothing. */
  ghost predicate Unrefused(y: Sys, steps: seq<SysStep>)
    requires Possible(y, steps)
    decreases |steps|
  {
    steps == [] || (Unrefused(y, steps[..|steps| - 1]) && Room(Final(y, steps[..|steps| - 1]), steps[|steps| - 1]))
  }

  /** A run goes on with any step that can happen. */
  lemma RunGoesOn(y: Sys, steps: seq<SysStep>, step: SysStep)
    requires Possible(y, steps) && Can(Final(y, steps), step)
    ensures Possible(y, steps + [step]) && Final(y, steps + [step]) == Next(Final(y, steps), step)
  {
    hide CoreInv, Can, Next;
    var all := steps + [step];
    assert all[..|all| - 1] == steps;
    assert Possible(y, all);
  }

  lemma {:induction false} UnrefusedKeepsSysInv(y: Sys, steps: seq<SysStep>)
    requires SysInv(y) && Possible(y, steps) && Unrefused(y, steps)
    ensures SysInv(Final(y, steps))
    decreases |steps|
  {
    hide SysInv, Can, Next, Room, CoreInv;
    if steps != [] {
      var n := |steps| - 1;
      UnrefusedKeepsSysInv(y, steps[..n]);
      NextKeepsSysInv(Final(y, steps[..n]), steps[n]);
    }
  }

  /** Two-thread agreement: in every interleaving without a refused push, running the
      commands on their way leaves each open connection bound to `p` exactly when client `p`
      owns it, no bind ever steals a peer or a connection, and a connection that dies at any
      moment gives the same tables as one that dies after the replay. */
  lemma TwoThreadAgreement(y: Sys, steps: seq<SysStep>, lost: ConnId)
    requires SysInitial(y) && Possible(y, steps) && Unrefused(y, steps)
    ensures var z := Final(y, steps);
            var m := Replay(z.net, OnTheWay(z));
            && (forall c, p :: c in m.conns && p != 0 ==> (m.conns[c].peer == p <==> p in z.sim.clients && z.sim.clients[p].connId == c))
            && Inverse(z.net)
            && Safe(z.net, OnTheWay(z))
            && Replay(Close(z.net, lost), OnTheWay(z)) == Close(m, lost)
            && (z.unsent == [] ==> OnTheWay(z) == z.outbound)
  {
    hide Unrefused, Inverse, Safe, Inv, Replay, Close, Agree, Final, Possible, SysInitial;
    InitialSysInv(y);
    UnrefusedKeepsSysInv(y, steps);
    var z := Final(y, steps);
    CloseCommutesReplay(z.net, lost, OnTheWay(z));
    AgreeUnfolds(Replay(z.net, OnTheWay(z)), z.sim);
    if z.unsent == [] { assert OnTheWay(z) == z.outbound; }
  }

  /** Over every run, refused pushes or not: the tables are inverse, the session invariant
      holds, and an accept in flight is for a connection the session has never seen. */
  lemma EveryRunInverse(y: Sys, steps: seq<SysStep>)
    requires SysInitial(y) && Possible(y, steps)
    ensures var z := Final(y, steps); Inverse(z.net) && Inv(z.sim) && AcceptsFresh(z.inbound, z.sim, z.net.nextConn)
  {
    hide Possible, Final, SysInitial, Inverse, Inv, AcceptsFresh;
  }

  lemma AgreeUnfolds(n: Tables, s: State)
    requires Agree(n, Conns(s.clients))
    ensures forall c, p :: c in n.conns && p != 0 ==> (n.conns[c].peer == p <==> p in s.clients && s.clients[p].connId == c)
  {
    var own := Conns(s.clients);
    forall c, p | c in n.conns && p != 0
      ensures n.conns[c].peer == p <==> p in s.clients && s.clients[p].connId == c
    {
      assert n.conns[c].peer == p <==> p in own && own[p] == c;
    }
  }
}
