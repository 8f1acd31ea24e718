/** What refused pushes do to the agreement of the two threads: the exact condition, and a
    run of the server that violates it. */
module Refusals {
  import opened Blobs
  import opened RateLimit
  import opened Types
  import opened Session
  import opened SessionInv
  import opened Ownership
  import opened Net
  import opened System
  import opened Admission

  // ---------------------------------------------------------------- pushing a handler's commands

  /** The simulation thread pushes and the network thread takes commands off the queue. */
  predicate Pushing(step: SysStep) { step == SimPush || step == NetCommand(false) }

  /** Which of the pushes in these steps find room. */
  ghost function Accepts(y: Sys, steps: seq<SysStep>): seq<bool>
    requires Possible(y, steps)
    decreases |steps|
  {
    if steps == [] then []
    else
      var n := |steps| - 1;
      Accepts(y, steps[..n]) + if steps[n].SimPush? then [|Final(y, steps[..n]).outbound| < QUEUE_MAX] else []
  }

  ghost predicate Pushed(y: Sys, got: seq<bool>, z: Sys) {
    && |got| <= |y.unsent|
    && z.sim == y.sim && z.unsent == y.unsent[|got|..]
    && Replay(z.net, z.outbound) == Replay(Replay(y.net, y.outbound), Passed(y.unsent[..|got|], got))
  }

  lemma PushPushed(y: Sys, got: seq<bool>, z: Sys)
    requires Pushed(y, got, z) && z.unsent != []
    ensures Pushed(y, got + [|z.outbound| < QUEUE_MAX], z.(outbound := Push(z.outbound, z.unsent[0]), unsent := z.unsent[1..]))
  {
    hide Replay, Passed, Exec;
    var n, ok := |got|, |z.outbound| < QUEUE_MAX;
    var got', x := got + [ok], z.unsent[0];
    assert y.unsent[..n + 1][..n] == y.unsent[..n] && y.unsent[n] == x && got'[..n] == got;
    PassedSnoc(y.unsent[..n + 1], got');
    var m := Replay(y.net, y.outbound);
    if ok {
      ReplaySnoc(z.net, z.outbound, x);
      ReplaySnoc(m, Passed(y.unsent[..n], got), x);
    } else {
      assert Passed(y.unsent[..n], got) + [] == Passed(y.unsent[..n], got);
    }
  }

  lemma PassedSnoc(cmds: seq<Cmd>, got: seq<bool>)
    requires |got| == |cmds| && cmds != []
    ensures var n := |cmds| - 1; Passed(cmds, got) == Passed(cmds[..n], got[..n]) + if got[n] then [cmds[n]] else []
  {
  }

  lemma ReplaySnoc(n: Tables, cmds: seq<Cmd>, x: Cmd)
    ensures Replay(n, cmds + [x]) == Exec(Replay(n, cmds), x)
  {
    hide Exec;
    assert (cmds + [x])[..|cmds|] == cmds;
  }

  lemma CommandPushed(y: Sys, got: seq<bool>, z: Sys)
    requires Pushed(y, got, z) && z.outbound != []
    ensures Pushed(y, got, Command(z, false))
  {
    hide Replay, Passed, Exec;
    ReplayHead(z.net, z.outbound);
  }

  /** In any interleaving of pushes and executed commands, what the queue leads to is what
      it led to before, followed by the pushes that found room. */
  lemma {:induction false} PushingRun(y: Sys, steps: seq<SysStep>)
    requires Possible(y, steps) && forall i :: 0 <= i < |steps| ==> Pushing(steps[i])
    ensures Pushed(y, Accepts(y, steps), Final(y, steps))
    decreases |steps|
  {
    hide CoreInv, Pushed, Command;
    if steps == [] {
      PushedNone(y);
    } else {
      var n := |steps| - 1;
      PushingRun(y, steps[..n]);
      var z, got := Final(y, steps[..n]), Accepts(y, steps[..n]);
      if steps[n].SimPush? {
        PushPushed(y, got, z);
      } else {
        CommandPushed(y, got, z);
        assert got + [] == got;
      }
    }
  }

  lemma PushedNone(y: Sys)
    ensures Pushed(y, [], y)
  {
    assert y.unsent[..0] == [];
  }

  // ---------------------------------------------------------------- the exact condition

  /** Which control commands are among the accepted ones. */
  function CtlGot(cmds: seq<Cmd>, got: seq<bool>): (r: seq<bool>)
    requires |got| == |cmds|
    ensures |r| == |Ctl(cmds)|
  {
    if cmds == [] then []
    else
      var n := |cmds| - 1;
      CtlGot(cmds[..n], got[..n]) + if IsSend(cmds[n]) then [] else [got[n]]
  }

  lemma {:induction false} CtlPassed(cmds: seq<Cmd>, got: seq<bool>)
    requires |got| == |cmds|
    ensures Ctl(Passed(cmds, got)) == Passed(Ctl(cmds), CtlGot(cmds, got))
    decreases |cmds|
  {
    if cmds != [] {
      var n := |cmds| - 1;
      var front := Passed(cmds[..n], got[..n]);
      CtlPassed(cmds[..n], got[..n]);
      var ctl, cg := Ctl(cmds), CtlGot(cmds, got);
      if IsSend(cmds[n]) {
        assert ctl == Ctl(cmds[..n]) && cg == CtlGot(cmds[..n], got[..n]);
        if got[n] { CtlSnoc(front, cmds[n]); } else { assert front + [] == front; }
      } else {
        assert ctl[..|ctl| - 1] == Ctl(cmds[..n]) && cg[..|cg| - 1] == CtlGot(cmds[..n], got[..n]);
        PassedSnoc(ctl, cg);
        if got[n] { CtlSnoc(front, cmds[n]); } else { assert front + [] == front; }
      }
    }
  }

  lemma CtlSnoc(cmds: seq<Cmd>, x: Cmd)
    ensures Ctl(cmds + [x]) == Ctl(cmds) + if IsSend(x) then [] else [x]
  {
    assert (cmds + [x])[..|cmds|] == cmds;
  }

  /** The exact condition: after a handler, with its pushes and the network thread's commands
      interleaved in any way, the threads agree if and only if the control commands that were
      refused do no harm to the tables the queue led to. */
  lemma HandlerAgreesIff(y: Sys, step: SysStep, steps: seq<SysStep>)
    requires SysInv(y) && Can(y, step) && (step.SimEvent? || step.SimLocal?)
    requires Possible(Next(y, step), steps) && (forall i :: 0 <= i < |steps| ==> Pushing(steps[i]))
    requires Final(Next(y, step), steps).unsent == []
    ensures |Accepts(Next(y, step), steps)| == |SimEffect(y, step).cmds|
    ensures Agreement(Final(Next(y, step), steps))
       <==> Enough(Replay(y.net, y.outbound), Ctl(SimEffect(y, step).cmds),
                   CtlGot(SimEffect(y, step).cmds, Accepts(Next(y, step), steps)))
  {
    hide SimEffect, Choices, Agree, Replay, Passed, Enough, Inverse, Injective, Changed, ChangeOf, CoreInv, Conns, Final, Possible, Accepts;
    InvOf(y);
    InvAsm(y.sim);
    var y1 := Next(y, step);
    var z, got, e := Final(y1, steps), Accepts(y1, steps), SimEffect(y, step);
    var m := Replay(y.net, y.outbound);
    PushingRun(y1, steps);
    assert e.cmds[..|got|] == e.cmds;
    assert OnTheWay(z) == z.outbound;
    SimChange(y, step);
    ReplayCtl(m, Passed(e.cmds, got));
    CtlPassed(e.cmds, got);
    ChangeAgreesIff(m, Conns(y.sim.clients), Conns(e.state.clients), Ctl(e.cmds), ChangeOf(y.sim, SimStep(y, step)), CtlGot(e.cmds, got));
  }

  // ---------------------------------------------------------------- pushes in one go

  function Burst(n: nat): (r: seq<SysStep>)
    ensures |r| == n && forall i :: 0 <= i < n ==> r[i] == SimPush
  {
    seq(n, _ => SimPush)
  }

  ghost predicate Fills(y: Sys, n: nat, z: Sys, got: seq<bool>) {
    && n <= |y.unsent| && z.unsent == y.unsent[n..] && |got| == n
    && |z.outbound| == (if |y.outbound| + n <= QUEUE_MAX then |y.outbound| + n else QUEUE_MAX)
    && forall i :: 0 <= i < n ==> (got[i] <==> |y.outbound| + i < QUEUE_MAX)
  }

  /** Pushes without a pop in between fill the queue and are then refused. */
  lemma {:induction false} BurstRun(y: Sys, n: nat)
    requires CoreInv(y) && n <= |y.unsent| && |y.outbound| <= QUEUE_MAX
    ensures Possible(y, Burst(n)) && Fills(y, n, Final(y, Burst(n)), Accepts(y, Burst(n)))
  {
    hide CoreInv, Fills, Can, Next;
    if n == 0 {
      FillsNone(y);
    } else {
      BurstRun(y, n - 1);
      assert Burst(n)[..n - 1] == Burst(n - 1);
      FillsOne(y, n - 1, Final(y, Burst(n - 1)), Accepts(y, Burst(n - 1)));
    }
  }

  lemma FillsNone(y: Sys)
    requires |y.outbound| <= QUEUE_MAX
    ensures Fills(y, 0, y, [])
  {
  }

  lemma FillsOne(y: Sys, n: nat, z: Sys, got: seq<bool>)
    requires Fills(y, n, z, got) && n < |y.unsent| && CoreInv(z)
    ensures Inv(z.sim) && Can(z, SimPush)
    ensures Fills(y, n + 1, Next(z, SimPush), got + [|z.outbound| < QUEUE_MAX])
  {
    hide CoreInv;
    InvOf(z);
  }

  ghost predicate Monotone(got: seq<bool>) { forall i, j :: 0 <= i < j < |got| && got[j] ==> got[i] }

  lemma {:induction false} CtlGotMonotone(cmds: seq<Cmd>, got: seq<bool>)
    requires |got| == |cmds| && Monotone(got)
    ensures Monotone(CtlGot(cmds, got))
    ensures (exists i :: 0 <= i < |CtlGot(cmds, got)| && !CtlGot(cmds, got)[i]) ==> exists i :: 0 <= i < |got| && !got[i]
    decreases |cmds|
  {
    if cmds != [] {
      var n := |cmds| - 1;
      CtlGotMonotone(cmds[..n], got[..n]);
    }
  }

  ghost predicate Refuses(m: Tables, cmds: seq<Cmd>, got: seq<bool>, i: nat)
    requires |got| == |cmds|
  {
    i < |cmds| && !got[i] && Matters(m, cmds[i])
  }

  ghost predicate AnyRefused(m: Tables, cmds: seq<Cmd>, got: seq<bool>)
    requires |got| == |cmds|
  {
    exists i: nat :: Refuses(m, cmds, got, i)
  }

  /** Looking at the control commands alone misses nothing that matters. */
  lemma {:induction false} RefusesCtl(m: Tables, cmds: seq<Cmd>, got: seq<bool>)
    requires |got| == |cmds|
    ensures AnyRefused(m, cmds, got) <==> AnyRefused(m, Ctl(cmds), CtlGot(cmds, got))
    decreases |cmds|
  {
    hide Matters, AnyRefused;
    if cmds == [] {
      assert AnyRefused(m, [], []) <==> AnyRefused(m, Ctl(cmds), CtlGot(cmds, got));
    } else if cmds != [] {
      var n := |cmds| - 1;
      var ctl, cg := Ctl(cmds), CtlGot(cmds, got);
      RefusesCtl(m, cmds[..n], got[..n]);
      RefusesSnoc(m, cmds, got);
      if IsSend(cmds[n]) {
        SendNeverMatters(m, cmds[n]);
        assert ctl == Ctl(cmds[..n]) && cg == CtlGot(cmds[..n], got[..n]);
      } else {
        assert ctl[..|ctl| - 1] == Ctl(cmds[..n]) && cg[..|cg| - 1] == CtlGot(cmds[..n], got[..n]);
        assert ctl[|ctl| - 1] == cmds[n] && cg[|cg| - 1] == got[n];
        RefusesSnoc(m, ctl, cg);
      }
    }
  }

  lemma SendNeverMatters(m: Tables, x: Cmd)
    requires IsSend(x)
    ensures !Matters(m, x)
  {
  }

  lemma RefusesSnoc(m: Tables, cmds: seq<Cmd>, got: seq<bool>)
    requires |got| == |cmds| && cmds != []
    ensures var n := |cmds| - 1;
            AnyRefused(m, cmds, got) <==> AnyRefused(m, cmds[..n], got[..n]) || (!got[n] && Matters(m, cmds[n]))
  {
    hide Matters;
    var n := |cmds| - 1;
    forall i: nat ensures Refuses(m, cmds[..n], got[..n], i) ==> Refuses(m, cmds, got, i) { }
    forall i: nat ensures Refuses(m, cmds, got, i) ==> i == n || Refuses(m, cmds[..n], got[..n], i) { }
    if !got[n] && Matters(m, cmds[n]) { assert Refuses(m, cmds, got, n); }
  }

  lemma EnoughInOneGo(m: Tables, ctl: seq<Cmd>, got: seq<bool>)
    requires |got| == |ctl| && Monotone(got)
    ensures Enough(m, ctl, got) <==> !AnyRefused(m, ctl, got)
  {
    hide Matters;
    assert forall i, j :: 0 <= i < j < |got| && got[j] ==> got[i];
    if AnyRefused(m, ctl, got) {
      var j: nat :| Refuses(m, ctl, got, j);
      assert !Excused(m, ctl, got, j);
    }
    forall i: nat | i < |ctl| && !got[i] && Matters(m, ctl[i]) ensures AnyRefused(m, ctl, got) {
      assert Refuses(m, ctl, got, i);
    }
  }

  /** When a handler pushes in one go, the threads agree afterwards if and only if every
      control command about a still open connection stands before the place where the queue
      is full. */
  lemma BurstAgreesIff(y: Sys, step: SysStep)
    requires SysInv(y) && Can(y, step) && (step.SimEvent? || step.SimLocal?) && |y.outbound| <= QUEUE_MAX
    ensures var cmds, y1 := SimEffect(y, step).cmds, Next(y, step);
            && Possible(y1, Burst(|cmds|))
            && (Agreement(Final(y1, Burst(|cmds|)))
                <==> forall i :: 0 <= i < |cmds| && QUEUE_MAX <= |y.outbound| + i ==> !Matters(Replay(y.net, y.outbound), cmds[i]))
  {
    hide SimEffect, Choices, Agreement, Replay, Enough, CoreInv, Final, Possible, Accepts, Matters, Burst;
    InvOf(y);
    NextKeepsCore(y, step);
    var cmds, y1, m := SimEffect(y, step).cmds, Next(y, step), Replay(y.net, y.outbound);
    var n := |cmds|;
    BurstRun(y1, n);
    BurstSteps(n);
    HandlerAgreesIff(y, step, Burst(n));
    var got := Accepts(y1, Burst(n));
    CtlGotMonotone(cmds, got);
    EnoughInOneGo(m, Ctl(cmds), CtlGot(cmds, got));
    RefusesCtl(m, cmds, got);
    forall i: nat ensures Refuses(m, cmds, got, i) <==> i < n && QUEUE_MAX <= |y.outbound| + i && Matters(m, cmds[i]) { }
  }

  lemma BurstSteps(n: nat)
    ensures forall i :: 0 <= i < |Burst(n)| ==> Pushing(Burst(n)[i])
  {
  }

  // ---------------------------------------------------------------- a full queue and a Hello

  lemma {:induction false} CtlMember(cmds: seq<Cmd>, x: Cmd)
    ensures x in Ctl(cmds) ==> x in cmds
  {
    if cmds != [] {
      CtlMember(cmds[..|cmds| - 1], x);
    }
  }

  /** A Hello of somebody new on a pending connection, about to be handled and admissible. */
  ghost predicate HelloNext(y: Sys, h: Hello, t: real) {
    && y.inbound != [] && y.inbound[0].TcpFrame? && y.inbound[0].msg == InHello(h)
    && FrameClient(y.sim, y.inbound[0].connId, y.inbound[0].peerId).None?
    && var i := FindPending(y.sim.pending, y.inbound[0].connId);
       && i >= 0
       && AllowRate(y.sim.rates.hello, y.sim.pending[i].addr, t, 2).1
       && Admissible(y.sim, h)
       && ByKey(y.sim.clients, SanitizeKey(h.playerKey)).None?
  }

  lemma HelloBinds(y: Sys, h: Hello, t: real, o: Oracle)
    requires SysInv(y) && HelloNext(y, h, t) && Can(y, SimEvent(t, o))
    ensures BindPeer(y.inbound[0].connId, y.sim.nextPeer) in SimEffect(y, SimEvent(t, o)).cmds
  {
    hide Apply, Choices, Admissible, Agreement, Safe, Changed, SanitizeKey, Inverse, AllBelow, Numbered, AcceptsFresh, Inv;
    InvAsm(y.sim);
    var step := SimEvent(t, o);
    GateIffAdmissible(y.sim, h, o);
    assert ChangeOf(y.sim, SimStep(y, step)) == Bind(y.sim.nextPeer, y.inbound[0].connId);
    SimChange(y, step);
    var cmds := SimEffect(y, step).cmds;
    assert Ctl(cmds) == [BindPeer(y.inbound[0].connId, y.sim.nextPeer)] by { BindCtl(y, step); }
    CtlMember(cmds, BindPeer(y.inbound[0].connId, y.sim.nextPeer));
  }

  lemma BindCtl(y: Sys, step: SysStep)
    requires SysInv(y) && Can(y, step) && (step.SimEvent? || step.SimLocal?)
    requires (InvAsm(y.sim); ChangeOf(y.sim, SimStep(y, step)).Bind?)
    ensures (InvAsm(y.sim); var ch := ChangeOf(y.sim, SimStep(y, step)); Ctl(SimEffect(y, step).cmds) == [BindPeer(ch.c, ch.p)])
  {
    hide Apply, Choices, ChangeOf, Inverse, AllBelow, Numbered, AcceptsFresh, Safe, Agree, Conns;
    InvAsm(y.sim);
    SimChange(y, step);
  }

  /** With the outbound queue full, an admissible Hello on an open connection makes the
      threads disagree: the client is there, its connection is not bound to it. */
  lemma FullQueueDisagrees(y: Sys, h: Hello, t: real, o: Oracle)
    requires SysInv(y) && HelloNext(y, h, t) && Can(y, SimEvent(t, o))
    requires |y.outbound| == QUEUE_MAX && y.inbound[0].connId in Replay(y.net, y.outbound).conns
    ensures var y1, n := Next(y, SimEvent(t, o)), |SimEffect(y, SimEvent(t, o)).cmds|;
            Possible(y1, Burst(n)) && Final(y1, Burst(n)).unsent == [] && !Agreement(Final(y1, Burst(n)))
  {
    hide SimEffect, Choices, Agreement, Replay, CoreInv, Final, Possible, Accepts, Burst, Admissible, AllowRate, FindPending, FrameClient, SanitizeKey;
    InvOf(y);
    var step := SimEvent(t, o);
    var cmds, m := SimEffect(y, step).cmds, Replay(y.net, y.outbound);
    HelloBinds(y, h, t, o);
    BurstAgreesIff(y, step);
    var i :| 0 <= i < |cmds| && cmds[i] == BindPeer(y.inbound[0].connId, y.sim.nextPeer);
    assert Matters(m, cmds[i]);
    NextKeepsCore(y, step);
    BurstRun(Next(y, step), |cmds|);
  }

  // ---------------------------------------------------------------- such a state is reached

  ghost predicate Reached(y: Sys, steps: seq<SysStep>, z: Sys) {
    Possible(y, steps) && Unrefused(y, steps) && Final(y, steps) == z
  }

  lemma Extend(y: Sys, steps: seq<SysStep>, z: Sys, step: SysStep)
    requires Reached(y, steps, z) && Can(z, step) && Room(z, step)
    ensures CoreInv(z) && Reached(y, steps + [step], Next(z, step))
  {
    hide CoreInv, Can, Next, Room;
    RunGoesOn(y, steps, step);
    var all := steps + [step];
    assert all[..|all| - 1] == steps;
  }

  const NOBODY := Oracle([], 0, 0.0)

  /** After `k` strangers have each connected and asked for the session info, and the network
      thread has not yet got to its queue. */
  ghost predicate Flooded(y: Sys, z: Sys, k: nat) {
    && z.inbound == [] && z.unsent == [] && |z.outbound| == k && SendsOnly(z.outbound)
    && z.net.nextConn == k + 1
    && z.sim == y.sim.(pending := z.sim.pending, rates := y.sim.rates.(query := z.sim.rates.query))
    && (forall a :: a in z.sim.rates.query ==> a <= k)
    && (k > 0 ==> |z.sim.pending| > 0 && z.sim.pending[|z.sim.pending| - 1] == PendingTcp(k, k, 1.0) && Waiting(z, k))
  }

  ghost predicate Waiting(z: Sys, c: ConnId) { c in z.net.conns && z.net.conns[c].peer == 0 }

  /** A step of the simulation thread that takes one event while nobody is in the session. */
  lemma AloneCan(z: Sys, t: real)
    requires CoreInv(z) && z.sim.clients == map[] && z.unsent == [] && z.inbound != []
    requires z.inbound[0].TcpAccept? || (z.inbound[0].TcpFrame? && z.inbound[0].msg.InSessionQuery?)
    ensures Can(z, SimEvent(t, NOBODY))
  {
    hide CoreInv;
  }

  lemma Accepting(y: Sys, steps: seq<SysStep>, z: Sys, k: nat) returns (more: seq<SysStep>, z': Sys)
    requires Reached(y, steps, z) && Flooded(y, z, k) && y.sim.clients == map[]
    ensures Reached(y, more, z')
    ensures z'.inbound == [] && z'.unsent == [] && z'.outbound == z.outbound && z'.net.nextConn == k + 2
    ensures z'.sim == z.sim.(pending := z.sim.pending + [PendingTcp(k + 1, k + 1, 1.0)]) && Waiting(z', k + 1)
  {
    hide CoreInv, Choices, Reached, SendsOnly;
    Extend(y, steps, z, NetAccept(k + 1));
    InvOf(z);
    var z1 := Next(z, NetAccept(k + 1));
    CoreAfter(y, steps + [NetAccept(k + 1)], z1);
    AloneCan(z1, 1.0);
    InvOf(z1);
    InvAsm(z1.sim);
    Extend(y, steps + [NetAccept(k + 1)], z1, SimEvent(1.0, NOBODY));
    z' := Next(z1, SimEvent(1.0, NOBODY));
    more := steps + [NetAccept(k + 1)] + [SimEvent(1.0, NOBODY)];
  }

  lemma CoreAfter(y: Sys, steps: seq<SysStep>, z: Sys)
    requires Reached(y, steps, z)
    ensures CoreInv(z)
  {
  }

  /** What a query on the newest pending connection does. */
  lemma QueryEffect(s: State, c: ConnId, a: Addr, o: Oracle)
    requires Inv(s) && s.clients == map[] && a !in s.rates.query && s.pending != []
    requires s.pending[|s.pending| - 1] == PendingTcp(c, a, 1.0)
    ensures var e := Apply(s, Step(Net(TcpFrame(c, 0, InSessionQuery)), 1.0, o));
            && e.state == s.(rates := s.rates.(query := e.state.rates.query))
            && e.state.rates.query.Keys == s.rates.query.Keys + {a}
            && |e.cmds| == 1 && IsSend(e.cmds[0])
  {
    hide Inv, FindPending, SessionFlags, WithHost, Query;
    LastPending(s, c);
    var s1 := s.(rates := s.rates.(query := AllowRate(s.rates.query, a, 1.0, 4).0));
    InvFrame(s, s1);
    QuerySends(s1, c, o);
  }

  lemma QuerySends(s: State, c: ConnId, o: Oracle)
    requires Inv(s)
    ensures var e := Query(s, c, o); e.state == s && |e.cmds| == 1 && IsSend(e.cmds[0])
  {
    HostLookupIdle(s, o);
  }

  lemma LastPending(s: State, c: ConnId)
    requires Inv(s) && s.pending != [] && s.pending[|s.pending| - 1].connId == c
    ensures FindPending(s.pending, c) == |s.pending| - 1
  {
  }

  lemma Asking(y: Sys, steps: seq<SysStep>, z: Sys, c: ConnId) returns (more: seq<SysStep>, z': Sys)
    requires Reached(y, steps, z) && z.sim.clients == map[] && z.inbound == [] && z.unsent == [] && |z.outbound| < QUEUE_MAX
    requires Waiting(z, c) && c !in z.sim.rates.query && SendsOnly(z.outbound)
    requires z.sim.pending != [] && z.sim.pending[|z.sim.pending| - 1] == PendingTcp(c, c, 1.0)
    ensures Reached(y, more, z')
    ensures z'.inbound == [] && z'.unsent == [] && z'.net == z.net && SendsOnly(z'.outbound) && |z'.outbound| == |z.outbound| + 1
    ensures z'.sim == z.sim.(rates := z.sim.rates.(query := z'.sim.rates.query))
    ensures z'.sim.rates.query.Keys == z.sim.rates.query.Keys + {c}
  {
    hide CoreInv, Choices, Reached, Apply;
    var ask := NetFrame(c, InSessionQuery);
    Extend(y, steps, z, ask);
    InvOf(z);
    var z1 := Next(z, ask);
    CoreAfter(y, steps + [ask], z1);
    AloneCan(z1, 1.0);
    InvOf(z1);
    InvAsm(z1.sim);
    QueryEffect(z1.sim, c, c, NOBODY);
    var take := SimEvent(1.0, NOBODY);
    Extend(y, steps + [ask], z1, take);
    var z2 := Next(z1, take);
    CoreAfter(y, steps + [ask] + [take], z2);
    InvOf(z2);
    Extend(y, steps + [ask] + [take], z2, SimPush);
    z' := Next(z2, SimPush);
    more := steps + [ask] + [take] + [SimPush];
  }

  lemma {:induction false} Flood(y: Sys, k: nat) returns (steps: seq<SysStep>, z: Sys)
    requires SysInitial(y) && y.sim.rates.query == map[] && k <= QUEUE_MAX
    ensures Reached(y, steps, z) && Flooded(y, z, k)
  {
    hide CoreInv, Reached;
    if k == 0 {
      steps, z := [], y;
      InitialSysInv(y);
      ReachedStart(y);
    } else {
      var before, z0 := Flood(y, k - 1);
      var more, z1 := Accepting(y, before, z0, k - 1);
      steps, z := Asking(y, more, z1, k);
    }
  }

  lemma ReachedStart(y: Sys)
    requires CoreInv(y)
    ensures Reached(y, [], y)
  {
  }

  lemma {:induction false} ReplaySends(n: Tables, cmds: seq<Cmd>)
    requires SendsOnly(cmds)
    ensures Replay(n, cmds) == n
  {
    if cmds != [] {
      ReplaySends(n, cmds[..|cmds| - 1]);
    }
  }

  /** The failing run: from every initial state that would admit `h`, strangers' queries fill
      the outbound queue, `h` arrives on the last of their connections, and the server ends up
      with a client whose open connection is bound to nobody. */
  lemma FloodedServerDisagrees(y: Sys, h: Hello) returns (steps: seq<SysStep>)
    requires SysInitial(y) && y.sim.rates.query == map[] && y.sim.rates.hello == map[] && Admissible(y.sim, h)
    ensures Possible(y, steps) && Final(y, steps).unsent == [] && !Agreement(Final(y, steps))
  {
    hide CoreInv, Reached, Agreement, Possible, Final, Admissible, Choices, SimEffect, SysInitial;
    assert y.sim.clients == map[] by { NobodyYet(y); }
    var before, z := Flood(y, QUEUE_MAX);
    var c := QUEUE_MAX;
    var join := NetFrame(c, InHello(h));
    Extend(y, before, z, join);
    InvOf(z);
    var z1 := Next(z, join);
    var took := SimEvent(1.0, Oracle([z1.sim.nextPeer], 0, 0.0));
    ReachedSysInv(y, before + [join], z1);
    InvOf(z1);
    SameAdmission(y.sim, z1.sim, h);
    HelloArrives(z1, h, c);
    ReplaySends(z1.net, z1.outbound);
    FullQueueDisagrees(z1, h, 1.0, took.o);
    Extend(y, before + [join], z1, took);
    var n := |SimEffect(z1, took).cmds|;
    steps := before + [join] + [took] + Burst(n);
    ReachedFinal(y, before + [join] + [took], Next(z1, took));
    RunConcat(y, before + [join] + [took], Burst(n));
  }

  lemma SameAdmission(s: State, s': State, h: Hello)
    requires Admissible(s, h) && s' == s.(pending := s'.pending, rates := s'.rates)
    ensures Admissible(s', h)
  {
  }

  lemma NobodyYet(y: Sys)
    requires SysInitial(y)
    ensures y.sim.clients == map[]
  {
  }

  lemma ReachedFinal(y: Sys, steps: seq<SysStep>, z: Sys)
    requires Reached(y, steps, z)
    ensures Possible(y, steps) && Final(y, steps) == z
  {
  }

  lemma ReachedSysInv(y: Sys, steps: seq<SysStep>, z: Sys)
    requires SysInitial(y) && Reached(y, steps, z)
    ensures SysInv(z)
  {
    hide SysInitial, Possible, Final, Unrefused, SysInv;
    InitialSysInv(y);
    UnrefusedKeepsSysInv(y, steps);
  }

  lemma HelloArrives(z: Sys, h: Hello, c: ConnId)
    requires SysInv(z) && z.sim.clients == map[] && z.unsent == [] && z.inbound == [TcpFrame(c, 0, InHello(h))]
    requires z.sim.pending != [] && z.sim.pending[|z.sim.pending| - 1] == PendingTcp(c, c, 1.0) && c !in z.sim.rates.hello
    requires Admissible(z.sim, h)
    ensures HelloNext(z, h, 1.0) && Can(z, SimEvent(1.0, Oracle([z.sim.nextPeer], 0, 0.0)))
  {
    hide Inv, Admissible, SanitizeKey;
    LastPending(z.sim, c);
    GateIffAdmissible(z.sim, h, Oracle([z.sim.nextPeer], 0, 0.0));
  }

  /** Two runs, one after the other. */
  lemma {:induction false} RunConcat(y: Sys, a: seq<SysStep>, b: seq<SysStep>)
    requires Possible(y, a) && Possible(Final(y, a), b)
    ensures Possible(y, a + b) && Final(y, a + b) == Final(Final(y, a), b)
    decreases |b|
  {
    hide CoreInv, Can, Next;
    if b == [] {
      assert a + b == a;
    } else {
      var n := |b| - 1;
      RunConcat(y, a, b[..n]);
      assert (a + b)[..|a| + n] == a + b[..n];
    }
  }
}
