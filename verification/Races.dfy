/** What becomes of a closed connection: when the session forgets it, whom its report removes,
    and how a report can come too late. */
module Races {
  import opened Bytes
  import opened Blobs
  import RateLimit
  import opened Types
  import opened Session
  import opened SessionInv
  import opened Ownership
  import opened SessionFacts
  import opened Admission
  import opened Net
  import opened System
  import opened Refusals
  import opened Messages
  import opened Posts
  import opened Exits
  import Runtime

  // ---------------------------------------------------------------- one command

  /** One command taken by the network thread: only a message that finds its socket dead is
      reported, as the close of its connection under the peer it was bound to; what the
      session itself had closed is not. */
  lemma CommandReports(y: Sys, lost: bool)
    requires y.outbound != [] && |y.inbound| < 8192
    ensures var z, cmd := Command(y, lost), y.outbound[0];
            var c := if !cmd.TcpSend? then 0 else if cmd.connId != 0 then cmd.connId
                     else if cmd.peerId != 0 && cmd.peerId in y.net.peerToConn then y.net.peerToConn[cmd.peerId] else 0;
            && z.sim == y.sim && z.unsent == y.unsent && z.outbound == y.outbound[1..]
            && if cmd.TcpSend? && lost && c in y.net.conns
               then z.inbound == y.inbound + [TcpClosed(c, y.net.conns[c].peer)] && z.net.conns == y.net.conns - {c}
               else z.inbound == y.inbound && (IsSend(cmd) ==> z.net == y.net)
  {
  }

  // ---------------------------------------------------------------- what a report does

  /** The client a report of a closed connection removes. */
  ghost predicate Removed(s: State, c: ConnId, tag: PeerId, q: PeerId) {
    if tag != 0 then q == tag && q in s.clients else Owns(s.clients, q, c)
  }

  lemma AfterReport(s: State, c: ConnId, tag: PeerId, t: real, o: Oracle)
    requires Inv(s) && c != 0
    requires forall q :: Removed(s, c, tag, q) ==> HostChoice(s.clients - {q}, o.host)
    ensures var s' := PostOf(s, Step(Net(TcpClosed(c, tag)), t, o));
            && s'.pending == Unlisted(s.pending, c)
            && (forall q :: q in s'.clients <==> q in s.clients && !Removed(s, c, tag, q))
            && (forall q :: q in s'.clients ==> s'.clients[q] == s.clients[q])
  {
    hide Inv, Apply, HostChoice, Unlisted, LeaveJob, Farewell, OneCopyEach, ValidOrder;
    InvAsm(s);
    if tag != 0 && tag in s.clients {
      ClosedPost(s, c, tag, t, o);
    } else if tag != 0 {
      ClosedStranger(s, c, tag, t, o);
    } else {
      var owner := OwnerOf(s.clients, c);
      if owner.Some? {
        OneOwner(s, c, owner.value);
        ClosedUntagged(s, c, owner.value, t, o);
      } else {
        ClosedNobody(s, c, t, o);
      }
    }
  }

  /** A report removes the client it names, on whatever connection that one is by now, or
      without a name the owner; so afterwards the connection is still somebody's if and only if
      it was and the report named somebody else. It is pending no more in any case. */
  lemma ForgottenIff(s: State, c: ConnId, tag: PeerId, t: real, o: Oracle)
    requires Inv(s) && c != 0
    requires forall q :: Removed(s, c, tag, q) ==> HostChoice(s.clients - {q}, o.host)
    ensures var s' := PostOf(s, Step(Net(TcpClosed(c, tag)), t, o));
            && !IsPending(s'.pending, c)
            && (forall q :: q in s'.clients <==> q in s.clients && !Removed(s, c, tag, q))
            && (forall q :: q in s'.clients ==> s'.clients[q] == s.clients[q])
            && (forall q :: Owns(s'.clients, q, c) <==> Owns(s.clients, q, c) && tag != 0 && tag != q)
  {
    hide Inv, PostOf, HostChoice, Unlisted;
    NotListed(s, c);
    AfterReport(s, c, tag, t, o);
  }

  lemma NotListed(s: State, c: ConnId)
    requires Inv(s)
    ensures !IsPending(Unlisted(s.pending, c), c)
  {
    hide Inv;
    UnlistedIs(s, c);
    CutAway(s.pending, c);
  }

  lemma {:induction false} CutAway(pending: seq<PendingTcp>, c: ConnId)
    ensures forall i :: 0 <= i < |Without(pending, c)| ==> Without(pending, c)[i].connId != c
  {
    if pending != [] { CutAway(pending[..|pending| - 1], c); }
  }

  // ---------------------------------------------------------------- a report that comes too late

  /** Pushing changes nothing but the queue. */
  lemma {:induction false} BurstKeeps(y: Sys, n: nat)
    requires Possible(y, Burst(n))
    ensures var z := Final(y, Burst(n)); z.sim == y.sim && z.net == y.net && z.inbound == y.inbound
  {
    hide CoreInv, Can;
    if n > 0 {
      assert Burst(n)[..n - 1] == Burst(n - 1);
      BurstKeeps(y, n - 1);
    }
  }

  /** A client `p` on an open connection comes back on another one. */
  ghost predicate ComesBack(y: Sys, conn: ConnId, tag: PeerId, i: nat, h: Hello, p: PeerId, t: real) {
    && y.unsent == [] && |y.outbound| <= QUEUE_MAX && y.inbound == [TcpFrame(conn, tag, InHello(h))]
    && LetIn(y.sim, conn, tag, i, h, t) && HasKey(y.sim.clients, p, SanitizeKey(h.playerKey))
    && y.sim.clients[p].connId in y.net.conns && y.net.conns[y.sim.clients[p].connId].peer == p
  }

  lemma BackOnNew(y: Sys, conn: ConnId, tag: PeerId, i: nat, h: Hello, p: PeerId, t: real, o: Oracle)
    requires CoreInv(y) && ComesBack(y, conn, tag, i, h, p, t) && Can(y, SimEvent(t, o))
    ensures var y1 := Next(y, SimEvent(t, o));
            && y1.inbound == [] && y1.net == y.net && y1.outbound == y.outbound
            && p in y1.sim.clients && y1.sim.clients[p].connId == conn
  {
    hide CoreInv, Choices, Apply, LetIn, SanitizeKey, Enrolled, HostsWorld, NextToken, RateLimit.AllowRate;
    InvOf(y);
    InvAsm(y.sim);
    BackPost(y.sim, conn, tag, i, h, t, o, p);
  }

  lemma HungUp(y1: Sys, c: ConnId, p: PeerId)
    requires CoreInv(y1) && y1.inbound == [] && c in y1.net.conns && y1.net.conns[c].peer == p
    ensures var y2 := Next(y1, NetHangup(c));
            && y2.inbound == [TcpClosed(c, p)] && y2.sim == y1.sim && y2.unsent == y1.unsent && y2.outbound == y1.outbound
            && y2.net.conns == y1.net.conns - {c}
  {
    hide CoreInv;
  }

  /** A soft reconnect that meets the end of the old connection: the Hello on the new one is
      handled, the old one hangs up before the network thread has heard of it, and the commands
      are pushed. Then handling the report removes the client from its new connection, which is
      open before and after. */
  lemma LateReportEvicts(y: Sys, conn: ConnId, tag: PeerId, i: nat, h: Hello, p: PeerId, t: real, o: Oracle) returns (n: nat, z: Sys, late: Oracle)
    requires SysInv(y) && ComesBack(y, conn, tag, i, h, p, t) && Can(y, SimEvent(t, o)) && conn in y.net.conns
    ensures var run := [SimEvent(t, o)] + [NetHangup(y.sim.clients[p].connId)] + Burst(n);
            && Possible(y, run) && Final(y, run) == z
            && p in z.sim.clients && z.sim.clients[p].connId == conn && conn in z.net.conns
            && Can(z, SimEvent(t, late))
            && forall o' :: Can(z, SimEvent(t, o')) ==>
                 && Possible(y, run + [SimEvent(t, o')])
                 && p !in Final(y, run + [SimEvent(t, o')]).sim.clients
                 && conn in Final(y, run + [SimEvent(t, o')]).net.conns
  {
    hide CoreInv, Can, Next, Possible, Final, LetIn, Apply, Safe, Agreement, SanitizeKey;
    InvOf(y);
    var c := y.sim.clients[p].connId;
    var a, b := SimEvent(t, o), NetHangup(c);
    ApartConns(y, conn, tag, i, h, p, t);
    Starts(y);
    RunGoesOn(y, [], a);
    assert [] + [a] == [a];
    var y1 := Next(y, a);
    CoreFinal(y, [a]);
    BackOnNew(y, conn, tag, i, h, p, t, o);
    HangupCan(y1, c);
    RunGoesOn(y, [a], b);
    var y2 := Next(y1, b);
    CoreFinal(y, [a] + [b]);
    HungUp(y1, c, p);
    n := |y2.unsent|;
    BurstRun(y2, n);
    BurstKeeps(y2, n);
    z := Final(y2, Burst(n));
    Joined2(y, [a] + [b], y2, Burst(n));
    BurstEmpties(y2, n);
    InvOf(z);
    NonZeroPeer(z.sim, p);
    late := ReportCan(z, c, p, t);
    forall o' | Can(z, SimEvent(t, o'))
      ensures var run := [a] + [b] + Burst(n) + [SimEvent(t, o')]; Possible(y, run) && p !in Final(y, run).sim.clients && conn in Final(y, run).net.conns
    {
      RunGoesOn(y, [a] + [b] + Burst(n), SimEvent(t, o'));
      CoreFinal(y, [a] + [b] + Burst(n));
      Evicted(z, c, p, t, o');
    }
  }

  lemma ApartConns(y: Sys, conn: ConnId, tag: PeerId, i: nat, h: Hello, p: PeerId, t: real)
    requires CoreInv(y) && ComesBack(y, conn, tag, i, h, p, t)
    ensures y.sim.clients[p].connId != conn
  {
    hide SanitizeKey, RateLimit.AllowRate, Admissible, Inverse, Numbered, AllBelow, AcceptsFresh, ClosedGone;
  }

  lemma Starts(y: Sys)
    requires CoreInv(y)
    ensures Possible(y, []) && Final(y, []) == y
  {
    hide CoreInv;
  }

  lemma CoreFinal(y: Sys, steps: seq<SysStep>)
    requires Possible(y, steps)
    ensures CoreInv(Final(y, steps))
  {
    hide CoreInv;
  }

  lemma HangupCan(y: Sys, c: ConnId)
    requires CoreInv(y)
    ensures Inv(y.sim) && Can(y, NetHangup(c))
  {
    hide Inv, Inverse;
  }

  /** Two runs, one after the other. */
  lemma {:induction false} Joined2(y: Sys, xs: seq<SysStep>, z: Sys, ys: seq<SysStep>)
    requires Possible(y, xs) && Final(y, xs) == z && Possible(z, ys)
    ensures Possible(y, xs + ys) && Final(y, xs + ys) == Final(z, ys)
    decreases |ys|
  {
    hide CoreInv, Can, Next;
    if ys == [] {
      assert xs + ys == xs;
    } else {
      var m := |ys| - 1;
      Joined2(y, xs, z, ys[..m]);
      RunGoesOn(y, xs + ys[..m], ys[m]);
      assert xs + ys == (xs + ys[..m]) + [ys[m]];
    }
  }

  lemma BurstEmpties(y: Sys, n: nat)
    requires Possible(y, Burst(n)) && n == |y.unsent| && Fills(y, n, Final(y, Burst(n)), Accepts(y, Burst(n)))
    ensures Final(y, Burst(n)).unsent == []
  {
    hide Possible, Final, Accepts;
  }

  lemma Evicted(z: Sys, c: ConnId, p: PeerId, t: real, o: Oracle)
    requires CoreInv(z) && z.inbound == [TcpClosed(c, p)] && p in z.sim.clients && Can(z, SimEvent(t, o))
    ensures Inv(z.sim)
    ensures var z' := Next(z, SimEvent(t, o)); p !in z'.sim.clients && z'.net == z.net
  {
    hide CoreInv, Apply, ValidOrder, Visited, HostChoice;
    InvOf(z);
    InvAsm(z.sim);
    NonZeroPeer(z.sim, p);
    ClosedPost(z.sim, c, p, t, o);
  }

  lemma ReportCan(z: Sys, c: ConnId, p: PeerId, t: real) returns (o: Oracle)
    requires z.unsent == [] && z.inbound == [TcpClosed(c, p)] && p in z.sim.clients && p != 0
    ensures Can(z, SimEvent(t, o))
  {
    var order := Runtime.OrderOf(z.sim.clients.Keys);
    var rest := z.sim.clients - {p};
    var host := if rest != map[] then (var q :| q in rest; q) else 0;
    o := Oracle(order, host, t);
  }

  lemma NonZeroPeer(s: State, p: PeerId)
    requires Inv(s) && p in s.clients
    ensures p != 0
  {
  }
}
