/** The network thread as it is written: an object that owns the sockets' tables. Its
    methods are proved against the steps of module System. */
module NetIo {
  import opened Types
  import opened Session
  import opened Net
  import opened System

  /** The outbound queue emptied, one command after the other; `lost[i]` says whether the
      socket of command `i` turned out dead. */
  function Drained(y: Sys, lost: seq<bool>): Sys
    requires |lost| >= |y.outbound|
    decreases |y.outbound|
  {
    if y.outbound == [] then y else (CommandPops(y, lost[0]); Drained(Command(y, lost[0]), lost[1..]))
  }

  lemma CommandPops(y: Sys, lost: bool)
    requires y.outbound != []
    ensures Command(y, lost).outbound == y.outbound[1..]
  {
  }

  class NetThread {
    var conns: map<ConnId, NetConn>
    var peerToConn: map<PeerId, ConnId>
    var nextConnId: ConnId
    var inbound: seq<NetEvent>
    var outbound: seq<Cmd>

    ghost function Tab(): Tables
      reads this
    {
      Tables(conns, peerToConn, nextConnId)
    }

    /** This thread's part of the system, next to a session it does not touch. */
    ghost function View(sim: State, unsent: seq<Cmd>): Sys
      reads this
    {
      Sys(sim, Tab(), inbound, outbound, unsent)
    }

    constructor ()
      ensures Tab() == Tables(map[], map[], 1) && Inverse(Tab()) && inbound == [] && outbound == []
    {
      conns, peerToConn, nextConnId, inbound, outbound := map[], map[], 1, [], [];
    }

    method PushInbound(ev: NetEvent) returns (ok: bool)
      modifies this`inbound
      ensures inbound == Push(old(inbound), ev) && ok == (|old(inbound)| < QUEUE_MAX)
    {
      if |inbound| >= QUEUE_MAX {
        return false;
      }
      inbound := inbound + [ev];
      ok := true;
    }

    /** `close_conn`. */
    method CloseConn(c: ConnId, notifySim: bool)
      modifies this`conns, this`peerToConn, this`inbound
      ensures Tab() == Close(old(Tab()), c)
      ensures inbound == if notifySim && c in old(conns) then Push(old(inbound), TcpClosed(c, old(conns)[c].peer)) else old(inbound)
    {
      if c !in conns {
        return;
      }
      var peer := conns[c].peer;
      if peer != 0 {
        peerToConn := peerToConn - {peer};
      }
      if notifySim {
        var ok := PushInbound(TcpClosed(c, peer));
      }
      conns := conns - {c};
    }

    /** The `BindPeer` branch. */
    method Bind(c: ConnId, p: PeerId)
      requires Inverse(Tab())
      modifies this`conns, this`peerToConn, this`inbound
      ensures Tab() == ExecBind(old(Tab()), c, p) && inbound == old(inbound)
    {
      if c !in conns {
        return;
      }
      if conns[c].peer != 0 && conns[c].peer != p {
        peerToConn := peerToConn - {conns[c].peer};
      }
      if p != 0 {
        if p in peerToConn && peerToConn[p] != c {
          CloseConn(peerToConn[p], false);
        }
        peerToConn := peerToConn[p := c];
      }
      conns := conns[c := conns[c].(peer := p)];
    }

    /** The `KeepPending` branch. */
    method Keep(p: PeerId)
      modifies this`conns, this`peerToConn
      ensures Tab() == ExecKeep(old(Tab()), p)
    {
      if p !in peerToConn {
        return;
      }
      var c := peerToConn[p];
      peerToConn := peerToConn - {p};
      if c in conns {
        conns := conns[c := conns[c].(peer := 0)];
      }
    }

    /** One command; `lost` is what the socket says when it is written to. */
    method Execute(cmd: Cmd, lost: bool)
      requires Inverse(Tab())
      modifies this`conns, this`peerToConn, this`inbound
      ensures Tab() == (if lost && cmd.TcpSend? then Close(old(Tab()), Target(old(Tab()), cmd.connId, cmd.peerId))
                        else Exec(old(Tab()), cmd))
      ensures inbound == if lost && cmd.TcpSend? && Target(old(Tab()), cmd.connId, cmd.peerId) in old(conns)
                         then Push(old(inbound), TcpClosed(Target(old(Tab()), cmd.connId, cmd.peerId),
                                                           old(conns)[Target(old(Tab()), cmd.connId, cmd.peerId)].peer))
                         else old(inbound)
    {
      match cmd {
        case TcpSend(c, p, _) =>
          var id := c;
          if id == 0 && p != 0 && p in peerToConn {
            id := peerToConn[p];
          }
          if lost {
            CloseConn(id, true);
          }
        case UdpSend(_, _) =>
        case BindPeer(c, p) => Bind(c, p);
        case CloseConn(c, p) =>
          var id := c;
          if id == 0 && p != 0 && p in peerToConn {
            id := peerToConn[p];
          }
          if id != 0 {
            CloseConn(id, false);
          }
        case KeepPending(p) => Keep(p);
      }
    }

    /** `process_outbound`: empties the queue, command by command, and keeps the two tables
        inverse throughout. */
    method ProcessOutbound(lost: seq<bool>, ghost sim: State, ghost unsent: seq<Cmd>)
      requires Inverse(Tab()) && |lost| >= |outbound|
      modifies this
      ensures View(sim, unsent) == Drained(old(View(sim, unsent)), lost)
      ensures Inverse(Tab()) && outbound == []
    {
      hide Inverse, Close, Exec, Target;
      ghost var y0 := View(sim, unsent);
      var k := 0;
      while outbound != []
        invariant Inverse(Tab()) && 0 <= k && |lost| - k >= |outbound|
        invariant Drained(y0, lost) == Drained(View(sim, unsent), lost[k..])
        decreases |outbound|
      {
        ghost var y := View(sim, unsent);
        var cmd := outbound[0];
        outbound := outbound[1..];
        ExecInverse(y.net, cmd);
        ghost var id := if cmd.TcpSend? then Target(y.net, cmd.connId, cmd.peerId) else 0;
        if cmd.TcpSend? { CloseInverse(y.net, id); SendExec(y.net, cmd); }
        Execute(cmd, lost[k]);
        CloseAbsent(y.net, id);
        assert View(sim, unsent) == Command(y, lost[k]);
        assert lost[k..][0] == lost[k] && lost[k..][1..] == lost[k + 1..];
        k := k + 1;
      }
    }

    /** One connection taken by `accept_ready`. */
    method AcceptOne(addr: Addr, ghost sim: State, ghost unsent: seq<Cmd>)
      requires Inverse(Tab()) && nextConnId > 0
      modifies this`conns, this`nextConnId, this`inbound
      ensures View(sim, unsent) == old(View(sim, unsent)).(net := Accepted(old(Tab()), addr),
                                           inbound := Push(old(inbound), TcpAccept(old(nextConnId), addr)))
      ensures Inverse(Tab()) && nextConnId > 0
    {
      AcceptedInverse(Tab(), addr);
      var c := nextConnId;
      nextConnId := nextConnId + 1;
      conns := conns[c := NetConn(0, addr)];
      var ok := PushInbound(TcpAccept(c, addr));
    }

    /** A frame read by `poll_conn`: a refused push closes the connection. */
    method ReadFrame(c: ConnId, m: InMsg, ghost sim: State, ghost unsent: seq<Cmd>)
      requires Inverse(Tab()) && c in conns
      modifies this`conns, this`peerToConn, this`inbound
      ensures View(sim, unsent) == System.Frame(old(View(sim, unsent)), c, m)
      ensures Inverse(Tab())
    {
      CloseInverse(Tab(), c);
      var ok := PushInbound(TcpFrame(c, conns[c].peer, m));
      if !ok {
        CloseConn(c, true);
      }
    }
  }

  lemma SendExec(n: Tables, cmd: Cmd)
    requires cmd.TcpSend?
    ensures Exec(n, cmd) == n
  {
  }

  lemma CloseAbsent(n: Tables, c: ConnId)
    ensures c !in n.conns ==> Close(n, c) == n
  {
  }
}
