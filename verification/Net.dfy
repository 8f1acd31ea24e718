/** The network thread's two tables, and what replaying queued commands does to them. */
module Net {
  import opened Types
  import opened Ownership

  datatype NetConn = NetConn(peer: PeerId, addr: Addr)

  datatype Tables = Tables(conns: map<ConnId, NetConn>, peerToConn: map<PeerId, ConnId>, nextConn: ConnId)

  /** `peerToConn_` and `conns_[c].peerId` are inverses of each other. */
  ghost predicate Inverse(n: Tables) {
    && (forall p :: p in n.peerToConn ==> p != 0 && n.peerToConn[p] in n.conns && n.conns[n.peerToConn[p]].peer == p)
    && (forall c :: c in n.conns && n.conns[c].peer != 0 ==> n.conns[c].peer in n.peerToConn && n.peerToConn[n.conns[c].peer] == c)
    && (forall c :: c in n.conns ==> 0 < c < n.nextConn)
  }

  /** `close_conn`, apart from the event it may push. */
  function Close(n: Tables, c: ConnId): Tables {
    if c !in n.conns then n
    else n.(conns := n.conns - {c},
            peerToConn := if n.conns[c].peer != 0 then n.peerToConn - {n.conns[c].peer} else n.peerToConn)
  }

  function Bound(n: Tables, c: ConnId, p: PeerId): Tables
    requires c in n.conns
  {
    n.(conns := n.conns[c := n.conns[c].(peer := p)])
  }

  /** The `BindPeer` command. */
  function ExecBind(n: Tables, c: ConnId, p: PeerId): Tables {
    if c !in n.conns then n
    else
      var was := n.conns[c].peer;
      var n1 := if was != 0 && was != p then n.(peerToConn := n.peerToConn - {was}) else n;
      if p == 0 then Bound(n1, c, 0)
      else
        var n2 := if p in n1.peerToConn && n1.peerToConn[p] != c then Close(n1, n1.peerToConn[p]) else n1;
        Bound(n2.(peerToConn := n2.peerToConn[p := c]), c, p)
  }

  /** The `KeepPending` command. */
  function ExecKeep(n: Tables, p: PeerId): Tables {
    if p !in n.peerToConn then n
    else
      var c := n.peerToConn[p];
      var n1 := n.(peerToConn := n.peerToConn - {p});
      if c in n1.conns then Bound(n1, c, 0) else n1
  }

  /** The connection a command is for: the one it names, or else the one its peer is bound to. */
  function Target(n: Tables, c: ConnId, p: PeerId): ConnId {
    if c != 0 then c else if p != 0 && p in n.peerToConn then n.peerToConn[p] else 0
  }

  /** One command of `process_outbound`, on the tables. */
  function Exec(n: Tables, cmd: Cmd): Tables {
    match cmd
    case TcpSend(_, _, _) => n
    case UdpSend(_, _) => n
    case BindPeer(c, p) => ExecBind(n, c, p)
    case CloseConn(c, p) => if Target(n, c, p) != 0 then Close(n, Target(n, c, p)) else n
    case KeepPending(p) => ExecKeep(n, p)
  }

  function Accepted(n: Tables, addr: Addr): Tables {
    n.(conns := n.conns[n.nextConn := NetConn(0, addr)], nextConn := n.nextConn + 1)
  }

  // ---------------------------------------------------------------- the tables stay inverse

  lemma CloseInverse(n: Tables, c: ConnId)
    requires Inverse(n)
    ensures Inverse(Close(n, c))
  {
  }

  lemma BindInverse(n: Tables, c: ConnId, p: PeerId)
    requires Inverse(n)
    ensures Inverse(ExecBind(n, c, p))
  {
  }

  lemma KeepInverse(n: Tables, p: PeerId)
    requires Inverse(n)
    ensures Inverse(ExecKeep(n, p))
  {
  }

  /** Every command keeps the tables inverse, whatever it says. */
  lemma ExecInverse(n: Tables, cmd: Cmd)
    requires Inverse(n)
    ensures Inverse(Exec(n, cmd)) && Exec(n, cmd).nextConn == n.nextConn && Exec(n, cmd).conns.Keys <= n.conns.Keys
  {
    hide Close, ExecBind, ExecKeep, Inverse;
    ExecShrinks(n, cmd);
    match cmd
    case BindPeer(c, p) => BindInverse(n, c, p);
    case CloseConn(c, p) => CloseInverse(n, Target(n, c, p));
    case KeepPending(p) => KeepInverse(n, p);
    case _ =>
  }

  lemma ExecShrinks(n: Tables, cmd: Cmd)
    ensures Exec(n, cmd).nextConn == n.nextConn && Exec(n, cmd).conns.Keys <= n.conns.Keys
  {
  }

  lemma AcceptedInverse(n: Tables, addr: Addr)
    requires Inverse(n) && n.nextConn > 0
    ensures Inverse(Accepted(n, addr))
  {
  }

  // ---------------------------------------------------------------- replay

  function Replay(n: Tables, cmds: seq<Cmd>): Tables {
    if cmds == [] then n else Exec(Replay(n, cmds[..|cmds| - 1]), cmds[|cmds| - 1])
  }

  /** A bind that steals nothing: the peer is bound nowhere, the connection to nobody. */
  ghost predicate SafeCmd(n: Tables, cmd: Cmd) {
    cmd.BindPeer? ==>
      cmd.peerId != 0 && cmd.peerId !in n.peerToConn && (cmd.connId in n.conns ==> n.conns[cmd.connId].peer == 0)
  }

  ghost predicate Safe(n: Tables, cmds: seq<Cmd>) {
    cmds == [] || (Safe(n, cmds[..|cmds| - 1]) && SafeCmd(Replay(n, cmds[..|cmds| - 1]), cmds[|cmds| - 1]))
  }

  lemma {:induction false} ReplayInverse(n: Tables, cmds: seq<Cmd>)
    requires Inverse(n)
    ensures Inverse(Replay(n, cmds)) && Replay(n, cmds).nextConn == n.nextConn && Replay(n, cmds).conns.Keys <= n.conns.Keys
  {
    hide Inverse, Exec;
    if cmds != [] {
      ReplayInverse(n, cmds[..|cmds| - 1]);
      ExecInverse(Replay(n, cmds[..|cmds| - 1]), cmds[|cmds| - 1]);
    }
  }

  lemma {:induction false} ReplayConcat(n: Tables, a: seq<Cmd>, b: seq<Cmd>)
    ensures Replay(n, a + b) == Replay(Replay(n, a), b)
    ensures Safe(n, a + b) <==> Safe(n, a) && Safe(Replay(n, a), b)
    decreases |b|
  {
    hide Exec, SafeCmd;
    if b == [] {
      assert a + b == a;
    } else {
      var k := |b| - 1;
      assert (a + b)[..|a + b| - 1] == a + b[..k];
      ReplayConcat(n, a, b[..k]);
    }
  }

  /** Executing the first command now or as part of the replay is the same. */
  lemma ReplayHead(n: Tables, cmds: seq<Cmd>)
    requires cmds != []
    ensures Replay(Exec(n, cmds[0]), cmds[1..]) == Replay(n, cmds)
    ensures Safe(n, cmds) ==> SafeCmd(n, cmds[0]) && Safe(Exec(n, cmds[0]), cmds[1..])
  {
    hide Exec, SafeCmd;
    var head := cmds[..1];
    assert cmds == head + cmds[1..];
    ReplayConcat(n, head, cmds[1..]);
    assert head[..0] == [] && head[0] == cmds[0];
  }

  /** Sends do not matter to the tables. */
  lemma {:induction false} ReplayCtl(n: Tables, cmds: seq<Cmd>)
    ensures Replay(n, cmds) == Replay(n, Ctl(cmds))
    ensures Safe(n, Ctl(cmds)) ==> Safe(n, cmds)
  {
    if cmds != [] {
      var k := |cmds| - 1;
      ReplayCtl(n, cmds[..k]);
      if !IsSend(cmds[k]) {
        var ctl := Ctl(cmds[..k]) + [cmds[k]];
        assert Ctl(cmds) == ctl && ctl[..|ctl| - 1] == Ctl(cmds[..k]);
      } else {
        assert Ctl(cmds) == Ctl(cmds[..k]);
      }
    }
  }

  // ---------------------------------------------------------------- spontaneous events commute

  lemma CloseCommutesExec(n: Tables, c: ConnId, cmd: Cmd)
    requires Inverse(n) && SafeCmd(n, cmd)
    ensures Exec(Close(n, c), cmd) == Close(Exec(n, cmd), c)
    ensures SafeCmd(Close(n, c), cmd)
  {
    hide Close, ExecBind, ExecKeep, Target;
    match cmd
    case BindPeer(d, p) => CloseCommutesBind(n, c, d, p);
    case CloseConn(d, p) => CloseCommutesTarget(n, c, d, p);
    case KeepPending(p) => CloseCommutesKeep(n, c, p);
    case _ =>
  }

  lemma CloseCommutesBind(n: Tables, c: ConnId, d: ConnId, p: PeerId)
    requires Inverse(n) && SafeCmd(n, BindPeer(d, p))
    ensures ExecBind(Close(n, c), d, p) == Close(ExecBind(n, d, p), c)
    ensures SafeCmd(Close(n, c), BindPeer(d, p))
  {
    if c in n.conns {
      var l, r := ExecBind(Close(n, c), d, p), Close(ExecBind(n, d, p), c);
      assert l.conns == r.conns;
      assert l.peerToConn == r.peerToConn;
    }
  }

  lemma CloseCommutesClose(n: Tables, c: ConnId, d: ConnId)
    ensures Close(Close(n, c), d) == Close(Close(n, d), c)
  {
    var l, r := Close(Close(n, c), d), Close(Close(n, d), c);
    assert l.conns == r.conns;
    assert l.peerToConn == r.peerToConn;
  }

  /** Whichever way a close finds its connection, the other close does not mislead it. */
  lemma CloseCommutesTarget(n: Tables, c: ConnId, d: ConnId, p: PeerId)
    requires Inverse(n)
    ensures Exec(Close(n, c), CloseConn(d, p)) == Close(Exec(n, CloseConn(d, p)), c)
  {
    var t := Target(n, d, p);
    CloseCommutesClose(n, c, t);
    CloseTwice(n, c);
    if d == 0 && p != 0 && p in n.peerToConn && t != c {
      assert Target(Close(n, c), d, p) == t;
    }
  }

  lemma CloseTwice(n: Tables, c: ConnId)
    ensures Close(Close(n, c), c) == Close(n, c)
  {
  }

  lemma CloseCommutesKeep(n: Tables, c: ConnId, p: PeerId)
    requires Inverse(n)
    ensures ExecKeep(Close(n, c), p) == Close(ExecKeep(n, p), c)
  {
    if c in n.conns {
      var l, r := ExecKeep(Close(n, c), p), Close(ExecKeep(n, p), c);
      assert l.conns == r.conns;
      assert l.peerToConn == r.peerToConn;
    }
  }

  /** A connection lost by itself: closing it before or after the queued commands gives
      the same tables. */
  lemma {:induction false} CloseCommutesReplay(n: Tables, c: ConnId, cmds: seq<Cmd>)
    requires Inverse(n) && Safe(n, cmds)
    ensures Replay(Close(n, c), cmds) == Close(Replay(n, cmds), c)
    ensures Safe(Close(n, c), cmds)
  {
    hide Inverse, Exec, Close, SafeCmd;
    if cmds != [] {
      var k := |cmds| - 1;
      CloseCommutesReplay(n, c, cmds[..k]);
      ReplayInverse(n, cmds[..k]);
      CloseCommutesExec(Replay(n, cmds[..k]), c, cmds[k]);
    }
  }

  /** A command about connections the listener already handed out. */
  ghost predicate Below(cmd: Cmd, next: ConnId) {
    (cmd.BindPeer? || cmd.CloseConn?) ==> cmd.connId < next
  }

  lemma AcceptCommutesClose(n: Tables, addr: Addr, c: ConnId)
    requires c != n.nextConn
    ensures Close(Accepted(n, addr), c) == Accepted(Close(n, c), addr)
  {
    assert Close(Accepted(n, addr), c).conns == Accepted(Close(n, c), addr).conns;
  }

  lemma AcceptCommutesBind(n: Tables, addr: Addr, c: ConnId, p: PeerId)
    requires Inverse(n) && n.nextConn > 0 && c != n.nextConn
    ensures ExecBind(Accepted(n, addr), c, p) == Accepted(ExecBind(n, c, p), addr)
  {
    hide Close;
    if c in n.conns {
      var was := n.conns[c].peer;
      var n1 := if was != 0 && was != p then n.(peerToConn := n.peerToConn - {was}) else n;
      if p != 0 && p in n1.peerToConn && n1.peerToConn[p] != c {
        AcceptCommutesClose(n1, addr, n1.peerToConn[p]);
        CloseKeepsOther(n1, n1.peerToConn[p], c);
      }
      assert ExecBind(Accepted(n, addr), c, p).conns == Accepted(ExecBind(n, c, p), addr).conns;
    }
  }

  lemma CloseKeepsOther(n: Tables, d: ConnId, c: ConnId)
    requires c in n.conns && c != d
    ensures c in Close(n, d).conns && Close(n, d).conns[c] == n.conns[c] && Close(n, d).nextConn == n.nextConn
  {
  }

  lemma TargetOld(n: Tables, c: ConnId, p: PeerId)
    requires Inverse(n) && n.nextConn > 0 && c < n.nextConn
    ensures Target(n, c, p) < n.nextConn
  {
  }

  lemma AcceptCommutesExec(n: Tables, addr: Addr, cmd: Cmd)
    requires Inverse(n) && n.nextConn > 0 && Below(cmd, n.nextConn)
    ensures Exec(Accepted(n, addr), cmd) == Accepted(Exec(n, cmd), addr)
    ensures SafeCmd(n, cmd) ==> SafeCmd(Accepted(n, addr), cmd)
  {
    hide ExecBind, Close;
    match cmd
    case BindPeer(c, p) => AcceptCommutesBind(n, addr, c, p);
    case CloseConn(c, p) =>
      var d := Target(n, c, p);
      TargetOld(n, c, p);
      if d != 0 { AcceptCommutesClose(n, addr, d); }
    case KeepPending(p) =>
      assert ExecKeep(Accepted(n, addr), p).conns == Accepted(ExecKeep(n, p), addr).conns;
    case _ =>
  }

  lemma {:induction false} AcceptCommutesReplay(n: Tables, addr: Addr, cmds: seq<Cmd>)
    requires Inverse(n) && n.nextConn > 0 && forall i :: 0 <= i < |cmds| ==> Below(cmds[i], n.nextConn)
    ensures Replay(Accepted(n, addr), cmds) == Accepted(Replay(n, cmds), addr)
    ensures Safe(n, cmds) ==> Safe(Accepted(n, addr), cmds)
  {
    hide Inverse, Exec, Accepted, SafeCmd;
    if cmds != [] {
      var k := |cmds| - 1;
      AcceptCommutesReplay(n, addr, cmds[..k]);
      ReplayInverse(n, cmds[..k]);
      AcceptCommutesExec(Replay(n, cmds[..k]), addr, cmds[k]);
    }
  }

  // ---------------------------------------------------------------- agreement with the owners

  ghost predicate Holds(own: Owners, p: PeerId, c: ConnId) {
    p in own && own[p] == c
  }

  /** Every open connection is bound to peer `p` exactly when client `p` owns it. */
  ghost predicate Agree(n: Tables, own: Owners) {
    forall c, p :: c in n.conns && p != 0 ==> (n.conns[c].peer == p <==> p in own && own[p] == c)
  }

  ghost predicate Injective(own: Owners) {
    && (forall p :: p in own ==> p != 0)
    && forall p, q :: p in own && q in own && own[p] == own[q] ==> p == q
  }

  lemma AgreeAfterBind(n: Tables, own: Owners, p: PeerId, c: ConnId)
    requires Inverse(n) && Agree(n, own) && p != 0 && p !in own && Unowned(own, c)
    ensures SafeCmd(n, BindPeer(c, p))
    ensures Agree(ExecBind(n, c, p), own[p := c])
  {
    assert p !in n.peerToConn;
    if c in n.conns {
      var q := n.conns[c].peer;
      assert q != 0 ==> Holds(own, q, c);
    }
  }

  lemma AgreeAfterClose(n: Tables, own: Owners, p: PeerId)
    requires Inverse(n) && Agree(n, own) && Injective(own) && p in own
    ensures Agree(Close(n, own[p]), own - {p})
  {
  }

  lemma AgreeAfterKeep(n: Tables, own: Owners, p: PeerId)
    requires Inverse(n) && Agree(n, own) && Injective(own) && p in own
    ensures Agree(ExecKeep(n, p), own - {p})
  {
  }

  lemma AgreeAfterPendingClose(n: Tables, own: Owners, c: ConnId)
    requires Inverse(n) && Agree(n, own)
    ensures Agree(Close(n, c), own)
  {
  }

  /** A close that names its connection. */
  lemma ExecClose(n: Tables, c: ConnId)
    requires Inverse(n)
    ensures Exec(n, CloseConn(c)) == Close(n, c)
  {
  }

  lemma ReplayOne(n: Tables, cmd: Cmd)
    ensures Replay(n, [cmd]) == Exec(n, cmd)
    ensures Safe(n, [cmd]) <==> SafeCmd(n, cmd)
  {
    assert [cmd][..0] == [];
  }

  lemma ReplayTwo(n: Tables, a: Cmd, b: Cmd)
    ensures Replay(n, [a, b]) == Exec(Exec(n, a), b)
    ensures Safe(n, [a, b]) <==> SafeCmd(n, a) && SafeCmd(Exec(n, a), b)
  {
    hide Exec, SafeCmd;
    assert [a, b][..1] == [a];
    ReplayOne(n, a);
  }

  /** Each of the seven ownership changes carries agreement over to the new owners. */
  lemma ChangeKeepsAgreement(n: Tables, own: Owners, own': Owners, ctl: seq<Cmd>, ch: Change)
    requires Inverse(n) && Agree(n, own) && Injective(own) && Changed(own, own', ctl, ch)
    requires ch.DropSilent? ==> own[ch.p] !in n.conns
    ensures Agree(Replay(n, ctl), own') && Safe(n, ctl)
  {
    hide Inverse, Agree, Close, ExecBind, ExecKeep, Injective, Replay, Safe, Unowned;
    match ch
    case Same => ReplayNone(n);
    case Bind(p, c) =>
      ReplayOne(n, BindPeer(c, p));
      AgreeAfterBind(n, own, p, c);
    case Rebind(p, c0, c) =>
      ExecClose(n, c0);
      ReplayTwo(n, CloseConn(c0), BindPeer(c, p));
      AgreeAfterClose(n, own, p);
      CloseInverse(n, c0);
      UnownedShrinks(own, p, c);
      AgreeAfterBind(Close(n, c0), own - {p}, p, c);
      assert (own - {p})[p := c] == own[p := c];
    case DropClose(p) =>
      ExecClose(n, own[p]);
      ReplayOne(n, CloseConn(own[p]));
      AgreeAfterClose(n, own, p);
    case DropKeep(p) =>
      ReplayOne(n, KeepPending(p));
      AgreeAfterKeep(n, own, p);
    case DropSilent(p) =>
      ReplayNone(n);
      AgreeAfterSilent(n, own, p);
    case ClosePending(c) =>
      ExecClose(n, c);
      ReplayOne(n, CloseConn(c));
      AgreeAfterPendingClose(n, own, c);
  }

  lemma ReplayNone(n: Tables)
    ensures Replay(n, []) == n && Safe(n, [])
  {
  }

  lemma UnownedShrinks(own: Owners, p: PeerId, c: ConnId)
    requires Unowned(own, c)
    ensures Unowned(own - {p}, c)
  {
  }

  lemma AgreeAfterSilent(n: Tables, own: Owners, p: PeerId)
    requires Agree(n, own) && p in own && own[p] !in n.conns
    ensures Agree(n, own - {p})
  {
  }

  // ---------------------------------------------------------------- when some commands are refused

  /** The commands that got in. */
  function Passed(cmds: seq<Cmd>, got: seq<bool>): seq<Cmd>
    requires |got| == |cmds|
  {
    if cmds == [] then []
    else
      var n := |cmds| - 1;
      Passed(cmds[..n], got[..n]) + if got[n] then [cmds[n]] else []
  }

  /** A control command about a connection that is still open, or bound. */
  predicate Matters(n: Tables, cmd: Cmd) {
    match cmd
    case BindPeer(c, _) => c in n.conns
    case CloseConn(c, p) => Target(n, c, p) in n.conns && n.conns[Target(n, c, p)].peer != 0
    case KeepPending(p) => p in n.peerToConn
    case _ => false
  }

  /** The close of an old connection, followed by an accepted bind of its peer to an open one:
      that bind closes the old connection too. */
  predicate Excused(n: Tables, ctl: seq<Cmd>, got: seq<bool>, i: nat)
    requires |got| == |ctl|
  {
    i + 1 < |ctl| && ctl[i].CloseConn? && got[i + 1] && ctl[i + 1].BindPeer? && ctl[i + 1].connId in n.conns
  }

  /** The refused commands do no harm: each is about nothing open, or is excused. */
  ghost predicate Enough(n: Tables, ctl: seq<Cmd>, got: seq<bool>)
    requires |got| == |ctl|
  {
    forall i :: 0 <= i < |ctl| && !got[i] && Matters(n, ctl[i]) ==> Excused(n, ctl, got, i)
  }

  lemma PassedNone(n: Tables, got: seq<bool>)
    requires got == []
    ensures Replay(n, Passed([], got)) == n
  {
  }

  lemma PassedOne(n: Tables, x: Cmd, got: seq<bool>)
    requires |got| == 1
    ensures Replay(n, Passed([x], got)) == if got[0] then Exec(n, x) else n
    ensures Enough(n, [x], got) <==> got[0] || !Matters(n, x)
  {
    hide Exec, Matters;
    assert Passed([], []) == [];
    assert [x][..0] == [] && got[..0] == [];
    assert Passed([x], got) == if got[0] then [x] else [];
    ReplayOne(n, x);
    if got[0] {} else { assert [x][0] == x; }
  }

  lemma PassedTwo(n: Tables, x: Cmd, z: Cmd, got: seq<bool>)
    requires |got| == 2 && x.CloseConn? && z.BindPeer?
    ensures var m := if got[0] then Exec(n, x) else n;
            Replay(n, Passed([x, z], got)) == if got[1] then Exec(m, z) else m
    ensures Enough(n, [x, z], got) <==>
            && (got[0] || !Matters(n, x) || (got[1] && Matters(n, z)))
            && (got[1] || !Matters(n, z))
  {
    hide Exec;
    var ctl := [x, z];
    assert ctl[..1] == [x] && ctl[0] == x && ctl[1] == z;
    assert Passed(ctl, got) == Passed([x], got[..1]) + if got[1] then [z] else [];
    assert [x][..0] == [] && got[..1][..0] == [];
    assert Passed([x], got[..1]) == if got[0] then [x] else [];
    ReplayOne(n, x);
    ReplayOne(n, z);
    ReplayTwo(n, x, z);
  }

  lemma RefusedBind(n: Tables, own: Owners, p: PeerId, c: ConnId)
    requires Agree(n, own) && p != 0 && Unowned(own, c)
    requires p !in own || own[p] !in n.conns
    ensures Agree(n, own[p := c]) <==> c !in n.conns
  {
    var own' := own[p := c];
    if c in n.conns {
      assert Holds(own', p, c);
      assert n.conns[c].peer == p <==> Holds(own, p, c);
    }
  }

  lemma RefusedDrop(n: Tables, own: Owners, p: PeerId)
    requires Inverse(n) && Agree(n, own) && Injective(own) && p in own
    ensures Agree(n, own - {p}) <==> own[p] !in n.conns
    ensures own[p] in n.conns <==> Matters(n, CloseConn(own[p]))
    ensures own[p] in n.conns <==> Matters(n, KeepPending(p))
  {
    var own' := own - {p};
    if own[p] in n.conns {
      assert n.conns[own[p]].peer == p;
      assert !Holds(own', p, own[p]);
    }
    if p in n.peerToConn {
      assert n.conns[n.peerToConn[p]].peer == p;
    }
  }

  /** A re-attach whose close was refused: the bind closes the old connection itself, if the
      new one is open. */
  lemma RefusedClose(n: Tables, own: Owners, p: PeerId, c: ConnId)
    requires Inverse(n) && Agree(n, own) && Injective(own) && p in own && Unowned(own, c)
    ensures Agree(ExecBind(n, c, p), own[p := c]) <==> c in n.conns || own[p] !in n.conns
  {
    var own', m, c0 := own[p := c], ExecBind(n, c, p), own[p];
    if c in n.conns {
      var q := n.conns[c].peer;
      assert q == 0 || Holds(own, q, c);
      if c0 in n.conns {
        assert n.conns[c0].peer == p && n.peerToConn[p] == c0;
        assert m.conns == Close(n, c0).conns[c := n.conns[c].(peer := p)];
      } else {
        assert p !in n.peerToConn;
        assert m.conns == n.conns[c := n.conns[c].(peer := p)];
      }
    } else if c0 in n.conns {
      assert n.conns[c0].peer == p && !Holds(own', p, c0);
    }
  }

  /** Whatever subset of its control commands gets in, a change keeps agreement if and only
      if the refused ones do no harm. */
  lemma ChangeAgreesIff(n: Tables, own: Owners, own': Owners, ctl: seq<Cmd>, ch: Change, got: seq<bool>)
    requires Inverse(n) && Agree(n, own) && Injective(own) && Changed(own, own', ctl, ch) && |got| == |ctl|
    requires ch.DropSilent? ==> own[ch.p] !in n.conns
    ensures Agree(Replay(n, Passed(ctl, got)), own') <==> Enough(n, ctl, got)
  {
    hide Inverse, Agree, Close, ExecBind, ExecKeep, Injective, Replay, Passed, Enough, Exec, Matters, Unowned;
    match ch
    case Same => PassedNone(n, got); EnoughNone(n, got);
    case DropSilent(p) =>
      PassedNone(n, got);
      EnoughNone(n, got);
      AgreeAfterSilent(n, own, p);
    case Bind(p, c) =>
      PassedOne(n, BindPeer(c, p), got);
      BindMatters(n, c, p);
      AgreeAfterBind(n, own, p, c);
      RefusedBind(n, own, p, c);
    case DropClose(p) =>
      PassedOne(n, CloseConn(own[p]), got);
      ExecClose(n, own[p]);
      AgreeAfterClose(n, own, p);
      RefusedDrop(n, own, p);
    case DropKeep(p) =>
      PassedOne(n, KeepPending(p), got);
      KeepExec(n, p);
      AgreeAfterKeep(n, own, p);
      RefusedDrop(n, own, p);
    case ClosePending(c) =>
      PassedOne(n, CloseConn(c), got);
      ExecClose(n, c);
      AgreeAfterPendingClose(n, own, c);
      PendingCloseHarmless(n, own, c);
    case Rebind(p, c0, c) => RebindAgreesIff(n, own, p, c, got);
  }

  lemma EnoughNone(n: Tables, got: seq<bool>)
    requires got == []
    ensures Enough(n, [], got)
  {
  }

  lemma BindMatters(n: Tables, c: ConnId, p: PeerId)
    ensures Matters(n, BindPeer(c, p)) <==> c in n.conns
    ensures Exec(n, BindPeer(c, p)) == ExecBind(n, c, p)
  {
  }

  lemma KeepExec(n: Tables, p: PeerId)
    ensures Exec(n, KeepPending(p)) == ExecKeep(n, p)
  {
  }

  lemma PendingCloseHarmless(n: Tables, own: Owners, c: ConnId)
    requires Agree(n, own) && Unowned(own, c) && c != 0
    ensures !Matters(n, CloseConn(c))
  {
    if c in n.conns {
      var q := n.conns[c].peer;
      assert q == 0 || Holds(own, q, c);
    }
  }

  lemma RebindAgreesIff(n: Tables, own: Owners, p: PeerId, c: ConnId, got: seq<bool>)
    requires Inverse(n) && Agree(n, own) && Injective(own) && p in own && p != 0 && Unowned(own, c) && |got| == 2
    ensures Agree(Replay(n, Passed([CloseConn(own[p]), BindPeer(c, p)], got)), own[p := c])
       <==> Enough(n, [CloseConn(own[p]), BindPeer(c, p)], got)
  {
    hide Inverse, Agree, Close, ExecBind, Injective, Replay, Passed, Enough, Exec, Matters, Unowned;
    var c0 := own[p];
    var gone := Close(n, c0);
    PassedTwo(n, CloseConn(c0), BindPeer(c, p), got);
    ExecClose(n, c0);
    BindMatters(n, c, p);
    BindMatters(gone, c, p);
    RefusedDrop(n, own, p);
    UnownedOther(own, p, c);
    AgreeAfterClose(n, own, p);
    CloseInverse(n, c0);
    UnownedShrinks(own, p, c);
    StillOpen(n, c0, c);
    assert (own - {p})[p := c] == own[p := c];
    AgreeAfterBind(gone, own - {p}, p, c);
    RefusedBind(gone, own - {p}, p, c);
    RefusedClose(n, own, p, c);
    RefusedBoth(n, own, p, c);
  }

  lemma UnownedOther(own: Owners, p: PeerId, c: ConnId)
    requires p in own && Unowned(own, c)
    ensures own[p] != c
  {
  }

  lemma StillOpen(n: Tables, c0: ConnId, c: ConnId)
    requires c != c0
    ensures c in Close(n, c0).conns <==> c in n.conns
  {
  }

  lemma RefusedBoth(n: Tables, own: Owners, p: PeerId, c: ConnId)
    requires Inverse(n) && Agree(n, own) && Injective(own) && p in own && p != 0 && Unowned(own, c)
    ensures Agree(n, own[p := c]) <==> c !in n.conns && own[p] !in n.conns
  {
    var own' := own[p := c];
    if own[p] in n.conns {
      assert n.conns[own[p]].peer == p && !Holds(own', p, own[p]);
    } else {
      RefusedBind(n, own, p, c);
    }
  }
}
