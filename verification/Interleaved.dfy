/** Refused pushes while anything at all happens on the network thread: connections may be
    accepted, hang up or be lost on a send between any two pushes of a handler. */
module Interleaved {
  import opened Types
  import opened Blobs
  import opened Session
  import opened SessionInv
  import opened Ownership
  import opened Net
  import opened System
  import opened Refusals

  // ---------------------------------------------------------------- fewer connections, same peers

  /** The old connections still open in `n` are bound as in `m`, the new ones to nobody. */
  ghost predicate Sub(n: Tables, m: Tables, next: ConnId) {
    forall c :: c in n.conns ==> if c < next then c in m.conns && n.conns[c].peer == m.conns[c].peer else n.conns[c].peer == 0
  }

  lemma SubBind(n: Tables, m: Tables, next: ConnId, c: ConnId, p: PeerId)
    requires Inverse(n) && Inverse(m) && Sub(n, m, next) && SafeCmd(m, BindPeer(c, p)) && c < next
    ensures Sub(ExecBind(n, c, p), ExecBind(m, c, p), next)
  {
    assert p !in n.peerToConn;
  }

  lemma SubClose(n: Tables, m: Tables, next: ConnId, c: ConnId)
    requires Sub(n, m, next)
    ensures Sub(Close(n, c), m, next) && Sub(Close(n, c), Close(m, c), next)
  {
  }

  lemma SubTarget(n: Tables, m: Tables, next: ConnId, c: ConnId, p: PeerId)
    requires Inverse(n) && Inverse(m) && Sub(n, m, next) && m.nextConn <= next
    ensures Sub(Exec(n, CloseConn(c, p)), Exec(m, CloseConn(c, p)), next)
  {
    var t, u := Target(n, c, p), Target(m, c, p);
    SubClose(n, m, next, t);
    if t != u {
      assert u in m.conns && m.conns[u].peer == p && u !in n.conns;
    }
  }

  lemma SubKeep(n: Tables, m: Tables, next: ConnId, p: PeerId)
    requires Inverse(n) && Inverse(m) && Sub(n, m, next)
    ensures Sub(ExecKeep(n, p), ExecKeep(m, p), next)
  {
  }

  lemma SubExec(n: Tables, m: Tables, next: ConnId, cmd: Cmd)
    requires Inverse(n) && Inverse(m) && Sub(n, m, next) && SafeCmd(m, cmd) && Below(cmd, next) && m.nextConn <= next
    ensures Sub(Exec(n, cmd), Exec(m, cmd), next)
  {
    hide Sub, Inverse, ExecBind, ExecKeep, Close, Target;
    match cmd
    case BindPeer(c, p) => SubBind(n, m, next, c, p);
    case CloseConn(c, p) => SubTarget(n, m, next, c, p);
    case KeepPending(p) => SubKeep(n, m, next, p);
    case _ =>
  }

  // ---------------------------------------------------------------- what a handler's commands do

  /** The control commands of one handler that have been executed. */
  datatype Done = Nothing | DidBind(c: ConnId, p: PeerId) | DidClose(c0: ConnId) | DidKeep(p: PeerId) | DidBoth(c0: ConnId, c: ConnId, p: PeerId)

  function DoneBy(ctl: seq<Cmd>): Done {
    if |ctl| == 1 && ctl[0].BindPeer? then DidBind(ctl[0].connId, ctl[0].peerId)
    else if |ctl| == 1 && ctl[0].CloseConn? then DidClose(ctl[0].connId)
    else if |ctl| == 1 && ctl[0].KeepPending? then DidKeep(ctl[0].peerId)
    else if |ctl| == 2 && ctl[0].CloseConn? && ctl[1].BindPeer? then DidBoth(ctl[0].connId, ctl[1].connId, ctl[1].peerId)
    else Nothing
  }

  /** The peer of an old connection that is still open. */
  predicate PeerFits(m: Tables, done: Done, c: ConnId, peer: PeerId)
    requires c in m.conns
  {
    match done
    case Nothing => peer == m.conns[c].peer
    case DidBind(d, p) => peer == if c == d then p else m.conns[c].peer
    case DidClose(c0) => c != c0 && peer == m.conns[c].peer
    case DidKeep(p) => peer == if m.conns[c].peer == p then 0 else m.conns[c].peer
    case DidBoth(c0, d, p) => c != c0 && peer == if c == d then p else m.conns[c].peer
  }

  /** The tables `n` after `done`, with any connections closed and accepted meanwhile. A bind
      whose close was refused closes the old connection itself, if it finds its own open. */
  ghost predicate Shape(m: Tables, n: Tables, next: ConnId, done: Done) {
    && (forall c :: c in n.conns ==> if c < next then c in m.conns && PeerFits(m, done, c, n.conns[c].peer) else n.conns[c].peer == 0)
    && (done.DidBind? && done.p in m.peerToConn && m.peerToConn[done.p] != done.c ==> !(done.c in n.conns && m.peerToConn[done.p] in n.conns))
  }

  ghost predicate BindOk(m: Tables, next: ConnId, c: ConnId, p: PeerId) {
    p != 0 && c < next && (c in m.conns ==> m.conns[c].peer == 0)
  }

  /** The control commands a handler can push, all or some of them. */
  ghost predicate Legal(m: Tables, next: ConnId, ctl: seq<Cmd>) {
    && |ctl| <= 2
    && (|ctl| == 1 ==> match ctl[0]
                       case BindPeer(c, p) => BindOk(m, next, c, p)
                       case CloseConn(_, p) => p == 0
                       case KeepPending(_) => true
                       case _ => false)
    && (|ctl| == 2 ==> && ctl[0].CloseConn? && ctl[0].peerId == 0 && ctl[1].BindPeer?
                       && BindOk(m, next, ctl[1].connId, ctl[1].peerId) && ctl[1].connId != ctl[0].connId
                       && (ctl[1].peerId in m.peerToConn ==> m.peerToConn[ctl[1].peerId] == ctl[0].connId))
  }

  lemma SubIsShape(n: Tables, m: Tables, next: ConnId)
    ensures Sub(n, m, next) <==> Shape(m, n, next, Nothing)
  {
  }

  lemma ShapeBind(m: Tables, n: Tables, next: ConnId, c: ConnId, p: PeerId)
    requires Inverse(n) && Inverse(m) && Shape(m, n, next, Nothing) && BindOk(m, next, c, p) && m.nextConn <= next
    ensures Shape(m, ExecBind(n, c, p), next, DidBind(c, p))
  {
    if c in n.conns {
      assert n.conns[c].peer == 0;
      if p in n.peerToConn {
        var d := n.peerToConn[p];
        assert n.conns[d].peer == p && m.conns[d].peer == p;
        assert m.peerToConn[p] == d;
      } else if p in m.peerToConn {
        var d := m.peerToConn[p];
        assert m.conns[d].peer == p && d < next;
        assert d !in n.conns;
      }
    }
  }

  lemma ShapeClose(m: Tables, n: Tables, next: ConnId, c0: ConnId)
    requires Inverse(n) && Shape(m, n, next, Nothing)
    ensures Shape(m, Close(n, c0), next, DidClose(c0))
  {
    if c0 in n.conns && c0 >= next {
    }
  }

  lemma ShapeKeep(m: Tables, n: Tables, next: ConnId, p: PeerId)
    requires Inverse(n) && Inverse(m) && Shape(m, n, next, Nothing)
    ensures Shape(m, ExecKeep(n, p), next, DidKeep(p))
  {
  }

  lemma ShapeBoth(m: Tables, n: Tables, next: ConnId, c0: ConnId, c: ConnId, p: PeerId)
    requires Inverse(n) && Inverse(m) && Shape(m, n, next, DidClose(c0)) && BindOk(m, next, c, p) && c != c0
    requires p in m.peerToConn ==> m.peerToConn[p] == c0
    ensures Shape(m, ExecBind(n, c, p), next, DidBoth(c0, c, p))
  {
    assert forall d :: d in n.conns && n.conns[d].peer == p ==> d in m.conns && m.conns[d].peer == p;
    assert p !in n.peerToConn;
  }

  lemma ShapeExec(m: Tables, n: Tables, next: ConnId, ctl: seq<Cmd>, x: Cmd)
    requires Inverse(n) && Inverse(m) && m.nextConn <= next && Legal(m, next, ctl + [x]) && Shape(m, n, next, DoneBy(ctl))
    ensures Shape(m, Exec(n, x), next, DoneBy(ctl + [x]))
  {
    hide Inverse, Shape, ExecBind, ExecKeep, Close, BindOk;
    var all := ctl + [x];
    if ctl == [] {
      assert all == [x];
      match x
      case BindPeer(c, p) => ShapeBind(m, n, next, c, p);
      case CloseConn(c, _) => ExecClose(n, c); ShapeClose(m, n, next, c);
      case KeepPending(p) => ShapeKeep(m, n, next, p);
    } else {
      assert all[0] == ctl[0] && all[1] == x && |ctl| == 1;
      ShapeBoth(m, n, next, ctl[0].connId, x.connId, x.peerId);
    }
  }

  /** Closing and accepting do not disturb it. */
  lemma ShapeLoses(m: Tables, n: Tables, next: ConnId, done: Done, c: ConnId)
    requires Shape(m, n, next, done)
    ensures Shape(m, Close(n, c), next, done)
  {
  }

  lemma ShapeGains(m: Tables, n: Tables, next: ConnId, done: Done, addr: Addr)
    requires Shape(m, n, next, done) && next <= n.nextConn
    requires done.DidBind? ==> done.c < next
    requires Inverse(m) && m.nextConn <= next
    ensures Shape(m, Accepted(n, addr), next, done)
  {
  }

  // ---------------------------------------------------------------- when the threads agree in the end

  /** The connection a control command is about. */
  function About(m: Tables, cmd: Cmd): ConnId {
    match cmd
    case BindPeer(c, _) => c
    case CloseConn(c, p) => Target(m, c, p)
    case KeepPending(p) => if p in m.peerToConn then m.peerToConn[p] else 0
    case _ => 0
  }

  /** Every refused command that mattered is about a connection that is closed in the end. */
  ghost predicate HarmlessInTheEnd(m: Tables, n: Tables, ctl: seq<Cmd>, got: seq<bool>)
    requires |got| == |ctl|
  {
    forall i :: 0 <= i < |ctl| && !got[i] && Matters(m, ctl[i]) ==> About(m, ctl[i]) !in n.conns
  }

  ghost predicate OldOwners(own: Owners, next: ConnId) { forall p :: p in own ==> own[p] < next }

  lemma AgreeSame(m: Tables, n: Tables, next: ConnId, own: Owners)
    requires Agree(m, own) && Shape(m, n, next, Nothing) && OldOwners(own, next)
    ensures Agree(n, own)
  {
    forall c, p | c in n.conns && p != 0 ensures n.conns[c].peer == p <==> p in own && own[p] == c {
      if c < next { assert m.conns[c].peer == p <==> Holds(own, p, c); }
    }
  }

  lemma EndBind(m: Tables, n: Tables, next: ConnId, own: Owners, p: PeerId, c: ConnId, got: bool)
    requires Inverse(m) && Agree(m, own) && OldOwners(own, next) && p != 0 && c < next && p !in own && Unowned(own, c)
    requires Shape(m, n, next, if got then DidBind(c, p) else Nothing)
    ensures Agree(n, own[p := c]) <==> got || c !in n.conns
  {
    var own' := own[p := c];
    if c in n.conns && !got {
      assert m.conns[c].peer == p <==> Holds(own, p, c);
      assert Holds(own', p, c);
    } else {
      forall d, q | d in n.conns && q != 0 ensures n.conns[d].peer == q <==> q in own' && own'[q] == d {
        if d < next { assert m.conns[d].peer == q <==> Holds(own, q, d); }
      }
    }
  }

  lemma EndDrop(m: Tables, n: Tables, next: ConnId, own: Owners, p: PeerId, keep: bool, got: bool)
    requires Inverse(m) && Agree(m, own) && Injective(own) && OldOwners(own, next) && p in own
    requires Shape(m, n, next, if !got then Nothing else if keep then DidKeep(p) else DidClose(own[p]))
    ensures Agree(n, own - {p}) <==> got || own[p] !in n.conns
  {
    var own', c0 := own - {p}, own[p];
    if c0 in n.conns && !got {
      assert m.conns[c0].peer == p <==> Holds(own, p, c0);
      assert !Holds(own', p, c0);
    } else {
      forall d, q | d in n.conns && q != 0 ensures n.conns[d].peer == q <==> q in own' && own'[q] == d {
        if d < next { assert m.conns[d].peer == q <==> Holds(own, q, d); assert m.conns[d].peer == p <==> Holds(own, p, d); }
      }
    }
  }

  lemma EndRebind(m: Tables, n: Tables, next: ConnId, own: Owners, p: PeerId, c: ConnId, closed: bool, bound: bool)
    requires Inverse(m) && Agree(m, own) && Injective(own) && OldOwners(own, next) && p in own && c < next && Unowned(own, c)
    requires Shape(m, n, next, if closed && bound then DidBoth(own[p], c, p) else if closed then DidClose(own[p])
                               else if bound then DidBind(c, p) else Nothing)
    ensures Agree(n, own[p := c]) <==> (closed || own[p] !in n.conns) && (bound || c !in n.conns)
  {
    var own', c0 := own[p := c], own[p];
    if c0 in n.conns {
      assert m.conns[c0].peer == p by { assert m.conns[c0].peer == p <==> Holds(own, p, c0); }
      assert !Holds(own', p, c0);
    } else if c in n.conns && !bound {
      assert m.conns[c].peer == p <==> Holds(own, p, c);
      assert Holds(own', p, c);
    } else {
      forall d, q | d in n.conns && q != 0 ensures n.conns[d].peer == q <==> q in own' && own'[q] == d {
        if d < next { assert m.conns[d].peer == q <==> Holds(own, q, d); }
      }
    }
  }

  lemma PassedIs(ctl: seq<Cmd>, got: seq<bool>)
    requires |got| == |ctl| <= 2
    ensures |ctl| == 0 ==> Passed(ctl, got) == []
    ensures |ctl| == 1 ==> Passed(ctl, got) == if got[0] then ctl else []
    ensures |ctl| == 2 ==> Passed(ctl, got) == (if got[0] then [ctl[0]] else []) + if got[1] then [ctl[1]] else []
  {
    if |ctl| == 1 {
      assert Passed(ctl[..0], got[..0]) == [];
      assert ctl == [ctl[0]];
    } else if |ctl| == 2 {
      var a, g := ctl[..1], got[..1];
      assert Passed(a[..0], g[..0]) == [];
      assert Passed(a, g) == if got[0] then [ctl[0]] else [];
    }
  }

  lemma DropMatters(m: Tables, own: Owners, p: PeerId)
    requires Inverse(m) && Agree(m, own) && Injective(own) && p in own
    ensures Matters(m, CloseConn(own[p])) <==> own[p] in m.conns
    ensures Matters(m, KeepPending(p)) <==> own[p] in m.conns
    ensures own[p] in m.conns ==> About(m, CloseConn(own[p])) == own[p] && About(m, KeepPending(p)) == own[p]
  {
    RefusedDrop(m, own, p);
    if own[p] in m.conns {
      assert m.conns[own[p]].peer == p <==> Holds(own, p, own[p]);
    }
  }

  lemma OldOpen(m: Tables, n: Tables, next: ConnId, done: Done, c: ConnId)
    requires Shape(m, n, next, done) && c < next && c in n.conns
    ensures c in m.conns
  {
  }

  /** Whatever subset of its control commands gets in, and whatever is accepted and closed in
      the meantime: a change keeps agreement if and only if each refused command that mattered
      is about a connection closed in the end. */
  lemma EndAgreesIff(m: Tables, n: Tables, next: ConnId, own: Owners, own': Owners, ctl: seq<Cmd>, ch: Change, got: seq<bool>)
    requires Inverse(m) && Agree(m, own) && Injective(own) && Changed(own, own', ctl, ch) && |got| == |ctl|
    requires OldOwners(own, next) && OldOwners(own', next) && (ch.DropSilent? ==> own[ch.p] !in m.conns)
    requires |ctl| <= 2 && Shape(m, n, next, DoneBy(Passed(ctl, got)))
    requires ch.ClosePending? ==> !Matters(m, CloseConn(ch.c))
    ensures Agree(n, own') <==> HarmlessInTheEnd(m, n, ctl, got)
  {
    hide Inverse, Agree, Shape, Injective, Unowned, Matters, About, Passed;
    PassedIs(ctl, got);
    match ch
    case Same => AgreeSame(m, n, next, own);
    case DropSilent(p) =>
      AgreeAfterSilent(m, own, p);
      AgreeSame(m, n, next, own');
    case Bind(p, c) =>
      assert own'[p] == c && DoneBy([BindPeer(c, p)]) == DidBind(c, p) && DoneBy([]) == Nothing;
      EndBind(m, n, next, own, p, c, got[0]);
      BindMatters(m, c, p);
      AboutBind(m, c, p);
      if c in n.conns { OldOpen(m, n, next, DoneBy(Passed(ctl, got)), c); }
    case DropClose(p) =>
      assert DoneBy([CloseConn(own[p])]) == DidClose(own[p]) && DoneBy([]) == Nothing;
      EndDrop(m, n, next, own, p, false, got[0]);
      DropMatters(m, own, p);
      if own[p] in n.conns { OldOpen(m, n, next, DoneBy(Passed(ctl, got)), own[p]); }
    case DropKeep(p) =>
      assert DoneBy([KeepPending(p)]) == DidKeep(p) && DoneBy([]) == Nothing;
      EndDrop(m, n, next, own, p, true, got[0]);
      DropMatters(m, own, p);
      if own[p] in n.conns { OldOpen(m, n, next, DoneBy(Passed(ctl, got)), own[p]); }
    case ClosePending(c) =>
      assert DoneBy([CloseConn(c)]) == DidClose(c) && DoneBy([]) == Nothing;
      EndPending(m, n, next, own, c, got[0]);
    case Rebind(p, c0, c) =>
      assert own'[p] == c && DoneBy([BindPeer(c, p)]) == DidBind(c, p) && DoneBy([CloseConn(c0)]) == DidClose(c0);
      assert DoneBy([CloseConn(c0)] + [BindPeer(c, p)]) == DidBoth(c0, c, p) && DoneBy([]) == Nothing;
      EndRebind(m, n, next, own, p, c, got[0], got[1]);
      DropMatters(m, own, p);
      BindMatters(m, c, p);
      AboutBind(m, c, p);
      if c0 in n.conns { OldOpen(m, n, next, DoneBy(Passed(ctl, got)), c0); }
      if c in n.conns { OldOpen(m, n, next, DoneBy(Passed(ctl, got)), c); }
  }

  lemma AboutBind(m: Tables, c: ConnId, p: PeerId)
    ensures About(m, BindPeer(c, p)) == c
  {
  }

  lemma EndPending(m: Tables, n: Tables, next: ConnId, own: Owners, c: ConnId, got: bool)
    requires Agree(m, own) && OldOwners(own, next) && Shape(m, n, next, if got then DidClose(c) else Nothing)
    ensures Agree(n, own)
  {
    forall d, q | d in n.conns && q != 0 ensures n.conns[d].peer == q <==> q in own && own[q] == d {
      if d < next { assert m.conns[d].peer == q <==> Holds(own, q, d); }
    }
  }

  // ---------------------------------------------------------------- following a run

  /** Steps of the network thread, and pushes. */
  predicate Meanwhile(step: SysStep) { !step.SimEvent? && !step.SimLocal? }

  /** The tables after the first `k` of the commands `pre + more` have been executed, whatever
      else happened: `pre` was on the queue before the handler, `more` is what it pushed. */
  ghost predicate Rel(y: Sys, n: Tables, more: seq<Cmd>, k: nat)
    requires k <= |y.outbound| + |more|
  {
    && Inverse(n) && n.nextConn >= y.net.nextConn
    && if k <= |y.outbound| then Sub(n, Replay(y.net, y.outbound[..k]), y.net.nextConn)
       else Shape(Replay(y.net, y.outbound), n, y.net.nextConn, DoneBy(Ctl(more[..k - |y.outbound|])))
  }

  /** What makes the pushed commands ones of a handler. */
  ghost predicate Start(y: Sys, more: seq<Cmd>) {
    && Inverse(y.net) && Safe(y.net, y.outbound) && AllBelow(y.outbound, y.net.nextConn)
    && forall j :: 0 <= j <= |more| ==> Legal(Replay(y.net, y.outbound), y.net.nextConn, Ctl(more[..j]))
  }

  lemma {:induction false} SafeAt(n: Tables, cmds: seq<Cmd>, k: nat)
    requires Safe(n, cmds) && k < |cmds|
    ensures SafeCmd(Replay(n, cmds[..k]), cmds[k])
    decreases |cmds|
  {
    hide SafeCmd;
    if k < |cmds| - 1 {
      SafeAt(n, cmds[..|cmds| - 1], k);
      assert cmds[..|cmds| - 1][..k] == cmds[..k];
    }
  }

  lemma RelExecPre(y: Sys, n: Tables, more: seq<Cmd>, k: nat)
    requires Start(y, more) && k < |y.outbound| && Rel(y, n, more, k)
    ensures Rel(y, Exec(n, y.outbound[k]), more, k + 1)
  {
    hide Inverse, Sub, Shape, Exec, SafeCmd, Legal, Safe;
    var x, m := y.outbound[k], Replay(y.net, y.outbound[..k]);
    SafeAt(y.net, y.outbound, k);
    ReplayInverse(y.net, y.outbound[..k]);
    SubExec(n, m, y.net.nextConn, x);
    ExecInverse(n, x);
    assert y.outbound[..k + 1][..k] == y.outbound[..k];
  }

  lemma RelExecMore(y: Sys, n: Tables, more: seq<Cmd>, k: nat)
    requires Start(y, more) && |y.outbound| <= k < |y.outbound| + |more| && Rel(y, n, more, k)
    ensures Rel(y, Exec(n, more[k - |y.outbound|]), more, k + 1)
  {
    hide Inverse, Sub, Shape, Exec, Legal, Safe, DoneBy;
    var j, m := k - |y.outbound|, Replay(y.net, y.outbound);
    var x, done := more[j], Ctl(more[..j]);
    assert y.outbound[..|y.outbound|] == y.outbound;
    ReplayInverse(y.net, y.outbound);
    if j == 0 {
      SubIsShape(n, m, y.net.nextConn);
      assert more[..0] == [];
      NothingDone();
    }
    assert more[..j + 1][..j] == more[..j];
    ExecInverse(n, x);
    if IsSend(x) {
      SendExecutes(n, x);
      assert Ctl(more[..j + 1]) == done;
    } else {
      assert Ctl(more[..j + 1]) == done + [x];
      ShapeExec(m, n, y.net.nextConn, done, x);
    }
  }

  lemma NothingDone()
    ensures DoneBy([]) == Nothing && Ctl([]) == []
  {
  }

  lemma SendExecutes(n: Tables, x: Cmd)
    requires IsSend(x)
    ensures Exec(n, x) == n
  {
  }

  lemma RelExec(y: Sys, n: Tables, more: seq<Cmd>, k: nat)
    requires Start(y, more) && k < |y.outbound| + |more| && Rel(y, n, more, k)
    ensures Rel(y, Exec(n, (y.outbound + more)[k]), more, k + 1)
  {
    hide Rel, Start, Exec;
    if k < |y.outbound| { RelExecPre(y, n, more, k); } else { RelExecMore(y, n, more, k); }
  }

  lemma RelLoses(y: Sys, n: Tables, more: seq<Cmd>, k: nat, c: ConnId)
    requires k <= |y.outbound| + |more| && Rel(y, n, more, k)
    ensures Rel(y, Close(n, c), more, k)
  {
    hide Inverse, Sub, Shape, Close;
    CloseInverse(n, c);
    CloseKeepsNext(n, c);
    if k <= |y.outbound| {
      SubClose(n, Replay(y.net, y.outbound[..k]), y.net.nextConn, c);
    } else {
      ShapeLoses(Replay(y.net, y.outbound), n, y.net.nextConn, DoneBy(Ctl(more[..k - |y.outbound|])), c);
    }
  }

  lemma CloseKeepsNext(n: Tables, c: ConnId)
    ensures Close(n, c).nextConn == n.nextConn
  {
  }

  lemma RelGains(y: Sys, n: Tables, more: seq<Cmd>, k: nat, addr: Addr)
    requires Start(y, more) && y.net.nextConn > 0 && k <= |y.outbound| + |more| && Rel(y, n, more, k)
    ensures Rel(y, Accepted(n, addr), more, k)
  {
    hide Inverse, Safe;
    AcceptedInverse(n, addr);
    ReplayInverse(y.net, y.outbound);
    if k > |y.outbound| {
      var done := DoneBy(Ctl(more[..k - |y.outbound|]));
      assert Legal(Replay(y.net, y.outbound), y.net.nextConn, Ctl(more[..k - |y.outbound|]));
      ShapeGains(Replay(y.net, y.outbound), n, y.net.nextConn, done, addr);
    }
  }

  /** One more push does not change what has been executed. */
  lemma RelPush(y: Sys, n: Tables, more: seq<Cmd>, k: nat, x: Cmd)
    requires k <= |y.outbound| + |more| && Rel(y, n, more, k)
    ensures Rel(y, n, more + [x], k)
  {
    hide Inverse, Sub, Shape;
    if k > |y.outbound| {
      var j := k - |y.outbound|;
      assert (more + [x])[..j] == more[..j];
    }
  }

  /** Executing all that is still on the queue. */
  lemma {:induction false} RelReplay(y: Sys, n: Tables, more: seq<Cmd>, k: nat)
    requires Start(y, more) && k <= |y.outbound| + |more| && Rel(y, n, more, k)
    ensures Rel(y, Replay(n, (y.outbound + more)[k..]), more, |y.outbound| + |more|)
    decreases |y.outbound| + |more| - k
  {
    hide Rel, Start, Exec;
    var all := y.outbound + more;
    if k < |all| {
      RelExec(y, n, more, k);
      ReplayHead(n, all[k..]);
      assert all[k..][0] == all[k] && all[k..][1..] == all[k + 1..];
      RelReplay(y, Exec(n, all[k]), more, k + 1);
    } else {
      assert all[k..] == [];
      ReplayNone(n);
    }
  }

  // ---------------------------------------------------------------- whole handlers

  ghost predicate TracksAt(y: Sys, w: Sys, more: seq<Cmd>, k: nat) {
    k <= |y.outbound| + |more| && w.outbound == (y.outbound + more)[k..] && Rel(y, w.net, more, k)
  }

  ghost predicate Tracks(y: Sys, w: Sys, more: seq<Cmd>) { exists k: nat :: TracksAt(y, w, more, k) }

  lemma TracksStart(y: Sys, w: Sys)
    requires Inverse(y.net) && w.net == y.net && w.outbound == y.outbound
    ensures Tracks(y, w, [])
  {
    assert y.outbound[..0] == [] && (y.outbound + [])[0..] == y.outbound;
    assert TracksAt(y, w, [], 0);
  }

  lemma TracksPush(y: Sys, w: Sys, more: seq<Cmd>, x: Cmd)
    requires Tracks(y, w, more)
    ensures Tracks(y, w.(outbound := w.outbound + [x]), more + [x])
  {
    hide Rel;
    var k: nat :| TracksAt(y, w, more, k);
    RelPush(y, w.net, more, k, x);
    var all := y.outbound + more;
    assert y.outbound + (more + [x]) == all + [x] && (all + [x])[k..] == all[k..] + [x];
    assert TracksAt(y, w.(outbound := w.outbound + [x]), more + [x], k);
  }

  lemma TracksCommand(y: Sys, w: Sys, more: seq<Cmd>, lost: bool)
    requires Start(y, more) && Tracks(y, w, more) && w.outbound != []
    ensures Tracks(y, Command(w, lost), more)
  {
    hide Rel, Start, Exec, Close;
    var k: nat :| TracksAt(y, w, more, k);
    var all := y.outbound + more;
    assert all[k..][0] == all[k] && all[k..][1..] == all[k + 1..];
    RelExec(y, w.net, more, k);
    var w1 := w.(net := Exec(w.net, w.outbound[0]), outbound := w.outbound[1..]);
    assert TracksAt(y, w1, more, k + 1);
    var x := w.outbound[0];
    if LostBySend(w, x, lost) { TracksHangup(y, w1, more, Target(w.net, x.connId, x.peerId)); }
  }

  lemma TracksHangup(y: Sys, w: Sys, more: seq<Cmd>, c: ConnId)
    requires Tracks(y, w, more)
    ensures Tracks(y, Hangup(w, c), more)
  {
    hide Rel, Close;
    var k: nat :| TracksAt(y, w, more, k);
    RelLoses(y, w.net, more, k, c);
    assert TracksAt(y, Hangup(w, c), more, k);
  }

  lemma TracksAccept(y: Sys, w: Sys, more: seq<Cmd>, addr: Addr, inbound: seq<NetEvent>)
    requires Start(y, more) && y.net.nextConn > 0 && Tracks(y, w, more)
    ensures Tracks(y, w.(net := Accepted(w.net, addr), inbound := inbound), more)
  {
    hide Rel, Start, Accepted;
    var k: nat :| TracksAt(y, w, more, k);
    RelGains(y, w.net, more, k, addr);
    assert TracksAt(y, w.(net := Accepted(w.net, addr), inbound := inbound), more, k);
  }

  lemma TracksSame(y: Sys, w: Sys, w': Sys, more: seq<Cmd>)
    requires Tracks(y, w, more) && w'.net == w.net && w'.outbound == w.outbound
    ensures Tracks(y, w', more)
  {
    hide Rel;
    var k: nat :| TracksAt(y, w, more, k);
    assert TracksAt(y, w', more, k);
  }

  /** Any step of the network thread. */
  lemma TracksNet(y: Sys, w: Sys, more: seq<Cmd>, step: SysStep)
    requires Start(y, more) && y.net.nextConn > 0 && Tracks(y, w, more) && Inv(w.sim) && Can(w, step) && Meanwhile(step) && !step.SimPush?
    ensures Tracks(y, Next(w, step), more) && Next(w, step).unsent == w.unsent && Next(w, step).sim == w.sim
  {
    hide Tracks, Start, Inv;
    match step
    case NetCommand(lost) => TracksCommand(y, w, more, lost);
    case NetAccept(addr) => TracksAccept(y, w, more, addr, Push(w.inbound, TcpAccept(w.net.nextConn, addr)));
    case NetFrame(c, m) =>
      TracksHangup(y, w, more, c);
      if c in w.net.conns { TracksSame(y, w, w.(inbound := w.inbound + [TcpFrame(c, w.net.conns[c].peer, m)]), more); }
    case NetDatagram(addr, m) => TracksSame(y, w, Next(w, step), more);
    case NetHangup(c) => TracksHangup(y, w, more, c);
  }

  /** The commands of a prefix of the pushes that got in. */
  ghost predicate Follows(y: Sys, y1: Sys, w: Sys, got: seq<bool>) {
    && |got| <= |y1.unsent| && w.sim == y1.sim && w.unsent == y1.unsent[|got|..]
    && Tracks(y, w, Passed(y1.unsent[..|got|], got))
  }

  /** All that a handler can get into the queue is legal. */
  ghost predicate AllLegal(y: Sys, cmds: seq<Cmd>) {
    forall n: nat, got: seq<bool> :: n <= |cmds| && |got| == n ==> Start(y, Passed(cmds[..n], got))
  }

  lemma FollowsPush(y: Sys, y1: Sys, w: Sys, got: seq<bool>)
    requires Follows(y, y1, w, got) && w.unsent != []
    ensures Follows(y, y1, w.(outbound := Push(w.outbound, w.unsent[0]), unsent := w.unsent[1..]), got + [|w.outbound| < QUEUE_MAX])
  {
    hide Tracks, Passed;
    var n, ok := |got|, |w.outbound| < QUEUE_MAX;
    var got', x, more := got + [ok], w.unsent[0], Passed(y1.unsent[..n], got);
    assert y1.unsent[..n + 1][..n] == y1.unsent[..n] && y1.unsent[n] == x && got'[..n] == got;
    PassedSnoc(y1.unsent[..n + 1], got');
    var w' := w.(outbound := Push(w.outbound, x), unsent := w.unsent[1..]);
    if ok {
      TracksPush(y, w, more, x);
      TracksSame(y, w.(outbound := w.outbound + [x]), w', more + [x]);
    } else {
      assert more + [] == more;
      TracksSame(y, w, w', more);
    }
  }

  lemma {:induction false} FollowsRun(y: Sys, y1: Sys, steps: seq<SysStep>)
    requires Possible(y1, steps) && (forall i :: 0 <= i < |steps| ==> Meanwhile(steps[i]))
    requires AllLegal(y, y1.unsent) && y.net.nextConn > 0 && Follows(y, y1, y1, [])
    ensures Follows(y, y1, Final(y1, steps), Accepts(y1, steps))
    decreases |steps|
  {
    hide CoreInv, Tracks, Start, Passed, AllLegal;
    if steps != [] {
      var n := |steps| - 1;
      FollowsRun(y, y1, steps[..n]);
      var w, got := Final(y1, steps[..n]), Accepts(y1, steps[..n]);
      InvOf(w);
      if steps[n].SimPush? {
        FollowsPush(y, y1, w, got);
      } else {
        LegalAt(y, y1.unsent, |got|, got);
        TracksNet(y, w, Passed(y1.unsent[..|got|], got), steps[n]);
        assert got + [] == got;
      }
    }
  }

  lemma LegalAt(y: Sys, cmds: seq<Cmd>, n: nat, got: seq<bool>)
    requires AllLegal(y, cmds) && n <= |cmds| && |got| == n
    ensures Start(y, Passed(cmds[..n], got))
  {
  }

  // ---------------------------------------------------------------- a handler's commands are legal

  lemma LegalPrefix(m: Tables, next: ConnId, ctl: seq<Cmd>, i: nat)
    requires Legal(m, next, ctl) && i <= |ctl|
    ensures Legal(m, next, ctl[..i])
  {
  }

  lemma LegalPassed(m: Tables, next: ConnId, ctl: seq<Cmd>, got: seq<bool>)
    requires Legal(m, next, ctl) && |got| == |ctl|
    ensures Legal(m, next, Passed(ctl, got))
  {
    hide Passed, BindOk;
    PassedIs(ctl, got);
  }

  lemma CtlPrefix(cmds: seq<Cmd>, j: nat)
    requires j <= |cmds|
    ensures |Ctl(cmds[..j])| <= |Ctl(cmds)| && Ctl(cmds[..j]) == Ctl(cmds)[..|Ctl(cmds[..j])|]
  {
    hide Ctl;
    assert cmds == cmds[..j] + cmds[j..];
    CtlConcat(cmds[..j], cmds[j..]);
  }

  lemma ChangeLegal(m: Tables, next: ConnId, own: Owners, own': Owners, ctl: seq<Cmd>, ch: Change)
    requires Inverse(m) && Agree(m, own) && Injective(own) && Changed(own, own', ctl, ch) && AllBelow(ctl, next)
    ensures Legal(m, next, ctl)
  {
    hide Inverse, Injective;
    if ch.Bind? || ch.Rebind? {
      assert Below(ctl[|ctl| - 1], next);
      FreeConn(m, own, ch.c);
      if ch.Rebind? { HeldConn(m, own, ch.p); }
    }
  }

  lemma FreeConn(m: Tables, own: Owners, c: ConnId)
    requires Agree(m, own) && Unowned(own, c)
    ensures c in m.conns ==> m.conns[c].peer == 0
  {
    if c in m.conns {
      var q := m.conns[c].peer;
      assert q == 0 || Holds(own, q, c);
    }
  }

  lemma HeldConn(m: Tables, own: Owners, p: PeerId)
    requires Inverse(m) && Agree(m, own) && p in own
    ensures p in m.peerToConn ==> m.peerToConn[p] == own[p]
  {
    if p in m.peerToConn {
      var d := m.peerToConn[p];
      assert m.conns[d].peer == p <==> Holds(own, p, d);
    }
  }

  lemma HandlerLegal(y: Sys, cmds: seq<Cmd>)
    requires Inverse(y.net) && Safe(y.net, y.outbound) && AllBelow(y.outbound, y.net.nextConn)
    requires Legal(Replay(y.net, y.outbound), y.net.nextConn, Ctl(cmds))
    ensures AllLegal(y, cmds)
  {
    hide Legal, Inverse, Safe, Replay, Ctl, Passed, CtlGot;
    var m, next := Replay(y.net, y.outbound), y.net.nextConn;
    forall n: nat, got: seq<bool> | n <= |cmds| && |got| == n ensures Start(y, Passed(cmds[..n], got)) {
      var more := Passed(cmds[..n], got);
      CtlPrefix(cmds, n);
      LegalPrefix(m, next, Ctl(cmds), |Ctl(cmds[..n])|);
      CtlPassed(cmds[..n], got);
      LegalPassed(m, next, Ctl(cmds[..n]), CtlGot(cmds[..n], got));
      forall j | 0 <= j <= |more| ensures Legal(m, next, Ctl(more[..j])) {
        CtlPrefix(more, j);
        LegalPrefix(m, next, Ctl(more), |Ctl(more[..j])|);
      }
    }
  }

  // ---------------------------------------------------------------- the exact condition

  lemma OwnersOld(s: State, next: ConnId)
    requires Numbered(s, next)
    ensures OldOwners(Conns(s.clients), next)
  {
    forall p | p in s.clients ensures s.clients[p].connId < next {
      assert Owns(s.clients, p, s.clients[p].connId);
      assert Known(s, s.clients[p].connId);
    }
  }

  /** All commands executed: the shape of the tables. */
  lemma TracksToTheEnd(y: Sys, w: Sys, more: seq<Cmd>)
    requires Start(y, more) && Tracks(y, w, more)
    ensures Shape(Replay(y.net, y.outbound), Replay(w.net, w.outbound), y.net.nextConn, DoneBy(Ctl(more)))
  {
    hide Shape, Sub, Inverse, Start, Replay, Ctl, DoneBy;
    var k: nat :| TracksAt(y, w, more, k);
    RelReplay(y, w.net, more, k);
    var n := Replay(w.net, w.outbound);
    if more == [] {
      assert y.outbound[..|y.outbound|] == y.outbound;
      SubIsShape(n, Replay(y.net, y.outbound), y.net.nextConn);
      NothingDone();
    } else {
      assert more[..|more|] == more;
    }
  }

  /** The exact condition in full: a handler runs, and until its last push anything may happen
      on the network thread. The threads agree afterwards if and only if each refused control
      command that mattered is about a connection that the remaining queue leaves closed. */
  lemma AnyStepsAgreeIff(y: Sys, step: SysStep, steps: seq<SysStep>)
    requires SysInv(y) && Can(y, step) && (step.SimEvent? || step.SimLocal?)
    requires Possible(Next(y, step), steps) && (forall i :: 0 <= i < |steps| ==> Meanwhile(steps[i]))
    requires Final(Next(y, step), steps).unsent == []
    ensures |Accepts(Next(y, step), steps)| == |SimEffect(y, step).cmds|
    ensures var cmds, z := SimEffect(y, step).cmds, Final(Next(y, step), steps);
            Agreement(z) <==> HarmlessInTheEnd(Replay(y.net, y.outbound), Replay(z.net, z.outbound), Ctl(cmds),
                                               CtlGot(cmds, Accepts(Next(y, step), steps)))
  {
    hide Apply, Enabled, Choices, Agree, Replay, Passed, HarmlessInTheEnd, Inverse, Injective, Changed, ChangeOf, Conns, Final, Possible, Accepts,
         Tracks, Start, Shape, Legal, AllLegal, Safe, Numbered, AcceptsFresh, AllBelow, Inv, Ctl, CtlGot, OldOwners, Known, ClosedGone, DoneBy;
    InvOf(y);
    InvAsm(y.sim);
    NextKeepsCore(y, step);
    var y1 := Next(y, step);
    var z, got, e := Final(y1, steps), Accepts(y1, steps), SimEffect(y, step);
    var m, next, own, own' := Replay(y.net, y.outbound), y.net.nextConn, Conns(y.sim.clients), Conns(e.state.clients);
    var ctl, ch := Ctl(e.cmds), ChangeOf(y.sim, SimStep(y, step));
    SimChange(y, step);
    SimEnabled(y, step);
    CtlBelow(y.sim, SimStep(y, step), next);
    SafeBefore(y);
    ChangeLegal(m, next, own, own', ctl, ch);
    HandlerLegal(y, e.cmds);
    FollowsStart(y, y1);
    FollowsRun(y, y1, steps);
    assert e.cmds[..|got|] == e.cmds;
    assert OnTheWay(z) == z.outbound;
    LegalAt(y, e.cmds, |got|, got);
    TracksToTheEnd(y, z, Passed(e.cmds, got));
    CtlPassed(e.cmds, got);
    OwnersOld(y.sim, next);
    OwnersOld(e.state, next);
    ShortCtl(own, own', ctl, ch);
    if ch.ClosePending? { ChangedPending(m, own, own', ctl, ch); }
    EndAgreesIff(m, Replay(z.net, z.outbound), next, own, own', ctl, ch, CtlGot(e.cmds, got));
  }

  lemma SafeBefore(y: Sys)
    requires SysInv(y)
    ensures y.unsent == [] ==> Safe(y.net, y.outbound) && AllBelow(y.outbound, y.net.nextConn)
  {
    if y.unsent == [] { assert OnTheWay(y) == y.outbound; }
  }

  lemma FollowsStart(y: Sys, y1: Sys)
    requires Inverse(y.net) && y1.net == y.net && y1.outbound == y.outbound
    ensures Follows(y, y1, y1, [])
  {
    TracksStart(y, y1);
    assert y1.unsent[..0] == [] && y1.unsent[0..] == y1.unsent;
  }

  lemma ShortCtl(own: Owners, own': Owners, ctl: seq<Cmd>, ch: Change)
    requires Changed(own, own', ctl, ch)
    ensures |ctl| <= 2
  {
  }

  lemma ChangedPending(m: Tables, own: Owners, own': Owners, ctl: seq<Cmd>, ch: Change)
    requires Agree(m, own) && Changed(own, own', ctl, ch) && ch.ClosePending?
    ensures !Matters(m, CloseConn(ch.c))
  {
    PendingCloseHarmless(m, own, ch.c);
  }
}
