/** Whose frames are whose: what the network thread's tag on an event means to the session. */
module Tags {
  import opened Types
  import opened Blobs
  import opened Session
  import opened SessionInv
  import opened Ownership
  import opened Net
  import opened System

  lemma NothingLeft(n: Tables)
    ensures Replay(n, []) == n
  {
  }

  /** With nothing on its way to the network thread, a connection is tagged with its owner. */
  lemma TagIsOwner(y: Sys, c: ConnId, p: PeerId)
    requires SysInv(y) && OnTheWay(y) == [] && c in y.net.conns && p != 0
    ensures y.net.conns[c].peer == p <==> Owns(y.sim.clients, p, c)
  {
    hide Inv, Safe, AllBelow, Numbered, AcceptsFresh, ClosedGone, Inverse;
    NothingLeft(y.net);
    assert Replay(y.net, OnTheWay(y)) == y.net;
    OwnsIs(y.sim.clients, p, c);
  }

  lemma OwnsIs(clients: map<PeerId, Client>, p: PeerId, c: ConnId)
    ensures Owns(clients, p, c) <==> p in Conns(clients) && Conns(clients)[p] == c
  {
  }

  lemma OwnerAnswers(s: State, c: ConnId, tag: PeerId, p: PeerId)
    requires Inv(s) && forall q :: q != 0 ==> (tag == q <==> Owns(s.clients, q, c))
    ensures FrameClient(s, c, tag) == Some(p) <==> Owns(s.clients, p, c)
    ensures Leaver(s, Net(TcpClosed(c, tag))) == Some(p) <==> Owns(s.clients, p, c)
  {
    NoZeroOwner(s, c);
    if tag != 0 {
      assert Owns(s.clients, tag, c);
      OwnerOfIs(s, c, tag);
    }
  }

  lemma NoZeroOwner(s: State, c: ConnId)
    requires Inv(s)
    ensures !Owns(s.clients, 0, c)
  {
  }

  lemma OwnerOfIs(s: State, c: ConnId, p: PeerId)
    requires Inv(s) && Owns(s.clients, p, c)
    ensures forall q :: Owns(s.clients, q, c) ==> q == p
  {
  }

  /** A frame read when the network thread has caught up is queued as it is, behind what was
      read before, under a tag by which the session takes it for the word of the client that
      owns the connection and of nobody else; with 8192 events waiting the connection is
      closed instead. */
  lemma FrameReachesOwner(y: Sys, c: ConnId, m: InMsg, p: PeerId)
    requires SysInv(y) && OnTheWay(y) == [] && c in y.net.conns
    ensures var z := Next(y, NetFrame(c, m));
            && z.sim == y.sim && z.outbound == y.outbound && z.unsent == y.unsent
            && if |y.inbound| < 8192 then
                 var tag := y.net.conns[c].peer;
                 && z.net == y.net && z.inbound == y.inbound + [TcpFrame(c, tag, m)]
                 && (FrameClient(y.sim, c, tag) == Some(p) <==> Owns(y.sim.clients, p, c))
               else z.inbound == y.inbound && z.net.conns == y.net.conns - {c} && forall q :: q in z.net.peerToConn ==> z.net.peerToConn[q] != c
  {
    hide Inv, Safe, AllBelow, Numbered, AcceptsFresh, ClosedGone, Agreement;
    forall q | q != 0 ensures y.net.conns[c].peer == q <==> Owns(y.sim.clients, q, c) { TagIsOwner(y, c, q); }
    OwnerAnswers(y.sim, c, y.net.conns[c].peer, p);
  }

  /** A connection that closes is reported under a tag by which the session removes the client
      that owns it and nobody else. */
  lemma HangupReachesOwner(y: Sys, c: ConnId, p: PeerId)
    requires SysInv(y) && OnTheWay(y) == [] && c in y.net.conns && |y.inbound| < 8192
    ensures var z := Next(y, NetHangup(c)); var tag := y.net.conns[c].peer;
            && z.sim == y.sim && z.inbound == y.inbound + [TcpClosed(c, tag)] && z.net.conns == y.net.conns - {c}
            && (Leaver(y.sim, Net(TcpClosed(c, tag))) == Some(p) <==> Owns(y.sim.clients, p, c))
  {
    hide Inv, Safe, AllBelow, Numbered, AcceptsFresh, ClosedGone, Agreement;
    forall q | q != 0 ensures y.net.conns[c].peer == q <==> Owns(y.sim.clients, q, c) { TagIsOwner(y, c, q); }
    OwnerAnswers(y.sim, c, y.net.conns[c].peer, p);
  }
}
