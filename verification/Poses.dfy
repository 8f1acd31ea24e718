/** Who is sent a pose: the clients within interest, and nobody else. */
module Poses {
  import opened Bytes
  import opened Blobs
  import opened RateLimit
  import opened Types
  import opened Session
  import opened SessionInv
  import opened Ownership
  import opened SessionFacts
  import opened Messages
  import opened Posts

  /** Two places within interest of each other: no limit, or different known locations, or at
      most the limit apart. */
  predicate Near(limit: real, a: Place, b: Place) {
    limit > 0.0 && (a.location == 0 || b.location == 0 || a.location == b.location) ==>
      (a.x - b.x) * (a.x - b.x) + (a.y - b.y) * (a.y - b.y) + (a.z - b.z) * (a.z - b.z) <= limit * limit
  }

  lemma NearSymmetric(limit: real, a: Place, b: Place)
    ensures Near(limit, a, b) == Near(limit, b, a)
    ensures InInterest(a, true, b, true, limit) == InInterest(b, true, a, true, limit)
  {
    NearIs(limit, a, b);
    NearIs(limit, b, a);
    Apart(a.x, b.x);
    Apart(a.y, b.y);
    Apart(a.z, b.z);
  }

  lemma Apart(x: real, y: real)
    ensures (x - y) * (x - y) == (y - x) * (y - x)
  {
  }

  lemma NearIs(limit: real, a: Place, b: Place)
    ensures InInterest(a, true, b, true, limit) == Near(limit, a, b)
  {
  }

  /** Raising a positive limit, or lifting it, loses nobody. */
  lemma NearGrows(limit: real, more: real, a: Place, b: Place)
    requires Near(limit, a, b) && (more <= 0.0 || 0.0 < limit <= more)
    ensures Near(more, a, b)
  {
    if more > 0.0 {
      Squares(limit, more);
    }
  }

  lemma Squares(x: real, y: real)
    requires 0.0 < x <= y
    ensures x * x <= y * y
  {
    assert x * x <= x * y;
  }

  // ---------------------------------------------------------------- the relay

  /** The bound clients other than `p` that are within interest of `place`. */
  function Receivers(s: State, p: PeerId, place: Place): set<PeerId> {
    set q | q in s.clients && q != p && s.clients[q].udpBound && Near(s.cfg.interestUu, place, s.clients[q].lastPose.place)
  }

  /** Those of them that are bound to one address. */
  function BoundAt(s: State, qs: set<PeerId>, a: Addr): set<PeerId> {
    set q | q in qs && q in s.clients && s.clients[q].udpAddr == a
  }

  /** Each of `qs` is sent one copy of `m` at its address, and nobody else is sent anything. */
  ghost predicate OneDatagramEach(s: State, cmds: seq<Cmd>, qs: set<PeerId>, m: OutMsg) {
    && (forall a :: Count(cmds, UdpSend(a, m)) == |BoundAt(s, qs, a)|)
    && |cmds| == |qs|
  }

  lemma VisitPose(s: State, cs: map<PeerId, Client>, p: PeerId, pose: Pose, q: PeerId)
    requires Faces(s.clients) && p in s.clients && p in cs
    requires cs == s.clients[p := cs[p]] && cs[p].lastPose == pose && cs[p].havePose
    ensures Visit(cs, s.cfg.interestUu, PoseToInterested(p, pose), q)
         == if q in Receivers(s, p, pose.place) then [UdpSend(s.clients[q].udpAddr, PlayerPose(pose))] else []
  {
    hide InInterest, Near;
    if q in s.clients { NearIs(s.cfg.interestUu, pose.place, s.clients[q].lastPose.place); }
  }

  lemma VisitActor(s: State, cs: map<PeerId, Client>, p: PeerId, actor: ActorPose, q: PeerId)
    requires Faces(s.clients) && p in s.clients && p in cs
    requires cs == s.clients[p := cs[p]]
    ensures Visit(cs, s.cfg.interestUu, ActorToInterested(p, actor), q)
         == if q in Receivers(s, p, actor.place) then [UdpSend(s.clients[q].udpAddr, ActorPoseMsg(actor))] else []
  {
    hide InInterest, Near;
    if q in s.clients { NearIs(s.cfg.interestUu, actor.place, s.clients[q].lastPose.place); }
  }

  /** A loop that queues one datagram for each of `qs`. */
  lemma DatagramsOnce(s: State, cs: map<PeerId, Client>, u: real, f: Fan, order: seq<PeerId>, qs: set<PeerId>, m: OutMsg)
    requires Single(f) && ValidOrder(order, s.clients.Keys) && qs <= s.clients.Keys
    requires forall q :: Visit(cs, u, f, q) == if q in qs then [UdpSend(s.clients[q].udpAddr, m)] else []
    ensures OneDatagramEach(s, FanOut(cs, u, f, order), qs, m)
  {
    hide Visit, FanOut, Count, Receivers;
    forall a ensures Count(FanOut(cs, u, f, order), UdpSend(a, m)) == |BoundAt(s, qs, a)| {
      FanCount(cs, u, f, order, UdpSend(a, m));
      forall q ensures q in Hit1(cs, u, f, order, UdpSend(a, m)) <==> q in BoundAt(s, qs, a) {
        assert q in order <==> q in s.clients;
      }
      assert Hit1(cs, u, f, order, UdpSend(a, m)) == BoundAt(s, qs, a);
    }
    FanCount(cs, u, f, order, UdpSend(0, m));
    assert Any1(cs, u, f, order) == qs;
  }

  /** A pose from the address client `p` is bound to, within its 30 a second: one copy, under
      the sender's id, to every other bound client within interest of it, and nothing else. */
  lemma PoseRelayed(s: State, p: PeerId, raw: Pose, from: Addr, t: real, o: Oracle)
    requires Inv(s) && ValidOrder(o.order, s.clients.Keys) && from in s.udpIndex && s.udpIndex[from] == p
    ensures var cmds := (InvAsm(s); Apply(s, Step(Net(UdpDatagram(from, InPlayerPose(raw))), t, o)).cmds);
            if AllowRate(s.rates.pose, p, t, 30).1
            then OneDatagramEach(s, cmds, Receivers(s, p, raw.place), PlayerPose(raw.(peerId := p)))
            else cmds == []
  {
    hide Inv, AllowRate, FanOut, OneDatagramEach, Visit, ValidOrder;
    InvAsm(s);
    IndexedLive(s, from);
    FacesOf(s);
    if AllowRate(s.rates.pose, p, t, 30).1 {
      var pose := raw.(peerId := p);
      var c := s.clients[p];
      var cs := s.clients[p := c.(lastSeen := t, posesIn := c.posesIn + 1, lastPose := pose, havePose := true)];
      PosePost(s, p, raw, from, t, o);
      forall q ensures Visit(cs, s.cfg.interestUu, PoseToInterested(p, pose), q)
                    == if q in Receivers(s, p, pose.place) then [UdpSend(s.clients[q].udpAddr, PlayerPose(pose))] else []
      {
        VisitPose(s, cs, p, pose, q);
      }
      DatagramsOnce(s, cs, s.cfg.interestUu, PoseToInterested(p, pose), o.order, Receivers(s, p, raw.place), PlayerPose(pose));
      PoseCmds(s, p, raw, from, t, o, cs);
    }
  }

  lemma PoseCmds(s: State, p: PeerId, raw: Pose, from: Addr, t: real, o: Oracle, cs: map<PeerId, Client>)
    requires Inv(s) && from in s.udpIndex && s.udpIndex[from] == p && AllowRate(s.rates.pose, p, t, 30).1 && p in s.clients
    requires var c := s.clients[p]; cs == s.clients[p := c.(lastSeen := t, posesIn := c.posesIn + 1, lastPose := raw.(peerId := p), havePose := true)]
    ensures (InvAsm(s); Apply(s, Step(Net(UdpDatagram(from, InPlayerPose(raw))), t, o)).cmds)
         == FanOut(cs, s.cfg.interestUu, PoseToInterested(p, raw.(peerId := p)), o.order)
  {
    hide Inv, AllowRate, FanOut;
    InvAsm(s);
    IndexedLive(s, from);
    var c := s.clients[p];
    assert s.clients[p := c.(lastSeen := t)][p := cs[p]] == cs;
  }

  /** An actor pose counts only from the host, and goes to every other bound client within
      interest of the actor. */
  lemma ActorRelayed(s: State, p: PeerId, actor: ActorPose, from: Addr, t: real, o: Oracle)
    requires Inv(s) && ValidOrder(o.order, s.clients.Keys) && from in s.udpIndex && s.udpIndex[from] == p
    ensures var cmds := (InvAsm(s); Apply(s, Step(Net(UdpDatagram(from, InActorPose(actor))), t, o)).cmds);
            if p == s.world.hostPeerId
            then OneDatagramEach(s, cmds, Receivers(s, p, actor.place), ActorPoseMsg(actor))
            else cmds == []
  {
    hide Inv, FanOut, OneDatagramEach, Visit, ValidOrder;
    InvAsm(s);
    IndexedLive(s, from);
    FacesOf(s);
    var cs := s.clients[p := s.clients[p].(lastSeen := t)];
    forall q ensures Visit(cs, s.cfg.interestUu, ActorToInterested(p, actor), q)
                  == if q in Receivers(s, p, actor.place) then [UdpSend(s.clients[q].udpAddr, ActorPoseMsg(actor))] else []
    {
      VisitActor(s, cs, p, actor, q);
    }
    DatagramsOnce(s, cs, s.cfg.interestUu, ActorToInterested(p, actor), o.order, Receivers(s, p, actor.place), ActorPoseMsg(actor));
  }

  /** A pose from an address nobody is bound to goes nowhere. */
  lemma StrayCmds(s: State, m: InMsg, from: Addr, t: real, o: Oracle)
    requires Inv(s) && from !in s.udpIndex && !m.InUdpBind?
    ensures (InvAsm(s); Apply(s, Step(Net(UdpDatagram(from, m)), t, o)).cmds) == []
  {
    hide Inv, FanOut;
    InvAsm(s);
  }

  // ---------------------------------------------------------------- binding

  lemma VisitCatch(cs: map<PeerId, Client>, u: real, p: PeerId, from: Addr, q: PeerId)
    requires Faces(cs) && p in cs && cs[p].udpBound && cs[p].udpAddr == from
    ensures Visit(cs, u, PosesOfOthers(p), q) == if q in cs && q != p then [UdpSend(from, PlayerPose(cs[q].lastPose))] else []
  {
  }

  /** A client that binds is sent the last pose of each of the others once, at its new address;
      a bind with any other token is answered with nothing. */
  lemma BindAnswered(s: State, p: PeerId, token: Word32, from: Addr, t: real, o: Oracle)
    requires Inv(s) && ValidOrder(o.order, s.clients.Keys)
    ensures var cmds := (InvAsm(s); Apply(s, Step(Net(UdpDatagram(from, InUdpBind(p, token))), t, o)).cmds);
            if p in s.clients && token == s.clients[p].udpToken
            then
              && (forall q :: q in s.clients && q != p ==> Count(cmds, UdpSend(from, PlayerPose(s.clients[q].lastPose))) == 1)
              && |cmds| == |s.clients| - 1
            else cmds == []
  {
    hide Inv, FanOut, Count, Apply;
    if p in s.clients && token == s.clients[p].udpToken {
      var cs := BoundClients(s, p, token, from, t, o);
      LastPosesOnce(cs, s.cfg.interestUu, p, from, o.order);
    } else {
      BindRefused(s, p, token, from, t, o);
    }
  }

  lemma LastPosesOnce(cs: map<PeerId, Client>, u: real, p: PeerId, from: Addr, order: seq<PeerId>)
    requires Faces(cs) && p in cs && cs[p].udpBound && cs[p].udpAddr == from && ValidOrder(order, cs.Keys)
    ensures var cmds := FanOut(cs, u, PosesOfOthers(p), order);
            && (forall q :: q in cs && q != p ==> Count(cmds, UdpSend(from, PlayerPose(cs[q].lastPose))) == 1)
            && |cmds| == |cs| - 1
  {
    hide FanOut, Visit, Count;
    var f := PosesOfOthers(p);
    forall q ensures Visit(cs, u, f, q) == if q in cs && q != p then [UdpSend(from, PlayerPose(cs[q].lastPose))] else [] {
      VisitCatch(cs, u, p, from, q);
    }
    forall q | q in cs && q != p ensures Count(FanOut(cs, u, f, order), UdpSend(from, PlayerPose(cs[q].lastPose))) == 1 {
      var x := UdpSend(from, PlayerPose(cs[q].lastPose));
      FanCount(cs, u, f, order, x);
      assert forall r :: r in cs && r != q ==> cs[r].lastPose.peerId != cs[q].lastPose.peerId;
      assert Hit1(cs, u, f, order, x) == {q};
    }
    FanCount(cs, u, f, order, CloseConn(0));
    assert Any1(cs, u, f, order) == cs.Keys - {p};
  }

  lemma BindRefused(s: State, p: PeerId, token: Word32, from: Addr, t: real, o: Oracle)
    requires Inv(s) && !(p in s.clients && token == s.clients[p].udpToken)
    ensures (InvAsm(s); Apply(s, Step(Net(UdpDatagram(from, InUdpBind(p, token))), t, o)).cmds) == []
  {
    hide Inv, FanOut;
    InvAsm(s);
  }

  lemma BoundClients(s: State, p: PeerId, token: Word32, from: Addr, t: real, o: Oracle) returns (cs: map<PeerId, Client>)
    requires Inv(s) && p in s.clients && token == s.clients[p].udpToken
    ensures cs == s.clients[p := s.clients[p].(udpAddr := from, udpBound := true, lastSeen := t)] && Faces(cs)
    ensures (InvAsm(s); Apply(s, Step(Net(UdpDatagram(from, InUdpBind(p, token))), t, o)).cmds)
         == FanOut(cs, s.cfg.interestUu, PosesOfOthers(p), o.order)
  {
    hide Inv, FanOut;
    InvAsm(s);
    FacesOf(s);
    FacesAt(s, p);
    cs := s.clients[p := s.clients[p].(udpAddr := from, udpBound := true, lastSeen := t)];
    BindPost(s, p, token, from, t, o);
  }
}
