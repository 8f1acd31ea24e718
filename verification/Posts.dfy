/** What every step leaves behind, event by event: the whole state of the session, with
    everything that is not named unchanged. */
module Posts {
  import opened Bytes
  import opened Blobs
  import opened RateLimit
  import opened Types
  import opened Session
  import opened SessionInv
  import opened Ownership
  import opened SessionFacts
  import opened Admission
  import opened Messages

  ghost function PostOf(s: State, step: Step): State
    requires Inv(s)
  {
    InvAsm(s);
    Apply(s, step).state
  }

  /** The session with client `p` heard from at `t`. */
  function Heard(s: State, p: PeerId, t: real): State
    requires p in s.clients
  {
    s.(clients := s.clients[p := s.clients[p].(lastSeen := t)])
  }

  lemma InClients(s: State, conn: ConnId, peer: PeerId, p: PeerId)
    requires SpeaksFor(s, conn, peer, p)
    ensures p in s.clients
  {
  }

  // ---------------------------------------------------------------- live clients over TCP

  /** A message with a bad header, or one that belongs on UDP, is not even a sign of life. */
  lemma IgnoredPost(s: State, conn: ConnId, peer: PeerId, p: PeerId, m: InMsg, t: real, o: Oracle)
    requires Inv(s) && SpeaksFor(s, conn, peer, p)
    requires m.BadHeader? || m.InUdpBind? || m.InPlayerPose? || m.InActorPose?
    ensures PostOf(s, Said(conn, peer, m, t, o)) == s && (InvAsm(s); Apply(s, Said(conn, peer, m, t, o)).cmds) == []
  {
    hide Inv, SpeaksFor, Apply;
    InClients(s, conn, peer, p);
    ClientFrame(s, conn, peer, p, m, t, o);
  }

  /** Messages that only prove the client alive. */
  lemma QuietPost(s: State, conn: ConnId, peer: PeerId, p: PeerId, m: InMsg, t: real, o: Oracle)
    requires Inv(s) && SpeaksFor(s, conn, peer, p)
    requires m.InHeartbeat? || m.InKick? || m.InTeleport? || m.InSessionQuery? || m.InOther?
    ensures p in s.clients && PostOf(s, Said(conn, peer, m, t, o)) == Heard(s, p, t)
  {
    hide Inv, SpeaksFor, Apply, Broadcast;
    InClients(s, conn, peer, p);
    ClientFrame(s, conn, peer, p, m, t, o);
  }

  lemma ChatPost(s: State, conn: ConnId, peer: PeerId, p: PeerId, text: string, t: real, o: Oracle)
    requires Inv(s) && SpeaksFor(s, conn, peer, p)
    ensures p in s.clients
    ensures PostOf(s, Said(conn, peer, InChat(text), t, o))
            == Heard(s, p, t).(rates := s.rates.(chat := AllowRate(s.rates.chat, p, t, 4).0))
  {
    hide Inv, SpeaksFor, Apply, Broadcast, AllowRate;
    InClients(s, conn, peer, p);
    ClientFrame(s, conn, peer, p, InChat(text), t, o);
  }

  lemma HitPost(s: State, conn: ConnId, peer: PeerId, p: PeerId, m: InMsg, t: real, o: Oracle)
    requires Inv(s) && SpeaksFor(s, conn, peer, p) && m.InHit?
    ensures p in s.clients
    ensures PostOf(s, Said(conn, peer, m, t, o))
            == if s.cfg.pvp then Heard(s, p, t).(rates := s.rates.(hit := AllowRate(s.rates.hit, p, t, 24).0)) else Heard(s, p, t)
  {
    hide Inv, SpeaksFor, Apply, Broadcast, AllowRate, ClampHitDamage;
    InClients(s, conn, peer, p);
    ClientFrame(s, conn, peer, p, m, t, o);
  }

  /** A world snapshot counts only from the host: hour, days, weather and place, the place
      keeping its location when none is given. */
  lemma SnapshotPost(s: State, conn: ConnId, peer: PeerId, p: PeerId, hour: real, days: real, weather: nat, place: Place, t: real, o: Oracle)
    requires Inv(s) && SpeaksFor(s, conn, peer, p)
    ensures p in s.clients
    ensures PostOf(s, Said(conn, peer, InWorldSnapshot(hour, days, weather, place), t, o))
            == if p != s.world.hostPeerId then Heard(s, p, t)
            else Heard(s, p, t).(
              world := s.world.(gameHour := hour, gameDaysPassed := days, weatherFormId := weather,
                                host := Place(if place.location != 0 then place.location else s.world.host.location, place.x, place.y, place.z)),
              worldDirty := true)
    ensures (InvAsm(s); Apply(s, Said(conn, peer, InWorldSnapshot(hour, days, weather, place), t, o)).cmds) == []
  {
    hide Inv, SpeaksFor, Apply;
    InClients(s, conn, peer, p);
    ClientFrame(s, conn, peer, p, InWorldSnapshot(hour, days, weather, place), t, o);
  }

  /** A second Hello: a new token, and the UDP binding is gone. */
  lemma AgainPost(s: State, conn: ConnId, peer: PeerId, p: PeerId, h: Hello, t: real, o: Oracle)
    requires Inv(s) && SpeaksFor(s, conn, peer, p)
    ensures p in s.clients
    ensures var c, token := s.clients[p], NextToken(s.tokenSeed);
            PostOf(s, Said(conn, peer, InHello(h), t, o))
            == s.(tokenSeed := token,
               clients := s.clients[p := c.(lastSeen := t, udpToken := token, udpBound := false, udpAddr := if c.udpBound then 0 else c.udpAddr)],
               udpIndex := if c.udpBound then s.udpIndex - {c.udpAddr} else s.udpIndex)
  {
    hide Inv, SpeaksFor, Apply;
    InClients(s, conn, peer, p);
    ClientFrame(s, conn, peer, p, InHello(h), t, o);
    CachedAt(s, p);
    var c, token := s.clients[p], NextToken(s.tokenSeed);
    assert s.players[c.key := RecOf(s.players, c.key)] == s.players;
    assert s.clients[p := c.(lastSeen := t)][p := c.(lastSeen := t, udpToken := token)] == s.clients[p := c.(lastSeen := t, udpToken := token)];
  }

  /** A chunk: the assembly takes it; a finished blob goes to client and record, which is marked. */
  lemma ChunkPost(s: State, conn: ConnId, peer: PeerId, p: PeerId, d: seq<Byte>, t: real, o: Oracle)
    requires Inv(s) && SpeaksFor(s, conn, peer, p)
    ensures p in s.clients && ValidAssembly(AsmOf(s.invAsm, p)) && s.clients[p].key in s.players
    ensures var s1, c := Heard(s, p, t).(rates := s.rates.(blob := AllowRate(s.rates.blob, p, t, 64).0)), s.clients[p];
            var r := Accept(AsmOf(s.invAsm, p), d);
            PostOf(s, Said(conn, peer, InBlob(Inventory, d), t, o))
            == (if !AllowRate(s.rates.blob, p, t, 64).1 then s1
             else if !r.1.Complete? then s1.(invAsm := s.invAsm[p := r.0])
             else s1.(invAsm := s.invAsm - {p}, dirty := s.dirty + {c.key},
                      clients := s.clients[p := c.(lastSeen := t, inventory := r.1.blob)],
                      players := s.players[c.key := s.players[c.key].(inventory := r.1.blob)]))
  {
    hide Inv, SpeaksFor, Apply, Broadcast, AllowRate, Accept;
    InClients(s, conn, peer, p);
    InvAsm(s);
    ClientFrame(s, conn, peer, p, InBlob(Inventory, d), t, o);
    CachedAt(s, p);
    KeyAt(s, p);
  }

  lemma LookPost(s: State, conn: ConnId, peer: PeerId, p: PeerId, d: seq<Byte>, t: real, o: Oracle)
    requires Inv(s) && SpeaksFor(s, conn, peer, p)
    ensures p in s.clients && ValidAssembly(AsmOf(s.appearAsm, p)) && s.clients[p].key in s.players
    ensures var s1, c := Heard(s, p, t).(rates := s.rates.(blob := AllowRate(s.rates.blob, p, t, 64).0)), s.clients[p];
            var r := Accept(AsmOf(s.appearAsm, p), d);
            PostOf(s, Said(conn, peer, InBlob(Appearance, d), t, o))
            == (if !AllowRate(s.rates.blob, p, t, 64).1 then s1
             else if !r.1.Complete? then s1.(appearAsm := s.appearAsm[p := r.0])
             else s1.(appearAsm := s.appearAsm - {p}, dirty := s.dirty + {c.key},
                      clients := s.clients[p := c.(lastSeen := t, appearance := r.1.blob)],
                      players := s.players[c.key := s.players[c.key].(appearance := r.1.blob)]))
  {
    hide Inv, SpeaksFor, Apply, Broadcast, AllowRate, Accept;
    InClients(s, conn, peer, p);
    InvAsm(s);
    ClientFrame(s, conn, peer, p, InBlob(Appearance, d), t, o);
    CachedAt(s, p);
    KeyAt(s, p);
  }

  lemma KeyAt(s: State, p: PeerId)
    requires Inv(s) && p in s.clients
    ensures s.players[s.clients[p].key].key == s.clients[p].key
  {
  }

  // ---------------------------------------------------------------- UDP

  /** A bind that carries the client's token: the old binding goes, the new one is indexed. */
  lemma BindPost(s: State, p: PeerId, token: Word32, from: Addr, t: real, o: Oracle)
    requires Inv(s)
    ensures var step := Step(Net(UdpDatagram(from, InUdpBind(p, token))), t, o);
            PostOf(s, step)
            == if p in s.clients && token == s.clients[p].udpToken
            then s.(clients := s.clients[p := s.clients[p].(udpAddr := from, udpBound := true, lastSeen := t)],
                    udpIndex := (if s.clients[p].udpBound then s.udpIndex - {s.clients[p].udpAddr} else s.udpIndex)[from := p])
            else s
  {
    hide Inv, Broadcast;
    InvAsm(s);
    if p in s.clients {
      FacesAt(s, p);
      var c := s.clients[p];
      assert s.clients[p := c.(udpBound := false, udpAddr := 0)][p := c.(udpAddr := from, udpBound := true, lastSeen := t)]
          == s.clients[p := c.(udpAddr := from, udpBound := true, lastSeen := t)];
    }
  }

  /** A pose from the address client `p` is bound to: client and record take it, under the
      client's own id; if it is the host's, the world's host place follows it. */
  lemma PosePost(s: State, p: PeerId, raw: Pose, from: Addr, t: real, o: Oracle)
    requires Inv(s) && from in s.udpIndex && s.udpIndex[from] == p
    ensures p in s.clients && s.clients[p].key in s.players
    ensures var c, ok := s.clients[p], AllowRate(s.rates.pose, p, t, 30).1;
            var rec, s1 := s.players[c.key], Heard(s, p, t).(rates := s.rates.(pose := AllowRate(s.rates.pose, p, t, 30).0));
            PostOf(s, Step(Net(UdpDatagram(from, InPlayerPose(raw))), t, o))
            == (if !ok then s1
             else s1.(clients := s.clients[p := c.(lastSeen := t, posesIn := c.posesIn + 1, lastPose := raw.(peerId := p), havePose := true)],
                      players := s.players[c.key := rec.(havePose := true, place := raw.place, yaw := raw.yaw)],
                      dirty := s.dirty + {c.key},
                      world := if p != s.world.hostPeerId then s.world
                               else s.world.(host := Place(if raw.place.location != 0 then raw.place.location else s.world.host.location,
                                                           raw.place.x, raw.place.y, raw.place.z)),
                      worldDirty := s.worldDirty || p == s.world.hostPeerId))
  {
    hide Inv, Broadcast, AllowRate;
    InvAsm(s);
    IndexedLive(s, from);
    CachedAt(s, p);
    KeyAt(s, p);
  }

  lemma IndexedLive(s: State, from: Addr)
    requires Inv(s) && from in s.udpIndex
    ensures s.udpIndex[from] in s.clients && FindByUdp(s, from) == (s, Some(s.udpIndex[from]))
  {
  }

  /** Everything else that arrives by UDP: a sign of life from a bound client, or nothing. */
  lemma DatagramPost(s: State, m: InMsg, from: Addr, t: real, o: Oracle)
    requires Inv(s) && !m.InUdpBind? && !m.InPlayerPose?
    ensures m.InActorPose? && from in s.udpIndex ==> s.udpIndex[from] in s.clients
    ensures PostOf(s, Step(Net(UdpDatagram(from, m)), t, o))
            == if m.InActorPose? && from in s.udpIndex then Heard(s, s.udpIndex[from], t) else s
  {
    hide Inv, Broadcast;
    InvAsm(s);
    if from in s.udpIndex { IndexedLive(s, from); }
  }

  lemma StrayPose(s: State, raw: Pose, from: Addr, t: real, o: Oracle)
    requires Inv(s) && from !in s.udpIndex
    ensures PostOf(s, Step(Net(UdpDatagram(from, InPlayerPose(raw))), t, o)) == s
  {
    hide Inv, Broadcast;
    InvAsm(s);
  }

  // ---------------------------------------------------------------- connections

  lemma AcceptPost(s: State, conn: ConnId, addr: Addr, t: real, o: Oracle)
    requires Inv(s)
    ensures PostOf(s, Step(Net(TcpAccept(conn, addr)), t, o)) == s.(pending := s.pending + [PendingTcp(conn, addr, t)])
  {
    hide Inv;
  }

  lemma QueryPost(s: State, conn: ConnId, peer: PeerId, i: nat, t: real, o: Oracle)
    requires Inv(s) && Stranger(s, conn, peer, i)
    ensures PostOf(s, Said(conn, peer, InSessionQuery, t, o))
            == s.(rates := s.rates.(query := AllowRate(s.rates.query, s.pending[i].addr, t, 4).0))
  {
    hide Inv, AllowRate, Apply;
    StrangerFrame(s, conn, peer, i, InSessionQuery, t, o);
    var s1 := s.(rates := s.rates.(query := AllowRate(s.rates.query, s.pending[i].addr, t, 4).0));
    InvFrame(s, s1);
    HostLookupIdle(s1, o);
  }

  /** Strangers are heard on two matters only. */
  lemma StrangerPost(s: State, conn: ConnId, peer: PeerId, i: nat, m: InMsg, t: real, o: Oracle)
    requires Inv(s) && Stranger(s, conn, peer, i) && !m.InSessionQuery? && !m.InHello?
    ensures PostOf(s, Said(conn, peer, m, t, o)) == s
  {
    hide Inv, Apply;
    StrangerFrame(s, conn, peer, i, m, t, o);
  }

  // ---------------------------------------------------------------- joining

  /** The record a Hello finds or makes: the name is filled in once, nothing else changes. */
  function Enrolled(s: State, h: Hello): PlayerRec {
    var rec := RecOf(s.players, SanitizeKey(h.playerKey));
    rec.(key := SanitizeKey(h.playerKey), name := if rec.name != "" then rec.name else if h.name != "" then h.name else "player")
  }

  /** What the Hello of the host writes into the world. */
  function HostsWorld(w: World, h: Hello): World {
    w.(gameHour := h.gameHour, gameDaysPassed := h.gameDaysPassed, weatherFormId := h.weatherFormId,
       host := Place(if h.place.location != 0 then h.place.location else w.host.location, h.place.x, h.place.y, h.place.z))
  }

  ghost predicate LetIn(s: State, conn: ConnId, peer: PeerId, i: nat, h: Hello, t: real) {
    Stranger(s, conn, peer, i) && AllowRate(s.rates.hello, s.pending[i].addr, t, 2).1 && Admissible(s, h)
  }

  /** A new client: the next peer id, the record's last pose or the spawn, the host role if it
      is free. */
  lemma NewPost(s: State, conn: ConnId, peer: PeerId, i: nat, h: Hello, t: real, o: Oracle)
    requires Inv(s) && LetIn(s, conn, peer, i, h, t) && (forall q :: !HasKey(s.clients, q, SanitizeKey(h.playerKey)))
    ensures var k, rec, p, token := SanitizeKey(h.playerKey), Enrolled(s, h), s.nextPeer, NextToken(s.tokenSeed);
            var host := if s.world.hostPeerId == 0 then p else s.world.hostPeerId;
            var w := s.world.(created := true, hostPeerId := host);
            PostOf(s, Said(conn, peer, InHello(h), t, o))
            == s.(clients := s.clients[p := Client(conn, s.pending[i].addr, 0, false, token, k, if h.name != "" then h.name else rec.name, t, 0,
                            if rec.havePose then Pose(p, rec.place, rec.yaw, 0.0, 0.0, 0.0, 0.0, 0) else Pose(p, s.world.spawn, 0.0, 0.0, 0.0, 0.0, 0.0, 0),
                            true, rec.appearance, rec.inventory)],
               players := s.players[k := rec], nextPeer := p + 1, tokenSeed := token, pending := s.pending[..i] + s.pending[i + 1..],
               rates := s.rates.(hello := AllowRate(s.rates.hello, s.pending[i].addr, t, 2).0),
               world := if host == p then HostsWorld(w, h) else w,
               worldDirty := s.worldDirty || !s.world.created || host == p,
               modHash := if host == p && s.modHash == 0 then h.modHash else s.modHash)
  {
    hide Inv, AllowRate, SanitizeKey, Admissible, Broadcast, Gate, Apply, Admit, Without, HasKey, NextToken, Enrolled, HostsWorld, ByKey;
    StrangerFrame(s, conn, peer, i, InHello(h), t, o);
    StrangerFound(s, conn, peer, i);
    var s1 := s.(rates := s.rates.(hello := AllowRate(s.rates.hello, s.pending[i].addr, t, 2).0));
    InvFrame(s, s1);
    GateIffAdmissible(s, h, o);
    GateIgnoresRates(s, s1.rates, h, o);
    HostLookupIdle(s1, o);
    if h.requireHost { LateFallbackUnreachable(s1, h, o); }
    NextIsNew(s);
    CutOut(s, conn, i);
    SameEnrolled(s, s1, h);
    AdmitNewIs(s1, conn, s.pending[i].addr, h, t, o);
  }

  lemma SameEnrolled(s: State, s1: State, h: Hello)
    requires s1.players == s.players
    ensures Enrolled(s1, h) == Enrolled(s, h)
  {
  }

  /** The pending entry that is handed over is cut out. */
  lemma CutOut(s: State, conn: ConnId, i: nat)
    requires Inv(s) && i < |s.pending| && s.pending[i].connId == conn
    ensures Without(s.pending, conn) == s.pending[..i] + s.pending[i + 1..]
  {
    CutOutAt(s.pending, conn, i);
  }

  lemma {:induction false} CutOutAt(pending: seq<PendingTcp>, conn: ConnId, i: nat)
    requires i < |pending| && pending[i].connId == conn
    requires forall a, b :: 0 <= a < b < |pending| ==> pending[a].connId != pending[b].connId
    ensures Without(pending, conn) == pending[..i] + pending[i + 1..]
  {
    var n := |pending| - 1;
    if i < n {
      CutOutAt(pending[..n], conn, i);
      assert pending[..n][..i] == pending[..i];
      assert pending[..n][i + 1..] + [pending[n]] == pending[i + 1..];
    } else {
      CutNothing(pending[..n], conn);
      assert pending[..i] + pending[i + 1..] == pending[..n];
    }
  }

  lemma {:induction false} CutNothing(pending: seq<PendingTcp>, conn: ConnId)
    requires forall a :: 0 <= a < |pending| ==> pending[a].connId != conn
    ensures Without(pending, conn) == pending
  {
    if pending != [] {
      CutNothing(pending[..|pending| - 1], conn);
    }
  }

  lemma EnrollIs(s: State, h: Hello)
    ensures Enroll(s, h) == s.(players := s.players[SanitizeKey(h.playerKey) := Enrolled(s, h)], world := s.world.(created := true),
                               worldDirty := s.worldDirty || !s.world.created)
  {
    hide SanitizeKey;
  }

  lemma HostHelloIs(s: State, p: PeerId, h: Hello)
    ensures HostHello(s, p, h)
         == if p != s.world.hostPeerId then s
            else s.(world := HostsWorld(s.world, h), worldDirty := true, modHash := if s.modHash == 0 then h.modHash else s.modHash)
  {
  }

  lemma AdmitNewIs(s: State, conn: ConnId, addr: Addr, h: Hello, t: real, o: Oracle)
    requires ByKey(s.clients, SanitizeKey(h.playerKey)).None? && !(h.requireHost && s.world.hostPeerId == 0) && s.nextPeer != 0
    ensures var k, rec, p, token := SanitizeKey(h.playerKey), Enrolled(s, h), s.nextPeer, NextToken(s.tokenSeed);
            var host := if s.world.hostPeerId == 0 then p else s.world.hostPeerId;
            var w := s.world.(created := true, hostPeerId := host);
            Admit(s, conn, addr, h, t, o).state
            == s.(clients := s.clients[p := Client(conn, addr, 0, false, token, k, if h.name != "" then h.name else rec.name, t, 0,
                            if rec.havePose then Pose(p, rec.place, rec.yaw, 0.0, 0.0, 0.0, 0.0, 0) else Pose(p, s.world.spawn, 0.0, 0.0, 0.0, 0.0, 0.0, 0),
                            true, rec.appearance, rec.inventory)],
               players := s.players[k := rec], nextPeer := p + 1, tokenSeed := token, pending := Without(s.pending, conn),
               world := if host == p then HostsWorld(w, h) else w,
               worldDirty := s.worldDirty || !s.world.created || host == p,
               modHash := if host == p && s.modHash == 0 then h.modHash else s.modHash)
  {
    hide SanitizeKey, Greet, Without, NextToken, Enroll, HostHello, Enrolled, HostsWorld;
    EnrollIs(s, h);
    var k, s1 := SanitizeKey(h.playerKey), Enroll(s, h);
    var s2 := AddClient(s1, conn, addr, h, t).state;
    HostHelloIs(s2.(pending := Without(s.pending, conn)), s.nextPeer, h);
    EnrolledKeeps(s, h);
  }

  lemma EnrolledKeeps(s: State, h: Hello)
    ensures Enrolled(s, h).havePose == RecOf(s.players, SanitizeKey(h.playerKey)).havePose && Enrolled(s, h).key == SanitizeKey(h.playerKey)
    ensures var rec := RecOf(s.players, SanitizeKey(h.playerKey));
            Enrolled(s, h).appearance == rec.appearance && Enrolled(s, h).inventory == rec.inventory
  {
    hide SanitizeKey;
  }

  /** A returning client that is still in the session: its place in it is kept, on the new
      connection, with a new token and without a UDP binding. */
  lemma BackPost(s: State, conn: ConnId, peer: PeerId, i: nat, h: Hello, t: real, o: Oracle, p: PeerId)
    requires Inv(s) && LetIn(s, conn, peer, i, h, t) && HasKey(s.clients, p, SanitizeKey(h.playerKey))
    ensures var k, c, rec, token := SanitizeKey(h.playerKey), s.clients[p], Enrolled(s, h), NextToken(s.tokenSeed);
            var w, hosts := s.world.(created := true), s.world.hostPeerId == p;
            PostOf(s, Said(conn, peer, InHello(h), t, o))
            == s.(clients := s.clients[p := c.(connId := conn, tcpAddr := s.pending[i].addr, lastSeen := t, name := if h.name != "" then h.name else c.name,
                                            udpToken := token, udpBound := false, udpAddr := if c.udpBound then 0 else c.udpAddr)],
               udpIndex := if c.udpBound then s.udpIndex - {c.udpAddr} else s.udpIndex,
               players := s.players[k := rec], tokenSeed := token, pending := s.pending[..i] + s.pending[i + 1..],
               rates := s.rates.(hello := AllowRate(s.rates.hello, s.pending[i].addr, t, 2).0),
               world := if hosts then HostsWorld(w, h) else w,
               worldDirty := s.worldDirty || !s.world.created || hosts,
               modHash := if hosts && s.modHash == 0 then h.modHash else s.modHash)
  {
    hide Inv, AllowRate, SanitizeKey, Admissible, Broadcast, Gate, Apply, Admit, Without, NextToken, Enrolled, HostsWorld, ByKey;
    StrangerFrame(s, conn, peer, i, InHello(h), t, o);
    StrangerFound(s, conn, peer, i);
    var s1 := s.(rates := s.rates.(hello := AllowRate(s.rates.hello, s.pending[i].addr, t, 2).0));
    InvFrame(s, s1);
    GateIffAdmissible(s, h, o);
    GateIgnoresRates(s, s1.rates, h, o);
    HostLookupIdle(s1, o);
    OnlyOne(s, p, SanitizeKey(h.playerKey));
    FacesAt(s, p);
    CachedAt(s, p);
    CutOut(s, conn, i);
    SameEnrolled(s, s1, h);
    AdmitBackIs(s1, conn, s.pending[i].addr, h, t, o, p);
  }

  lemma OnlyOne(s: State, p: PeerId, k: Key)
    requires Inv(s) && HasKey(s.clients, p, k)
    ensures ByKey(s.clients, k) == Some(p)
  {
    assert HasKey(s.clients, ByKey(s.clients, k).value, k);
  }

  lemma AdmitBackIs(s: State, conn: ConnId, addr: Addr, h: Hello, t: real, o: Oracle, p: PeerId)
    requires ByKey(s.clients, SanitizeKey(h.playerKey)) == Some(p) && s.clients[p].havePose
    requires var c := s.clients[p]; c.key in s.players && c.appearance == s.players[c.key].appearance && c.inventory == s.players[c.key].inventory
    ensures var k, c, rec, token := SanitizeKey(h.playerKey), s.clients[p], Enrolled(s, h), NextToken(s.tokenSeed);
            var w, hosts := s.world.(created := true), s.world.hostPeerId == p;
            Admit(s, conn, addr, h, t, o).state
            == s.(clients := s.clients[p := c.(connId := conn, tcpAddr := addr, lastSeen := t, name := if h.name != "" then h.name else c.name,
                                            udpToken := token, udpBound := false, udpAddr := if c.udpBound then 0 else c.udpAddr)],
               udpIndex := if c.udpBound then s.udpIndex - {c.udpAddr} else s.udpIndex,
               players := s.players[k := rec], tokenSeed := token, pending := Without(s.pending, conn),
               world := if hosts then HostsWorld(w, h) else w,
               worldDirty := s.worldDirty || !s.world.created || hosts,
               modHash := if hosts && s.modHash == 0 then h.modHash else s.modHash)
  {
    hide SanitizeKey, Greet, Without, NextToken, Enroll, HostHello, Enrolled, HostsWorld, Reattach;
    EnrollIs(s, h);
    EnrolledKeeps(s, h);
    ReattachIs(Enroll(s, h), p, conn, addr, h, t);
    HostHelloIs(Reattach(Enroll(s, h), p, conn, addr, h, t).state.(pending := Without(s.pending, conn)), p, h);
  }

  lemma ReattachIs(s: State, p: PeerId, conn: ConnId, addr: Addr, h: Hello, t: real)
    requires p in s.clients && s.clients[p].havePose && s.clients[p].key == SanitizeKey(h.playerKey)
    requires var c, rec := s.clients[p], RecOf(s.players, SanitizeKey(h.playerKey)); c.appearance == rec.appearance && c.inventory == rec.inventory
    ensures var c, token := s.clients[p], NextToken(s.tokenSeed);
            Reattach(s, p, conn, addr, h, t).state
            == s.(clients := s.clients[p := c.(connId := conn, tcpAddr := addr, lastSeen := t, name := if h.name != "" then h.name else c.name,
                                               udpToken := token, udpBound := false, udpAddr := if c.udpBound then 0 else c.udpAddr)],
                  udpIndex := if c.udpBound then s.udpIndex - {c.udpAddr} else s.udpIndex, tokenSeed := token)
  {
    hide SanitizeKey, NextToken, BindCmd;
    var c := s.clients[p];
    var c' := c.(connId := conn, tcpAddr := addr, lastSeen := t, name := if h.name != "" then h.name else c.name,
                 udpToken := NextToken(s.tokenSeed), udpBound := false, udpAddr := if c.udpBound then 0 else c.udpAddr);
    assert s.clients[p := c.(udpBound := false, udpAddr := 0)][p := c'] == s.clients[p := c'];
  }
}
