/** What every step of the simulation thread keeps. */
module SessionInv {
  import opened Bytes
  import opened Blobs
  import opened RateLimit
  import opened Types
  import opened Session

  // ---------------------------------------------------------------- the invariant, part by part

  ghost predicate Ids(clients: map<PeerId, Client>, nextPeer: PeerId) {
    && nextPeer >= 1
    && forall p :: p in clients ==> 1 <= p < nextPeer
  }

  ghost predicate KeysDistinct(clients: map<PeerId, Client>) {
    forall p, q :: p in clients && q in clients && clients[p].key == clients[q].key ==> p == q
  }

  /** Every connection has at most one owner among the clients. */
  ghost predicate ConnsDistinct(clients: map<PeerId, Client>) {
    && (forall p :: p in clients ==> clients[p].connId != 0)
    && forall p, q :: p in clients && q in clients && clients[p].connId == clients[q].connId ==> p == q
  }

  /** ... and among the pending entries, and no connection is owned by both. */
  ghost predicate PendingDistinct(pending: seq<PendingTcp>) {
    && (forall i :: 0 <= i < |pending| ==> pending[i].connId != 0)
    && forall i, j :: 0 <= i < j < |pending| ==> pending[i].connId != pending[j].connId
  }

  ghost predicate IsPending(pending: seq<PendingTcp>, c: ConnId) {
    exists i :: 0 <= i < |pending| && pending[i].connId == c
  }

  ghost predicate Apart(clients: map<PeerId, Client>, pending: seq<PendingTcp>) {
    forall p :: p in clients ==> !IsPending(pending, clients[p].connId)
  }

  /** Every client has a pose that names it, and a token that can be presented. */
  ghost predicate Faces(clients: map<PeerId, Client>) {
    forall p :: p in clients ==> clients[p].havePose && clients[p].lastPose.peerId == p && clients[p].udpToken != 0
  }

  ghost predicate HostOk(clients: map<PeerId, Client>, host: PeerId) {
    if clients == map[] then host == 0 else host in clients
  }

  /** Every indexed address leads to a live client bound to that address. */
  ghost predicate IndexOk(clients: map<PeerId, Client>, index: map<Addr, PeerId>) {
    forall a :: a in index ==> index[a] in clients && clients[index[a]].udpBound && clients[index[a]].udpAddr == a
  }

  ghost predicate RecordsOk(players: map<Key, PlayerRec>) {
    forall k :: k in players ==> players[k].key == k
  }

  /** The live client agrees with its record. */
  ghost predicate CacheOf(c: Client, rec: PlayerRec, spawn: Place) {
    && c.appearance == rec.appearance
    && c.inventory == rec.inventory
    && c.lastPose.place == (if rec.havePose then rec.place else spawn)
    && c.lastPose.yaw == (if rec.havePose then rec.yaw else 0.0)
  }

  ghost predicate Cached(clients: map<PeerId, Client>, players: map<Key, PlayerRec>, spawn: Place) {
    forall p :: p in clients ==> clients[p].key in players && CacheOf(clients[p], players[clients[p].key], spawn)
  }

  ghost predicate Inv(s: State) {
    && Ids(s.clients, s.nextPeer)
    && KeysDistinct(s.clients)
    && ConnsDistinct(s.clients)
    && PendingDistinct(s.pending)
    && Apart(s.clients, s.pending)
    && Faces(s.clients)
    && HostOk(s.clients, s.world.hostPeerId)
    && IndexOk(s.clients, s.udpIndex)
    && RecordsOk(s.players)
    && Cached(s.clients, s.players, s.world.spawn)
    && AsmOk(s.appearAsm) && AsmOk(s.invAsm)
  }

  /** Everything the invariant looks at. */
  ghost predicate SameTables(s: State, s': State) {
    && s'.clients == s.clients && s'.nextPeer == s.nextPeer && s'.pending == s.pending
    && s'.udpIndex == s.udpIndex && s'.players == s.players
    && s'.appearAsm == s.appearAsm && s'.invAsm == s.invAsm
    && s'.world.hostPeerId == s.world.hostPeerId && s'.world.spawn == s.world.spawn
  }

  lemma InvFrame(s: State, s': State)
    requires Inv(s) && SameTables(s, s')
    ensures Inv(s')
  {
  }

  /** The state the server starts in: records and world as loaded, nobody connected. */
  ghost predicate Initial(s: State) {
    && s.clients == map[] && s.udpIndex == map[] && s.pending == []
    && s.appearAsm == map[] && s.invAsm == map[]
    && s.dirty == {} && !s.worldDirty && s.nextPeer == 1
    && s.world.hostPeerId == 0
    && RecordsOk(s.players)
  }

  lemma InitialInv(s: State)
    requires Initial(s)
    ensures Inv(s)
  {
  }

  // ---------------------------------------------------------------- the pending list

  lemma {:induction false} WithoutDrops(pending: seq<PendingTcp>, c: ConnId)
    ensures forall d :: IsPending(Without(pending, c), d) <==> IsPending(pending, d) && d != c
    ensures forall i :: 0 <= i < |Without(pending, c)| ==> Without(pending, c)[i] in pending
  {
    if pending != [] {
      var n := |pending| - 1;
      var front, rest := pending[..n], Without(pending[..n], c);
      WithoutDrops(front, c);
      forall d ensures IsPending(Without(pending, c), d) <==> IsPending(pending, d) && d != c {
        assert IsPending(pending, d) <==> IsPending(front, d) || pending[n].connId == d by {
          if IsPending(front, d) { var i :| 0 <= i < n && front[i].connId == d; assert pending[i].connId == d; }
          if IsPending(pending, d) { var i :| 0 <= i < |pending| && pending[i].connId == d; assert i < n ==> front[i].connId == d; }
        }
        var w := Without(pending, c);
        assert IsPending(w, d) <==> IsPending(rest, d) || (pending[n].connId == d && d != c) by {
          if IsPending(rest, d) { var i :| 0 <= i < |rest| && rest[i].connId == d; assert w[i].connId == d; }
          if pending[n].connId == d && d != c { assert w[|rest|].connId == d; }
          if IsPending(w, d) { var i :| 0 <= i < |w| && w[i].connId == d; assert i < |rest| ==> rest[i].connId == d; }
        }
      }
    }
  }

  lemma {:induction false} WithoutDistinct(pending: seq<PendingTcp>, c: ConnId)
    requires PendingDistinct(pending)
    ensures PendingDistinct(Without(pending, c))
  {
    if pending != [] {
      var n := |pending| - 1;
      WithoutDistinct(pending[..n], c);
      WithoutDrops(pending[..n], c);
      var rest := Without(pending[..n], c);
      forall i | 0 <= i < |rest| ensures rest[i].connId != pending[n].connId {
        assert rest[i] in pending[..n];
        var j :| 0 <= j < n && pending[j] == rest[i];
      }
    }
  }

  lemma AppendPending(pending: seq<PendingTcp>, e: PendingTcp)
    ensures forall d :: IsPending(pending + [e], d) <==> IsPending(pending, d) || d == e.connId
    ensures PendingDistinct(pending) && e.connId != 0 && !IsPending(pending, e.connId) ==> PendingDistinct(pending + [e])
  {
    var p' := pending + [e];
    forall d ensures IsPending(p', d) <==> IsPending(pending, d) || d == e.connId {
      if IsPending(pending, d) { var i :| 0 <= i < |pending| && pending[i].connId == d; assert p'[i].connId == d; }
      if d == e.connId { assert p'[|pending|].connId == d; }
      if IsPending(p', d) { var i :| 0 <= i < |p'| && p'[i].connId == d; assert i < |pending| ==> pending[i].connId == d; }
    }
  }

  // ---------------------------------------------------------------- leaving

  /** The invariant of everyone but `p`, with `p` still in the table. */
  ghost predicate InvBut(s: State, p: PeerId) {
    && p in s.clients
    && Ids(s.clients, s.nextPeer)
    && KeysDistinct(s.clients)
    && ConnsDistinct(s.clients - {p})
    && PendingDistinct(s.pending)
    && Apart(s.clients - {p}, s.pending)
    && Faces(s.clients)
    && HostOk(s.clients, s.world.hostPeerId)
    && IndexOk(s.clients, s.udpIndex)
    && RecordsOk(s.players)
    && Cached(s.clients, s.players, s.world.spawn)
    && AsmOk(s.appearAsm) && AsmOk(s.invAsm)
  }

  lemma InvIsInvBut(s: State, p: PeerId)
    requires Inv(s) && p in s.clients
    ensures InvBut(s, p)
  {
  }

  /** A host can be chosen whenever anyone is left. */
  ghost predicate HostChoice(clients: map<PeerId, Client>, choice: PeerId) {
    clients != map[] ==> choice in clients
  }

  lemma FindHostOk(clients: map<PeerId, Client>, w: World, choice: PeerId)
    requires HostChoice(clients, choice)
    requires w.hostPeerId in clients || w.hostPeerId == 0 || clients == map[]
    ensures HostOk(clients, FindHost(clients, w, choice).hostPeerId)
  {
  }

  /** The parts of the invariant that survive taking a client away. */
  lemma Shrink(s: State, p: PeerId)
    requires InvBut(s, p)
    ensures var rest := s.clients - {p};
            Ids(rest, s.nextPeer) && KeysDistinct(rest) && Faces(rest) && Cached(rest, s.players, s.world.spawn)
  {
  }

  /** What `remove_client` does to each field. */
  lemma RemoveShape(s: State, p: PeerId, keepTcp: bool, o: Oracle)
    requires p in s.clients
    ensures var s' := RemoveClient(s, p, keepTcp, o).state;
            var c := s.clients[p];
            && s'.clients == s.clients - {p}
            && s'.udpIndex == (if c.udpBound then s.udpIndex - {c.udpAddr} else s.udpIndex)
            && s'.pending == (if keepTcp && c.connId != 0 then s.pending + [PendingTcp(c.connId, c.tcpAddr, o.now)] else s.pending)
            && s'.nextPeer == s.nextPeer && s'.players == s.players
            && s'.appearAsm == s.appearAsm && s'.invAsm == s.invAsm
            && s'.world.spawn == s.world.spawn
            && s'.world.hostPeerId == FindHost(s'.clients, if p == s.world.hostPeerId then s.world.(hostPeerId := 0) else s.world, o.host).hostPeerId
            && s'.cfg == s.cfg && s'.banned == s.banned && s'.dirty == {} && !s'.worldDirty
            && s'.modHash == s.modHash && s'.tokenSeed == s.tokenSeed && s'.rates == s.rates
  {
    hide Broadcast, Flush, FindHost, UnbindUdp, LeaveCmds;
    var s1 := Leaving(s, p);
    UnbindShape(s1, p);
    var s2 := UnbindUdp(s1, p);
    FlushFrame(Left(s2, p, LeavePending(s2.pending, s.clients[p], keepTcp, o.now), o.host));
    FindHostKeeps(s.clients - {p}, s1.world, o.host);
  }

  lemma UnbindShape(s: State, p: PeerId)
    requires p in s.clients
    ensures var s', c := UnbindUdp(s, p), s.clients[p];
            && s' == s.(clients := s'.clients, udpIndex := if c.udpBound then s.udpIndex - {c.udpAddr} else s.udpIndex)
            && s'.clients - {p} == s.clients - {p}
  {
    assert UnbindUdp(s, p).clients - {p} == s.clients - {p};
  }

  lemma FindHostKeeps(clients: map<PeerId, Client>, w: World, choice: PeerId)
    ensures FindHost(clients, w, choice) == w.(hostPeerId := FindHost(clients, w, choice).hostPeerId)
  {
  }

  lemma ShrinkIndex(clients: map<PeerId, Client>, index: map<Addr, PeerId>, p: PeerId)
    requires p in clients && IndexOk(clients, index)
    ensures IndexOk(clients - {p}, if clients[p].udpBound then index - {clients[p].udpAddr} else index)
  {
  }

  lemma RemoveKeepsInv(s: State, p: PeerId, keepTcp: bool, o: Oracle)
    requires InvBut(s, p) && HostChoice(s.clients - {p}, o.host)
    requires keepTcp && s.clients[p].connId != 0 ==> ConnsDistinct(s.clients) && Apart(s.clients, s.pending)
    ensures Inv(RemoveClient(s, p, keepTcp, o).state)
  {
    hide RemoveClient;
    var c := s.clients[p];
    RemoveShape(s, p, keepTcp, o);
    Shrink(s, p);
    ShrinkIndex(s.clients, s.udpIndex, p);
    AppendPending(s.pending, PendingTcp(c.connId, c.tcpAddr, o.now));
    FindHostOk(s.clients - {p}, if p == s.world.hostPeerId then s.world.(hostPeerId := 0) else s.world, o.host);
    if keepTcp && c.connId != 0 {
      assert Apart(s.clients - {p}, s.pending + [PendingTcp(c.connId, c.tcpAddr, o.now)]);
    }
  }

  lemma KickShape(s: State, p: PeerId, ban: bool, o: Oracle)
    requires p in s.clients
    ensures var s' := AdminKick(s, p, ban, o).state;
            var c := s.clients[p];
            && s'.clients == s.clients - {p}
            && s'.udpIndex == (if c.udpBound then s.udpIndex - {c.udpAddr} else s.udpIndex)
            && s'.pending == s.pending && s'.nextPeer == s.nextPeer && s'.players == s.players
            && s'.appearAsm == s.appearAsm && s'.invAsm == s.invAsm
            && s'.world.spawn == s.world.spawn
            && s'.world.hostPeerId == FindHost(s'.clients, if p == s.world.hostPeerId then s.world.(hostPeerId := 0) else s.world, o.host).hostPeerId
            && s'.cfg == s.cfg && s'.worldDirty == s.worldDirty
            && s'.dirty == (if c.key in s.players then s.dirty + {c.key} else s.dirty)
  {
    hide FindHost, UnbindUdp, LeaveCmds, SendTcp;
    var s1 := Leaving(s.(banned := if ban then s.banned + {s.clients[p].key} else s.banned), p);
    UnbindShape(s1, p);
    FindHostKeeps(s.clients - {p}, s1.world, o.host);
  }

  lemma KickKeepsInv(s: State, p: PeerId, ban: bool, o: Oracle)
    requires Inv(s) && p in s.clients && HostChoice(s.clients - {p}, o.host)
    ensures Inv(AdminKick(s, p, ban, o).state)
  {
    hide AdminKick;
    KickShape(s, p, ban, o);
    Shrink(s, p);
    ShrinkIndex(s.clients, s.udpIndex, p);
    FindHostOk(s.clients - {p}, if p == s.world.hostPeerId then s.world.(hostPeerId := 0) else s.world, o.host);
  }

  // ---------------------------------------------------------------- changing a client in place

  /** The same client as far as identity goes: connection, key, a pose of its own, a token. */
  ghost predicate SameRole(p: PeerId, c: Client, c': Client) {
    && c'.connId == c.connId && c'.key == c.key
    && c'.havePose && c'.lastPose.peerId == p && c'.udpToken != 0
  }

  ghost predicate SameBinding(c: Client, c': Client) {
    c'.udpBound == c.udpBound && c'.udpAddr == c.udpAddr
  }

  lemma UpdateRoles(s: State, p: PeerId, c': Client)
    requires Inv(s) && p in s.clients && SameRole(p, s.clients[p], c')
    ensures var cs := s.clients[p := c'];
            && Ids(cs, s.nextPeer) && KeysDistinct(cs) && ConnsDistinct(cs) && Apart(cs, s.pending)
            && Faces(cs) && HostOk(cs, s.world.hostPeerId)
  {
  }

  lemma UpdateIndex(clients: map<PeerId, Client>, index: map<Addr, PeerId>, p: PeerId, c': Client)
    requires IndexOk(clients, index) && p in clients && SameBinding(clients[p], c')
    ensures IndexOk(clients[p := c'], index)
  {
  }

  lemma UpdateCached(clients: map<PeerId, Client>, players: map<Key, PlayerRec>, spawn: Place, p: PeerId, c': Client, rec: PlayerRec)
    requires Cached(clients, players, spawn) && KeysDistinct(clients)
    requires p in clients && c'.key == clients[p].key && CacheOf(c', rec, spawn)
    ensures Cached(clients[p := c'], players[c'.key := rec], spawn)
  {
  }

  /** Replacing a client by one in the same role, together with its record. */
  lemma ReplaceKeepsInv(s: State, p: PeerId, c': Client, rec: PlayerRec)
    requires Inv(s) && p in s.clients
    requires SameRole(p, s.clients[p], c') && SameBinding(s.clients[p], c')
    requires rec.key == c'.key && CacheOf(c', rec, s.world.spawn)
    ensures Inv(s.(clients := s.clients[p := c'], players := s.players[c'.key := rec]))
  {
    hide Ids, KeysDistinct, ConnsDistinct, Apart, Faces, HostOk, IndexOk, Cached;
    UpdateRoles(s, p, c');
    UpdateIndex(s.clients, s.udpIndex, p, c');
    UpdateCached(s.clients, s.players, s.world.spawn, p, c', rec);
  }

  /** A change of a client that no table can notice. */
  ghost predicate SameSeat(c: Client, c': Client) {
    && c'.connId == c.connId && c'.key == c.key && SameBinding(c, c')
    && c'.lastPose == c.lastPose && c'.havePose == c.havePose
    && c'.appearance == c.appearance && c'.inventory == c.inventory
    && c'.udpToken != 0
  }

  lemma ReseatKeepsInv(s: State, p: PeerId, c': Client)
    requires Inv(s) && p in s.clients && SameSeat(s.clients[p], c')
    ensures Inv(s.(clients := s.clients[p := c']))
  {
    var rec := s.players[c'.key];
    assert s.players[c'.key := rec] == s.players;
    ReplaceKeepsInv(s, p, c', rec);
  }

  lemma UnbindIndex(s: State, p: PeerId)
    requires p in s.clients && IndexOk(s.clients, s.udpIndex)
    ensures var s' := UnbindUdp(s, p);
            && IndexOk(s'.clients, s'.udpIndex)
            && !s'.clients[p].udpBound
            && forall a :: a in s'.udpIndex ==> s'.udpIndex[a] != p
  {
  }

  lemma UnbindKeepsInv(s: State, p: PeerId)
    requires Inv(s) && p in s.clients
    ensures Inv(UnbindUdp(s, p))
  {
    hide Ids, KeysDistinct, ConnsDistinct, Apart, HostOk, IndexOk, Cached;
    UnbindIndex(s, p);
    var c := s.clients[p];
    if c.udpBound {
      var c' := c.(udpBound := false, udpAddr := 0);
      CachedAt(s, p);
      var rec := s.players[c.key];
      UpdateRoles(s, p, c');
      UpdateCached(s.clients, s.players, s.world.spawn, p, c', rec);
      assert s.players[c.key := rec] == s.players;
    }
  }

  lemma CachedAt(s: State, p: PeerId)
    requires Inv(s) && p in s.clients
    ensures s.clients[p].key in s.players
    ensures CacheOf(s.clients[p], s.players[s.clients[p].key], s.world.spawn)
    ensures s.players[s.clients[p].key].key == s.clients[p].key
  {
  }

  lemma BindIndex(clients: map<PeerId, Client>, index: map<Addr, PeerId>, p: PeerId, from: Addr, c': Client)
    requires IndexOk(clients, index) && p in clients && c'.udpBound && c'.udpAddr == from
    requires forall a :: a in index ==> index[a] != p
    ensures IndexOk(clients[p := c'], index[from := p])
  {
  }

  lemma UdpBindKeepsInv(s: State, p: PeerId, token: Word32, from: Addr, t: real, o: Oracle)
    requires Inv(s)
    ensures Inv(OnUdpBind(s, p, token, from, t, o).state)
  {
    hide FanOut, UnbindUdp, Ids, KeysDistinct, ConnsDistinct, Apart, HostOk, IndexOk, Cached;
    if p in s.clients && s.clients[p].udpToken != 0 && s.clients[p].udpToken == token {
      UnbindKeepsInv(s, p);
      UnbindIndex(s, p);
      UnbindFrame(s, p);
      var s1 := UnbindUdp(s, p);
      var c' := s1.clients[p].(udpAddr := from, udpBound := true, lastSeen := t);
      CachedAt(s1, p);
      var rec := s1.players[c'.key];
      UpdateRoles(s1, p, c');
      BindIndex(s1.clients, s1.udpIndex, p, from, c');
      UpdateCached(s1.clients, s1.players, s1.world.spawn, p, c', rec);
      assert s1.players[c'.key := rec] == s1.players;
    }
  }

  lemma FindByUdpIsIndex(s: State, from: Addr)
    requires Inv(s)
    ensures FindByUdp(s, from).0 == s
  {
  }

  lemma PoseKeepsInv(s: State, p: PeerId, raw: Pose, t: real, o: Oracle)
    requires Inv(s) && p in s.clients
    ensures Inv(OnPose(s, p, raw, t, o).state)
  {
    hide FanOut, Inv;
    CachedAt(s, p);
    FacesAt(s, p);
    var c := s.clients[p];
    var pose := raw.(peerId := p);
    var c' := c.(posesIn := c.posesIn + 1, lastPose := pose, havePose := true);
    var rec := s.players[c.key].(key := c.key, havePose := true, place := pose.place, yaw := pose.yaw);
    ReplaceKeepsInv(s, p, c', rec);
    var s' := OnPose(s, p, raw, t, o).state;
    if AllowRate(s.rates.pose, p, t, 30).1 {
      InvFrame(s.(clients := s.clients[p := c'], players := s.players[c'.key := rec]), s');
    } else {
      InvFrame(s, s');
    }
  }

  lemma FacesAt(s: State, p: PeerId)
    requires Inv(s) && p in s.clients
    ensures s.clients[p].havePose && s.clients[p].lastPose.peerId == p && s.clients[p].udpToken != 0 && s.clients[p].connId != 0
    ensures p != 0
  {
  }

  lemma HandleUdpKeepsInv(s: State, from: Addr, m: InMsg, t: real, o: Oracle)
    requires Inv(s)
    ensures Inv(HandleUdp(s, from, m, t, o).state)
  {
    hide FanOut, OnPose, OnUdpBind, Ids, KeysDistinct, ConnsDistinct, Apart, HostOk, IndexOk, Cached, PendingDistinct;
    if m.InUdpBind? {
      UdpBindKeepsInv(s, m.peer, m.token, from, t, o);
    } else if IsUdpOnly(m) {
      FindByUdpIsIndex(s, from);
      var who := FindByUdp(s, from).1;
      if who.Some? {
        var p := who.value;
        FacesAt(s, p);
        ReseatKeepsInv(s, p, s.clients[p].(lastSeen := t));
        if m.InPlayerPose? {
          PoseKeepsInv(Touch(s, p, t), p, m.pose, t, o);
        }
      }
    }
  }

  lemma HelloAgainKeepsInv(s: State, p: PeerId)
    requires Inv(s) && p in s.clients
    ensures Inv(HelloAgain(s, p).state)
  {
    hide UnbindUdp, Inv;
    FacesAt(s, p);
    var token := NextToken(s.tokenSeed);
    ReseatKeepsInv(s, p, s.clients[p].(udpToken := token));
    var s0 := s.(clients := s.clients[p := s.clients[p].(udpToken := token)]);
    var s1 := s0.(tokenSeed := token);
    InvFrame(s0, s1);
    UnbindKeepsInv(s1, p);
    UnbindFrame(s1, p);
    var s2 := UnbindUdp(s1, p);
    CachedAt(s2, p);
    var k := s2.clients[p].key;
    assert s2.players[k := RecOf(s2.players, k)] == s2.players;
    InvFrame(s2, HelloAgain(s, p).state);
  }

  /** Unbinding touches the binding and nothing else. */
  lemma UnbindFrame(s: State, p: PeerId)
    requires p in s.clients
    ensures var s' := UnbindUdp(s, p);
            && s' == s.(clients := s'.clients, udpIndex := s'.udpIndex)
            && s'.clients == s.clients[p := s'.clients[p]]
            && s'.clients[p] == s.clients[p].(udpBound := s'.clients[p].udpBound, udpAddr := s'.clients[p].udpAddr)
  {
  }

  lemma KeepBlobKeepsInv(s: State, p: PeerId, kind: BlobKind, blob: seq<Byte>)
    requires Inv(s) && p in s.clients
    ensures Inv(KeepBlob(s, p, kind, blob))
  {
    hide Ids, KeysDistinct, ConnsDistinct, Apart, HostOk, IndexOk, Cached;
    CachedAt(s, p);
    FacesAt(s, p);
    var c := s.clients[p];
    var rec := s.players[c.key];
    ReplaceKeepsInv(s, p, if kind.Appearance? then c.(appearance := blob) else c.(inventory := blob),
                    if kind.Appearance? then rec.(appearance := blob) else rec.(inventory := blob));
  }

  lemma AsmKeepsInv(s: State, kind: BlobKind, table: map<PeerId, Assembly>)
    requires Inv(s) && AsmOk(table)
    ensures Inv(WithAsm(s, kind, table))
  {
  }

  lemma BlobKeepsInv(s: State, p: PeerId, kind: BlobKind, datagram: seq<Byte>, t: real, o: Oracle)
    requires Inv(s) && p in s.clients
    ensures Inv(OnBlob(s, p, kind, datagram, t, o).state)
  {
    hide FanOut, Accept, KeepBlob, Inv;
    InvAsm(s);
    var (b, ok) := AllowRate(s.rates.blob, p, t, 64);
    var s1 := s.(rates := s.rates.(blob := b));
    InvFrame(s, s1);
    if ok {
      var table := AsmTable(s1, kind);
      var (asm, status) := Accept(AsmOf(table, p), datagram);
      assert AsmOk(table[p := asm]) && AsmOk(table - {p});
      if status.Complete? {
        AsmKeepsInv(s1, kind, table - {p});
        KeepBlobKeepsInv(WithAsm(s1, kind, table - {p}), p, kind, status.blob);
      } else {
        AsmKeepsInv(s1, kind, table[p := asm]);
      }
    }
  }

  /** Snapshots, heartbeats, chat, kicks, teleports and hits leave the tables alone. */
  lemma RelayFrame(s: State, p: PeerId, m: InMsg, t: real, o: Oracle)
    requires p in s.clients
    ensures SameTables(s, Relay(s, p, m, t, o).state)
  {
    hide SameTables, OnHit, OnChat, FromHost, HostSnapshot, SendTcp;
    SameSelf(s);
    if m.InHit? {
      HitFrame(s, p, m, t, o);
    } else if m.InChat? {
      ChatFrame(s, p, m.text, t, o);
    } else if m.InWorldSnapshot? {
      SnapshotFrame(s, p, m);
    } else if m.InKick? {
      FromHostFrame(s, p, m.target, Kick(m.target, m.reason), o);
    } else if m.InTeleport? {
      FromHostFrame(s, p, m.target, Teleport(m.target, m.place), o);
    }
  }

  lemma SameSelf(s: State)
    ensures SameTables(s, s)
  {
  }

  lemma RatesFrame(s: State, rates: Rates)
    ensures SameTables(s, s.(rates := rates))
  {
  }

  lemma ChatFrame(s: State, p: PeerId, text: string, t: real, o: Oracle)
    ensures SameTables(s, OnChat(s, p, text, t, o).state)
  {
    hide Broadcast, AllowRate, SameTables;
    RatesFrame(s, s.rates.(chat := AllowRate(s.rates.chat, p, t, 4).0));
  }

  lemma SnapshotFrame(s: State, p: PeerId, m: InMsg)
    requires m.InWorldSnapshot?
    ensures SameTables(s, HostSnapshot(s, p, m))
  {
  }

  lemma FromHostFrame(s: State, p: PeerId, target: PeerId, m: OutMsg, o: Oracle)
    ensures SameTables(s, FromHost(s, p, target, m, o).state)
  {
    hide Broadcast, SameTables;
    SameSelf(s);
  }

  lemma HitFrame(s: State, p: PeerId, m: InMsg, t: real, o: Oracle)
    requires m.InHit?
    ensures SameTables(s, OnHit(s, p, m, t, o).state)
  {
    hide Broadcast, AllowRate, ClampHitDamage, SameTables;
    SameSelf(s);
    RatesFrame(s, s.rates.(hit := AllowRate(s.rates.hit, p, t, 24).0));
  }

  lemma HandleTcpKeepsInv(s: State, p: PeerId, m: InMsg, t: real, o: Oracle)
    requires Inv(s) && p in s.clients
    requires m.InBye? ==> HostChoice(s.clients - {p}, o.host)
    ensures Inv(HandleTcp(s, p, m, t, o).state)
  {
    hide RemoveClient, HelloAgain, OnBlob, Relay, Inv, SameTables;
    InvAsm(s);
    if !m.BadHeader? && !IsUdpOnly(m) {
      TouchKeepsInv(s, p, t);
      var s1 := Touch(s, p, t);
      if m.InBye? {
        ByeKeepsInv(s1, p, o);
      } else if m.InHello? {
        HelloAgainKeepsInv(s1, p);
      } else if m.InBlob? {
        BlobKeepsInv(s1, p, m.kind, m.datagram, t, o);
      } else {
        RelayFrame(s1, p, m, t, o);
        InvFrame(s1, Relay(s1, p, m, t, o).state);
      }
    }
  }

  lemma TouchKeepsInv(s: State, p: PeerId, t: real)
    requires Inv(s) && p in s.clients
    ensures Inv(Touch(s, p, t))
    ensures Touch(s, p, t).clients - {p} == s.clients - {p}
  {
    hide Inv;
    FacesAt(s, p);
    ReseatKeepsInv(s, p, s.clients[p].(lastSeen := t));
  }

  lemma ByeKeepsInv(s: State, p: PeerId, o: Oracle)
    requires Inv(s) && p in s.clients && HostChoice(s.clients - {p}, o.host)
    ensures Inv(RemoveClient(s, p, true, o).state)
  {
    hide RemoveClient;
    InvIsInvBut(s, p);
    RemoveKeepsInv(s, p, true, o);
  }

  lemma InvAsm(s: State)
    requires Inv(s)
    ensures AsmOk(s.appearAsm) && AsmOk(s.invAsm)
  {
  }

  // ---------------------------------------------------------------- joining

  /** In reachable states the host lookup changes nothing. */
  lemma HostLookupIdle(s: State, o: Oracle)
    requires Inv(s)
    ensures WithHost(s, o) == s
  {
  }

  lemma EnrollKeepsInv(s: State, h: Hello)
    requires Inv(s)
    ensures Inv(Enroll(s, h))
    ensures SanitizeKey(h.playerKey) in Enroll(s, h).players
  {
    hide Ids, KeysDistinct, ConnsDistinct, Apart, HostOk, IndexOk, Faces, PendingDistinct;
  }

  /** The pending entry of a connection is handed over: it was nobody else's. */
  lemma HandOver(clients: map<PeerId, Client>, pending: seq<PendingTcp>, conn: ConnId)
    requires PendingDistinct(pending) && Apart(clients, pending)
    ensures PendingDistinct(Without(pending, conn)) && Apart(clients, Without(pending, conn))
    ensures !IsPending(Without(pending, conn), conn)
    ensures forall p :: p in clients && IsPending(pending, conn) ==> clients[p].connId != conn
  {
    WithoutDrops(pending, conn);
    WithoutDistinct(pending, conn);
  }

  lemma AddRoles(s: State, c: Client, pending': seq<PendingTcp>)
    requires Inv(s) && Apart(s.clients, pending') && !IsPending(pending', c.connId)
    requires c.connId != 0 && forall q :: q in s.clients ==> s.clients[q].connId != c.connId
    requires forall q :: q in s.clients ==> s.clients[q].key != c.key
    requires c.havePose && c.lastPose.peerId == s.nextPeer && c.udpToken != 0
    ensures var cs := s.clients[s.nextPeer := c];
            && Ids(cs, s.nextPeer + 1) && KeysDistinct(cs) && ConnsDistinct(cs) && Apart(cs, pending') && Faces(cs)
            && IndexOk(cs, s.udpIndex)
            && HostOk(cs, if s.world.hostPeerId == 0 then s.nextPeer else s.world.hostPeerId)
  {
    assert s.nextPeer !in s.clients;
  }

  lemma AddKeepsInv(s: State, conn: ConnId, addr: Addr, h: Hello, t: real)
    requires Inv(s) && IsPending(s.pending, conn)
    requires SanitizeKey(h.playerKey) in s.players
    requires ByKey(s.clients, SanitizeKey(h.playerKey)).None?
    ensures var s' := AddClient(s, conn, addr, h, t).state;
            Inv(s'.(pending := Without(s.pending, conn)))
  {
    hide Ids, KeysDistinct, ConnsDistinct, Apart, HostOk, IndexOk, Faces, PendingDistinct, AsmOk;
    hide KeepKeyChars, Without, IsPending, Cached;
    HandOver(s.clients, s.pending, conn);
    var k := SanitizeKey(h.playerKey);
    assert forall q :: q in s.clients ==> !HasKey(s.clients, q, k);
    PendingNonZero(s, conn);
    AddRoles(s, NewClient(s, conn, addr, h, t), Without(s.pending, conn));
    AddCached(s, conn, addr, h, t);
  }

  lemma PendingNonZero(s: State, conn: ConnId)
    requires Inv(s) && IsPending(s.pending, conn)
    ensures conn != 0
  {
  }

  lemma AddCached(s: State, conn: ConnId, addr: Addr, h: Hello, t: real)
    requires Inv(s) && SanitizeKey(h.playerKey) in s.players
    ensures Cached(s.clients[s.nextPeer := NewClient(s, conn, addr, h, t)], s.players, s.world.spawn)
  {
    hide KeepKeyChars;
    var c := NewClient(s, conn, addr, h, t);
    assert CacheOf(c, s.players[c.key], s.world.spawn);
  }

  /** A re-attached client keeps its role, on the new connection. */
  lemma ReattachKeepsInv(s: State, p: PeerId, conn: ConnId, addr: Addr, h: Hello, t: real)
    requires Inv(s) && IsPending(s.pending, conn)
    requires p in s.clients && s.clients[p].key == SanitizeKey(h.playerKey)
    ensures var s' := Reattach(s, p, conn, addr, h, t).state;
            Inv(s'.(pending := Without(s.pending, conn)))
    ensures Reattach(s, p, conn, addr, h, t).state.clients.Keys == s.clients.Keys
  {
    hide UnbindUdp, Ids, KeysDistinct, ConnsDistinct, Apart, HostOk, IndexOk, Faces, PendingDistinct, AsmOk, Cached, KeepKeyChars;
    UnbindKeepsInv(s, p);
    UnbindIndex(s, p);
    UnbindFrame(s, p);
    var s1 := UnbindUdp(s, p);
    CachedAt(s1, p);
    FacesAt(s1, p);
    PendingNonZero(s, conn);
    HandOver(s1.clients, s.pending, conn);
    var s' := Reattach(s, p, conn, addr, h, t).state;
    var c' := s'.clients[p];
    MoveRoles(s1, p, c', Without(s.pending, conn));
    var rec := s1.players[c'.key];
    assert s1.players[c'.key := rec] == s1.players;
    UpdateCached(s1.clients, s1.players, s1.world.spawn, p, c', rec);
    assert s'.clients == s1.clients[p := c'];
    assert s1.clients.Keys == s.clients.Keys;
  }

  lemma MoveRoles(s: State, p: PeerId, c': Client, pending': seq<PendingTcp>)
    requires Inv(s) && p in s.clients && Apart(s.clients, pending') && !IsPending(pending', c'.connId)
    requires c'.connId != 0 && forall q :: q in s.clients ==> s.clients[q].connId != c'.connId
    requires c'.key == s.clients[p].key && c'.havePose && c'.lastPose.peerId == p && c'.udpToken != 0
    requires SameBinding(s.clients[p], c') || (!c'.udpBound && forall a :: a in s.udpIndex ==> s.udpIndex[a] != p)
    ensures var cs := s.clients[p := c'];
            && Ids(cs, s.nextPeer) && KeysDistinct(cs) && ConnsDistinct(cs) && Apart(cs, pending') && Faces(cs)
            && IndexOk(cs, s.udpIndex) && HostOk(cs, s.world.hostPeerId)
  {
  }

  /** Whoever requires a host and passed the gates found one. */
  lemma LateFallbackUnreachable(s: State, h: Hello, o: Oracle)
    requires Inv(s) && Gate(s, h, o).None? && h.requireHost
    ensures Enroll(s, h).world.hostPeerId != 0
  {
    HostLookupIdle(s, o);
  }

  lemma HostHelloKeepsInv(s: State, p: PeerId, h: Hello)
    requires Inv(s)
    ensures Inv(HostHello(s, p, h))
  {
    hide Ids, KeysDistinct, ConnsDistinct, Apart, HostOk, IndexOk, Faces, PendingDistinct, AsmOk, Cached;
  }

  lemma AdmitKeepsInv(s: State, conn: ConnId, addr: Addr, h: Hello, t: real, o: Oracle)
    requires Inv(s) && IsPending(s.pending, conn) && Gate(s, h, o).None?
    ensures Inv(Admit(s, conn, addr, h, t, o).state)
  {
    hide Inv, Gate, FanOut, Reattach, AddClient, Enroll, HostHello, Without;
    var k := SanitizeKey(h.playerKey);
    if h.requireHost { LateFallbackUnreachable(s, h, o); }
    EnrollKeepsInv(s, h);
    var s1 := Enroll(s, h);
    EnrollFrame(s, h);
    var same := ByKey(s.clients, k);
    var e := if same.Some? then Reattach(s1, same.value, conn, addr, h, t) else AddClient(s1, conn, addr, h, t);
    if same.Some? {
      ReattachKeepsInv(s1, same.value, conn, addr, h, t);
      ReattachFrame(s1, same.value, conn, addr, h, t);
    } else {
      AddKeepsInv(s1, conn, addr, h, t);
      AddFrame(s1, conn, addr, h, t);
    }
    HostHelloKeepsInv(e.state.(pending := Without(e.state.pending, conn)),
                      if same.Some? then same.value else s1.nextPeer, h);
  }

  lemma EnrollFrame(s: State, h: Hello)
    ensures var s' := Enroll(s, h);
            && s' == s.(players := s'.players, world := s'.world, worldDirty := s'.worldDirty)
            && s'.world == s.world.(created := true)
  {
  }

  lemma ReattachFrame(s: State, p: PeerId, conn: ConnId, addr: Addr, h: Hello, t: real)
    requires p in s.clients
    ensures var s' := Reattach(s, p, conn, addr, h, t).state;
            s' == s.(clients := s'.clients, udpIndex := s'.udpIndex, tokenSeed := s'.tokenSeed)
  {
  }

  lemma AddFrame(s: State, conn: ConnId, addr: Addr, h: Hello, t: real)
    ensures var s' := AddClient(s, conn, addr, h, t).state;
            && s' == s.(clients := s'.clients, nextPeer := s.nextPeer + 1, tokenSeed := s'.tokenSeed, world := s'.world)
            && s'.clients == s.clients[s.nextPeer := NewClient(s, conn, addr, h, t)]
  {
  }

  lemma HandlePendingKeepsInv(s: State, entry: PendingTcp, m: InMsg, t: real, o: Oracle)
    requires Inv(s) && IsPending(s.pending, entry.connId)
    ensures Inv(HandlePending(s, entry, m, t, o).state)
  {
    hide Admit, Gate, Ids, KeysDistinct, ConnsDistinct, Apart, IndexOk, Faces, PendingDistinct, AsmOk, Cached;
    match m
    case InSessionQuery =>
    case InHello(h) =>
      var (q, ok) := AllowRate(s.rates.hello, entry.addr, t, 2);
      var s1 := s.(rates := s.rates.(hello := q));
      HostLookupIdle(s1, o);
      if Gate(s1, h, o).None? {
        AdmitKeepsInv(s1, entry.connId, entry.addr, h, t, o);
      }
    case _ =>
  }

  // ---------------------------------------------------------------- steps and runs

  /** The client a frame is handled for, unless its connection is still pending. */
  ghost function FrameClient(s: State, conn: ConnId, peer: PeerId): (r: Option<PeerId>)
    ensures r.Some? ==> r.value in s.clients
  {
    if peer != 0 && peer in s.clients then Some(peer)
    else if FindPending(s.pending, conn) >= 0 then None
    else OwnerOf(s.clients, conn)
  }

  /** The client that leaves in a step, if any. */
  ghost function Leaver(s: State, e: Event): (r: Option<PeerId>)
    ensures r.Some? ==> r.value in s.clients
  {
    match e
    case ClientTimeout(p) => if p in s.clients then Some(p) else None
    case Kicked(p, _) => if p in s.clients then Some(p) else None
    case Net(TcpClosed(conn, peer)) =>
      if peer != 0 then (if peer in s.clients then Some(peer) else None) else OwnerOf(s.clients, conn)
    case Net(TcpFrame(conn, peer, InBye)) => FrameClient(s, conn, peer)
    case _ => None
  }

  /** The client a step welcomes for the first time, if any. */
  ghost predicate Welcomes(s: State, step: Step) {
    && step.event.Net? && step.event.ev.TcpFrame? && step.event.ev.msg.InHello?
    && !(step.event.ev.peerId != 0 && step.event.ev.peerId in s.clients)
    && var i := FindPending(s.pending, step.event.ev.connId);
       && i >= 0
       && AllowRate(s.rates.hello, s.pending[i].addr, step.t, 2).1
       && Gate(s, step.event.ev.msg.hello, step.o).None?
       && ByKey(s.clients, SanitizeKey(step.event.ev.msg.hello.playerKey)).None?
  }

  ghost predicate ValidOrder(order: seq<PeerId>, keys: set<PeerId>) {
    && (forall i, j :: 0 <= i < j < |order| ==> order[i] != order[j])
    && forall p :: p in order <==> p in keys
  }

  /** The clients a loop of this step walks over. */
  ghost function Visited(s: State, step: Step): set<PeerId> {
    if Welcomes(s, step) then s.clients.Keys + {s.nextPeer} else s.clients.Keys
  }

  /** A new connection is nobody's yet. */
  ghost predicate FreshAccept(s: State, e: Event) {
    e.Net? && e.ev.TcpAccept? ==>
      && e.ev.connId != 0 && !IsPending(s.pending, e.ev.connId)
      && forall p :: !Owns(s.clients, p, e.ev.connId)
  }

  /** A host is at hand if the leaver leaves anyone behind. */
  ghost predicate HostAtHand(s: State, e: Event, o: Oracle) {
    var l := Leaver(s, e); l.Some? ==> HostChoice(s.clients - {l.value}, o.host)
  }

  /** The choices open to a step, and the deadlines of the timeouts. */
  ghost predicate Choices(s: State, step: Step) {
    && ValidOrder(step.o.order, Visited(s, step))
    && HostAtHand(s, step.event, step.o)
    && match step.event
       case PendingTimeout(conn) => exists i :: 0 <= i < |s.pending| && s.pending[i].connId == conn
                                                && step.t - s.pending[i].connectedAt > PENDING_TIMEOUT
       case ClientTimeout(p) => p in s.clients && step.t - s.clients[p].lastSeen > CLIENT_TIMEOUT
       case Kicked(p, _) => p in s.clients
       case _ => true
  }

  /** When a step may happen. */
  ghost predicate Enabled(s: State, step: Step) {
    Choices(s, step) && FreshAccept(s, step.event)
  }

  lemma AcceptKeepsInv(s: State, conn: ConnId, addr: Addr, t: real)
    requires Inv(s) && conn != 0 && !IsPending(s.pending, conn) && forall p :: !Owns(s.clients, p, conn)
    ensures Inv(s.(pending := s.pending + [PendingTcp(conn, addr, t)]))
  {
    hide Ids, KeysDistinct, ConnsDistinct, IndexOk, Faces, AsmOk, Cached, HostOk;
    AppendPending(s.pending, PendingTcp(conn, addr, t));
    forall p | p in s.clients ensures !IsPending(s.pending + [PendingTcp(conn, addr, t)], s.clients[p].connId) {
      assert !Owns(s.clients, p, conn);
    }
  }

  lemma DropPendingKeepsInv(s: State, conn: ConnId)
    requires Inv(s)
    ensures Inv(s.(pending := Without(s.pending, conn)))
  {
    hide Ids, KeysDistinct, ConnsDistinct, IndexOk, Faces, AsmOk, Cached, HostOk;
    HandOver(s.clients, s.pending, conn);
  }

  lemma ClosedKeepsInv(s: State, conn: ConnId, peer: PeerId, o: Oracle)
    requires Inv(s)
    requires var l := Leaver(s, Net(TcpClosed(conn, peer))); l.Some? ==> HostChoice(s.clients - {l.value}, o.host)
    ensures Inv(OnClosed(s, conn, peer, o).state)
  {
    hide RemoveClient, Ids, KeysDistinct, IndexOk, Faces, AsmOk, Cached, HostOk;
    DropPendingKeepsInv(s, conn);
    var s1 := s.(pending := Without(s.pending, conn));
    if peer != 0 {
      if peer in s1.clients {
        InvIsInvBut(s1, peer);
        RemoveKeepsInv(s1, peer, false, o);
      } else {
        assert RemoveClient(s1, peer, false, o) == Quiet(s1) by { RemoveAbsent(s1, peer, false, o); }
      }
    } else {
      var owner := OwnerOf(s1.clients, conn);
      if owner.Some? {
        var p := owner.value;
        var cs := s1.clients[p := s1.clients[p].(connId := 0)];
        assert cs - {p} == s1.clients - {p};
        ZeroedInvBut(s1, p);
        RemoveKeepsInv(s1.(clients := cs), p, false, o);
      }
    }
  }

  lemma RemoveAbsent(s: State, p: PeerId, keepTcp: bool, o: Oracle)
    requires p !in s.clients
    ensures RemoveClient(s, p, keepTcp, o) == Quiet(s)
  {
  }

  lemma HostOkKeys(cs: map<PeerId, Client>, cs': map<PeerId, Client>, host: PeerId)
    requires HostOk(cs, host) && cs.Keys == cs'.Keys
    ensures HostOk(cs', host)
  {
    if cs == map[] { assert cs'.Keys == {}; } else { assert host in cs.Keys; }
  }

  lemma ZeroedInvBut(s: State, p: PeerId)
    requires Inv(s) && p in s.clients
    ensures InvBut(s.(clients := s.clients[p := s.clients[p].(connId := 0)]), p)
  {
    hide ConnsDistinct, Apart, PendingDistinct, AsmOk, RecordsOk, IndexOk, Cached, HostOk;
    var c := s.clients[p];
    var c' := c.(connId := 0);
    var cs := s.clients[p := c'];
    assert cs - {p} == s.clients - {p};
    InvIsInvBut(s, p);
    assert HostOk(cs, s.world.hostPeerId) by { HostOkKeys(s.clients, cs, s.world.hostPeerId); }
    CachedAt(s, p);
    UpdateIndex(s.clients, s.udpIndex, p, c');
    UpdateCached(s.clients, s.players, s.world.spawn, p, c', s.players[c.key]);
    assert s.players[c.key := s.players[c.key]] == s.players;
  }

  lemma FrameKeepsInv(s: State, conn: ConnId, peer: PeerId, m: InMsg, t: real, o: Oracle)
    requires Inv(s)
    requires var l := Leaver(s, Net(TcpFrame(conn, peer, m))); l.Some? ==> HostChoice(s.clients - {l.value}, o.host)
    ensures Inv(OnFrame(s, conn, peer, m, t, o).state)
  {
    hide HandleTcp, HandlePending, HostChoice;
    var f := FrameClient(s, conn, peer);
    if f.Some? {
      HandleTcpKeepsInv(s, f.value, m, t, o);
    } else {
      var i := FindPending(s.pending, conn);
      if i >= 0 {
        assert IsPending(s.pending, s.pending[i].connId);
        HandlePendingKeepsInv(s, s.pending[i], m, t, o);
      }
    }
  }

  lemma NetStepKeepsInv(s: State, ev: NetEvent, t: real, o: Oracle)
    requires Inv(s) && HostAtHand(s, Net(ev), o) && FreshAccept(s, Net(ev))
    ensures Inv(ApplyNet(s, ev, t, o).state)
  {
    hide OnFrame, OnClosed, HandleUdp, HostChoice, FindPending,
         Ids, KeysDistinct, ConnsDistinct, IndexOk, Faces, Cached, HostOk, Apart, PendingDistinct;
    match ev
    case TcpAccept(conn, addr) => AcceptKeepsInv(s, conn, addr, t);
    case TcpFrame(conn, peer, m) => FrameKeepsInv(s, conn, peer, m, t, o);
    case TcpClosed(conn, peer) => ClosedKeepsInv(s, conn, peer, o);
    case UdpDatagram(from, m) => HandleUdpKeepsInv(s, from, m, t, o);
  }

  lemma ReloadShape(s: State, cfg: Config, modHash: nat, o: Oracle)
    ensures var e := ApplyIdle(s, Reload(cfg, modHash), o);
            && e.jobs == [] && e.state == s.(cfg := e.state.cfg, modHash := e.state.modHash)
  {
    hide Announce, ClipPassword;
    AnnounceState(s.(cfg := cfg.(password := ClipPassword(cfg.password)), modHash := if modHash != 0 then modHash else s.modHash), o);
  }

  lemma BanShape(s: State, ev: Event, o: Oracle)
    requires ev.Ban? || ev.Unban?
    ensures var e := ApplyIdle(s, ev, o);
            e.jobs == [Job(None, map[], Some(e.state.banned))] && e.state == s.(banned := e.state.banned)
  {
    hide SanitizeKey;
  }

  lemma CfgShape(s: State, ev: Event, o: Oracle)
    requires ev.SetMaxPlayers? || ev.SetMotd? || ev.SetPvp? || ev.SetPassword?
    ensures var e := ApplyIdle(s, ev, o); e.jobs == [] && e.state == s.(cfg := e.state.cfg)
  {
    hide Announce, ClipPassword, Max;
    if ev.SetPvp? {
      AnnounceState(s.(cfg := s.cfg.(pvp := ev.on)), o);
    } else if ev.SetPassword? {
      AnnounceState(s.(cfg := s.cfg.(password := ClipPassword(ev.password))), o);
    }
  }

  lemma QuietShape(s: State, ev: Event, o: Oracle)
    requires !(ev.SetMaxPlayers? || ev.SetMotd? || ev.SetPvp? || ev.SetPassword? || ev.Reload? || ev.Ban? || ev.Unban?)
    requires !ev.PersistTick? && !ev.Save?
    ensures var e := ApplyIdle(s, ev, o); e.jobs == [] && e.state == s
  {
    hide Broadcast;
  }

  lemma TickIs(s: State, ev: Event, o: Oracle)
    ensures ev.PersistTick? ==> ApplyIdle(s, ev, o) == Effect(Flush(s).0, [], Flush(s).1)
    ensures ev.Save? ==> ApplyIdle(s, ev, o) == SaveAll(s)
  {
    hide Flush, SaveAll;
  }

  /** The idle steps other than saving change settings and bans only. */
  lemma PlainIdleShape(s: State, ev: Event, o: Oracle)
    requires !ev.PersistTick? && !ev.Save?
    ensures var e := ApplyIdle(s, ev, o);
            && e.state == s.(cfg := e.state.cfg, banned := e.state.banned, modHash := e.state.modHash)
            && (e.jobs == [] || e.jobs == [Job(None, map[], Some(e.state.banned))])
  {
    hide ApplyIdle;
    if ev.Reload? {
      ReloadShape(s, ev.cfg, ev.modHash, o);
    } else if ev.Ban? || ev.Unban? {
      BanShape(s, ev, o);
    } else if ev.SetMaxPlayers? || ev.SetMotd? || ev.SetPvp? || ev.SetPassword? {
      CfgShape(s, ev, o);
    } else {
      QuietShape(s, ev, o);
    }
  }

  /** An idle step leaves every table alone. */
  lemma IdleFrame(s: State, e: Event, o: Oracle)
    ensures var s' := ApplyIdle(s, e, o).state;
            s' == s.(cfg := s'.cfg, banned := s'.banned, dirty := s'.dirty, worldDirty := s'.worldDirty, modHash := s'.modHash)
  {
    hide ApplyIdle, SaveAll, Flush;
    if e.PersistTick? {
      FlushFrame(s);
      TickIs(s, e, o);
    } else if e.Save? {
      SaveFrame(s);
      TickIs(s, e, o);
    } else {
      PlainIdleShape(s, e, o);
    }
  }

  lemma AnnounceState(s: State, o: Oracle)
    ensures Announce(s, o).state == s && Announce(s, o).jobs == []
  {
  }

  lemma FlushFrame(s: State)
    ensures Flush(s).0 == s.(dirty := {}, worldDirty := false)
  {
  }

  lemma SaveFrame(s: State)
    ensures SaveAll(s).state == s.(dirty := {}, worldDirty := false)
  {
  }

  /** Every enabled step keeps the invariant. */
  lemma StepKeepsInv(s: State, step: Step)
    requires Inv(s) && HostAtHand(s, step.event, step.o) && FreshAccept(s, step.event)
    ensures Inv(Apply(s, step).state)
  {
    hide ApplyNet, ApplyIdle, RemoveClient, AdminKick, HostAtHand, FreshAccept, Without,
         Ids, KeysDistinct, ConnsDistinct, IndexOk, Faces, Cached, HostOk, Apart, PendingDistinct;
    match step.event
    case Net(ev) => NetStepKeepsInv(s, ev, step.t, step.o);
    case PendingTimeout(conn) => DropPendingKeepsInv(s, conn);
    case ClientTimeout(p) => TimeoutKeepsInv(s, p, step.o);
    case Kicked(p, ban) => KickedKeepsInv(s, p, ban, step.o);
    case _ => IdleKeepsInv(s, step.event, step.o);
  }

  lemma TimeoutKeepsInv(s: State, p: PeerId, o: Oracle)
    requires Inv(s) && HostAtHand(s, ClientTimeout(p), o)
    ensures Inv(RemoveClient(s, p, false, o).state)
  {
    hide RemoveClient, HostChoice;
    if p in s.clients {
      InvIsInvBut(s, p);
      RemoveKeepsInv(s, p, false, o);
    } else {
      RemoveAbsent(s, p, false, o);
    }
  }

  lemma KickedKeepsInv(s: State, p: PeerId, ban: bool, o: Oracle)
    requires Inv(s) && HostAtHand(s, Kicked(p, ban), o)
    ensures Inv(AdminKick(s, p, ban, o).state)
  {
    hide AdminKick, HostChoice;
    if p in s.clients {
      KickKeepsInv(s, p, ban, o);
    } else {
      KickAbsent(s, p, ban, o);
    }
  }

  lemma IdleKeepsInv(s: State, e: Event, o: Oracle)
    requires Inv(s)
    ensures Inv(ApplyIdle(s, e, o).state)
  {
    hide ApplyIdle, Inv;
    IdleFrame(s, e, o);
    InvFrame(s, ApplyIdle(s, e, o).state);
  }

  lemma KickAbsent(s: State, p: PeerId, ban: bool, o: Oracle)
    requires p !in s.clients
    ensures AdminKick(s, p, ban, o) == Quiet(s)
  {
  }

  /** A run from `s`: every step enabled in the state the earlier steps lead to. */
  ghost predicate Run(s: State, steps: seq<Step>)
    decreases |steps|, 0
  {
    Inv(s) && (steps == [] || (Run(s, steps[..|steps| - 1]) && Enabled(After(s, steps[..|steps| - 1]), steps[|steps| - 1])))
  }

  ghost function After(s: State, steps: seq<Step>): (r: State)
    requires Run(s, steps)
    ensures Inv(r)
    decreases |steps|, 1
  {
    if steps == [] then s
    else
      var before := After(s, steps[..|steps| - 1]);
      StepKeepsInv(before, steps[|steps| - 1]);
      Apply(before, steps[|steps| - 1]).state
  }

  /** The prefixes of a run are runs. */
  lemma {:induction false} RunPrefix(s: State, steps: seq<Step>, k: nat)
    requires Run(s, steps) && k <= |steps|
    ensures Run(s, steps[..k])
    decreases |steps|
  {
    hide Inv, Enabled;
    if k < |steps| {
      RunPrefix(s, steps[..|steps| - 1], k);
      assert steps[..|steps| - 1][..k] == steps[..k];
    } else {
      assert steps[..k] == steps;
    }
  }

  /** What step `k` of a run queues. */
  ghost function EffectAt(s: State, steps: seq<Step>, k: nat): Effect
    requires Run(s, steps) && k < |steps|
  {
    RunPrefix(s, steps, k);
    Apply(After(s, steps[..k]), steps[k])
  }

  lemma AfterStep(s: State, steps: seq<Step>, k: nat)
    requires Run(s, steps) && k < |steps|
    ensures Run(s, steps[..k]) && Run(s, steps[..k + 1])
    ensures Enabled(After(s, steps[..k]), steps[k])
    ensures After(s, steps[..k + 1]) == EffectAt(s, steps, k).state
  {
    hide Enabled, Apply, Inv;
    RunPrefix(s, steps, k);
    RunPrefix(s, steps, k + 1);
    assert steps[..k + 1][..k] == steps[..k];
  }

  /** The commands a run queues, in order. */
  ghost function CmdsOf(s: State, steps: seq<Step>): seq<Cmd>
    requires Run(s, steps)
    decreases |steps|
  {
    if steps == [] then [] else CmdsOf(s, steps[..|steps| - 1]) + Apply(After(s, steps[..|steps| - 1]), steps[|steps| - 1]).cmds
  }

  /** The jobs a run hands to the worker, in order. */
  ghost function JobsOf(s: State, steps: seq<Step>): seq<Job>
    requires Run(s, steps)
    decreases |steps|
  {
    if steps == [] then [] else JobsOf(s, steps[..|steps| - 1]) + Apply(After(s, steps[..|steps| - 1]), steps[|steps| - 1]).jobs
  }

  lemma RunSnoc(s: State, steps: seq<Step>, step: Step)
    requires Run(s, steps) && Enabled(After(s, steps), step)
    ensures var e := Apply(After(s, steps), step);
            && Run(s, steps + [step])
            && After(s, steps + [step]) == e.state
            && CmdsOf(s, steps + [step]) == CmdsOf(s, steps) + e.cmds
            && JobsOf(s, steps + [step]) == JobsOf(s, steps) + e.jobs
  {
    hide Enabled, Apply, Inv;
    assert (steps + [step])[..|steps|] == steps;
  }

  /** The session invariant holds in every state the server can reach. */
  lemma ReachableInv(s: State, steps: seq<Step>)
    requires Initial(s)
    ensures Inv(s)
    ensures Run(s, steps) ==> Inv(After(s, steps))
  {
    InitialInv(s);
  }
}
