/** The simulation thread as it is written: an object whose methods change its tables step
    by step. Every method is proved against the state machine of module Session. */
module Runtime {
  import opened Bytes
  import opened Blobs
  import opened RateLimit
  import opened Types
  import S = Session
  import opened SessionInv
  import opened Ownership

  /** Any order of a finite key set; what a loop over an unordered map may pick. */
  lemma OrderOf(keys: set<PeerId>) returns (order: seq<PeerId>)
    ensures ValidOrder(order, keys)
  {
    if keys == {} {
      order := [];
    } else {
      var k :| k in keys;
      var rest := OrderOf(keys - {k});
      order := rest + [k];
      forall p ensures p in order <==> p in keys {
        assert p in order <==> p in rest || p == k;
      }
    }
  }

  lemma OrderSnoc(order: seq<PeerId>, keys: set<PeerId>, p: PeerId)
    requires ValidOrder(order, keys) && p !in keys
    ensures ValidOrder(order + [p], keys + {p})
  {
    forall q ensures q in order + [p] <==> q in keys + {p} {
      assert q in order + [p] <==> q in order || q == p;
    }
  }

  lemma FanOutSnoc(clients: map<PeerId, Client>, maxUu: real, f: S.Fan, order: seq<PeerId>, p: PeerId)
    ensures S.FanOut(clients, maxUu, f, order + [p]) == S.FanOut(clients, maxUu, f, order) + S.Visit(clients, maxUu, f, p)
  {
    assert (order + [p])[..|order|] == order;
  }

  class ServerRuntime {
    var cfg: Config
    var world: World
    var players: map<Key, PlayerRec>
    var banned: set<Key>
    var clients: map<PeerId, Client>
    var udpIndex: map<Addr, PeerId>
    var pending: seq<PendingTcp>
    var appearAsm: map<PeerId, Assembly>
    var invAsm: map<PeerId, Assembly>
    var dirty: set<Key>
    var worldDirty: bool
    var nextPeer: PeerId
    var modHash: nat
    var tokenSeed: Word32
    var rates: Rates
    /** Commands and jobs pushed so far, in order. */
    var outbound: seq<Cmd>
    var jobs: seq<Job>

    ghost function St(): S.State
      reads this
    {
      S.State(cfg, world, players, banned, clients, udpIndex, pending, appearAsm, invAsm,
              dirty, worldDirty, nextPeer, modHash, tokenSeed, rates)
    }

    /** The object after the effect `e`, starting from the given queues. */
    ghost predicate Did(e: S.Effect, outbound0: seq<Cmd>, jobs0: seq<Job>)
      reads this
    {
      St() == e.state && outbound == outbound0 + e.cmds && jobs == jobs0 + e.jobs
    }

    constructor (cfg: Config, world: World, players: map<Key, PlayerRec>, banned: set<Key>, modHash: nat)
      requires RecordsOk(players) && world.hostPeerId == 0
      ensures Initial(St()) && Inv(St())
      ensures this.cfg == cfg && this.world == world && this.players == players && this.banned == banned && this.modHash == modHash
      ensures outbound == [] && jobs == []
    {
      this.cfg, this.world, this.players, this.banned, this.modHash := cfg, world, players, banned, modHash;
      clients, udpIndex, pending, appearAsm, invAsm := map[], map[], [], map[], map[];
      dirty, worldDirty, nextPeer, tokenSeed := {}, false, 1, 0xC0FFEE01;
      rates := Rates(map[], map[], map[], map[], map[], map[]);
      outbound, jobs := [], [];
      new;
      InitialInv(St());
    }

    // -------------------------------------------------------------- sending

    method SendTcp(p: PeerId, m: OutMsg)
      requires p in clients
      modifies this`outbound
      ensures outbound == old(outbound) + S.SendTcp(clients[p], p, m)
    {
      if clients[p].connId == 0 {
        return;
      }
      outbound := outbound + [TcpSend(clients[p].connId, p, m)];
    }

    method SendUdp(p: PeerId, m: OutMsg)
      requires p in clients
      modifies this`outbound
      ensures outbound == old(outbound) + S.SendUdp(clients[p], m)
    {
      if !clients[p].udpBound {
        return;
      }
      outbound := outbound + [UdpSend(clients[p].udpAddr, m)];
    }

    /** `send_blob_tcp`. */
    method SendBlob(p: PeerId, kind: BlobKind, from: PeerId, blob: seq<Byte>)
      requires p in clients
      modifies this`outbound
      ensures outbound == old(outbound) + S.SendBlob(clients[p], p, kind, from, blob)
    {
      hide Packets, S.SendTcp;
      var ok, packets := SplitBlobChunks(S.KindByte(kind), from % 0x1_0000_0000, blob);
      if !ok {
        NotSent(clients[p], p, kind, from, blob);
        return;
      }
      for i := 0 to |packets|
        invariant outbound == old(outbound) + S.SendPackets(clients[p], p, kind, from, packets[..i])
      {
        assert packets[..i + 1][..i] == packets[..i];
        SendTcp(p, BlobPacket(kind, from, packets[i]));
      }
      assert packets[..|packets|] == packets;
    }

    /** The bodies of the loops over all clients, by loop. */
    method VisitClient(f: S.Fan, p: PeerId)
      requires p in clients
      modifies this`outbound
      ensures outbound == old(outbound) + S.Visit(clients, cfg.interestUu, f, p)
    {
      hide S.SendTcp, S.SendUdp, S.SendBlob, S.InInterest;
      var c := clients[p];
      match f
      case ToOthers(except, m) =>
        if p != except {
          SendTcp(p, m);
        }
      case ToAll(m) =>
        SendTcp(p, m);
      case ToOne(target, m) =>
        if p == target {
          SendTcp(p, m);
        }
      case BlobToOthers(from, kind, blob) =>
        if p != from {
          SendBlob(p, kind, from, blob);
        }
      case PoseToInterested(from, pose) =>
        if p != from && c.udpBound && from in clients {
          var mine := clients[from];
          if S.InInterest(mine.lastPose.place, mine.havePose, c.lastPose.place, c.havePose, cfg.interestUu) {
            SendUdp(p, PlayerPose(pose));
          }
        }
      case ActorToInterested(from, actor) =>
        if p != from && c.udpBound && S.InInterest(actor.place, true, c.lastPose.place, c.havePose, cfg.interestUu) {
          SendUdp(p, ActorPoseMsg(actor));
        }
      case PosesOfOthers(to) =>
        if p != to && c.havePose && to in clients {
          SendUdp(to, PlayerPose(c.lastPose));
        }
      case CatchUp(to) =>
        if p != to && c.havePose && to in clients {
          CatchUpOn(to, p);
        }
    }

    /** What a joining client gets to know of another one. */
    method CatchUpOn(to: PeerId, p: PeerId)
      requires p in clients && to in clients && p != to && clients[p].havePose
      modifies this`outbound
      ensures outbound == old(outbound) + S.Visit(clients, cfg.interestUu, S.CatchUp(to), p)
    {
      hide S.SendUdp, S.SendBlob;
      var c := clients[p];
      SendUdp(to, PlayerPose(c.lastPose));
      if c.appearance != [] {
        SendBlob(to, Appearance, p, c.appearance);
      }
      if c.inventory != [] {
        SendBlob(to, Inventory, p, c.inventory);
      }
    }

    /** A loop over all clients, in whatever order the table yields them. */
    method SendEach(f: S.Fan) returns (ghost order: seq<PeerId>)
      modifies this`outbound
      ensures ValidOrder(order, clients.Keys)
      ensures outbound == old(outbound) + S.FanOut(clients, cfg.interestUu, f, order)
    {
      hide S.Visit, ValidOrder;
      order := [];
      var todo := clients.Keys;
      assert ValidOrder(order, clients.Keys - todo) by { EmptyOrder(clients.Keys - todo); }
      while todo != {}
        invariant todo <= clients.Keys
        invariant ValidOrder(order, clients.Keys - todo)
        invariant outbound == old(outbound) + S.FanOut(clients, cfg.interestUu, f, order)
        decreases todo
      {
        var p :| p in todo;
        VisitClient(f, p);
        FanOutSnoc(clients, cfg.interestUu, f, order, p);
        OrderSnoc(order, clients.Keys - todo, p);
        order := order + [p];
        assert (clients.Keys - todo) + {p} == clients.Keys - (todo - {p});
        todo := todo - {p};
      }
      assert clients.Keys - todo == clients.Keys;
    }

    // -------------------------------------------------------------- lookups

    method FindPending(c: ConnId) returns (i: int)
      ensures i == S.FindPending(pending, c)
    {
      i := 0;
      while i < |pending|
        invariant 0 <= i <= |pending|
        invariant forall j :: 0 <= j < i ==> pending[j].connId != c
      {
        if pending[i].connId == c {
          return;
        }
        i := i + 1;
      }
      i := -1;
    }

    method FindByConn(c: ConnId) returns (r: Option<PeerId>)
      requires ConnsDistinct(clients)
      ensures r == S.OwnerOf(clients, c)
    {
      var todo := clients.Keys;
      while todo != {}
        invariant todo <= clients.Keys
        invariant forall p :: p in clients.Keys - todo ==> clients[p].connId != c
        decreases todo
      {
        var p :| p in todo;
        if clients[p].connId == c {
          assert S.Owns(clients, p, c);
          return Some(p);
        }
        todo := todo - {p};
      }
      r := None;
    }

    method FindByKey(k: Key) returns (r: Option<PeerId>)
      requires KeysDistinct(clients)
      ensures r == S.ByKey(clients, k)
    {
      var todo := clients.Keys;
      while todo != {}
        invariant todo <= clients.Keys
        invariant forall p :: p in clients.Keys - todo ==> clients[p].key != k
        decreases todo
      {
        var p :| p in todo;
        if clients[p].key == k {
          assert S.HasKey(clients, p, k);
          return Some(p);
        }
        todo := todo - {p};
      }
      r := None;
    }

    /** `find_host`. */
    method FindHost() returns (ghost choice: PeerId)
      modifies this`world
      ensures HostChoice(clients, choice)
      ensures world == S.FindHost(clients, old(world), choice)
    {
      choice := 0;
      var todo := clients.Keys;
      while todo != {}
        invariant todo <= clients.Keys
        invariant world.hostPeerId !in clients.Keys - todo
        decreases todo
      {
        var p :| p in todo;
        if p == world.hostPeerId {
          choice := p;
          return;
        }
        todo := todo - {p};
      }
      if clients == map[] {
        world := world.(hostPeerId := 0);
        return;
      }
      assert clients.Keys != {};
      var first :| first in clients.Keys;
      choice := first;
      world := world.(hostPeerId := first);
    }

    // -------------------------------------------------------------- leaving

    /** `unbind_udp`. */
    method UnbindUdp(p: PeerId)
      requires p in clients
      modifies this`udpIndex, this`clients
      ensures St() == S.UnbindUdp(old(St()), p)
    {
      var c := clients[p];
      if !c.udpBound {
        return;
      }
      udpIndex := udpIndex - {c.udpAddr};
      clients := clients[p := c.(udpBound := false, udpAddr := 0)];
    }

    /** `flush_dirty_async`. */
    method Flush()
      modifies this`dirty, this`worldDirty, this`jobs
      ensures St() == S.Flush(old(St())).0
      ensures jobs == old(jobs) + S.Flush(old(St())).1
    {
      var snap: map<Key, PlayerRec> := map[];
      var jobWorld: Option<World> := None;
      if worldDirty {
        jobWorld := Some(world);
        worldDirty := false;
      }
      var todo := dirty;
      while todo != {}
        invariant todo <= dirty
        invariant snap == map k | k in dirty - todo && k in players :: players[k]
        decreases todo
      {
        var k :| k in todo;
        if k in players {
          snap := snap[k := players[k]];
        }
        todo := todo - {k};
      }
      assert dirty - todo == dirty;
      assert snap == map k | k in dirty && k in players :: players[k];
      dirty := {};
      if jobWorld.None? && snap == map[] {
        return;
      }
      jobs := jobs + [Job(jobWorld, snap, None)];
    }

    /** The leaver's record is marked, its host role cleared, its UDP binding dropped. */
    method Depart(p: PeerId)
      requires p in clients
      modifies this`dirty, this`world, this`udpIndex, this`clients
      ensures St() == S.UnbindUdp(S.Leaving(old(St()), p), p)
    {
      if clients[p].key in players {
        dirty := dirty + {clients[p].key};
      }
      if p == world.hostPeerId {
        world := world.(hostPeerId := 0);
      }
      UnbindUdp(p);
    }

    /** The leaver's connection is kept pending or closed, its entry erased, a host found. */
    method Vacate(c: Client, p: PeerId, keepTcp: bool, now: real) returns (ghost host: PeerId)
      modifies this`pending, this`outbound, this`clients, this`world
      ensures St() == S.Left(old(St()), p, S.LeavePending(old(pending), c, keepTcp, now), host)
      ensures outbound == old(outbound) + S.LeaveCmds(c, p, keepTcp)
      ensures HostChoice(clients, host)
    {
      hide S.FindHost;
      if keepTcp && c.connId != 0 {
        outbound := outbound + [KeepPending(p)];
        pending := pending + [PendingTcp(c.connId, c.tcpAddr, now)];
      } else if c.connId != 0 {
        outbound := outbound + [CloseConn(c.connId)];
      }
      clients := clients - {p};
      host := FindHost();
    }

    /** `remove_client`. */
    method RemoveClient(p: PeerId, keepTcp: bool, now: real) returns (ghost o: S.Oracle)
      modifies this
      ensures Did(S.RemoveClient(old(St()), p, keepTcp, o), old(outbound), old(jobs))
      ensures ValidOrder(o.order, old(clients).Keys) && HostChoice(clients, o.host) && o.now == now
    {
      hide S.FanOut, S.Flush, S.UnbindUdp, S.Leaving, S.Left, S.LeaveCmds, S.LeavePending, ValidOrder, HostChoice;
      if p !in clients {
        o := AnyOracle(clients, now);
        return;
      }
      ghost var order := SendEach(S.ToOthers(p, Bye(p)));
      ghost var host := Withdraw(p, keepTcp, now);
      o := S.Oracle(order, host, now);
    }

    /** Everything `remove_client` does after the Byes. */
    method Withdraw(p: PeerId, keepTcp: bool, now: real) returns (ghost host: PeerId)
      requires p in clients
      modifies this
      ensures var c, s2 := old(clients)[p], S.UnbindUdp(S.Leaving(old(St()), p), p);
              var f := S.Flush(S.Left(s2, p, S.LeavePending(s2.pending, c, keepTcp, now), host));
              && St() == f.0 && jobs == old(jobs) + f.1 && outbound == old(outbound) + S.LeaveCmds(c, p, keepTcp)
      ensures HostChoice(clients, host)
    {
      hide S.Flush, S.UnbindUdp, S.Leaving, S.Left, S.LeaveCmds, S.LeavePending, HostChoice;
      var c := clients[p];
      Depart(p);
      host := Vacate(c, p, keepTcp, now);
      FlushFrame(St());
      Flush();
    }

    /** The ban, if asked for, and the Bye to the victim. */
    method Notice(p: PeerId, ban: bool)
      requires p in clients
      modifies this`banned, this`jobs, this`outbound
      ensures banned == if ban then old(banned) + {clients[p].key} else old(banned)
      ensures jobs == old(jobs) + if ban then [Job(None, map[], Some(banned))] else []
      ensures outbound == old(outbound) + S.SendTcp(clients[p], p, Bye(p))
    {
      if ban {
        banned := banned + {clients[p].key};
        jobs := jobs + [Job(None, map[], Some(banned))];
      }
      SendTcp(p, Bye(p));
    }

    /** The `kick` admin command on the client it matched. */
    method Kick(p: PeerId, ban: bool, now: real) returns (ghost o: S.Oracle)
      requires p in clients
      modifies this
      ensures Did(S.AdminKick(old(St()), p, ban, o), old(outbound), old(jobs))
      ensures ValidOrder(o.order, old(clients).Keys) && HostChoice(clients, o.host)
    {
      hide S.UnbindUdp, S.Leaving, S.Left, S.LeaveCmds, S.SendTcp, ValidOrder, HostChoice;
      var c := clients[p];
      ghost var order := OrderOf(clients.Keys);
      Notice(p, ban);
      Depart(p);
      ghost var host := Vacate(c, p, false, now);
      o := S.Oracle(order, host, now);
    }

    // -------------------------------------------------------------- UDP

    /** The client is bound to `from` and nowhere else. */
    method RebindUdp(p: PeerId, from: Addr, t: real)
      requires p in clients
      modifies this`clients, this`udpIndex
      ensures var s1 := S.UnbindUdp(old(St()), p);
              && p in s1.clients
              && St() == s1.(clients := s1.clients[p := s1.clients[p].(udpAddr := from, udpBound := true, lastSeen := t)],
                             udpIndex := s1.udpIndex[from := p])
      ensures clients.Keys == old(clients).Keys
    {
      hide S.UnbindUdp;
      UnbindFrame(St(), p);
      UnbindUdp(p);
      clients := clients[p := clients[p].(udpAddr := from, udpBound := true, lastSeen := t)];
      udpIndex := udpIndex[from := p];
    }

    /** A UdpBind message. */
    method OnUdpBind(p: PeerId, token: Word32, from: Addr, t: real, now: real) returns (ghost o: S.Oracle)
      modifies this`clients, this`udpIndex, this`outbound
      ensures Did(S.OnUdpBind(old(St()), p, token, from, t, o), old(outbound), old(jobs))
      ensures ValidOrder(o.order, old(clients).Keys) && o.now == now
    {
      hide S.FanOut, S.UnbindUdp, ValidOrder;
      if p !in clients || clients[p].udpToken == 0 || clients[p].udpToken != token {
        o := AnyOracle(clients, now);
        return;
      }
      RebindUdp(p, from, t);
      ghost var order := SendEach(S.PosesOfOthers(p));
      o := S.Oracle(order, 0, now);
    }

    /** `find_by_udp`. */
    method FindByUdp(from: Addr) returns (r: Option<PeerId>)
      modifies this`udpIndex
      ensures (St(), r) == S.FindByUdp(old(St()), from)
    {
      if from !in udpIndex {
        return None;
      }
      if udpIndex[from] !in clients {
        udpIndex := udpIndex - {from};
        return None;
      }
      r := Some(udpIndex[from]);
    }

    /** A pose: the client, its record and, for the host, the world take it over. */
    method TakePose(p: PeerId, pose: Pose)
      requires p in clients
      modifies this`clients, this`players, this`dirty, this`world, this`worldDirty
      ensures St() == S.TakePose(old(St()), p, pose)
    {
      hide S.RecOf;
      RecordPose(p, pose);
      if p == world.hostPeerId {
        var location := if pose.place.location != 0 then pose.place.location else world.host.location;
        world := world.(host := pose.place.(location := location));
        worldDirty := true;
      }
    }

    /** Client and record take over a pose. */
    method RecordPose(p: PeerId, pose: Pose)
      requires p in clients
      modifies this`clients, this`players, this`dirty
      ensures var c := old(clients)[p];
              && clients == old(clients)[p := c.(posesIn := c.posesIn + 1, lastPose := pose, havePose := true)]
              && players == old(players)[c.key := S.RecOf(old(players), c.key).(key := c.key, havePose := true, place := pose.place, yaw := pose.yaw)]
              && dirty == old(dirty) + {c.key}
    {
      var c := clients[p];
      clients := clients[p := c.(posesIn := c.posesIn + 1, lastPose := pose, havePose := true)];
      var rec := S.RecOf(players, c.key);
      rec := rec.(key := c.key, havePose := true, place := pose.place, yaw := pose.yaw);
      players := players[c.key := rec];
      dirty := dirty + {c.key};
    }

    method OnPose(p: PeerId, raw: Pose, t: real, now: real) returns (ghost o: S.Oracle)
      requires p in clients
      modifies this`clients, this`players, this`dirty, this`world, this`worldDirty, this`rates, this`outbound
      ensures Did(S.OnPose(old(St()), p, raw, t, o), old(outbound), old(jobs))
      ensures ValidOrder(o.order, old(clients).Keys) && o.now == now
    {
      hide S.FanOut, S.TakePose, ValidOrder;
      var (b, ok) := AllowRate(rates.pose, p, t, 30);
      rates := rates.(pose := b);
      if !ok {
        o := AnyOracle(clients, now);
        return;
      }
      var pose := raw.(peerId := p);
      TakePoseKeys(St(), p, pose);
      TakePose(p, pose);
      ghost var order := SendEach(S.PoseToInterested(p, pose));
      o := S.Oracle(order, 0, now);
    }

    /** A pose or an actor pose from a bound client. */
    method OnBound(p: PeerId, m: InMsg, t: real, now: real) returns (ghost o: S.Oracle)
      requires p in clients && IsUdpOnly(m) && !m.InUdpBind?
      modifies this
      ensures Did(S.OnBound(old(St()), p, m, t, o), old(outbound), old(jobs))
      ensures ValidOrder(o.order, old(clients).Keys) && o.now == now
    {
      hide S.FanOut, S.OnPose, ValidOrder;
      clients := clients[p := clients[p].(lastSeen := t)];
      assert clients.Keys == old(clients).Keys;
      o := AnyOracle(clients, now);
      if m.InPlayerPose? {
        o := OnPose(p, m.pose, t, now);
      } else if p == world.hostPeerId {
        ghost var order := SendEach(S.ActorToInterested(p, m.actor));
        o := S.Oracle(order, 0, now);
      }
    }

    /** `handle_udp_packet`. */
    method HandleUdpPacket(from: Addr, m: InMsg, t: real, now: real) returns (ghost o: S.Oracle)
      modifies this
      ensures Did(S.HandleUdp(old(St()), from, m, t, o), old(outbound), old(jobs))
      ensures ValidOrder(o.order, old(clients).Keys) && o.now == now
    {
      hide S.OnBound, S.OnUdpBind, ValidOrder;
      o := AnyOracle(clients, now);
      if m.InUdpBind? {
        o := OnUdpBind(m.peer, m.token, from, t, now);
      } else if IsUdpOnly(m) {
        var who := FindByUdp(from);
        if who.Some? {
          o := OnBound(who.value, m, t, now);
        }
      }
    }

    // -------------------------------------------------------------- TCP messages of live clients

    /** `make_udp_token`. */
    method MakeUdpToken() returns (token: Word32)
      modifies this`tokenSeed
      ensures token == tokenSeed == S.NextToken(old(tokenSeed))
    {
      tokenSeed := (tokenSeed as int * 1664525 + 1013904223) % 0x1_0000_0000;
      if tokenSeed == 0 {
        tokenSeed := 1;
      }
      token := tokenSeed;
    }

    /** A new token for a client; its old UDP binding goes. */
    method Retoken(p: PeerId)
      requires p in clients
      modifies this`tokenSeed, this`clients, this`udpIndex
      ensures St() == S.Retoken(old(St()), p)
    {
      hide S.UnbindUdp, S.NextToken;
      var token := MakeUdpToken();
      clients := clients[p := clients[p].(udpToken := token)];
      UnbindUdp(p);
    }

    method HelloAgain(p: PeerId)
      requires p in clients
      modifies this`tokenSeed, this`clients, this`udpIndex, this`players, this`outbound
      ensures Did(S.HelloAgain(old(St()), p), old(outbound), old(jobs))
    {
      hide S.Retoken, S.SendTcp;
      RetokenFrame(St(), p);
      Retoken(p);
      var k := clients[p].key;
      players := players[k := S.RecOf(players, k)];
      SendTcp(p, Welcome(p, !players[k].havePose, p == world.hostPeerId, S.SessionFlags(cfg), clients[p].udpToken));
    }

    method HostSnapshot(p: PeerId, m: InMsg)
      requires m.InWorldSnapshot?
      modifies this`world, this`worldDirty
      ensures St() == S.HostSnapshot(old(St()), p, m)
    {
      if p == world.hostPeerId {
        var location := if m.host.location != 0 then m.host.location else world.host.location;
        world := world.(gameHour := m.gameHour, gameDaysPassed := m.gameDaysPassed, weatherFormId := m.weatherFormId,
                        host := m.host.(location := location));
        worldDirty := true;
      }
    }

    method KeepBlob(p: PeerId, kind: BlobKind, blob: seq<Byte>)
      requires p in clients
      modifies this`clients, this`players, this`dirty
      ensures St() == S.KeepBlob(old(St()), p, kind, blob)
    {
      var c := clients[p];
      var rec := S.RecOf(players, c.key).(key := c.key);
      if kind.Appearance? {
        rec := rec.(appearance := blob);
        clients := clients[p := c.(appearance := blob)];
      } else {
        rec := rec.(inventory := blob);
        clients := clients[p := c.(inventory := blob)];
      }
      players := players[c.key := rec];
      dirty := dirty + {rec.key};
    }

    method SetAsm(kind: BlobKind, table: map<PeerId, Assembly>)
      modifies this`appearAsm, this`invAsm
      ensures St() == S.WithAsm(old(St()), kind, table)
    {
      if kind.Appearance? {
        appearAsm := table;
      } else {
        invAsm := table;
      }
    }

    /** A finished blob: its assembly goes, record and client take it, the others get it. */
    method FinishBlob(p: PeerId, kind: BlobKind, table: map<PeerId, Assembly>, blob: seq<Byte>) returns (ghost order: seq<PeerId>)
      requires p in clients
      modifies this`appearAsm, this`invAsm, this`clients, this`players, this`dirty, this`outbound
      ensures St() == S.KeepBlob(S.WithAsm(old(St()), kind, table), p, kind, blob)
      ensures outbound == old(outbound) + S.FanOut(clients, cfg.interestUu, S.BlobToOthers(p, kind, blob), order)
      ensures ValidOrder(order, old(clients).Keys)
    {
      hide S.FanOut, S.KeepBlob, S.WithAsm, ValidOrder;
      WithAsmFrame(St(), kind, table);
      SetAsm(kind, table);
      KeepBlobKeys(St(), p, kind, blob);
      KeepBlob(p, kind, blob);
      order := SendEach(S.BlobToOthers(p, kind, blob));
    }

    /** `take_blob` on the client's assembly, and what follows when it completes. */
    method TakeChunk(p: PeerId, kind: BlobKind, datagram: seq<Byte>, now: real) returns (ghost o: S.Oracle)
      requires p in clients && S.AsmOk(appearAsm) && S.AsmOk(invAsm)
      modifies this
      ensures Did(S.TakeChunk(old(St()), p, kind, datagram, o), old(outbound), old(jobs))
      ensures ValidOrder(o.order, old(clients).Keys) && o.now == now
    {
      hide S.FanOut, Accept, S.KeepBlob, S.WithAsm, ValidOrder, ValidAssembly;
      o := AnyOracle(clients, now);
      var table := if kind.Appearance? then appearAsm else invAsm;
      var asm, status := AssembleBlobChunk(S.AsmOf(table, p), datagram);
      if !status.Complete? {
        SetAsm(kind, table[p := asm]);
      } else {
        ghost var order := FinishBlob(p, kind, table - {p}, status.blob);
        o := S.Oracle(order, 0, now);
      }
    }

    method OnBlob(p: PeerId, kind: BlobKind, datagram: seq<Byte>, t: real, now: real) returns (ghost o: S.Oracle)
      requires p in clients && S.AsmOk(appearAsm) && S.AsmOk(invAsm)
      modifies this
      ensures Did(S.OnBlob(old(St()), p, kind, datagram, t, o), old(outbound), old(jobs))
      ensures ValidOrder(o.order, old(clients).Keys) && o.now == now
    {
      hide S.TakeChunk, ValidOrder;
      var (b, ok) := AllowRate(rates.blob, p, t, 64);
      rates := rates.(blob := b);
      if ok {
        o := TakeChunk(p, kind, datagram, now);
      } else {
        o := AnyOracle(clients, now);
      }
    }

    method OnHit(p: PeerId, m: InMsg, t: real, now: real) returns (ghost o: S.Oracle)
      requires m.InHit?
      modifies this`rates, this`outbound
      ensures Did(S.OnHit(old(St()), p, m, t, o), old(outbound), old(jobs))
      ensures ValidOrder(o.order, old(clients).Keys) && o.now == now
    {
      hide S.FanOut, ValidOrder;
      o := AnyOracle(clients, now);
      if !cfg.pvp {
        return;
      }
      var (b, ok) := AllowRate(rates.hit, p, t, 24);
      rates := rates.(hit := b);
      if !ok {
        return;
      }
      if m.attacker != p || m.target == 0 || m.target == m.attacker {
        return;
      }
      var damage := S.ClampHitDamage(m.damage);
      if damage <= 0.0 {
        return;
      }
      ghost var order := SendEach(S.ToOne(m.target, Hit(m.attacker, m.target, damage, m.hitFlags)));
      o := S.Oracle(order, 0, now);
    }

    method OnChat(p: PeerId, text: string, t: real, now: real) returns (ghost o: S.Oracle)
      modifies this`rates, this`outbound
      ensures Did(S.OnChat(old(St()), p, text, t, o), old(outbound), old(jobs))
      ensures ValidOrder(o.order, old(clients).Keys) && o.now == now
    {
      hide S.FanOut, ValidOrder;
      var (b, ok) := AllowRate(rates.chat, p, t, 4);
      rates := rates.(chat := b);
      if !ok {
        o := AnyOracle(clients, now);
        return;
      }
      ghost var order := SendEach(S.ToOthers(p, Chat(p, text)));
      o := S.Oracle(order, 0, now);
    }

    method FromHost(p: PeerId, target: PeerId, m: OutMsg, now: real) returns (ghost o: S.Oracle)
      modifies this`outbound
      ensures Did(S.FromHost(old(St()), p, target, m, o), old(outbound), old(jobs))
      ensures ValidOrder(o.order, old(clients).Keys) && o.now == now
    {
      hide S.FanOut, ValidOrder;
      if p != world.hostPeerId {
        o := AnyOracle(clients, now);
        return;
      }
      ghost var order := SendEach(S.ToOne(target, m));
      o := S.Oracle(order, 0, now);
    }

    method Relay(p: PeerId, m: InMsg, t: real, now: real) returns (ghost o: S.Oracle)
      requires p in clients
      modifies this
      ensures Did(S.Relay(old(St()), p, m, t, o), old(outbound), old(jobs))
      ensures ValidOrder(o.order, old(clients).Keys) && o.now == now
    {
      hide S.FanOut, S.OnHit, S.OnChat, S.FromHost, S.HostSnapshot, ValidOrder, S.Relay, S.SendTcp;
      ghost var s := St();
      if m.InWorldSnapshot? {
        HostSnapshotKeys(St(), p, m);
        HostSnapshot(p, m);
        o := AnyOracle(clients, now);
      } else if m.InHeartbeat? {
        SendTcp(p, Heartbeat(p, m.stampMs));
        o := AnyOracle(clients, now);
      } else if m.InChat? {
        o := OnChat(p, m.text, t, now);
      } else if m.InKick? {
        o := FromHost(p, m.target, OutMsg.Kick(m.target, m.reason), now);
      } else if m.InTeleport? {
        o := FromHost(p, m.target, Teleport(m.target, m.place), now);
      } else if m.InHit? {
        o := OnHit(p, m, t, now);
      } else {
        o := AnyOracle(clients, now);
      }
      RelayIs(s, p, m, t, o);
    }

    /** `handle_tcp_message`, with the removal it asks for. */
    method HandleTcpMessage(p: PeerId, m: InMsg, t: real, now: real) returns (ghost o: S.Oracle)
      requires p in clients && S.AsmOk(appearAsm) && S.AsmOk(invAsm)
      modifies this
      ensures Did(S.HandleTcp(old(St()), p, m, t, o), old(outbound), old(jobs))
      ensures ValidOrder(o.order, old(clients).Keys) && o.now == now
      ensures m.InBye? ==> HostChoice(old(clients) - {p}, o.host)
    {
      hide S.RemoveClient, S.HelloAgain, S.OnBlob, S.Relay, ValidOrder, HostChoice;
      if m.BadHeader? || IsUdpOnly(m) {
        o := AnyOracle(clients, now);
        return;
      }
      clients := clients[p := clients[p].(lastSeen := t)];
      assert clients.Keys == old(clients).Keys && clients - {p} == old(clients) - {p};
      if m.InBye? {
        RemoveShape(St(), p, true, S.Oracle([], 0, now));
        ghost var s1 := St();
        o := RemoveClient(p, true, now);
        RemoveShape(s1, p, true, o);
      } else if m.InHello? {
        HelloAgain(p);
        o := AnyOracle(old(clients), now);
      } else if m.InBlob? {
        o := OnBlob(p, m.kind, m.datagram, t, now);
      } else {
        o := Relay(p, m, t, now);
      }
    }

    // -------------------------------------------------------------- the pending list

    /** `remove_if` on the pending list. */
    method Erase(c: ConnId)
      modifies this`pending
      ensures pending == S.Without(old(pending), c)
    {
      var out: seq<PendingTcp> := [];
      var i := 0;
      while i < |pending|
        invariant 0 <= i <= |pending|
        invariant out == S.Without(pending[..i], c)
      {
        assert pending[..i + 1][..i] == pending[..i];
        if pending[i].connId != c {
          out := out + [pending[i]];
        }
        i := i + 1;
      }
      assert pending[..i] == pending;
      pending := out;
    }

    /** The handed-over entry is zeroed, then every zeroed entry is erased. */
    method HandOver(i: nat)
      requires i < |pending| && PendingDistinct(pending)
      modifies this`pending
      ensures pending == S.Without(old(pending), old(pending)[i].connId)
    {
      ghost var c := pending[i].connId;
      WithoutAt(pending, i);
      pending := pending[i := pending[i].(connId := 0)];
      WithoutAt(pending, i);
      assert pending[..i] + pending[i + 1..] == old(pending)[..i] + old(pending)[i + 1..];
      Erase(0);
    }

    // -------------------------------------------------------------- joining

    /** The gates that look at the Hello and the configuration only. */
    method TryStaticGates(h: Hello) returns (r: Option<RejectReason>)
      ensures r == S.StaticGate(St(), h)
    {
      hide S.SanitizeKey;
      if h.protocol != HELLO_PROTOCOL || h.headerVersion != HELLO_PROTOCOL {
        return Some(Protocol);
      }
      if h.pluginVersion != PLUGIN_VERSION {
        return Some(PluginVersion);
      }
      if !h.inWorld {
        return Some(NotInWorld);
      }
      var key := S.SanitizeKey(h.playerKey);
      if key in banned {
        return Some(Banned);
      }
      if cfg.password != "" {
        if h.password == "" {
          return Some(Password);
        }
        if cfg.password != h.password {
          return Some(Password);
        }
      }
      if modHash != 0 && h.modHash != modHash {
        return Some(ModMismatch);
      }
      r := None;
    }

    /** The host lookup; in reachable states it changes nothing. */
    method LookUpHost(ghost o: S.Oracle) returns (live: bool)
      requires Inv(St())
      modifies this`world
      ensures St() == old(St()) == S.WithHost(St(), o) && live == S.LiveHost(St())
    {
      hide Inv, S.FindHost;
      HostLookupIdle(St(), o);
      ghost var choice := FindHost();
      HostLookupIdle(old(St()), S.Oracle([], choice, 0.0));
      live := world.hostPeerId in clients && clients[world.hostPeerId].havePose && world.hostPeerId != 0;
    }

    /** All gates of a Hello; nothing changes while they are tried. */
    method TryGates(h: Hello, ghost o: S.Oracle) returns (r: Option<RejectReason>)
      requires Inv(St())
      modifies this`world
      ensures St() == old(St()) && r == S.Gate(St(), h, o)
    {
      hide Inv, S.SanitizeKey, S.WithHost, S.LiveHost, S.StaticGate;
      KeysOf(St());
      r := TryStaticGates(h);
      if r.Some? {
        return;
      }
      if h.requireHost {
        var live := LookUpHost(o);
        if !live {
          return Some(NoHost);
        }
        if world.host.location != COMMONWEALTH {
          return Some(HostNotStreaming);
        }
      }
      var same := FindByKey(S.SanitizeKey(h.playerKey));
      if same.None? && |clients| >= cfg.maxPlayers {
        return Some(Full);
      }
    }

    method Enroll(h: Hello)
      modifies this`players, this`world, this`worldDirty
      ensures St() == S.Enroll(old(St()), h)
    {
      hide S.SanitizeKey;
      var k := S.SanitizeKey(h.playerKey);
      var rec := S.RecOf(players, k).(key := k);
      if rec.name == "" {
        rec := rec.(name := if h.name != "" then h.name else "player");
      }
      players := players[k := rec];
      if !world.created {
        world := world.(created := true);
        worldDirty := true;
      }
    }

    /** `bind_peer` and `close_conn`. */
    method BindPeer(conn: ConnId, p: PeerId)
      modifies this`outbound
      ensures outbound == old(outbound) + S.BindCmd(conn, p)
    {
      if conn == 0 || p == 0 {
        return;
      }
      outbound := outbound + [Cmd.BindPeer(conn, p)];
    }

    /** The connection a returning client leaves behind is closed. */
    method CloseOld(held: ConnId, conn: ConnId)
      modifies this`outbound
      ensures outbound == old(outbound) + if held != 0 && held != conn then [CloseConn(held)] else []
    {
      if held != 0 && held != conn {
        outbound := outbound + [CloseConn(held)];
      }
    }

    /** The soft reconnect branch. */
    method Reattach(p: PeerId, conn: ConnId, addr: Addr, h: Hello, t: real)
      requires p in clients
      modifies this`clients, this`udpIndex, this`tokenSeed, this`outbound
      ensures Did(S.Reattach(old(St()), p, conn, addr, h, t), old(outbound), old(jobs))
    {
      hide S.UnbindUdp, S.SanitizeKey, S.NextToken, S.Refreshed, S.BindCmd;
      var rec := S.RecOf(players, S.SanitizeKey(h.playerKey));
      UnbindFrame(St(), p);
      UnbindUdp(p);
      var c := clients[p];
      CloseOld(c.connId, conn);
      var token := MakeUdpToken();
      var c' := Refresh(c, rec, p, conn, addr, h, t, token);
      clients := clients[p := c'];
      BindPeer(conn, p);
    }

    /** The record of a new client, with the next peer id and a new token. */
    method MakeClient(conn: ConnId, addr: Addr, h: Hello, t: real) returns (p: PeerId, c: Client)
      modifies this`nextPeer, this`tokenSeed
      ensures p == old(nextPeer) && nextPeer == p + 1 && tokenSeed == S.NextToken(old(tokenSeed))
      ensures c == S.NewClient(old(St()), conn, addr, h, t)
    {
      hide S.SanitizeKey, S.NextToken;
      p := nextPeer;
      nextPeer := nextPeer + 1;
      var k := S.SanitizeKey(h.playerKey);
      var rec := S.RecOf(players, k);
      var token := MakeUdpToken();
      var pose := if !rec.havePose then S.MakePose(p, world.spawn, 0.0) else S.MakePose(p, rec.place, rec.yaw);
      c := Client(conn, addr, 0, false, token, k, if h.name != "" then h.name else rec.name, t, 0,
                  pose, true, rec.appearance, rec.inventory);
    }

    /** The branch for a new client, past the unreachable late fallback. */
    method AddClient(conn: ConnId, addr: Addr, h: Hello, t: real)
      modifies this`clients, this`nextPeer, this`tokenSeed, this`world, this`outbound
      ensures Did(S.AddClient(old(St()), conn, addr, h, t), old(outbound), old(jobs))
    {
      hide S.NewClient, S.NextToken, S.BindCmd;
      var p, c := MakeClient(conn, addr, h, t);
      clients := clients[p := c];
      if world.hostPeerId == 0 {
        world := world.(hostPeerId := p);
      }
      BindPeer(conn, p);
    }

    method HostHello(p: PeerId, h: Hello)
      modifies this`world, this`worldDirty, this`modHash
      ensures St() == S.HostHello(old(St()), p, h)
    {
      if p == world.hostPeerId {
        var location := if h.place.location != 0 then h.place.location else world.host.location;
        world := world.(gameHour := h.gameHour, gameDaysPassed := h.gameDaysPassed, weatherFormId := h.weatherFormId,
                        host := h.place.(location := location));
        worldDirty := true;
        if modHash == 0 && h.modHash != 0 {
          modHash := h.modHash;
        }
      }
    }

    method PlaceFor(rec: PlayerRec, isNew: bool, requireHost: bool) returns (at: Place)
      ensures at == S.PlaceFor(St(), rec, isNew, requireHost)
    {
      at := world.host;
      if requireHost {
        at := at.(x := at.x + GUEST_OFFSET_X);
      } else if !isNew && rec.havePose && rec.place.location != 0 && rec.place.location == world.host.location {
        at := rec.place;
      }
    }

    /** Welcome, world snapshot, and what the others look like. */
    method Greet(p: PeerId, isNew: bool, requireHost: bool, now: real) returns (ghost o: S.Oracle)
      requires p in clients
      modifies this`outbound
      ensures outbound == old(outbound) + S.Greet(St(), p, isNew, requireHost, o)
      ensures ValidOrder(o.order, clients.Keys) && o.now == now
    {
      hide S.FanOut, ValidOrder, S.PlaceFor, S.SendTcp, S.RecOf;
      var c := clients[p];
      SendTcp(p, Welcome(p, isNew, p == world.hostPeerId, S.SessionFlags(cfg), c.udpToken));
      var at := PlaceFor(S.RecOf(players, c.key), isNew, requireHost);
      SendTcp(p, WorldSnapshot(world, at, isNew));
      ghost var order := SendEach(S.CatchUp(p));
      o := S.Oracle(order, 0, now);
    }

    /** Seating a Hello that passed its gates: re-attach or add, then hand the connection over. */
    method Seat(i: nat, h: Hello, t: real) returns (p: PeerId)
      requires Inv(St()) && i < |pending|
      requires S.SanitizeKey(h.playerKey) in players
      modifies this`clients, this`udpIndex, this`tokenSeed, this`nextPeer, this`world, this`outbound, this`pending
      ensures var s, conn := old(St()), old(pending)[i].connId;
              var same := S.ByKey(s.clients, S.SanitizeKey(h.playerKey));
              var e := if same.Some? then S.Reattach(s, same.value, conn, old(pending)[i].addr, h, t)
                       else S.AddClient(s, conn, old(pending)[i].addr, h, t);
              && p == (if same.Some? then same.value else s.nextPeer)
              && St() == e.state.(pending := S.Without(s.pending, conn))
              && outbound == old(outbound) + e.cmds
    {
      hide Inv, S.SanitizeKey, S.Reattach, S.AddClient;
      KeysOf(St());
      var entry := pending[i];
      var same := FindByKey(S.SanitizeKey(h.playerKey));
      if same.Some? {
        p := same.value;
        ReattachFrame(St(), p, entry.connId, entry.addr, h, t);
        Reattach(p, entry.connId, entry.addr, h, t);
      } else {
        p := nextPeer;
        AddFrame(St(), entry.connId, entry.addr, h, t);
        AddClient(entry.connId, entry.addr, h, t);
      }
      HandOver(i);
    }

    method WelcomeClient(p: PeerId, h: Hello, isNew: bool, now: real) returns (ghost o: S.Oracle)
      requires p in clients
      modifies this`world, this`worldDirty, this`modHash, this`outbound
      ensures St() == S.HostHello(old(St()), p, h) && p in clients
      ensures outbound == old(outbound) + S.Greet(St(), p, isNew, h.requireHost, o)
      ensures ValidOrder(o.order, clients.Keys) && o.now == now
    {
      hide S.HostHello, S.Greet, ValidOrder;
      HostHelloFrame(St(), p, h);
      HostHello(p, h);
      o := Greet(p, isNew, h.requireHost, now);
    }

    /** A Hello that passed every gate. */
    method Admit(i: nat, h: Hello, t: real, now: real) returns (ghost o: S.Oracle)
      requires Inv(St()) && i < |pending|
      requires forall o': S.Oracle :: S.Gate(St(), h, o').None?
      modifies this
      ensures Did(S.Admit(old(St()), old(pending)[i].connId, old(pending)[i].addr, h, t, o), old(outbound), old(jobs))
      ensures ValidOrder(o.order, clients.Keys) && o.now == now
    {
      hide Inv, S.Gate, S.SanitizeKey, S.Enroll, S.Reattach, S.AddClient, S.HostHello, S.Greet, ValidOrder, S.RecOf, S.ByKey, S.LateNoHost, S.Without;
      ghost var s := St();
      var isNew := !S.RecOf(players, S.SanitizeKey(h.playerKey)).havePose;
      EnrollKeepsInv(s, h);
      EnrollFrame(s, h);
      Enroll(h);
      if h.requireHost {
        LateFallbackUnreachable(s, h, S.Oracle([], 0, now));
      }
      assert IsPending(pending, pending[i].connId);
      SeatInv(St(), pending[i].connId, pending[i].addr, h, t);
      var p := Seat(i, h, t);
      o := WelcomeClient(p, h, isNew, now);
    }

    // -------------------------------------------------------------- pending connections

    /** `SessionQuery`. */
    method Query(conn: ConnId, ghost o: S.Oracle)
      requires Inv(St())
      modifies this`world, this`outbound
      ensures Did(S.Query(old(St()), conn, o), old(outbound), old(jobs))
    {
      hide Inv, S.FindHost;
      var have := LookUpHost(o);
      var interior := have && world.host.location != 0 && world.host.location != COMMONWEALTH;
      outbound := outbound + [TcpSend(conn, 0, SessionInfo(if have then world.hostPeerId else 0,
                                                          if have then world.host else Place(0, 0.0, 0.0, 0.0),
                                                          |clients|, have, interior,
                                                          cfg.name, cfg.maxPlayers, cfg.motd, S.SessionFlags(cfg)))];
    }

    /** A Hello on a pending connection, after its rate check. */
    method OnHello(i: nat, h: Hello, t: real, now: real) returns (ghost o: S.Oracle)
      requires Inv(St()) && i < |pending|
      modifies this
      ensures Did(S.OnHello(old(St()), old(pending)[i].connId, old(pending)[i].addr, h, t, o), old(outbound), old(jobs))
      ensures S.Gate(old(St()), h, o).Some? ==> ValidOrder(o.order, old(clients).Keys)
      ensures S.Gate(old(St()), h, o).None? ==> ValidOrder(o.order, clients.Keys)
      ensures o.now == now
    {
      hide Inv, S.Gate, S.Admit, ValidOrder;
      ghost var s := St();
      o := AnyOracle(clients, now);
      var conn := pending[i].connId;
      var r := TryGates(h, o);
      HostLookupIdle(s, o);
      forall o': S.Oracle ensures S.Gate(s, h, o') == S.Gate(s, h, o) { GateAnyOracle(s, h, o, o'); }
      if r.Some? {
        outbound := outbound + [TcpSend(conn, 0, Reject(r.value))];
        return;
      }
      o := Admit(i, h, t, now);
      HostLookupIdle(s, o);
    }

    /** `handle_pending_message`. */
    method HandlePendingMessage(i: nat, m: InMsg, t: real, now: real) returns (ghost o: S.Oracle)
      requires Inv(St()) && i < |pending|
      modifies this
      ensures Did(S.HandlePending(old(St()), old(pending)[i], m, t, o), old(outbound), old(jobs))
      ensures ValidOrder(o.order, if m.InHello? && AllowRate(old(rates).hello, old(pending)[i].addr, t, 2).1
                                     && S.Gate(old(St()), m.hello, o).None? then clients.Keys else old(clients).Keys)
      ensures o.now == now
    {
      hide Inv, S.OnHello, S.Query, S.Gate, ValidOrder;
      ghost var s := St();
      o := AnyOracle(clients, now);
      var addr := pending[i].addr;
      if m.InSessionQuery? {
        var (q, ok) := AllowRate(rates.query, addr, t, 4);
        rates := rates.(query := q);
        InvFrame(s, St());
        if !ok {
          return;
        }
        Query(pending[i].connId, o);
      } else if m.InHello? {
        var (q, ok) := AllowRate(rates.hello, addr, t, 2);
        rates := rates.(hello := q);
        InvFrame(s, St());
        if !ok {
          return;
        }
        ghost var rates1 := rates;
        o := OnHello(i, m.hello, t, now);
        GateIgnoresRates(s, rates1, m.hello, o);
      }
    }

    // -------------------------------------------------------------- events and ticks

    /** A frame whose tag names no live client: by pending connection, else by owner. */
    method OnUntagged(conn: ConnId, peer: PeerId, m: InMsg, t: real, now: real) returns (ghost o: S.Oracle)
      requires Inv(St()) && !(peer != 0 && peer in clients)
      modifies this
      ensures Did(S.OnFrame(old(St()), conn, peer, m, t, o), old(outbound), old(jobs))
      ensures ValidOrder(o.order, Visited(old(St()), S.Step(S.Net(TcpFrame(conn, peer, m)), t, o)))
      ensures HostAtHand(old(St()), S.Net(TcpFrame(conn, peer, m)), o)
    {
      hide Inv, S.HandleTcp, S.HandlePending, ValidOrder, HostChoice, Visited, HostAtHand, S.FindPending, S.OwnerOf, S.Gate, AllowRate,
           ConnsDistinct, KeysDistinct, PendingDistinct, S.AsmOk;
      ghost var s := St();
      InvAsm(s);
      KeysOf(s);
      var i := FindPending(conn);
      if i >= 0 {
        o := HandlePendingMessage(i, m, t, now);
        VisitedPending(s, conn, peer, m, t, o, St());
      } else {
        var owner := FindByConn(conn);
        if owner.Some? {
          o := HandleTcpMessage(owner.value, m, t, now);
        } else {
          o := AnyOracle(clients, now);
        }
        VisitedLive(s, conn, peer, m, t, o);
      }
      FrameHost(s, conn, peer, m, o);
    }

    /** A `TcpFrame` event: first by the peer it is tagged with. */
    method OnFrame(conn: ConnId, peer: PeerId, m: InMsg, t: real, now: real) returns (ghost o: S.Oracle)
      requires Inv(St())
      modifies this
      ensures Did(S.OnFrame(old(St()), conn, peer, m, t, o), old(outbound), old(jobs))
      ensures ValidOrder(o.order, Visited(old(St()), S.Step(S.Net(TcpFrame(conn, peer, m)), t, o)))
      ensures HostAtHand(old(St()), S.Net(TcpFrame(conn, peer, m)), o)
    {
      hide Inv, S.HandleTcp, S.HandlePending, ValidOrder, HostChoice, Visited, HostAtHand, S.FindPending, S.OwnerOf, S.AsmOk;
      ghost var s := St();
      InvAsm(s);
      if peer != 0 && peer in clients {
        o := HandleTcpMessage(peer, m, t, now);
        VisitedLive(s, conn, peer, m, t, o);
        FrameHost(s, conn, peer, m, o);
      } else {
        o := OnUntagged(conn, peer, m, t, now);
      }
    }

    /** A `TcpClosed` event. */
    method OnClosed(conn: ConnId, peer: PeerId, now: real) returns (ghost o: S.Oracle)
      requires Inv(St())
      modifies this
      ensures Did(S.OnClosed(old(St()), conn, peer, o), old(outbound), old(jobs))
      ensures ValidOrder(o.order, old(clients).Keys) && HostAtHand(old(St()), S.Net(TcpClosed(conn, peer)), o)
    {
      hide Inv, S.RemoveClient, S.Without, ValidOrder, HostChoice;
      ghost var s := St();
      KeysOf(s);
      Erase(conn);
      ghost var s1 := St();
      if peer != 0 {
        o := RemoveClient(peer, false, now);
        if peer in s1.clients { RemoveShape(s1, peer, false, o); }
        return;
      }
      var owner := FindByConn(conn);
      if owner.None? {
        o := AnyOracle(clients, now);
        return;
      }
      o := RemoveClosed(owner.value, now);
    }

    /** A client whose connection is gone already is removed without closing it. */
    method RemoveClosed(p: PeerId, now: real) returns (ghost o: S.Oracle)
      requires p in clients
      modifies this
      ensures var s := old(St());
              Did(S.RemoveClient(s.(clients := s.clients[p := s.clients[p].(connId := 0)]), p, false, o), old(outbound), old(jobs))
      ensures ValidOrder(o.order, old(clients).Keys) && HostChoice(old(clients) - {p}, o.host)
    {
      hide S.RemoveClient, ValidOrder, HostChoice;
      ghost var s := St();
      clients := clients[p := clients[p].(connId := 0)];
      assert clients.Keys == s.clients.Keys && clients - {p} == s.clients - {p};
      ghost var s2 := St();
      o := RemoveClient(p, false, now);
      RemoveShape(s2, p, false, o);
    }

    /** `apply_inbound`: the event does exactly what the state machine's step does, and the
        invariant holds afterwards. */
    method ApplyInbound(ev: NetEvent, t: real, now: real) returns (ghost o: S.Oracle)
      requires Inv(St()) && FreshAccept(St(), S.Net(ev))
      modifies this
      ensures Enabled(old(St()), S.Step(S.Net(ev), t, o))
      ensures Did(S.Apply(old(St()), S.Step(S.Net(ev), t, o)), old(outbound), old(jobs))
      ensures Inv(St())
    {
      hide Inv, S.OnFrame, S.OnClosed, S.HandleUdp, ValidOrder, HostChoice, FreshAccept, S.FindPending;
      ghost var s := St();
      InvAsm(s);
      match ev {
        case TcpAccept(conn, addr) =>
          o := AnyOracle(clients, now);
          pending := pending + [PendingTcp(conn, addr, t)];
        case TcpFrame(conn, peer, m) =>
          o := OnFrame(conn, peer, m, t, now);
        case TcpClosed(conn, peer) =>
          o := OnClosed(conn, peer, now);
        case UdpDatagram(from, m) =>
          o := HandleUdpPacket(from, m, t, now);
      }
      StepKeepsInv(s, S.Step(S.Net(ev), t, o));
    }

    /** `expire_pending`: a run of pending timeouts, after which nothing is overdue. */
    method ExpirePending(t: real) returns (ghost steps: seq<S.Step>)
      requires Inv(St())
      modifies this`pending, this`outbound
      ensures Run(old(St()), steps) && St() == After(old(St()), steps)
      ensures outbound == old(outbound) + CmdsOf(old(St()), steps)
      ensures forall i :: 0 <= i < |steps| ==> steps[i].event.PendingTimeout?
      ensures forall i :: 0 <= i < |pending| ==> t - pending[i].connectedAt <= PENDING_TIMEOUT
    {
      hide Inv, Run, After, CmdsOf, ValidOrder, S.Apply;
      ghost var s := St();
      steps := [];
      RunNone(s);
      var i := 0;
      while i < |pending|
        invariant 0 <= i <= |pending| && Inv(St())
        invariant Run(s, steps) && St() == After(s, steps)
        invariant outbound == old(outbound) + CmdsOf(s, steps)
        invariant forall j :: 0 <= j < |steps| ==> steps[j].event.PendingTimeout?
        invariant forall j :: 0 <= j < i ==> t - pending[j].connectedAt <= PENDING_TIMEOUT
        decreases |pending| - i
      {
        if t - pending[i].connectedAt > PENDING_TIMEOUT {
          ghost var step := TimeoutStep(St(), i, t);
          RunSnoc(s, steps, step);
          outbound := outbound + [CloseConn(pending[i].connId)];
          pending := pending[..i] + pending[i + 1..];
          steps := steps + [step];
        } else {
          i := i + 1;
        }
      }
    }

    /** `expire_clients`: a run of client timeouts, one for each client that was overdue. */
    method ExpireClients(t: real, now: real) returns (ghost steps: seq<S.Step>)
      requires Inv(St())
      modifies this
      ensures Run(old(St()), steps) && St() == After(old(St()), steps) && Inv(St())
      ensures outbound == old(outbound) + CmdsOf(old(St()), steps) && jobs == old(jobs) + JobsOf(old(St()), steps)
      ensures forall i :: 0 <= i < |steps| ==> steps[i].event.ClientTimeout?
      ensures clients == map p | p in old(clients) && t - old(clients)[p].lastSeen <= CLIENT_TIMEOUT :: old(clients)[p]
    {
      hide Inv, Run, After, CmdsOf, JobsOf, ValidOrder, HostChoice, S.RemoveClient, Enabled, S.Apply;
      ghost var s := St();
      var dead := set p | p in clients && t - clients[p].lastSeen > CLIENT_TIMEOUT;
      steps := [];
      RunNone(s);
      assert clients == s.clients - (dead - dead);
      ghost var gone: set<PeerId> := {};
      while dead != {}
        invariant Inv(St()) && dead !! gone && clients == s.clients - gone
        invariant dead + gone == set p | p in s.clients && t - s.clients[p].lastSeen > CLIENT_TIMEOUT
        invariant Run(s, steps) && St() == After(s, steps)
        invariant outbound == old(outbound) + CmdsOf(s, steps) && jobs == old(jobs) + JobsOf(s, steps)
        invariant forall j :: 0 <= j < |steps| ==> steps[j].event.ClientTimeout?
        decreases dead
      {
        var p :| p in dead;
        ghost var s1 := St();
        ghost var o := RemoveClient(p, false, now);
        ghost var step := S.Step(S.ClientTimeout(p), t, o);
        ClientTimeoutStep(s1, p, t, o);
        RunSnoc(s, steps, step);
        steps := steps + [step];
        dead := dead - {p};
        gone := gone + {p};
      }
    }
  }

  /** The relay, message by message. */
  lemma RelayIs(s: S.State, p: PeerId, m: InMsg, t: real, o: S.Oracle)
    requires p in s.clients
    ensures S.Relay(s, p, m, t, o)
         == if m.InWorldSnapshot? then S.Quiet(S.HostSnapshot(s, p, m))
            else if m.InHeartbeat? then S.Effect(s, S.SendTcp(s.clients[p], p, Heartbeat(p, m.stampMs)), [])
            else if m.InChat? then S.OnChat(s, p, m.text, t, o)
            else if m.InKick? then S.FromHost(s, p, m.target, OutMsg.Kick(m.target, m.reason), o)
            else if m.InTeleport? then S.FromHost(s, p, m.target, Teleport(m.target, m.place), o)
            else if m.InHit? then S.OnHit(s, p, m, t, o)
            else S.Quiet(s)
  {
    hide S.OnChat, S.OnHit, S.FromHost, S.HostSnapshot, S.SendTcp;
  }

  lemma NotSent(c: Client, p: PeerId, kind: BlobKind, from: PeerId, blob: seq<Byte>)
    requires !Splittable(blob)
    ensures S.SendBlob(c, p, kind, from, blob) == []
  {
  }

  /** Some choices that any step without a loop and without a leaver could have made. */
  lemma AnyOracle(clients: map<PeerId, Client>, now: real) returns (o: S.Oracle)
    ensures ValidOrder(o.order, clients.Keys) && HostChoice(clients, o.host) && o.now == now
  {
    var order := OrderOf(clients.Keys);
    var host := 0;
    if clients != map[] {
      assert clients.Keys != {};
      host :| host in clients.Keys;
    }
    o := S.Oracle(order, host, now);
  }

  lemma EmptyOrder(keys: set<PeerId>)
    requires keys == {}
    ensures ValidOrder([], keys)
  {
  }

  lemma TakePoseKeys(s: S.State, p: PeerId, pose: Pose)
    requires p in s.clients
    ensures var s' := S.TakePose(s, p, pose); s'.clients.Keys == s.clients.Keys && s'.cfg == s.cfg && s'.rates == s.rates
  {
  }

  lemma KeepBlobKeys(s: S.State, p: PeerId, kind: BlobKind, blob: seq<Byte>)
    requires p in s.clients
    ensures var s' := S.KeepBlob(s, p, kind, blob); s'.clients.Keys == s.clients.Keys && s'.cfg == s.cfg
  {
  }

  lemma WithAsmFrame(s: S.State, kind: BlobKind, table: map<PeerId, Assembly>)
    ensures var s' := S.WithAsm(s, kind, table); s'.clients == s.clients && s'.cfg == s.cfg
  {
  }

  lemma HostSnapshotKeys(s: S.State, p: PeerId, m: InMsg)
    requires m.InWorldSnapshot?
    ensures S.HostSnapshot(s, p, m).clients == s.clients
  {
  }

  lemma RetokenFrame(s: S.State, p: PeerId)
    requires p in s.clients
    ensures var s' := S.Retoken(s, p);
            && p in s'.clients && s'.players == s.players && s'.world == s.world && s'.cfg == s.cfg
            && s'.clients[p].udpToken == s'.tokenSeed
  {
  }

  lemma KeysOf(s: S.State)
    requires Inv(s)
    ensures KeysDistinct(s.clients) && ConnsDistinct(s.clients) && PendingDistinct(s.pending)
  {
  }

  /** An entry whose connection occurs once is simply cut out. */
  lemma {:induction false} WithoutAt(pending: seq<PendingTcp>, i: nat)
    requires i < |pending|
    requires forall j :: 0 <= j < |pending| && j != i ==> pending[j].connId != pending[i].connId
    ensures S.Without(pending, pending[i].connId) == pending[..i] + pending[i + 1..]
  {
    var n := |pending| - 1;
    var c := pending[i].connId;
    if i == n {
      WithoutAbsent(pending[..n], c);
      assert pending[..i] + pending[i + 1..] == pending[..n];
    } else {
      WithoutAt(pending[..n], i);
      assert pending[..n][..i] + pending[..n][i + 1..] + [pending[n]] == pending[..i] + pending[i + 1..];
    }
  }

  lemma {:induction false} WithoutAbsent(pending: seq<PendingTcp>, c: ConnId)
    requires forall j :: 0 <= j < |pending| ==> pending[j].connId != c
    ensures S.Without(pending, c) == pending
  {
    if pending != [] {
      WithoutAbsent(pending[..|pending| - 1], c);
    }
  }

  lemma GateAnyOracle(s: S.State, h: Hello, o: S.Oracle, o': S.Oracle)
    requires Inv(s)
    ensures S.Gate(s, h, o') == S.Gate(s, h, o)
  {
    hide Inv, S.SanitizeKey;
    HostLookupIdle(s, o);
    HostLookupIdle(s, o');
  }

  lemma SeatInv(s: S.State, conn: ConnId, addr: Addr, h: Hello, t: real)
    requires Inv(s) && IsPending(s.pending, conn) && S.SanitizeKey(h.playerKey) in s.players
    ensures var same := S.ByKey(s.clients, S.SanitizeKey(h.playerKey));
            var p := if same.Some? then same.value else s.nextPeer;
            var e := if same.Some? then S.Reattach(s, same.value, conn, addr, h, t) else S.AddClient(s, conn, addr, h, t);
            p in e.state.clients && e.state.pending == s.pending
  {
    hide Inv, S.SanitizeKey, S.Reattach, S.AddClient;
    var same := S.ByKey(s.clients, S.SanitizeKey(h.playerKey));
    if same.Some? {
      ReattachKeepsInv(s, same.value, conn, addr, h, t);
      ReattachFrame(s, same.value, conn, addr, h, t);
    } else {
      AddFrame(s, conn, addr, h, t);
    }
  }

  lemma HostHelloFrame(s: S.State, p: PeerId, h: Hello)
    ensures S.HostHello(s, p, h).clients == s.clients
  {
  }

  /** The record of a re-attached client, field by field. */
  method Refresh(c0: Client, rec: PlayerRec, p: PeerId, conn: ConnId, addr: Addr, h: Hello, t: real, token: Word32)
    returns (c: Client)
    ensures c == S.Refreshed(c0, rec, p, conn, addr, h, t, token)
  {
    hide S.SanitizeKey;
    c := c0.(connId := conn, tcpAddr := addr, lastSeen := t, key := S.SanitizeKey(h.playerKey));
    if h.name != "" {
      c := c.(name := h.name);
    }
    c := c.(udpToken := token, udpBound := false);
    if rec.appearance != [] {
      c := c.(appearance := rec.appearance);
    }
    if rec.inventory != [] {
      c := c.(inventory := rec.inventory);
    }
    if !c.havePose && rec.havePose {
      c := c.(lastPose := S.MakePose(p, rec.place, rec.yaw), havePose := true);
    }
  }

  lemma RunNone(s: S.State)
    requires Inv(s)
    ensures Run(s, []) && After(s, []) == s && CmdsOf(s, []) == [] && JobsOf(s, []) == []
  {
  }

  lemma VisitedIdle(s: S.State, step: S.Step)
    requires !step.event.Net?
    ensures Visited(s, step) == s.clients.Keys
  {
  }

  /** A frame handled for a live client, or by nobody, welcomes nobody. */
  lemma VisitedLive(s: S.State, conn: ConnId, peer: PeerId, m: InMsg, t: real, o: S.Oracle)
    requires (peer != 0 && peer in s.clients) || S.FindPending(s.pending, conn) < 0
    ensures Visited(s, S.Step(S.Net(TcpFrame(conn, peer, m)), t, o)) == s.clients.Keys
  {
  }

  lemma AdmitKeys(s: S.State, conn: ConnId, addr: Addr, h: Hello, t: real, o: S.Oracle)
    requires Inv(s) && IsPending(s.pending, conn) && S.Gate(s, h, o).None?
    ensures S.Admit(s, conn, addr, h, t, o).state.clients.Keys
         == if S.ByKey(s.clients, S.SanitizeKey(h.playerKey)).Some? then s.clients.Keys else s.clients.Keys + {s.nextPeer}
  {
    hide Inv, S.Gate, S.Admit, S.SanitizeKey;
    AdmitChange(s, conn, addr, h, t, o);
    var e := S.Admit(s, conn, addr, h, t, o);
    assert Conns(s.clients).Keys == s.clients.Keys && Conns(e.state.clients).Keys == e.state.clients.Keys;
  }

  lemma VisitedPending(s: S.State, conn: ConnId, peer: PeerId, m: InMsg, t: real, o: S.Oracle, s': S.State)
    requires Inv(s) && !(peer != 0 && peer in s.clients)
    requires var i := S.FindPending(s.pending, conn);
             i >= 0 && s' == S.HandlePending(s, s.pending[i], m, t, o).state
    ensures Visited(s, S.Step(S.Net(TcpFrame(conn, peer, m)), t, o))
         == if m.InHello? && AllowRate(s.rates.hello, s.pending[S.FindPending(s.pending, conn)].addr, t, 2).1
               && S.Gate(s, m.hello, o).None?
            then s'.clients.Keys else s.clients.Keys
  {
    hide Inv, S.Gate, S.Admit, S.SanitizeKey;
    var i := S.FindPending(s.pending, conn);
    var entry := s.pending[i];
    if m.InHello? && AllowRate(s.rates.hello, entry.addr, t, 2).1 && S.Gate(s, m.hello, o).None? {
      var s1 := s.(rates := s.rates.(hello := AllowRate(s.rates.hello, entry.addr, t, 2).0));
      InvFrame(s, s1);
      HostLookupIdle(s1, o);
      GateIgnoresRates(s, s1.rates, m.hello, o);
      assert IsPending(s1.pending, entry.connId);
      AdmitKeys(s1, entry.connId, entry.addr, m.hello, t, o);
    }
  }

  /** Only a Bye handled for a client asks for a host among those it leaves behind. */
  lemma FrameHost(s: S.State, conn: ConnId, peer: PeerId, m: InMsg, o: S.Oracle)
    requires var f := FrameClient(s, conn, peer); f.Some? && m.InBye? ==> HostChoice(s.clients - {f.value}, o.host)
    ensures HostAtHand(s, S.Net(TcpFrame(conn, peer, m)), o)
  {
  }

  /** The step that removes an overdue client. */
  lemma ClientTimeoutStep(s: S.State, p: PeerId, t: real, o: S.Oracle)
    requires Inv(s) && p in s.clients && t - s.clients[p].lastSeen > CLIENT_TIMEOUT
    requires ValidOrder(o.order, s.clients.Keys) && HostChoice(S.RemoveClient(s, p, false, o).state.clients, o.host)
    ensures var step := S.Step(S.ClientTimeout(p), t, o);
            var e := S.RemoveClient(s, p, false, o);
            && Enabled(s, step) && S.AsmOk(s.appearAsm) && S.AsmOk(s.invAsm) && S.Apply(s, step) == e
            && e.state.clients == s.clients - {p} && Inv(e.state)
  {
    hide Inv, S.RemoveClient, ValidOrder, HostChoice;
    var step := S.Step(S.ClientTimeout(p), t, o);
    RemoveShape(s, p, false, o);
    VisitedIdle(s, step);
    InvAsm(s);
    StepKeepsInv(s, step);
  }

  /** The step that times out pending entry `i`. */
  lemma TimeoutStep(s: S.State, i: nat, t: real) returns (step: S.Step)
    requires Inv(s) && i < |s.pending| && t - s.pending[i].connectedAt > PENDING_TIMEOUT
    ensures step.event == S.PendingTimeout(s.pending[i].connId) && Enabled(s, step)
    ensures S.Apply(s, step) == S.Effect(s.(pending := s.pending[..i] + s.pending[i + 1..]), [CloseConn(s.pending[i].connId)], [])
    ensures Inv(s.(pending := s.pending[..i] + s.pending[i + 1..]))
  {
    hide Inv;
    var o := AnyOracle(s.clients, t);
    step := S.Step(S.PendingTimeout(s.pending[i].connId), t, o);
    KeysOf(s);
    InvAsm(s);
    VisitedIdle(s, step);
    WithoutAt(s.pending, i);
    assert IsPending(s.pending, s.pending[i].connId);
    PendingNonZero(s, s.pending[i].connId);
    DropPendingKeepsInv(s, s.pending[i].connId);
  }
}
