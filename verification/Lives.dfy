/** What a Welcome promises, what keeps a client alive, and what an admin command does. */
module Lives {
  import opened Bytes
  import opened Blobs
  import opened RateLimit
  import opened Types
  import opened Session
  import opened SessionInv
  import opened Ownership
  import opened SessionFacts
  import opened Admission
  import opened Messages
  import opened Origins
  import opened Posts

  // ---------------------------------------------------------------- Welcome

  /** What a Welcome for `p` on connection `c` says is true: the client is there, on that
      connection, with that token. */
  ghost predicate WelcomeTrue(s: State, s': State, c: ConnId, q: PeerId, p: PeerId, isNew: bool, isHost: bool, flags: nat, token: Word32) {
    && q == p && p in s'.clients && s'.clients[p].connId == c && s'.clients[p].udpToken == token
    && (isHost <==> p == s'.world.hostPeerId)
    && (isNew <==> s'.clients[p].key !in s.players || !s.players[s'.clients[p].key].havePose)
    && flags == (if s'.cfg.pvp then 1 else 0) + (if s'.cfg.password != "" then 2 else 0)
  }

  lemma NewIff(players: map<Key, PlayerRec>, k: Key)
    ensures !RecOf(players, k).havePose <==> k !in players || !players[k].havePose
  {
  }

  lemma OnlyWelcome(cmds: seq<Cmd>, before: seq<Cmd>, x: Cmd, y: Cmd, rest: seq<Cmd>)
    requires cmds == before + [x] + [y] + rest
    requires (forall k :: 0 <= k < |before| ==> !IsSend(before[k])) && y.TcpSend? && !y.msg.Welcome? && OnlyKinds(rest, {KPlayerPose, KBlobPacket})
    ensures |before| < |cmds| && cmds[|before|] == x
    ensures forall k :: 0 <= k < |cmds| && k != |before| && cmds[k].TcpSend? ==> !cmds[k].msg.Welcome?
  {
    var n := |before|;
    assert forall k :: 0 <= k < |rest| && IsSend(rest[k]) ==> !rest[k].msg.Welcome?;
    assert forall k :: n + 2 <= k < |cmds| ==> cmds[k] == rest[k - n - 2];
  }

  lemma BindingIsControl(s: State, conn: ConnId, h: Hello)
    ensures forall j :: 0 <= j < |BindingCmds(s, conn, h)| ==> !IsSend(BindingCmds(s, conn, h)[j])
  {
  }

  lemma HelloLimited(s: State, conn: ConnId, peer: PeerId, i: nat, h: Hello, t: real, o: Oracle)
    requires Inv(s) && Stranger(s, conn, peer, i) && !AllowRate(s.rates.hello, s.pending[i].addr, t, 2).1
    ensures PostOf(s, Said(conn, peer, InHello(h), t, o)) == s.(rates := s.rates.(hello := AllowRate(s.rates.hello, s.pending[i].addr, t, 2).0))
    ensures (InvAsm(s); Apply(s, Said(conn, peer, InHello(h), t, o)).cmds) == []
  {
    hide Inv, AllowRate, Apply;
    StrangerFrame(s, conn, peer, i, InHello(h), t, o);
  }

  /** Every Welcome that any step queues is true. */
  lemma WelcomeIsTrue(s: State, step: Step, i: nat, c: ConnId, q: PeerId, p: PeerId, isNew: bool, isHost: bool, flags: nat, token: Word32)
    requires Inv(s) && Queues(s, step, i, c, q, Welcome(p, isNew, isHost, flags, token))
    ensures WelcomeTrue(s, PostOf(s, step), c, q, p, isNew, isHost, flags, token)
  {
    hide Inv, Apply, SpeaksFor, FindPending, FrameClient, Stranger, RecOf, Admissible, AllowRate, BindingCmds, SanitizeKey, Broadcast, NextToken;
    var m := Welcome(p, isNew, isHost, flags, token);
    QueuedKind(s, step, i, c, q, m);
    var ev := step.event.ev;
    var f, j := FrameClient(s, ev.connId, ev.peerId), FindPending(s.pending, ev.connId);
    WhoseFrame(s, ev.connId, ev.peerId);
    InvAsm(s);
    var h := ev.msg.hello;
    assert step == Said(ev.connId, ev.peerId, InHello(h), step.t, step.o);
    if f.Some? {
      SpeakerLive(s, ev.connId, ev.peerId, f.value);
      HelloAnswered(s, ev.connId, ev.peerId, f.value, h, step.t, step.o);
      NewIff(s.players, s.clients[f.value].key);
    } else if j >= 0 {
      StrangerWelcome(s, ev.connId, ev.peerId, j, h, step.t, step.o, i, c, q, m);
    } else {
      NotHeard(s, ev.connId, ev.peerId, InHello(h), step.t, step.o);
    }
  }

  lemma SpeakerLive(s: State, conn: ConnId, peer: PeerId, p: PeerId)
    requires SpeaksFor(s, conn, peer, p)
    ensures p in s.clients
  {
  }

  lemma StrangerWelcome(s: State, conn: ConnId, peer: PeerId, j: nat, h: Hello, t: real, o: Oracle, i: nat, c: ConnId, q: PeerId, m: OutMsg)
    requires Inv(s) && Stranger(s, conn, peer, j) && m.Welcome? && Queues(s, Said(conn, peer, InHello(h), t, o), i, c, q, m)
    ensures LetIn(s, conn, peer, j, h, t)
    ensures WelcomeTrue(s, PostOf(s, Said(conn, peer, InHello(h), t, o)), c, q, m.peerId, m.isNew, m.isHost, m.sessionFlags, m.udpToken)
  {
    hide Inv, Apply, RecOf, Admissible, AllowRate, BindingCmds, SanitizeKey, Broadcast, NextToken, Joined;
    InvAsm(s);
    var e := Apply(s, Said(conn, peer, InHello(h), t, o));
    if !AllowRate(s.rates.hello, s.pending[j].addr, t, 2).1 {
      HelloLimited(s, conn, peer, j, h, t, o);
    } else if !Admissible(s, h) {
      RejectReasons(s, conn, peer, j, h, t, o);
    } else {
      var looks := HelloWelcomed(s, conn, peer, j, h, t, o);
      BroadcastKinds(e.state, CatchUp(Joined(s, h)), o);
      BindingIsControl(s, conn, h);
      SameCfg(s, conn, peer, j, h, t, o);
      NewIff(s.players, SanitizeKey(h.playerKey));
      var b := |BindingCmds(s, conn, h)|;
      OnlyWelcome(e.cmds, BindingCmds(s, conn, h), e.cmds[b], e.cmds[b + 1], looks);
    }
  }

  lemma SameCfg(s: State, conn: ConnId, peer: PeerId, i: nat, h: Hello, t: real, o: Oracle)
    requires Inv(s) && LetIn(s, conn, peer, i, h, t)
    ensures PostOf(s, Said(conn, peer, InHello(h), t, o)).cfg == s.cfg
  {
    hide Inv, AllowRate, Admissible, SanitizeKey, PostOf, Enrolled, HostsWorld;
    var same := ByKey(s.clients, SanitizeKey(h.playerKey));
    if same.Some? {
      BackPost(s, conn, peer, i, h, t, o, same.value);
    } else {
      NewPost(s, conn, peer, i, h, t, o);
    }
  }

  // ---------------------------------------------------------------- one client through one step

  /** A sign of life of client `q` in a step. */
  ghost predicate SignOfLife(s: State, step: Step, q: PeerId) {
    && step.event.Net?
    && match step.event.ev
       case TcpFrame(conn, peer, m) =>
         || (SpeaksFor(s, conn, peer, q) && !m.BadHeader? && !m.InUdpBind? && !m.InPlayerPose? && !m.InActorPose?)
         || (exists i: nat :: m.InHello? && LetIn(s, conn, peer, i, m.hello, step.t) && HasKey(s.clients, q, SanitizeKey(m.hello.playerKey)))
       case UdpDatagram(from, m) =>
         || (m.InUdpBind? && m.peer == q && q in s.clients && m.token == s.clients[q].udpToken)
         || ((m.InPlayerPose? || m.InActorPose?) && from in s.udpIndex && s.udpIndex[from] == q)
       case _ => false
  }

  ghost predicate Rewelcomed(s: State, step: Step, q: PeerId, token: Word32)
    requires Inv(s)
  {
    exists i: nat, c: ConnId, isNew: bool, isHost: bool, flags: nat :: Queues(s, step, i, c, q, Welcome(q, isNew, isHost, flags, token))
  }

  /** What a step can do to a client that stays: its last sign of life is this step's if it
      gave one, and else the one before; its token changes only with a Welcome that says so. */
  ghost predicate LivesOn(s: State, step: Step, q: PeerId)
    requires Inv(s)
  {
    var s' := PostOf(s, step);
    q in s.clients && q in s'.clients ==>
      && s'.clients[q].lastSeen == (if SignOfLife(s, step, q) then step.t else s.clients[q].lastSeen)
      && (s'.clients[q].udpToken == s.clients[q].udpToken || Rewelcomed(s, step, q, s'.clients[q].udpToken))
  }

  /** A client that is not named by the step stays as it is; the one that speaks may change
      what it carries, but not its token. */
  ghost predicate SameButHeard(s: State, s': State, p: PeerId, t: real) {
    && p in s.clients && s'.clients.Keys == s.clients.Keys
    && s'.clients[p].udpToken == s.clients[p].udpToken && s'.clients[p].lastSeen == t
    && forall q :: q in s.clients && q != p ==> s'.clients[q] == s.clients[q]
  }

  lemma SpokenWords(s: State, conn: ConnId, peer: PeerId, p: PeerId, m: InMsg, t: real, o: Oracle)
    requires Inv(s) && SpeaksFor(s, conn, peer, p) && (m.InHeartbeat? || m.InKick? || m.InTeleport? || m.InSessionQuery? || m.InOther? || m.InChat? || m.InHit?)
    ensures SameButHeard(s, PostOf(s, Said(conn, peer, m, t, o)), p, t)
  {
    hide Inv, SpeaksFor, PostOf, AllowRate;
    if m.InChat? {
      ChatPost(s, conn, peer, p, m.text, t, o);
    } else if m.InHit? {
      HitPost(s, conn, peer, p, m, t, o);
    } else {
      QuietPost(s, conn, peer, p, m, t, o);
    }
  }

  lemma SpokenSnapshot(s: State, conn: ConnId, peer: PeerId, p: PeerId, hour: real, days: real, weather: nat, place: Place, t: real, o: Oracle)
    requires Inv(s) && SpeaksFor(s, conn, peer, p)
    ensures SameButHeard(s, PostOf(s, Said(conn, peer, InWorldSnapshot(hour, days, weather, place), t, o)), p, t)
  {
    hide Inv, SpeaksFor, PostOf;
    SnapshotPost(s, conn, peer, p, hour, days, weather, place, t, o);
  }

  lemma SpokenChunk(s: State, conn: ConnId, peer: PeerId, p: PeerId, kind: BlobKind, d: seq<Byte>, t: real, o: Oracle)
    requires Inv(s) && SpeaksFor(s, conn, peer, p)
    ensures SameButHeard(s, PostOf(s, Said(conn, peer, InBlob(kind, d), t, o)), p, t)
  {
    hide Inv, SpeaksFor, PostOf, AllowRate, Accept, ValidAssembly;
    if kind.Inventory? {
      ChunkPost(s, conn, peer, p, d, t, o);
    } else {
      LookPost(s, conn, peer, p, d, t, o);
    }
  }

  lemma SpokenLives(s: State, conn: ConnId, peer: PeerId, p: PeerId, m: InMsg, t: real, o: Oracle, q: PeerId)
    requires Inv(s) && SpeaksFor(s, conn, peer, p) && !m.InHello? && !m.InBye?
    ensures var s' := PostOf(s, Said(conn, peer, m, t, o));
            q in s.clients ==>
              && q in s'.clients && s'.clients[q].udpToken == s.clients[q].udpToken
              && s'.clients[q].lastSeen == (if q == p && !m.BadHeader? && !m.InUdpBind? && !m.InPlayerPose? && !m.InActorPose? then t else s.clients[q].lastSeen)
  {
    hide Inv, SpeaksFor, PostOf;
    if m.BadHeader? || m.InUdpBind? || m.InPlayerPose? || m.InActorPose? {
      IgnoredPost(s, conn, peer, p, m, t, o);
    } else if m.InWorldSnapshot? {
      SpokenSnapshot(s, conn, peer, p, m.gameHour, m.gameDaysPassed, m.weatherFormId, m.host, t, o);
    } else if m.InBlob? {
      SpokenChunk(s, conn, peer, p, m.kind, m.datagram, t, o);
    } else {
      SpokenWords(s, conn, peer, p, m, t, o);
    }
  }

  lemma ByeLives(s: State, conn: ConnId, peer: PeerId, p: PeerId, t: real, o: Oracle)
    requires Inv(s) && SpeaksFor(s, conn, peer, p)
    ensures PostOf(s, Said(conn, peer, InBye, t, o)).clients == s.clients - {p}
  {
    hide Inv, SpeaksFor, Apply, RemoveClient;
    InClients(s, conn, peer, p);
    ClientFrame(s, conn, peer, p, InBye, t, o);
    RemoveShape(Touch(s, p, t), p, true, o);
    assert s.clients[p := s.clients[p].(lastSeen := t)] - {p} == s.clients - {p};
  }

  lemma AgainLives(s: State, conn: ConnId, peer: PeerId, p: PeerId, h: Hello, t: real, o: Oracle, q: PeerId)
    requires Inv(s) && SpeaksFor(s, conn, peer, p) && q in s.clients
    ensures var step := Said(conn, peer, InHello(h), t, o); var s' := PostOf(s, step);
            && q in s'.clients && s'.clients[q].lastSeen == (if q == p then t else s.clients[q].lastSeen)
            && (s'.clients[q].udpToken == s.clients[q].udpToken || Rewelcomed(s, step, q, s'.clients[q].udpToken))
  {
    hide Inv, SpeaksFor, Apply, NextToken, RecOf;
    InClients(s, conn, peer, p);
    AgainPost(s, conn, peer, p, h, t, o);
    HelloAnswered(s, conn, peer, p, h, t, o);
    InvAsm(s);
    var step := Said(conn, peer, InHello(h), t, o);
    var x := Apply(s, step).cmds[0];
    if q == p {
      assert Queues(s, step, 0, x.connId, q, Welcome(q, x.msg.isNew, x.msg.isHost, x.msg.sessionFlags, x.msg.udpToken));
    }
  }

  lemma LetInLives(s: State, conn: ConnId, peer: PeerId, i: nat, h: Hello, t: real, o: Oracle, q: PeerId)
    requires Inv(s) && LetIn(s, conn, peer, i, h, t) && q in s.clients
    ensures var step := Said(conn, peer, InHello(h), t, o); var s' := PostOf(s, step);
            && q in s'.clients
            && s'.clients[q].lastSeen == (if HasKey(s.clients, q, SanitizeKey(h.playerKey)) then t else s.clients[q].lastSeen)
            && (s'.clients[q].udpToken == s.clients[q].udpToken || Rewelcomed(s, step, q, s'.clients[q].udpToken))
  {
    hide Inv, AllowRate, Admissible, SanitizeKey, Apply, Enrolled, HostsWorld, NextToken, Broadcast, BindingCmds, RecOf;
    var k := SanitizeKey(h.playerKey);
    var same := ByKey(s.clients, k);
    var step := Said(conn, peer, InHello(h), t, o);
    InvAsm(s);
    if same.Some? {
      var p := same.value;
      BackPost(s, conn, peer, i, h, t, o, p);
      if q == p {
        var looks := HelloWelcomed(s, conn, peer, i, h, t, o);
        var b := |BindingCmds(s, conn, h)|;
        var x := Apply(s, step).cmds[b];
        assert Queues(s, step, b, conn, q, Welcome(q, x.msg.isNew, x.msg.isHost, x.msg.sessionFlags, x.msg.udpToken));
      } else {
        KeysApart(s, p, q, k);
      }
    } else {
      NewPost(s, conn, peer, i, h, t, o);
      NextIsNew(s);
    }
  }

  lemma KeysApart(s: State, p: PeerId, q: PeerId, k: Key)
    requires Inv(s) && HasKey(s.clients, p, k) && p != q
    ensures !HasKey(s.clients, q, k)
  {
  }

  lemma StrangerLives(s: State, conn: ConnId, peer: PeerId, i: nat, m: InMsg, t: real, o: Oracle, q: PeerId)
    requires Inv(s) && Stranger(s, conn, peer, i) && q in s.clients && !(m.InHello? && LetIn(s, conn, peer, i, m.hello, t))
    ensures PostOf(s, Said(conn, peer, m, t, o)).clients == s.clients
  {
    hide Inv, AllowRate, Admissible, Apply;
    if m.InSessionQuery? {
      QueryPost(s, conn, peer, i, t, o);
    } else if !m.InHello? {
      StrangerPost(s, conn, peer, i, m, t, o);
    } else if !AllowRate(s.rates.hello, s.pending[i].addr, t, 2).1 {
      HelloLimited(s, conn, peer, i, m.hello, t, o);
    } else {
      StrangerFound(s, conn, peer, i);
      StrangerFrame(s, conn, peer, i, m, t, o);
      AdmissionIff(s, s.pending[i], m.hello, t, o);
    }
  }

  lemma OneEntry(s: State, conn: ConnId, peer: PeerId, i: nat, j: nat)
    requires Inv(s) && Stranger(s, conn, peer, i) && Stranger(s, conn, peer, j)
    ensures i == j
  {
  }

  /** A frame does not speak for two. */
  lemma OneSpeaker(s: State, conn: ConnId, peer: PeerId, p: PeerId, q: PeerId)
    requires Inv(s) && SpeaksFor(s, conn, peer, p)
    ensures SpeaksFor(s, conn, peer, q) ==> q == p
    ensures forall i: nat :: !Stranger(s, conn, peer, i)
  {
    SpeaksIff(s, conn, peer, p);
    SpeaksIff(s, conn, peer, q);
    NobodyAt(s, conn, peer);
  }

  lemma NobodyAt(s: State, conn: ConnId, peer: PeerId)
    requires (peer != 0 && peer in s.clients) || !IsPending(s.pending, conn)
    ensures forall i: nat :: !Stranger(s, conn, peer, i)
  {
  }

  lemma FrameLives(s: State, conn: ConnId, peer: PeerId, m: InMsg, t: real, o: Oracle, q: PeerId)
    requires Inv(s) && q in s.clients
    ensures LivesOn(s, Said(conn, peer, m, t, o), q)
  {
    hide Inv, PostOf, SpeaksFor, FindPending, FrameClient, Stranger, LetIn, Rewelcomed, HasKey, SanitizeKey;
    var f, j := FrameClient(s, conn, peer), FindPending(s.pending, conn);
    WhoseFrame(s, conn, peer);
    if f.Some? {
      var p := f.value;
      OneSpeaker(s, conn, peer, p, q);
      NoStrangers(s, conn, peer, m, t);
      if m.InBye? {
        ByeLives(s, conn, peer, p, t, o);
      } else if m.InHello? {
        AgainLives(s, conn, peer, p, m.hello, t, o, q);
      } else {
        SpokenLives(s, conn, peer, p, m, t, o, q);
      }
    } else {
      NoSpeaker(s, conn, peer, q);
      if j >= 0 {
        StrangerStep(s, conn, peer, j, m, t, o, q);
      } else {
        NobodyThere(s, conn, peer);
        NotHeardPost(s, conn, peer, m, t, o);
      }
    }
  }

  lemma NoStrangers(s: State, conn: ConnId, peer: PeerId, m: InMsg, t: real)
    requires forall i: nat :: !Stranger(s, conn, peer, i)
    ensures m.InHello? ==> forall i: nat :: !LetIn(s, conn, peer, i, m.hello, t)
  {
    hide Stranger;
  }

  lemma NoSpeaker(s: State, conn: ConnId, peer: PeerId, q: PeerId)
    requires Inv(s) && FrameClient(s, conn, peer).None?
    ensures !SpeaksFor(s, conn, peer, q)
  {
    SpeaksIff(s, conn, peer, q);
  }

  lemma NobodyThere(s: State, conn: ConnId, peer: PeerId)
    requires FindPending(s.pending, conn) < 0
    ensures forall i: nat :: !Stranger(s, conn, peer, i)
  {
  }

  lemma NotHeardPost(s: State, conn: ConnId, peer: PeerId, m: InMsg, t: real, o: Oracle)
    requires Inv(s) && FrameClient(s, conn, peer).None? && FindPending(s.pending, conn) < 0
    ensures PostOf(s, Said(conn, peer, m, t, o)) == s && (m.InHello? ==> forall i: nat :: !LetIn(s, conn, peer, i, m.hello, t))
  {
    hide Inv, Apply, FrameClient, FindPending;
    NotHeard(s, conn, peer, m, t, o);
    NobodyThere(s, conn, peer);
  }

  lemma StrangerStep(s: State, conn: ConnId, peer: PeerId, j: nat, m: InMsg, t: real, o: Oracle, q: PeerId)
    requires Inv(s) && q in s.clients && Stranger(s, conn, peer, j) && !SpeaksFor(s, conn, peer, q)
    ensures LivesOn(s, Said(conn, peer, m, t, o), q)
  {
    hide Inv, PostOf, SpeaksFor, Stranger, AllowRate, Admissible, Rewelcomed, SanitizeKey;
    forall i: nat ensures m.InHello? && LetIn(s, conn, peer, i, m.hello, t) ==> i == j {
      if m.InHello? && LetIn(s, conn, peer, i, m.hello, t) { OneEntry(s, conn, peer, i, j); }
    }
    if m.InHello? && LetIn(s, conn, peer, j, m.hello, t) {
      LetInLives(s, conn, peer, j, m.hello, t, o, q);
    } else {
      StrangerLives(s, conn, peer, j, m, t, o, q);
    }
  }

  lemma DatagramLives(s: State, from: Addr, m: InMsg, t: real, o: Oracle, q: PeerId)
    requires Inv(s) && q in s.clients
    ensures LivesOn(s, Step(Net(UdpDatagram(from, m)), t, o), q)
  {
    hide Inv, PostOf, AllowRate;
    if m.InUdpBind? {
      BindPost(s, m.peer, m.token, from, t, o);
    } else if !m.InPlayerPose? {
      DatagramPost(s, m, from, t, o);
    } else if from in s.udpIndex {
      PosePost(s, s.udpIndex[from], m.pose, from, t, o);
    } else {
      StrayPose(s, m.pose, from, t, o);
    }
  }

  /** Nothing else touches the clients that stay. */
  lemma OthersLive(s: State, step: Step, q: PeerId)
    requires Inv(s) && q in s.clients && !(step.event.Net? && (step.event.ev.TcpFrame? || step.event.ev.UdpDatagram?))
    ensures q in PostOf(s, step).clients ==> PostOf(s, step).clients[q] == s.clients[q]
  {
    hide Inv, RemoveClient, AdminKick, ApplyIdle, Without;
    InvAsm(s);
    var o := step.o;
    if step.event.Net? && step.event.ev.TcpClosed? {
      ClosedLives(s, step.event.ev.connId, step.event.ev.peerId, o, q);
    } else if step.event.ClientTimeout? {
      RemovedLives(s, step.event.peerId, o, q);
    } else if step.event.Kicked? {
      if step.event.victim in s.clients { KickShape(s, step.event.victim, step.event.ban, o); } else { KickAbsent(s, step.event.victim, step.event.ban, o); }
    } else if !step.event.Net? && !step.event.PendingTimeout? {
      IdleFrame(s, step.event, o);
    }
  }

  lemma RemovedLives(s: State, p: PeerId, o: Oracle, q: PeerId)
    ensures var cs := RemoveClient(s, p, false, o).state.clients; q in cs ==> q in s.clients && cs[q] == s.clients[q]
    ensures p !in RemoveClient(s, p, false, o).state.clients
  {
    hide RemoveClient;
    if p in s.clients { RemoveShape(s, p, false, o); } else { RemoveAbsent(s, p, false, o); }
  }

  lemma ClosedLives(s: State, conn: ConnId, peer: PeerId, o: Oracle, q: PeerId)
    requires q in s.clients
    ensures var cs := OnClosed(s, conn, peer, o).state.clients; q in cs ==> cs[q] == s.clients[q]
  {
    hide RemoveClient, Without;
    var s1 := s.(pending := Without(s.pending, conn));
    if peer != 0 {
      RemovedLives(s1, peer, o, q);
    } else {
      var owner := OwnerOf(s1.clients, conn);
      if owner.Some? {
        RemovedLives(s1.(clients := s1.clients[owner.value := s1.clients[owner.value].(connId := 0)]), owner.value, o, q);
      }
    }
  }

  /** For every step and every client that is there before and after it. */
  lemma StepLives(s: State, step: Step, q: PeerId)
    requires Inv(s)
    ensures LivesOn(s, step, q)
  {
    hide Inv, PostOf, SpeaksFor, LetIn, Rewelcomed, HasKey;
    if q in s.clients {
      if step.event.Net? && step.event.ev.TcpFrame? {
        var ev := step.event.ev;
        FrameLives(s, ev.connId, ev.peerId, ev.msg, step.t, step.o, q);
      } else if step.event.Net? && step.event.ev.UdpDatagram? {
        DatagramLives(s, step.event.ev.addr, step.event.ev.msg, step.t, step.o, q);
      } else {
        OthersLive(s, step, q);
      }
    }
  }
}
