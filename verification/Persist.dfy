/** What reaches the disk: dirty marking in the session, and the worker that writes jobs. */
module Persist {
  import opened Bytes
  import opened Blobs
  import opened RateLimit
  import opened Types
  import opened Session
  import opened SessionInv
  import opened Ownership

  // ---------------------------------------------------------------- dirty marking

  /** The last snapshots handed to the worker; at start, what was loaded. */
  datatype Saved = Saved(players: map<Key, PlayerRec>, world: World)

  function SaveJob(d: Saved, j: Job): Saved {
    Saved(d.players + j.players, if j.world.Some? then j.world.value else d.world)
  }

  function SaveJobs(d: Saved, jobs: seq<Job>): Saved {
    if jobs == [] then d else SaveJob(SaveJobs(d, jobs[..|jobs| - 1]), jobs[|jobs| - 1])
  }

  /** Pose, appearance and inventory: the part of a record that must not be lost. */
  ghost predicate SameContent(a: PlayerRec, b: PlayerRec) {
    && a.havePose == b.havePose && a.place == b.place && a.yaw == b.yaw
    && a.appearance == b.appearance && a.inventory == b.inventory
  }

  /** The part of the world that is written to disk. */
  ghost predicate SameWorld(a: World, b: World) {
    a.spawn == b.spawn && a.gameHour == b.gameHour && a.gameDaysPassed == b.gameDaysPassed && a.weatherFormId == b.weatherFormId
  }

  /** A record differs from its last snapshot only while its key is dirty; the same for the world. */
  ghost predicate Marked(players: map<Key, PlayerRec>, dirty: set<Key>, w: World, worldDirty: bool, d: Saved) {
    && d.players.Keys <= players.Keys
    && (forall k :: k in players && k !in dirty ==> SameContent(players[k], RecOf(d.players, k)))
    && (!worldDirty ==> SameWorld(w, d.world))
  }

  ghost predicate AllMarked(s: State, d: Saved) {
    Marked(s.players, s.dirty, s.world, s.worldDirty, d)
  }

  /** The state after an effect is marked with respect to the snapshots it queued. */
  ghost predicate StaysMarked(s: State, e: Effect) {
    forall d :: AllMarked(s, d) ==> AllMarked(e.state, SaveJobs(d, e.jobs))
  }

  lemma SaveNone(d: Saved)
    ensures SaveJobs(d, []) == d
  {
  }

  lemma SaveOne(d: Saved, j: Job)
    ensures SaveJobs(d, [j]) == SaveJob(d, j)
  {
    assert [j][..0] == [];
  }

  /** Flushing settles everything that was dirty. */
  lemma FlushMarks(s: State, d: Saved)
    requires AllMarked(s, d)
    ensures AllMarked(Flush(s).0, SaveJobs(d, Flush(s).1))
  {
    var (s', jobs) := Flush(s);
    var snap := map k | k in s.dirty && k in s.players :: s.players[k];
    assert forall k :: k in s.dirty && k in s.players ==> k in snap;
    SaveNone(d);
    if jobs != [] {
      SaveOne(d, jobs[0]);
    }
  }

  /** More dirty marks never hurt, and the host role is not part of the saved world. */
  lemma MarksGrow(s: State, s': State, d: Saved)
    requires AllMarked(s, d) && s'.players == s.players && s.dirty <= s'.dirty
    requires s'.worldDirty || (s'.worldDirty == s.worldDirty && SameWorld(s'.world, s.world))
    ensures AllMarked(s', d)
  {
  }

  /** Marks look at nothing but records, world and the marks themselves. */
  lemma MarksSame(s: State, s': State, d: Saved)
    requires AllMarked(s, d)
    requires s'.players == s.players && s'.dirty == s.dirty && s'.world == s.world && s'.worldDirty == s.worldDirty
    ensures AllMarked(s', d)
  {
  }

  lemma UnbindMarks(s: State, p: PeerId)
    requires p in s.clients
    ensures var s' := UnbindUdp(s, p);
            s'.players == s.players && s'.dirty == s.dirty && s'.world == s.world && s'.worldDirty == s.worldDirty
  {
  }

  lemma RemoveMarks(s: State, p: PeerId, keepTcp: bool, o: Oracle)
    ensures StaysMarked(s, RemoveClient(s, p, keepTcp, o))
  {
    hide FanOut, UnbindUdp, Flush;
    var e := RemoveClient(s, p, keepTcp, o);
    forall d | AllMarked(s, d) ensures AllMarked(e.state, SaveJobs(d, e.jobs)) {
      SaveNone(d);
      if p in s.clients {
        var c := s.clients[p];
        UnbindMarks(Leaving(s, p), p);
        var s2 := UnbindUdp(Leaving(s, p), p);
        var s3 := Left(s2, p, LeavePending(s2.pending, c, keepTcp, o.now), o.host);
        MarksGrow(s, s3, d);
        FlushMarks(s3, d);
      }
    }
  }

  lemma KickMarks(s: State, p: PeerId, ban: bool, o: Oracle)
    ensures StaysMarked(s, AdminKick(s, p, ban, o))
  {
    hide UnbindUdp;
    var e := AdminKick(s, p, ban, o);
    forall d | AllMarked(s, d) ensures AllMarked(e.state, SaveJobs(d, e.jobs)) {
      SaveNone(d);
      if p in s.clients {
        var c := s.clients[p];
        UnbindMarks(Leaving(s.(banned := if ban then s.banned + {c.key} else s.banned), p), p);
        MarksGrow(s, e.state, d);
        if ban { BanJobSaves(d, s.banned + {c.key}, e.jobs); }
      }
    }
  }

  /** A ban list job saves no record and no world. */
  lemma BanJobSaves(d: Saved, banned: set<Key>, jobs: seq<Job>)
    requires jobs == [Job(None, map[], Some(banned))]
    ensures SaveJobs(d, jobs) == d
  {
    SaveOne(d, jobs[0]);
    assert d.players + map[] == d.players;
  }

  /** A record may change as long as its key is dirty afterwards. */
  lemma DirtyRecord(s: State, s': State, k: Key, rec: PlayerRec, d: Saved)
    requires AllMarked(s, d)
    requires s'.players == s.players[k := rec] && s'.dirty == s.dirty + {k}
    requires s'.worldDirty || (!s.worldDirty && SameWorld(s'.world, s.world))
    ensures AllMarked(s', d)
  {
  }

  lemma PoseMarks(s: State, p: PeerId, raw: Pose, t: real, o: Oracle)
    requires p in s.clients
    ensures StaysMarked(s, OnPose(s, p, raw, t, o))
  {
    hide FanOut;
    var e := OnPose(s, p, raw, t, o);
    forall d | AllMarked(s, d) ensures AllMarked(e.state, SaveJobs(d, e.jobs)) {
      SaveNone(d);
      if AllowRate(s.rates.pose, p, t, 30).1 {
        var k := s.clients[p].key;
        DirtyRecord(s, e.state, k, e.state.players[k], d);
      }
    }
  }

  lemma KeepBlobMarks(s: State, p: PeerId, kind: BlobKind, blob: seq<Byte>, d: Saved)
    requires p in s.clients && AllMarked(s, d)
    ensures AllMarked(KeepBlob(s, p, kind, blob), d)
  {
    var s' := KeepBlob(s, p, kind, blob);
    var k := s.clients[p].key;
    DirtyRecord(s, s', k, s'.players[k], d);
  }

  lemma BlobMarks(s: State, p: PeerId, kind: BlobKind, datagram: seq<Byte>, t: real, o: Oracle)
    requires p in s.clients && AsmOk(AsmTable(s, kind))
    ensures StaysMarked(s, OnBlob(s, p, kind, datagram, t, o))
  {
    hide FanOut, Accept, KeepBlob;
    var e := OnBlob(s, p, kind, datagram, t, o);
    var (b, ok) := AllowRate(s.rates.blob, p, t, 64);
    var s1 := s.(rates := s.rates.(blob := b));
    var table := AsmTable(s1, kind);
    var (asm, status) := Accept(AsmOf(table, p), datagram);
    forall d | AllMarked(s, d) ensures AllMarked(e.state, SaveJobs(d, e.jobs)) {
      SaveNone(d);
      if ok && status.Complete? {
        KeepBlobMarks(WithAsm(s1, kind, table - {p}), p, kind, status.blob, d);
      }
    }
  }

  lemma RelayMarks(s: State, p: PeerId, m: InMsg, t: real, o: Oracle)
    requires p in s.clients
    ensures StaysMarked(s, Relay(s, p, m, t, o))
  {
    hide FanOut;
    var e := Relay(s, p, m, t, o);
    RelayShape(s, p, m, t, o);
    forall d | AllMarked(s, d) ensures AllMarked(e.state, SaveJobs(d, e.jobs)) {
      SaveNone(d);
      MarksGrow(s, e.state, d);
    }
  }

  lemma RelayShape(s: State, p: PeerId, m: InMsg, t: real, o: Oracle)
    requires p in s.clients
    ensures var e := Relay(s, p, m, t, o);
            && e.jobs == [] && e.state.players == s.players && e.state.dirty == s.dirty
            && (e.state.worldDirty || (e.state.worldDirty == s.worldDirty && e.state.world == s.world))
  {
    hide Broadcast, OnHit, OnChat, SendTcp;
    if m.InHit? {
      HitShape(s, p, m, t, o);
    } else if m.InChat? {
      ChatShape(s, p, m.text, t, o);
    }
  }

  lemma HitShape(s: State, p: PeerId, m: InMsg, t: real, o: Oracle)
    requires m.InHit?
    ensures var e := OnHit(s, p, m, t, o); e.jobs == [] && e.state == s.(rates := e.state.rates)
  {
    hide Broadcast, AllowRate, ClampHitDamage;
    var e, s1 := OnHit(s, p, m, t, o), s.(rates := s.rates.(hit := AllowRate(s.rates.hit, p, t, 24).0));
    assert e.state == s || e.state == s1;
  }

  lemma ChatShape(s: State, p: PeerId, text: string, t: real, o: Oracle)
    ensures var e := OnChat(s, p, text, t, o); e.jobs == [] && e.state == s.(rates := e.state.rates)
  {
    hide Broadcast, AllowRate;
  }

  lemma HelloAgainMarks(s: State, p: PeerId)
    requires Inv(s) && p in s.clients
    ensures StaysMarked(s, HelloAgain(s, p))
  {
    hide UnbindUdp, Inv;
    var token := NextToken(s.tokenSeed);
    var s0 := s.(tokenSeed := token, clients := s.clients[p := s.clients[p].(udpToken := token)]);
    UnbindMarks(s0, p);
    UnbindFrame(s0, p);
    CachedAt(s, p);
    var e := HelloAgain(s, p);
    assert e.state.players == s.players;
    forall d | AllMarked(s, d) ensures AllMarked(e.state, SaveJobs(d, e.jobs)) {
      SaveNone(d);
      MarksGrow(s, e.state, d);
    }
  }

  lemma HandleTcpMarks(s: State, p: PeerId, m: InMsg, t: real, o: Oracle)
    requires Inv(s) && p in s.clients
    ensures StaysMarked(s, HandleTcp(s, p, m, t, o))
  {
    hide Inv, RemoveClient, HelloAgain, OnBlob, Relay;
    InvAsm(s);
    var e := HandleTcp(s, p, m, t, o);
    if m.BadHeader? || IsUdpOnly(m) {
      forall d | AllMarked(s, d) ensures AllMarked(e.state, SaveJobs(d, e.jobs)) { SaveNone(d); }
    } else {
      TouchKeepsInv(s, p, t);
      var s1 := Touch(s, p, t);
      if m.InBye? {
        RemoveMarks(s1, p, true, o);
      } else if m.InHello? {
        HelloAgainMarks(s1, p);
      } else if m.InBlob? {
        BlobMarks(s1, p, m.kind, m.datagram, t, o);
      } else {
        RelayMarks(s1, p, m, t, o);
      }
      forall d | AllMarked(s, d) ensures AllMarked(e.state, SaveJobs(d, e.jobs)) { assert AllMarked(s1, d); }
    }
  }

  lemma HandleUdpMarks(s: State, from: Addr, m: InMsg, t: real, o: Oracle)
    requires Inv(s)
    ensures StaysMarked(s, HandleUdp(s, from, m, t, o))
  {
    hide Inv, FanOut, OnPose, UnbindUdp;
    var e := HandleUdp(s, from, m, t, o);
    if m.InUdpBind? {
      if m.peer in s.clients { UnbindMarks(s, m.peer); UnbindFrame(s, m.peer); }
      forall d | AllMarked(s, d) ensures AllMarked(e.state, SaveJobs(d, e.jobs)) { SaveNone(d); }
    } else if !m.InPlayerPose? {
      FindByUdpIsIndex(s, from);
      forall d | AllMarked(s, d) ensures AllMarked(e.state, SaveJobs(d, e.jobs)) { SaveNone(d); }
    } else {
      FindByUdpIsIndex(s, from);
      var who := FindByUdp(s, from).1;
      if who.Some? {
        var s1 := Touch(s, who.value, t);
        PoseMarks(s1, who.value, m.pose, t, o);
        forall d | AllMarked(s, d) ensures AllMarked(e.state, SaveJobs(d, e.jobs)) { assert AllMarked(s1, d); }
      } else {
        forall d | AllMarked(s, d) ensures AllMarked(e.state, SaveJobs(d, e.jobs)) { SaveNone(d); }
      }
    }
  }

  /** Joining makes or names a record without marking it: its content is the loaded one,
      or the default that a missing file would load as. */
  lemma EnrollMarks(s: State, h: Hello, d: Saved)
    requires AllMarked(s, d)
    ensures AllMarked(Enroll(s, h), d)
  {
    hide SanitizeKey;
  }

  lemma ReattachMarks(s: State, p: PeerId, conn: ConnId, addr: Addr, h: Hello, t: real)
    requires p in s.clients
    ensures var s' := Reattach(s, p, conn, addr, h, t).state;
            s'.players == s.players && s'.dirty == s.dirty && s'.world == s.world && s'.worldDirty == s.worldDirty
  {
    hide UnbindUdp;
    UnbindMarks(s, p);
  }

  lemma AdmitMarks(s: State, conn: ConnId, addr: Addr, h: Hello, t: real, o: Oracle, d: Saved)
    requires AllMarked(s, d)
    ensures AllMarked(Admit(s, conn, addr, h, t, o).state, d) && Admit(s, conn, addr, h, t, o).jobs == []
  {
    hide FanOut, Enroll, Reattach, Greet, Without, SanitizeKey, Marked;
    EnrollMarks(s, h, d);
    var s1 := Enroll(s, h);
    EnrollFrame(s, h);
    var same := ByKey(s.clients, SanitizeKey(h.playerKey));
    if same.None? && h.requireHost && s1.world.hostPeerId == 0 {
    } else {
      var e := if same.Some? then Reattach(s1, same.value, conn, addr, h, t) else AddClient(s1, conn, addr, h, t);
      if same.Some? { ReattachMarks(s1, same.value, conn, addr, h, t); }
      var p := if same.Some? then same.value else s1.nextPeer;
      var s2 := HostHello(e.state.(pending := Without(e.state.pending, conn)), p, h);
      assert s2.players == s1.players && s2.dirty == s1.dirty;
      MarksGrow(s1, s2, d);
    }
  }

  lemma HandlePendingMarks(s: State, entry: PendingTcp, m: InMsg, t: real, o: Oracle)
    requires Inv(s)
    ensures StaysMarked(s, HandlePending(s, entry, m, t, o))
  {
    hide Inv, Admit, SanitizeKey, Gate, AllowRate, AllMarked, FindHost, SessionFlags;
    var e := HandlePending(s, entry, m, t, o);
    forall d | AllMarked(s, d) ensures AllMarked(e.state, SaveJobs(d, e.jobs)) {
      SaveNone(d);
      if m.InHello? {
        var s1 := s.(rates := s.rates.(hello := AllowRate(s.rates.hello, entry.addr, t, 2).0));
        MarksSame(s, s1, d);
        InvFrame(s, s1);
        HostLookupIdle(s1, o);
        AdmitMarks(s1, entry.connId, entry.addr, m.hello, t, o, d);
      } else if m.InSessionQuery? {
        var s1 := s.(rates := s.rates.(query := AllowRate(s.rates.query, entry.addr, t, 4).0));
        MarksSame(s, s1, d);
        InvFrame(s, s1);
        HostLookupIdle(s1, o);
      }
    }
  }

  lemma FrameMarks(s: State, conn: ConnId, peer: PeerId, m: InMsg, t: real, o: Oracle)
    requires Inv(s)
    ensures StaysMarked(s, OnFrame(s, conn, peer, m, t, o))
  {
    hide Inv, HandleTcp, HandlePending, AllMarked;
    InvAsm(s);
    var e := OnFrame(s, conn, peer, m, t, o);
    var f := FrameClient(s, conn, peer);
    var i := FindPending(s.pending, conn);
    if f.Some? {
      HandleTcpMarks(s, f.value, m, t, o);
    } else if i >= 0 {
      HandlePendingMarks(s, s.pending[i], m, t, o);
    } else {
      forall d | AllMarked(s, d) ensures AllMarked(e.state, SaveJobs(d, e.jobs)) { SaveNone(d); }
    }
  }

  lemma ClosedMarks(s: State, conn: ConnId, peer: PeerId, o: Oracle)
    ensures StaysMarked(s, OnClosed(s, conn, peer, o))
  {
    hide RemoveClient, Without;
    var e := OnClosed(s, conn, peer, o);
    var s1 := s.(pending := Without(s.pending, conn));
    var owner := OwnerOf(s1.clients, conn);
    forall d | AllMarked(s, d) ensures AllMarked(e.state, SaveJobs(d, e.jobs)) {
      SaveNone(d);
      if peer != 0 {
        RemoveMarks(s1, peer, false, o);
        assert AllMarked(s1, d);
      } else if owner.Some? {
        var s2 := s1.(clients := s1.clients[owner.value := s1.clients[owner.value].(connId := 0)]);
        RemoveMarks(s2, owner.value, false, o);
        assert AllMarked(s2, d);
      }
    }
  }

  lemma SaveAllMarks(s: State, d: Saved)
    requires AllMarked(s, d)
    ensures AllMarked(SaveAll(s).state, SaveJobs(d, SaveAll(s).jobs))
  {
    hide Flush;
    var s1 := s.(dirty := s.dirty + (set p | p in s.clients :: s.clients[p].key), worldDirty := true);
    MarksGrow(s, s1, d);
    FlushMarks(s1, d);
  }

  /** The other idle steps leave records, world and marks alone and save nothing but bans. */
  lemma IdleShape(s: State, ev: Event, o: Oracle)
    requires !ev.PersistTick? && !ev.Save?
    ensures var e := ApplyIdle(s, ev, o);
            && e.state.players == s.players && e.state.dirty == s.dirty
            && e.state.world == s.world && e.state.worldDirty == s.worldDirty
            && (e.jobs == [] || e.jobs == [Job(None, map[], Some(e.state.banned))])
  {
    hide ApplyIdle;
    PlainIdleShape(s, ev, o);
  }

  lemma IdleMarks(s: State, ev: Event, o: Oracle)
    ensures StaysMarked(s, ApplyIdle(s, ev, o))
  {
    hide Broadcast, SanitizeKey, SaveAll, Flush, AllMarked, ApplyIdle;
    var e := ApplyIdle(s, ev, o);
    forall d | AllMarked(s, d) ensures AllMarked(e.state, SaveJobs(d, e.jobs)) {
      SaveNone(d);
      if ev.PersistTick? {
        FlushMarks(s, d);
        TickIs(s, ev, o);
      } else if ev.Save? {
        SaveAllMarks(s, d);
        TickIs(s, ev, o);
      } else {
        IdleShape(s, ev, o);
        MarksSame(s, e.state, d);
        if e.jobs != [] { BanJobSaves(d, e.state.banned, e.jobs); }
      }
    }
  }

  /** Every step keeps records and world marked, judged against the snapshots queued so far. */
  lemma StepMarks(s: State, step: Step)
    requires Inv(s)
    ensures StaysMarked(s, Apply(s, step))
  {
    hide Inv, OnFrame, OnClosed, HandleUdp, RemoveClient, AdminKick, ApplyIdle, Without, AllMarked;
    InvAsm(s);
    if step.event.Net? {
      NetStepMarks(s, step.event.ev, step.t, step.o);
    } else if step.event.ClientTimeout? {
      RemoveMarks(s, step.event.peerId, false, step.o);
    } else if step.event.Kicked? {
      KickMarks(s, step.event.victim, step.event.ban, step.o);
    } else if step.event.PendingTimeout? {
      PendingDropMarks(s, step.event.connId);
    } else {
      IdleMarks(s, step.event, step.o);
    }
  }

  lemma PendingDropMarks(s: State, conn: ConnId)
    ensures StaysMarked(s, Effect(s.(pending := Without(s.pending, conn)), if conn != 0 then [CloseConn(conn)] else [], []))
  {
    forall d | AllMarked(s, d) ensures SaveJobs(d, []) == d { SaveNone(d); }
  }

  lemma NetStepMarks(s: State, ev: NetEvent, t: real, o: Oracle)
    requires Inv(s)
    ensures StaysMarked(s, ApplyNet(s, ev, t, o))
  {
    hide Inv, OnFrame, OnClosed, HandleUdp;
    InvAsm(s);
    match ev
    case TcpAccept(conn, addr) =>
      forall d | AllMarked(s, d) ensures SaveJobs(d, []) == d { SaveNone(d); }
    case TcpFrame(conn, peer, m) => FrameMarks(s, conn, peer, m, t, o);
    case TcpClosed(conn, peer) => ClosedMarks(s, conn, peer, o);
    case UdpDatagram(from, m) => HandleUdpMarks(s, from, m, t, o);
  }

  lemma {:induction false} SaveConcat(d: Saved, a: seq<Job>, b: seq<Job>)
    ensures SaveJobs(d, a + b) == SaveJobs(SaveJobs(d, a), b)
    decreases |b|
  {
    if b == [] {
      assert a + b == a;
    } else {
      var n := |b| - 1;
      assert (a + b)[..|a + b| - 1] == a + b[..n];
      SaveConcat(d, a, b[..n]);
    }
  }

  /** In every reachable state, with no refused job, a record differs from its last queued
      snapshot (or from what was loaded, or from the default) only while its key is dirty. */
  lemma {:induction false} ReachableMarked(s: State, steps: seq<Step>)
    requires Initial(s) && Run(s, steps)
    ensures AllMarked(After(s, steps), SaveJobs(Saved(s.players, s.world), JobsOf(s, steps)))
    decreases |steps|
  {
    hide Inv, Enabled, Apply, Marked;
    var d := Saved(s.players, s.world);
    if steps == [] {
      InitialMarked(s);
    } else {
      var n := |steps| - 1;
      ReachableMarked(s, steps[..n]);
      var before := After(s, steps[..n]);
      StepMarks(before, steps[n]);
      InvAsm(before);
      SaveConcat(d, JobsOf(s, steps[..n]), Apply(before, steps[n]).jobs);
    }
  }

  lemma InitialMarked(s: State)
    ensures AllMarked(s, SaveJobs(Saved(s.players, s.world), []))
  {
  }

  // ---------------------------------------------------------------- the worker

  const PERSIST_QUEUE_MAX := 256

  predicate EmptyJob(j: Job) { j.world.None? && j.players == map[] && j.bans.None? }

  const EMPTY_JOB := Job(None, map[], None)

  /** The jobs that have something to write. */
  function Real(jobs: seq<Job>): seq<Job> {
    if jobs == [] then []
    else Real(jobs[..|jobs| - 1]) + if EmptyJob(jobs[|jobs| - 1]) then [] else [jobs[|jobs| - 1]]
  }

  lemma {:induction false} RealConcat(a: seq<Job>, b: seq<Job>)
    ensures Real(a + b) == Real(a) + Real(b)
    decreases |b|
  {
    if b == [] {
      assert a + b == a;
    } else {
      assert (a + b)[..|a| + |b| - 1] == a + b[..|b| - 1];
      RealConcat(a, b[..|b| - 1]);
    }
  }

  lemma RealOne(j: Job)
    ensures Real([j]) == if EmptyJob(j) then [] else [j]
  {
    assert [j][..0] == [];
  }

  lemma RealHead(jobs: seq<Job>)
    requires jobs != []
    ensures Real(jobs) == Real([jobs[0]]) + Real(jobs[1..])
  {
    assert jobs == [jobs[0]] + jobs[1..];
    RealConcat([jobs[0]], jobs[1..]);
  }

  /** What was written, is in hand and is queued, apart from jobs with nothing to write. */
  function Ledger(written: seq<Job>, hand: seq<Job>, queue: seq<Job>): seq<Job> {
    written + Real(hand) + Real(queue)
  }

  lemma LedgerTake(written: seq<Job>, queue: seq<Job>)
    requires queue != []
    ensures Ledger(written, [queue[0]], queue[1..]) == Ledger(written, [], queue)
  {
    RealHead(queue);
    assert written + Real([queue[0]]) + Real(queue[1..]) == written + [] + (Real([queue[0]]) + Real(queue[1..]));
  }

  lemma LedgerWrite(written: seq<Job>, job: Job, queue: seq<Job>)
    ensures Ledger(written + Real([job]), [], queue) == Ledger(written, [job], queue)
  {
    assert written + Real([job]) + [] == written + Real([job]);
  }

  lemma LedgerSkip(written: seq<Job>, job: Job, queue: seq<Job>)
    requires EmptyJob(job)
    ensures Ledger(written, [], queue) == Ledger(written, [job], queue)
  {
    RealOne(job);
  }

  lemma LedgerPush(written: seq<Job>, hand: seq<Job>, queue: seq<Job>, accepted: seq<Job>, job: Job)
    requires Ledger(written, hand, queue) == Real(accepted)
    ensures Ledger(written, hand, queue + [job]) == Real(accepted + [job])
  {
    RealConcat(queue, [job]);
    RealConcat(accepted, [job]);
    var done := written + Real(hand);
    assert done + (Real(queue) + Real([job])) == (done + Real(queue)) + Real([job]);
  }

  lemma LedgerDone(written: seq<Job>, queue: seq<Job>)
    requires Real(queue) == []
    ensures Ledger(written, [], queue) == written
  {
    assert written + [] + [] == written;
  }

  lemma PushNothing(jobs: seq<Job>)
    ensures Real(jobs + [EMPTY_JOB]) == Real(jobs)
  {
    RealConcat(jobs, [EMPTY_JOB]);
    RealOne(EMPTY_JOB);
    assert Real(jobs) + [] == Real(jobs);
  }

  lemma NothingReal()
    ensures Real([]) == []
  {
  }

  /** Where the worker thread stands: at the loop's test of the flag, waiting for a job, with
      a job in hand, in the drain after the loop, or done. */
  datatype Phase = AtHead | Waiting | Holding(job: Job) | Draining | Finished

  /** `PersistWorker`: its queue, its flag, where its thread stands, and the jobs written. */
  class PersistWorker {
    var queue: seq<Job>
    var running: bool
    var phase: Phase
    var written: seq<Job>
    ghost var accepted: seq<Job>

    function InHand(): seq<Job>
      reads this
    {
      if phase.Holding? then [phase.job] else []
    }

    /** What was written, is in hand and is queued is what was accepted, in order and apart
        from jobs with nothing to write. */
    ghost predicate Valid()
      reads this
    {
      && |queue| <= PERSIST_QUEUE_MAX
      && Ledger(written, InHand(), queue) == Real(accepted)
      && (phase.Draining? || phase.Finished? ==> !running)
    }

    /** A thread that is done has left nothing to write. */
    ghost predicate Settled()
      reads this
    {
      phase.Finished? ==> Real(queue) == []
    }

    constructor ()
      ensures Valid() && Settled() && running && phase == AtHead && queue == [] && written == [] && accepted == []
    {
      queue, running, phase, written, accepted := [], true, AtHead, [], [];
    }

    /** `enqueue`: any job, whether the thread runs or not; refused when the queue is full. */
    method Enqueue(job: Job) returns (ok: bool)
      requires Valid()
      modifies this`queue, this`accepted
      ensures Valid()
      ensures ok == (|old(queue)| < PERSIST_QUEUE_MAX)
      ensures queue == if ok then old(queue) + [job] else old(queue)
      ensures accepted == if ok then old(accepted) + [job] else old(accepted)
    {
      hide Ledger, Real;
      if |queue| >= PERSIST_QUEUE_MAX {
        return false;
      }
      LedgerPush(written, InHand(), queue, accepted, job);
      queue := queue + [job];
      accepted := accepted + [job];
      ok := true;
    }

    /** Writing a job: nothing to do for an empty one. */
    method Write(job: Job)
      modifies this`written
      ensures written == old(written) + Real([job])
    {
      RealOne(job);
      if job.world.Some? || job.players != map[] || job.bans.Some? {
        written := written + [job];
      }
    }

    /** How many steps of a running thread can pass before it takes a job. */
    function Distance(): (d: nat)
      reads this
      ensures d <= 3
    {
      if phase.Waiting? then 1 else if phase.AtHead? then 2 else 3
    }

    /** How far a thread that was told to stop still has to go. */
    function Rank(): nat
      reads this
    {
      match phase
      case Finished => 0
      case Draining => 1 + |queue|
      case AtHead => 2 + |queue|
      case Waiting => 3 + |queue|
      case Holding(_) => 3 + |queue|
    }

    /** One step of the thread: a test of the flag, a wait, the handling of a job, or one job
        of the drain. */
    method ThreadStep()
      requires Valid()
      modifies this`queue, this`phase, this`written
      ensures Valid() && |queue| <= |old(queue)|
      ensures old(Settled()) ==> Settled()
      ensures !running && !old(phase).Finished? ==> Rank() < old(Rank())
      ensures old(phase).Finished? ==> phase.Finished?
      ensures running && old(queue) != [] ==> |queue| < |old(queue)| || (queue == old(queue) && Distance() < old(Distance()))
    {
      hide Ledger, Real, EmptyJob;
      NothingReal();
      match phase
      case AtHead =>
        phase := if running then Waiting else Draining;
      case Waiting =>
        if queue == [] {
          phase := AtHead;
        } else {
          LedgerTake(written, queue);
          phase := Holding(queue[0]);
          queue := queue[1..];
        }
      case Holding(job) =>
        HandleJob(job);
      case Draining =>
        if queue == [] {
          phase := Finished;
        } else {
          var job := queue[0];
          LedgerTake(written, queue);
          LedgerWrite(written, job, queue[1..]);
          queue := queue[1..];
          Write(job);
        }
      case Finished =>
    }

    /** The body of the loop with a job in hand: a thread told to stop leaves the loop on an
        empty job, otherwise the job is written. */
    method HandleJob(job: Job)
      requires Valid() && phase == Holding(job)
      modifies this`phase, this`written
      ensures Valid() && (phase == AtHead || (phase == Draining && !running))
    {
      hide Ledger, Real;
      if !running && job.players == map[] && job.world.None? && job.bans.None? {
        LedgerSkip(written, job, queue);
        phase := Draining;
      } else {
        LedgerWrite(written, job, queue);
        Write(job);
        phase := AtHead;
      }
    }

    /** Any number of steps of the thread. */
    method RunThread(n: nat)
      requires Valid()
      modifies this`queue, this`phase, this`written
      ensures Valid() && |queue| <= |old(queue)|
      ensures old(Settled()) ==> Settled()
      ensures running && old(queue) != [] ==> |queue| < |old(queue)| || n + Distance() <= old(Distance())
    {
      hide Ledger, Real;
      for i := 0 to n
        invariant Valid() && |queue| <= |old(queue)| && (old(Settled()) ==> Settled())
        invariant running && old(queue) != [] ==>
                    |queue| < |old(queue)| || (queue == old(queue) && i + Distance() <= old(Distance()))
      {
        ThreadStep();
      }
    }

    /** `join`: the thread runs to its end. */
    method Join()
      requires Valid() && Settled() && !running
      modifies this`queue, this`phase, this`written
      ensures Valid() && phase.Finished? && Real(queue) == [] && written == Real(accepted)
    {
      hide Ledger, Real;
      while !phase.Finished?
        invariant Valid() && Settled()
        decreases Rank()
      {
        ThreadStep();
      }
      LedgerDone(written, queue);
    }

    /** The push of the empty job that wakes the thread; it may be refused. */
    method PushEmpty()
      requires Valid() && Settled()
      modifies this`queue, this`accepted
      ensures Valid() && Settled() && Real(accepted) == Real(old(accepted))
    {
      hide Ledger, Real;
      PushNothing(queue);
      PushNothing(accepted);
      var ok := Enqueue(EMPTY_JOB);
    }

    /** `stop`, with `between` steps of the thread between its clearing of the flag and its
        push of the empty job. */
    method Stop(between: nat)
      requires Valid() && Settled()
      modifies this
      ensures Valid() && Settled() && !running
      ensures old(running) ==> phase.Finished? && written == Real(old(accepted)) && Real(queue) == []
      ensures Real(accepted) == Real(old(accepted))
    {
      if !running {
        return;
      }
      hide Ledger, Real;
      running := false;
      RunThread(between);
      PushEmpty();
      Join();
    }
  }

  // ---------------------------------------------------------------- shutdown

  /** The last time record `k` was written. */
  function LastWrite(jobs: seq<Job>, k: Key): Option<PlayerRec> {
    if jobs == [] then None
    else if k in jobs[|jobs| - 1].players then Some(jobs[|jobs| - 1].players[k])
    else LastWrite(jobs[..|jobs| - 1], k)
  }

  /** The last time the world was written. */
  function LastWorld(jobs: seq<Job>): Option<World> {
    if jobs == [] then None
    else if jobs[|jobs| - 1].world.Some? then jobs[|jobs| - 1].world
    else LastWorld(jobs[..|jobs| - 1])
  }

  lemma LastOfAll(jobs: seq<Job>, j: Job)
    ensures forall k :: k in j.players ==> LastWrite(jobs + [j], k) == Some(j.players[k])
    ensures j.world.Some? ==> LastWorld(jobs + [j]) == j.world
  {
  }

  function Total(schedule: seq<nat>): nat {
    if schedule == [] then 0 else Total(schedule[..|schedule| - 1]) + schedule[|schedule| - 1]
  }

  /** `enqueue_blocking`, with `schedule[i]` steps of the thread while it sleeps for the i-th
      time. It fails only if the thread was told to stop or still has not got round to taking
      a job; three steps of the thread are enough. */
  method EnqueueBlocking(w: PersistWorker, job: Job, schedule: seq<nat>) returns (ok: bool)
    requires w.Valid()
    modifies w`queue, w`phase, w`written, w`accepted
    ensures w.Valid() && (old(w.Settled()) && w.running ==> w.Settled())
    ensures w.accepted == if ok then old(w.accepted) + [job] else old(w.accepted)
    ensures w.running && Total(schedule) >= 3 ==> ok
  {
    hide Ledger, Real;
    ok := w.Enqueue(job);
    var i := 0;
    assert schedule[..0] == [];
    while !ok && w.running && i < |schedule|
      invariant 0 <= i <= |schedule| && w.Valid()
      invariant w.accepted == if ok then old(w.accepted) + [job] else old(w.accepted)
      invariant !ok ==> w.queue != [] && |w.queue| == PERSIST_QUEUE_MAX
      invariant !ok && w.running ==> Total(schedule[..i]) + w.Distance() <= 3
    {
      assert schedule[..i + 1][..i] == schedule[..i];
      w.RunThread(schedule[i]);
      ok := w.Enqueue(job);
      i := i + 1;
    }
    assert schedule[..|schedule|] == schedule;
  }

  /** The end of `main`, for every schedule of the worker's thread: the final job is pushed,
      retrying while the queue is full, and then the worker is stopped. Whatever was refused
      before, once the push gets through every accepted job has been written exactly once, in
      order, and the last write of every record and of the world is its final value. */
  method Shutdown(w: PersistWorker, world: World, players: map<Key, PlayerRec>, schedule: seq<nat>, pause: nat, between: nat)
    returns (ok: bool)
    requires w.Valid() && w.running
    modifies w
    ensures w.Valid() && (Total(schedule) >= 3 ==> ok)
    ensures ok ==> w.phase.Finished? && Real(w.queue) == []
    ensures ok ==> w.written == Real(old(w.accepted)) + [Job(Some(world), players, None)]
    ensures ok ==> forall k :: k in players ==> LastWrite(w.written, k) == Some(players[k])
    ensures ok ==> LastWorld(w.written) == Some(world)
  {
    hide Ledger, Real;
    var final := Job(Some(world), players, None);
    ok := EnqueueBlocking(w, final, schedule);
    if ok {
      w.RunThread(pause);
      w.Stop(between);
      RealConcat(old(w.accepted), [final]);
      RealOne(final);
      LastOfAll(Real(old(w.accepted)), final);
    }
  }
}
