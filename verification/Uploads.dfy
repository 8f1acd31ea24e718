/** Blobs through the session: a client's chunks among everything else that happens, the
    record that takes the finished blob, and what every other client is sent. */
module Uploads {
  import opened Bytes
  import opened Blobs
  import opened RateLimit
  import opened Types
  import opened Session
  import opened SessionInv

  // ---------------------------------------------------------------- loops over all clients are exact

  /** The messages sent on one connection, in order. */
  function SentTo(cmds: seq<Cmd>, c: ConnId): seq<OutMsg> {
    if cmds == [] then []
    else
      var last := cmds[|cmds| - 1];
      SentTo(cmds[..|cmds| - 1], c) + if last.TcpSend? && last.connId == c then [last.msg] else []
  }

  function BlobMsgs(kind: BlobKind, from: PeerId, packets: seq<seq<Byte>>): seq<OutMsg> {
    seq(|packets|, i requires 0 <= i < |packets| => BlobPacket(kind, from, packets[i]))
  }

  /** The loops that send every visited client something of its own. */
  predicate IsDirect(f: Fan) { f.ToOthers? || f.ToAll? || f.ToOne? || f.BlobToOthers? }

  /** What client `q` is meant to get. */
  function Due(f: Fan, q: PeerId): seq<OutMsg>
    requires IsDirect(f)
  {
    match f
    case ToOthers(except, m) => if q == except then [] else [m]
    case ToAll(m) => [m]
    case ToOne(target, m) => if q == target then [m] else []
    case BlobToOthers(from, kind, blob) =>
      if q == from then [] else BlobMsgs(kind, from, Packets(KindByte(kind), from % 0x1_0000_0000, blob))
  }

  lemma {:induction false} SentToConcat(a: seq<Cmd>, b: seq<Cmd>, c: ConnId)
    ensures SentTo(a + b, c) == SentTo(a, c) + SentTo(b, c)
    decreases |b|
  {
    if b == [] {
      assert a + b == a;
    } else {
      var n := |b| - 1;
      assert (a + b)[..|a| + n] == a + b[..n];
      SentToConcat(a, b[..n], c);
    }
  }

  lemma SentOne(client: Client, p: PeerId, m: OutMsg, c: ConnId)
    requires c != 0
    ensures SentTo(SendTcp(client, p, m), c) == if client.connId == c then [m] else []
  {
    if client.connId != 0 {
      assert [TcpSend(client.connId, p, m)][..0] == [];
    }
  }

  lemma {:induction false} SentPackets(client: Client, p: PeerId, kind: BlobKind, from: PeerId, packets: seq<seq<Byte>>, c: ConnId)
    requires c != 0
    ensures SentTo(SendPackets(client, p, kind, from, packets), c) == if client.connId == c then BlobMsgs(kind, from, packets) else []
  {
    hide SentTo, SendTcp;
    if packets == [] {
      SentNothing(c);
    } else {
      var n := |packets| - 1;
      var m := BlobPacket(kind, from, packets[n]);
      SentPackets(client, p, kind, from, packets[..n], c);
      SentToConcat(SendPackets(client, p, kind, from, packets[..n]), SendTcp(client, p, m), c);
      SentOne(client, p, m, c);
      assert BlobMsgs(kind, from, packets) == BlobMsgs(kind, from, packets[..n]) + [m];
    }
  }

  lemma VisitSent(clients: map<PeerId, Client>, maxUu: real, f: Fan, p: PeerId, c: ConnId)
    requires IsDirect(f) && c != 0
    ensures SentTo(Visit(clients, maxUu, f, p), c) == if p in clients && clients[p].connId == c then Due(f, p) else []
  {
    hide SendPackets, Packets, BlobMsgs, InInterest, SendTcp, SendUdp;
    if p in clients {
      var client := clients[p];
      match f
      case ToOthers(_, m) => SentOne(client, p, m, c);
      case ToAll(m) => SentOne(client, p, m, c);
      case ToOne(_, m) => SentOne(client, p, m, c);
      case BlobToOthers(from, kind, blob) =>
        SentPackets(client, p, kind, from, Packets(KindByte(kind), from % 0x1_0000_0000, blob), c);
    }
  }

  lemma {:induction false} FanOutSent(clients: map<PeerId, Client>, maxUu: real, f: Fan, order: seq<PeerId>, q: PeerId)
    requires IsDirect(f) && ConnsDistinct(clients) && q in clients
    requires forall i, j :: 0 <= i < j < |order| ==> order[i] != order[j]
    ensures SentTo(FanOut(clients, maxUu, f, order), clients[q].connId) == if q in order then Due(f, q) else []
  {
    hide Visit, Due, SentTo, ConnsDistinct;
    if order == [] {
      assert SentTo([], clients[q].connId) == [] by { SentNothing(clients[q].connId); }
    } else {
      var n := |order| - 1;
      var c, front, p := clients[q].connId, order[..n], order[n];
      FanOutSent(clients, maxUu, f, front, q);
      OwnConn(clients, p, q);
      VisitSent(clients, maxUu, f, p, c);
      SentToConcat(FanOut(clients, maxUu, f, front), Visit(clients, maxUu, f, p), c);
      if p == q {
        assert q !in front;
        assert [] + Due(f, q) == Due(f, q);
      } else {
        assert q in order <==> q in front by { assert order == front + [p]; }
        var sofar := SentTo(FanOut(clients, maxUu, f, front), c);
        assert sofar + [] == sofar;
      }
    }
  }

  lemma SentNothing(c: ConnId)
    ensures SentTo([], c) == []
  {
  }

  lemma OwnConn(clients: map<PeerId, Client>, p: PeerId, q: PeerId)
    requires ConnsDistinct(clients) && q in clients
    ensures clients[q].connId != 0 && (p in clients && clients[p].connId == clients[q].connId ==> p == q)
  {
  }

  /** In whatever order the table is walked, every client is sent on its own connection
      exactly what is due to it. */
  lemma BroadcastExact(s: State, f: Fan, o: Oracle, q: PeerId)
    requires Inv(s) && IsDirect(f) && q in s.clients && ValidOrder(o.order, s.clients.Keys)
    ensures SentTo(Broadcast(s, f, o), s.clients[q].connId) == Due(f, q)
  {
    FanOutSent(s.clients, s.cfg.interestUu, f, o.order, q);
  }

  // ---------------------------------------------------------------- which steps are uploads

  datatype Chunk = Chunk(from: PeerId, kind: BlobKind, datagram: seq<Byte>)

  /** The chunk a step hands to an assembly: one that came from a live client and passed
      its rate check. */
  ghost function UploadOf(s: State, step: Step): Option<Chunk> {
    if !(step.event.Net? && step.event.ev.TcpFrame? && step.event.ev.msg.InBlob?) then None
    else
      var ev := step.event.ev;
      var who := FrameClient(s, ev.connId, ev.peerId);
      if who.Some? && AllowRate(s.rates.blob, who.value, step.t, 64).1
      then Some(Chunk(who.value, ev.msg.kind, ev.msg.datagram)) else None
  }

  function BlobOf(players: map<Key, PlayerRec>, k: Key, kind: BlobKind): seq<Byte> {
    if kind.Appearance? then RecOf(players, k).appearance else RecOf(players, k).inventory
  }

  ghost predicate SameBlobs(ps: map<Key, PlayerRec>, ps': map<Key, PlayerRec>) {
    forall k, kind :: BlobOf(ps', k, kind) == BlobOf(ps, k, kind)
  }

  ghost predicate SameAsm(s: State, s': State) { s'.appearAsm == s.appearAsm && s'.invAsm == s.invAsm }

  ghost predicate SameUploads(s: State, s': State) { SameAsm(s, s') && SameBlobs(s.players, s'.players) }

  /** What a chunk does: its own assembly takes it, and if that completes, the sender's
      record takes the blob. */
  ghost predicate Uploaded(s: State, s': State, c: Chunk)
    requires AsmOk(AsmTable(s, c.kind))
  {
    var r := Accept(AsmOf(AsmTable(s, c.kind), c.from), c.datagram);
    && c.from in s.clients
    && AsmOf(AsmTable(s', c.kind), c.from) == r.0
    && (forall q, kind :: q != c.from || kind != c.kind ==> AsmOf(AsmTable(s', kind), q) == AsmOf(AsmTable(s, kind), q))
    && (!r.1.Complete? ==> SameBlobs(s.players, s'.players))
    && (r.1.Complete? ==> BlobOf(s'.players, s.clients[c.from].key, c.kind) == r.1.blob)
    && (r.1.Complete? ==> forall k, kind :: k != s.clients[c.from].key || kind != c.kind ==>
                            BlobOf(s'.players, k, kind) == BlobOf(s.players, k, kind))
  }

  // ---------------------------------------------------------------- every other step leaves uploads alone

  lemma RemoveSame(s: State, p: PeerId, keepTcp: bool, o: Oracle)
    ensures SameUploads(s, RemoveClient(s, p, keepTcp, o).state)
  {
    hide RemoveClient;
    if p in s.clients { RemoveShape(s, p, keepTcp, o); } else { RemoveAbsent(s, p, keepTcp, o); }
  }

  lemma KickSame(s: State, p: PeerId, ban: bool, o: Oracle)
    ensures SameUploads(s, AdminKick(s, p, ban, o).state)
  {
    hide AdminKick;
    if p in s.clients { KickShape(s, p, ban, o); } else { KickAbsent(s, p, ban, o); }
  }

  lemma PoseSame(s: State, p: PeerId, raw: Pose, t: real, o: Oracle)
    requires p in s.clients
    ensures SameUploads(s, OnPose(s, p, raw, t, o).state)
  {
    hide Broadcast, AllowRate, TakePose, SameBlobs;
    var s1 := s.(rates := s.rates.(pose := AllowRate(s.rates.pose, p, t, 30).0));
    TakePoseSame(s1, p, raw.(peerId := p));
    assert SameBlobs(s.players, s.players) by { NoChange(s.players); }
  }

  lemma NoChange(ps: map<Key, PlayerRec>)
    ensures SameBlobs(ps, ps)
  {
  }

  lemma TakePoseSame(s: State, p: PeerId, pose: Pose)
    requires p in s.clients
    ensures SameUploads(s, TakePose(s, p, pose))
  {
  }

  lemma HandleUdpSame(s: State, from: Addr, m: InMsg, t: real, o: Oracle)
    ensures SameUploads(s, HandleUdp(s, from, m, t, o).state)
  {
    hide FanOut, OnPose, UnbindUdp, BlobOf;
    if m.InUdpBind? {
      if m.peer in s.clients { UnbindFrame(s, m.peer); }
    } else if m.InPlayerPose? {
      var (s1, who) := FindByUdp(s, from);
      if who.Some? { PoseSame(Touch(s1, who.value, t), who.value, m.pose, t, o); }
    }
  }

  lemma HelloAgainSame(s: State, p: PeerId)
    requires p in s.clients
    ensures SameUploads(s, HelloAgain(s, p).state)
  {
    hide UnbindUdp;
    var token := NextToken(s.tokenSeed);
    UnbindFrame(s.(tokenSeed := token, clients := s.clients[p := s.clients[p].(udpToken := token)]), p);
  }

  lemma EnrollSame(s: State, h: Hello)
    ensures SameUploads(s, Enroll(s, h))
  {
    hide SanitizeKey;
  }

  lemma AdmitSame(s: State, conn: ConnId, addr: Addr, h: Hello, t: real, o: Oracle)
    ensures SameUploads(s, Admit(s, conn, addr, h, t, o).state)
  {
    hide FanOut, Enroll, Reattach, AddClient, Greet, Without, SanitizeKey, SameBlobs;
    EnrollSame(s, h);
    var s1 := Enroll(s, h);
    EnrollFrame(s, h);
    var same := ByKey(s.clients, SanitizeKey(h.playerKey));
    if same.Some? {
      ReattachFrame(s1, same.value, conn, addr, h, t);
    } else {
      AddFrame(s1, conn, addr, h, t);
    }
  }

  lemma HandlePendingSame(s: State, entry: PendingTcp, m: InMsg, t: real, o: Oracle)
    requires Inv(s)
    ensures SameUploads(s, HandlePending(s, entry, m, t, o).state)
  {
    hide Inv, Admit, SanitizeKey, Gate, BlobOf;
    if m.InHello? {
      var s1 := s.(rates := s.rates.(hello := AllowRate(s.rates.hello, entry.addr, t, 2).0));
      InvFrame(s, s1);
      HostLookupIdle(s1, o);
      AdmitSame(s1, entry.connId, entry.addr, m.hello, t, o);
    }
  }

  lemma HandleTcpSame(s: State, p: PeerId, m: InMsg, t: real, o: Oracle)
    requires p in s.clients && AsmOk(s.appearAsm) && AsmOk(s.invAsm) && !m.InBlob?
    ensures SameUploads(s, HandleTcp(s, p, m, t, o).state)
  {
    hide RemoveClient, HelloAgain, Relay, BlobOf;
    if !m.BadHeader? && !IsUdpOnly(m) {
      var s1 := Touch(s, p, t);
      if m.InBye? {
        RemoveSame(s1, p, true, o);
      } else if m.InHello? {
        HelloAgainSame(s1, p);
      } else {
        RelayFrame(s1, p, m, t, o);
      }
    }
  }

  lemma ClosedSame(s: State, conn: ConnId, peer: PeerId, o: Oracle)
    ensures SameUploads(s, OnClosed(s, conn, peer, o).state)
  {
    hide RemoveClient, Without, BlobOf;
    var s1 := s.(pending := Without(s.pending, conn));
    if peer != 0 {
      RemoveSame(s1, peer, false, o);
    } else {
      var owner := OwnerOf(s1.clients, conn);
      if owner.Some? {
        RemoveSame(s1.(clients := s1.clients[owner.value := s1.clients[owner.value].(connId := 0)]), owner.value, false, o);
      }
    }
  }

  // ---------------------------------------------------------------- a chunk

  lemma KeepBlobTakes(s: State, p: PeerId, kind: BlobKind, blob: seq<Byte>)
    requires p in s.clients
    ensures var s' := KeepBlob(s, p, kind, blob);
            && SameAsm(s, s')
            && BlobOf(s'.players, s.clients[p].key, kind) == blob
            && (forall k, kind2 :: k != s.clients[p].key || kind2 != kind ==> BlobOf(s'.players, k, kind2) == BlobOf(s.players, k, kind2))
            && s'.clients.Keys == s.clients.Keys
            && (forall q :: q in s.clients ==> s'.clients[q].connId == s.clients[q].connId)
  {
  }

  lemma CompleteEmpties(a: Assembly, d: seq<Byte>)
    requires ValidAssembly(a)
    ensures Accept(a, d).1.Complete? ==> Accept(a, d).0 == EMPTY
  {
  }

  lemma WithAsmOf(s: State, kind: BlobKind, table: map<PeerId, Assembly>, p: PeerId)
    requires forall q :: q != p ==> AsmOf(table, q) == AsmOf(AsmTable(s, kind), q)
    ensures var s' := WithAsm(s, kind, table);
            && AsmOf(AsmTable(s', kind), p) == AsmOf(table, p)
            && (forall q, kind2 :: q != p || kind2 != kind ==> AsmOf(AsmTable(s', kind2), q) == AsmOf(AsmTable(s, kind2), q))
            && s'.players == s.players && s'.clients == s.clients && s'.cfg == s.cfg
  {
  }

  lemma ChunkTaken(s: State, c: Chunk, o: Oracle)
    requires c.from in s.clients && AsmOk(AsmTable(s, c.kind))
    ensures Uploaded(s, TakeChunk(s, c.from, c.kind, c.datagram, o).state, c)
  {
    hide FanOut, Accept, KeepBlob, WithAsm, BlobOf;
    var table := AsmTable(s, c.kind);
    var (asm, status) := Accept(AsmOf(table, c.from), c.datagram);
    if status.Complete? {
      CompleteEmpties(AsmOf(table, c.from), c.datagram);
      WithAsmOf(s, c.kind, table - {c.from}, c.from);
      KeepBlobTakes(WithAsm(s, c.kind, table - {c.from}), c.from, c.kind, status.blob);
    } else {
      WithAsmOf(s, c.kind, table[c.from := asm], c.from);
    }
  }

  lemma HandleTcpUpload(s: State, p: PeerId, m: InMsg, t: real, o: Oracle)
    requires p in s.clients && AsmOk(s.appearAsm) && AsmOk(s.invAsm) && m.InBlob?
    ensures var s' := HandleTcp(s, p, m, t, o).state;
            if AllowRate(s.rates.blob, p, t, 64).1 then Uploaded(s, s', Chunk(p, m.kind, m.datagram)) else SameUploads(s, s')
  {
    hide TakeChunk, Accept, BlobOf;
    var s1 := Touch(s, p, t);
    var s2 := s1.(rates := s1.rates.(blob := AllowRate(s1.rates.blob, p, t, 64).0));
    ChunkTaken(s2, Chunk(p, m.kind, m.datagram), o);
  }

  lemma FrameUploads(s: State, conn: ConnId, peer: PeerId, m: InMsg, t: real, o: Oracle)
    requires Inv(s)
    ensures var s' := OnFrame(s, conn, peer, m, t, o).state;
            var who := FrameClient(s, conn, peer);
            if m.InBlob? && who.Some? && AllowRate(s.rates.blob, who.value, t, 64).1
            then Uploaded(s, s', Chunk(who.value, m.kind, m.datagram)) else SameUploads(s, s')
  {
    hide Inv, HandleTcp, HandlePending, BlobOf, AllowRate, Uploaded;
    InvAsm(s);
    var f := FrameClient(s, conn, peer);
    var i := FindPending(s.pending, conn);
    if f.Some? {
      if m.InBlob? { HandleTcpUpload(s, f.value, m, t, o); } else { HandleTcpSame(s, f.value, m, t, o); }
    } else if i >= 0 {
      HandlePendingSame(s, s.pending[i], m, t, o);
    }
  }

  /** Every step either hands one chunk to one assembly or leaves all uploads alone. */
  lemma StepUploads(s: State, step: Step)
    requires Inv(s)
    ensures var s' := Apply(s, step).state;
            match UploadOf(s, step)
            case None => SameUploads(s, s')
            case Some(c) => Uploaded(s, s', c)
  {
    hide Inv, OnFrame, OnClosed, HandleUdp, RemoveClient, AdminKick, ApplyIdle, Without, Uploaded, BlobOf, FrameClient, AllowRate;
    if step.event.Net? {
      var ev := step.event.ev;
      if ev.TcpFrame? {
        FrameUploads(s, ev.connId, ev.peerId, ev.msg, step.t, step.o);
      } else if ev.TcpClosed? {
        ClosedSame(s, ev.connId, ev.peerId, step.o);
      } else if ev.UdpDatagram? {
        HandleUdpSame(s, ev.addr, ev.msg, step.t, step.o);
      }
    } else if step.event.ClientTimeout? {
      RemoveSame(s, step.event.peerId, false, step.o);
    } else if step.event.Kicked? {
      KickSame(s, step.event.victim, step.event.ban, step.o);
    } else if !step.event.PendingTimeout? {
      IdleFrame(s, step.event, step.o);
    }
  }

  // ---------------------------------------------------------------- whole runs

  /** The chunks of one kind a run took from one client, in order. */
  ghost function ChunksOf(s: State, steps: seq<Step>, p: PeerId, kind: BlobKind): seq<seq<Byte>>
    requires Run(s, steps)
    decreases |steps|
  {
    if steps == [] then []
    else
      var n := |steps| - 1;
      var u := UploadOf(After(s, steps[..n]), steps[n]);
      ChunksOf(s, steps[..n], p, kind) + if u.Some? && u.value.from == p && u.value.kind == kind then [u.value.datagram] else []
  }

  ghost function AsmAt(s: State, p: PeerId, kind: BlobKind): Assembly { AsmOf(AsmTable(s, kind), p) }

  lemma AsmValid(s: State, p: PeerId, kind: BlobKind)
    requires Inv(s)
    ensures ValidAssembly(AsmAt(s, p, kind)) && AsmOk(s.appearAsm) && AsmOk(s.invAsm)
  {
    InvAsm(s);
  }

  lemma StepAsm(s: State, step: Step, p: PeerId, kind: BlobKind)
    requires Inv(s) && ValidAssembly(AsmAt(s, p, kind))
    ensures AsmAt(Apply(s, step).state, p, kind)
         == match UploadOf(s, step)
            case None => AsmAt(s, p, kind)
            case Some(c) => if c.from == p && c.kind == kind then Accept(AsmAt(s, p, kind), c.datagram).0 else AsmAt(s, p, kind)
  {
    hide Inv, Apply, UploadOf, Accept, BlobOf;
    StepUploads(s, step);
  }

  /** Whatever happens in between, an assembly holds what its own client's chunks make. */
  lemma {:induction false} AssemblyIsFeed(s: State, steps: seq<Step>, p: PeerId, kind: BlobKind)
    requires Run(s, steps)
    ensures ValidAssembly(AsmAt(s, p, kind))
    ensures AsmAt(After(s, steps), p, kind) == Feed(AsmAt(s, p, kind), ChunksOf(s, steps, p, kind)).0
    decreases |steps|
  {
    hide Inv, Enabled, Apply, UploadOf, Accept, AsmAt;
    AsmValid(s, p, kind);
    if steps != [] {
      var n := |steps| - 1;
      var before := After(s, steps[..n]);
      AssemblyIsFeed(s, steps[..n], p, kind);
      AsmValid(before, p, kind);
      StepAsm(before, steps[n], p, kind);
      var ds := ChunksOf(s, steps, p, kind);
      var u := UploadOf(before, steps[n]);
      if u.Some? && u.value.from == p && u.value.kind == kind {
        assert ds[..|ds| - 1] == ChunksOf(s, steps[..n], p, kind);
      } else {
        assert ds == ChunksOf(s, steps[..n], p, kind);
      }
    }
  }

  lemma ChunkRelayed(s: State, c: Chunk, o: Oracle, q: PeerId)
    requires Inv(s) && c.from in s.clients && AsmOk(AsmTable(s, c.kind)) && q in s.clients && ValidOrder(o.order, s.clients.Keys)
    requires Accept(AsmOf(AsmTable(s, c.kind), c.from), c.datagram).1.Complete?
    ensures SentTo(TakeChunk(s, c.from, c.kind, c.datagram, o).cmds, s.clients[q].connId)
         == Due(BlobToOthers(c.from, c.kind, Accept(AsmOf(AsmTable(s, c.kind), c.from), c.datagram).1.blob), q)
  {
    hide Inv, Broadcast, Accept, KeepBlob, WithAsm, BlobOf, Due, SentTo, ValidOrder;
    var table := AsmTable(s, c.kind);
    var blob := Accept(AsmOf(table, c.from), c.datagram).1.blob;
    AsmKeepsInv(s, c.kind, table - {c.from});
    WithAsmOf(s, c.kind, table - {c.from}, c.from);
    var s1 := WithAsm(s, c.kind, table - {c.from});
    KeepBlobKeepsInv(s1, c.from, c.kind, blob);
    KeepBlobTakes(s1, c.from, c.kind, blob);
    BroadcastExact(KeepBlob(s1, c.from, c.kind, blob), BlobToOthers(c.from, c.kind, blob), o, q);
  }

  lemma HandleTcpRelays(s: State, p: PeerId, m: InMsg, t: real, o: Oracle, q: PeerId)
    requires Inv(s) && p in s.clients && m.InBlob?
    requires q in s.clients && ValidOrder(o.order, s.clients.Keys) && AllowRate(s.rates.blob, p, t, 64).1
    requires Accept(AsmOf(AsmTable(s, m.kind), p), m.datagram).1.Complete?
    ensures SentTo(HandleTcp(s, p, m, t, o).cmds, s.clients[q].connId)
         == Due(BlobToOthers(p, m.kind, Accept(AsmOf(AsmTable(s, m.kind), p), m.datagram).1.blob), q)
  {
    hide Inv, TakeChunk, Accept, Due, SentTo, ValidOrder;
    TouchKeepsInv(s, p, t);
    var s1 := Touch(s, p, t);
    var s2 := s1.(rates := s1.rates.(blob := AllowRate(s1.rates.blob, p, t, 64).0));
    InvFrame(s1, s2);
    assert s2.clients.Keys == s.clients.Keys && s2.clients[q].connId == s.clients[q].connId;
    ChunkRelayed(s2, Chunk(p, m.kind, m.datagram), o, q);
  }

  /** A chunk that completes a blob sends it to everyone else. */
  lemma StepRelays(s: State, step: Step, c: Chunk, q: PeerId)
    requires Inv(s) && Enabled(s, step) && UploadOf(s, step) == Some(c) && q in s.clients
    requires ValidAssembly(AsmAt(s, c.from, c.kind))
    requires Accept(AsmAt(s, c.from, c.kind), c.datagram).1.Complete?
    ensures SentTo(Apply(s, step).cmds, s.clients[q].connId)
         == Due(BlobToOthers(c.from, c.kind, Accept(AsmAt(s, c.from, c.kind), c.datagram).1.blob), q)
  {
    hide Inv, HandleTcp, HandlePending, Accept, Due, SentTo, ValidOrder, HostAtHand, FreshAccept, AllowRate, FindPending;
    var ev := step.event.ev;
    HandleTcpRelays(s, c.from, ev.msg, step.t, step.o, q);
  }

  /** The packet that completes an upload, judged by all that came before it. */
  lemma LastPacket(kind: Byte, id: Word32, blob: seq<Byte>, a: Assembly, ds: seq<seq<Byte>>, d: seq<Byte>)
    requires Splittable(blob) && ValidAssembly(a) && ds + [d] == Packets(kind, id, blob)
    requires a.chunkCount != ChunkCount(blob) || a.blobBytes != |blob| || SlotEmpty(blob, a, ChunkCount(blob) - 1)
    ensures Accept(Feed(a, ds).0, d).1 == Complete(blob)
  {
    hide Accept, Packets;
    InOrderReassembles(kind, id, blob, a);
    assert (ds + [d])[..|ds|] == ds;
  }

  /** The end of an upload in a run with any other steps in between: after the last chunk the
      sender's record holds exactly the blob, and each other client has been sent exactly its
      packets under the sender's id, in order, and the sender nothing. */
  lemma UploadArrives(s: State, steps: seq<Step>, last: Step, p: PeerId, kind: BlobKind, id: Word32, blob: seq<Byte>, d: seq<Byte>)
    requires Run(s, steps) && Enabled(After(s, steps), last) && Splittable(blob)
    requires UploadOf(After(s, steps), last) == Some(Chunk(p, kind, d))
    requires ChunksOf(s, steps, p, kind) + [d] == Packets(KindByte(kind), id, blob)
    requires var a := AsmAt(s, p, kind);
             ValidAssembly(a) && (a.chunkCount != ChunkCount(blob) || a.blobBytes != |blob| || SlotEmpty(blob, a, ChunkCount(blob) - 1))
    ensures var before := After(s, steps);
            && AsmOk(before.appearAsm) && AsmOk(before.invAsm)
            && p in before.clients
            && BlobOf(Apply(before, last).state.players, before.clients[p].key, kind) == blob
            && forall q :: q in before.clients ==>
                 SentTo(Apply(before, last).cmds, before.clients[q].connId) == Due(BlobToOthers(p, kind, blob), q)
  {
    hide Inv, Enabled, Apply, UploadOf, Accept, Due, SentTo, BlobOf, ChunksOf, SlotEmpty, Packets;
    var before := After(s, steps);
    AssemblyIsFeed(s, steps, p, kind);
    AsmValid(before, p, kind);
    LastPacket(KindByte(kind), id, blob, AsmAt(s, p, kind), ChunksOf(s, steps, p, kind), d);
    StepUploads(before, last);
    forall q | q in before.clients
      ensures SentTo(Apply(before, last).cmds, before.clients[q].connId) == Due(BlobToOthers(p, kind, blob), q)
    {
      StepRelays(before, last, Chunk(p, kind, d), q);
    }
  }
}
