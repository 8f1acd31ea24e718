/** Building runs of the session step by step: how a run goes on, and how players join. */
module Joining {
  import opened Bytes
  import opened Blobs
  import opened RateLimit
  import opened Types
  import opened Session
  import opened SessionInv
  import opened Ownership
  import opened SessionFacts
  import opened Admission
  import opened Uploads

  /** Somebody new is about to say an admissible Hello on a pending connection. */
  ghost predicate AtTheDoor(s: State, conn: ConnId, addr: Addr, h: Hello) {
    && IsPending(s.pending, conn) && FindPending(s.pending, conn) >= 0
    && s.pending[FindPending(s.pending, conn)] == PendingTcp(conn, addr, 1.0) && addr !in s.rates.hello
    && Admissible(s, h) && ByKey(s.clients, SanitizeKey(h.playerKey)).None?
  }

  function HelloStep(conn: ConnId, h: Hello, o: Oracle): Step { Step(Net(TcpFrame(conn, 0, InHello(h))), 1.0, o) }

  lemma JoinEnabled(s: State, conn: ConnId, addr: Addr, h: Hello, o: Oracle)
    requires Inv(s) && AtTheDoor(s, conn, addr, h) && ValidOrder(o.order, s.clients.Keys + {s.nextPeer})
    ensures Enabled(s, HelloStep(conn, h, o))
  {
    hide Inv, Gate, SanitizeKey, Admissible, FindPending, IsPending, HostAtHand, HasKey;
    GateIffAdmissible(s, h, o);
    NoLeaver(s, conn, h, o);
  }

  ghost predicate JoinedBy(s: State, s': State, conn: ConnId, addr: Addr, h: Hello) {
    && s'.cfg == s.cfg && s'.banned == s.banned && s'.nextPeer == s.nextPeer + 1
    && (s'.modHash == s.modHash || (s.modHash == 0 && s'.modHash == h.modHash))
    && s'.clients.Keys == s.clients.Keys + {s.nextPeer}
    && s'.clients[s.nextPeer].key == SanitizeKey(h.playerKey)
    && (forall q :: q in s.clients ==> s'.clients[q] == s.clients[q])
    && s'.pending == Without(s.pending, conn) && s'.rates.hello.Keys == s.rates.hello.Keys + {addr}
    && s'.rates == s.rates.(hello := s'.rates.hello) && s'.dirty == s.dirty
  }

  lemma AdmitJoins(s: State, conn: ConnId, addr: Addr, h: Hello, o: Oracle)
    requires Inv(s) && Gate(s, h, o).None? && ByKey(s.clients, SanitizeKey(h.playerKey)).None?
    ensures var s' := Admit(s, conn, addr, h, 1.0, o).state;
            && s'.cfg == s.cfg && s'.banned == s.banned && s'.nextPeer == s.nextPeer + 1 && s'.rates == s.rates
            && (s'.modHash == s.modHash || (s.modHash == 0 && s'.modHash == h.modHash))
            && s'.clients.Keys == s.clients.Keys + {s.nextPeer}
            && s'.clients[s.nextPeer].key == SanitizeKey(h.playerKey)
            && (forall q :: q in s.clients ==> s'.clients[q] == s.clients[q])
            && s'.pending == Without(s.pending, conn) && s'.dirty == s.dirty
  {
    hide Inv, Gate, FanOut, Enroll, Greet, Without, SanitizeKey, AddClient, HasKey, NewClient;
    if h.requireHost { LateFallbackUnreachable(s, h, o); }
    EnrollFrame(s, h);
    AddFrame(Enroll(s, h), conn, addr, h, 1.0);
    NewKey(Enroll(s, h), conn, addr, h);
    FreshId(s);
  }

  /** What the arrival of somebody new does to the session. */
  lemma JoinEffect(s: State, conn: ConnId, addr: Addr, h: Hello, o: Oracle)
    requires Inv(s) && AtTheDoor(s, conn, addr, h)
    ensures JoinedBy(s, Apply(s, HelloStep(conn, h, o)).state, conn, addr, h)
  {
    hide Inv, Gate, Admit, Without, SanitizeKey, Admissible, FindPending, IsPending, ByKey;
    var s1 := s.(rates := s.rates.(hello := AllowRate(s.rates.hello, addr, 1.0, 2).0));
    InvFrame(s, s1);
    GateIffAdmissible(s, h, o);
    GateIgnoresRates(s, s1.rates, h, o);
    HostLookupIdle(s1, o);
    AdmitJoins(s1, conn, addr, h, o);
  }

  lemma FreshId(s: State)
    requires Inv(s)
    ensures s.nextPeer !in s.clients
  {
  }

  lemma NewKey(s: State, conn: ConnId, addr: Addr, h: Hello)
    ensures NewClient(s, conn, addr, h, 1.0).key == SanitizeKey(h.playerKey)
  {
  }

  lemma NoLeaver(s: State, conn: ConnId, h: Hello, o: Oracle)
    ensures HostAtHand(s, Net(TcpFrame(conn, 0, InHello(h))), o)
  {
  }

  // ---------------------------------------------------------------- going on with a run

  ghost predicate Reaches(s: State, steps: seq<Step>, z: State) { Run(s, steps) && After(s, steps) == z }

  /** The chunk a step takes from `p`, if any. */
  ghost function ChunkBy(z: State, step: Step, p: PeerId, kind: BlobKind): seq<seq<Byte>> {
    var u := UploadOf(z, step);
    if u.Some? && u.value.from == p && u.value.kind == kind then [u.value.datagram] else []
  }

  /** Two runs from one state that took the same chunks and queued the same jobs. */
  ghost predicate SameIntake(s: State, steps: seq<Step>, more: seq<Step>)
    requires Run(s, steps) && Run(s, more)
  {
    && JobsOf(s, more) == JobsOf(s, steps)
    && forall p: PeerId, kind: BlobKind :: ChunksOf(s, more, p, kind) == ChunksOf(s, steps, p, kind)
  }

  lemma GoOn(s: State, steps: seq<Step>, z: State, step: Step)
    requires Reaches(s, steps, z) && Enabled(z, step)
    ensures Inv(z) && AsmOk(z.appearAsm) && AsmOk(z.invAsm) && Reaches(s, steps + [step], Apply(z, step).state)
    ensures Inv(Apply(z, step).state)
    ensures JobsOf(s, steps + [step]) == JobsOf(s, steps) + Apply(z, step).jobs
    ensures forall p: PeerId, kind: BlobKind :: ChunksOf(s, steps + [step], p, kind) == ChunksOf(s, steps, p, kind) + ChunkBy(z, step, p, kind)
  {
    hide Inv, Enabled, Apply, UploadOf;
    InvAsm(z);
    RunSnoc(s, steps, step);
    assert (steps + [step])[..|steps|] == steps;
    StepKeepsInv(z, step) by { EnabledParts(z, step); }
  }

  lemma EnabledParts(s: State, step: Step)
    requires Enabled(s, step)
    ensures HostAtHand(s, step.event, step.o) && FreshAccept(s, step.event)
  {
  }

  /** A connection that nobody has is accepted and becomes the newest pending one. */
  lemma Arrive(s: State, steps: seq<Step>, z: State, c: ConnId) returns (more: seq<Step>, z': State)
    requires Reaches(s, steps, z) && Inv(z) && c != 0 && z.pending == [] && (forall p :: !Owns(z.clients, p, c))
    requires exists order :: ValidOrder(order, z.clients.Keys)
    ensures Reaches(s, more, z') && Inv(z') && z' == z.(pending := [PendingTcp(c, c, 1.0)])
    ensures SameIntake(s, steps, more)
  {
    hide Inv, Run, After, ChunksOf, JobsOf;
    var order :| ValidOrder(order, z.clients.Keys);
    var step := Step(Net(TcpAccept(c, c)), 1.0, Oracle(order, 0, 0.0));
    GoOn(s, steps, z, step);
    more, z' := steps + [step], Apply(z, step).state;
    assert JobsOf(s, steps) + [] == JobsOf(s, steps);
    forall p: PeerId, kind: BlobKind ensures ChunksOf(s, more, p, kind) == ChunksOf(s, steps, p, kind) {
      assert ChunksOf(s, steps, p, kind) + [] == ChunksOf(s, steps, p, kind);
    }
  }

  lemma OnePending(c: ConnId)
    ensures var ps := [PendingTcp(c, c, 1.0)]; FindPending(ps, c) == 0 && IsPending(ps, c) && Without(ps, c) == []
  {
    var ps := [PendingTcp(c, c, 1.0)];
    assert ps[0].connId == c && ps[..0] == [];
  }

  lemma JoinRun(s: State, steps: seq<Step>, z: State, h: Hello, order: seq<PeerId>) returns (more: seq<Step>, z': State)
    requires Reaches(s, steps, z) && Inv(z) && z.pending == [] && Admissible(z, h) && ByKey(z.clients, SanitizeKey(h.playerKey)).None?
    requires z.nextPeer > 0 && z.nextPeer !in z.rates.hello && (forall p :: !Owns(z.clients, p, z.nextPeer))
    requires ValidOrder(order, z.clients.Keys + {z.nextPeer}) && exists o :: ValidOrder(o, z.clients.Keys)
    ensures Reaches(s, more, z') && Inv(z')
    ensures var a := z.(pending := [PendingTcp(z.nextPeer, z.nextPeer, 1.0)]);
            JoinedBy(a, z', z.nextPeer, z.nextPeer, h) && z'.pending == [] && z'.clients[z.nextPeer].connId == z.nextPeer
    ensures SameIntake(s, steps, more)
  {
    hide Inv, Run, After, ChunksOf, JobsOf, Admissible, SanitizeKey, FindPending, IsPending, Without, ByKey, Apply, Enabled, ValidOrder, Gate, HasKey;
    var c := z.nextPeer;
    var more1, z1 := Arrive(s, steps, z, c);
    OnePending(c);
    SameDoor(z, z1, h);
    var o := Oracle(order, 0, 0.0);
    InvAsm(z1);
    JoinEnabled(z1, c, c, h, o);
    JoinEffect(z1, c, c, h, o);
    GoOn(s, more1, z1, HelloStep(c, h, o));
    JoinConn(z1, c, c, h, o);
    more, z' := more1 + [HelloStep(c, h, o)], Apply(z1, HelloStep(c, h, o)).state;
    assert JobsOf(s, more1) + [] == JobsOf(s, more1);
    forall p: PeerId, kind: BlobKind ensures ChunksOf(s, more, p, kind) == ChunksOf(s, more1, p, kind) {
      assert ChunkBy(z1, HelloStep(c, h, o), p, kind) == [];
      assert ChunksOf(s, more1, p, kind) + [] == ChunksOf(s, more1, p, kind);
    }
  }

  lemma SameDoor(s: State, s': State, h: Hello)
    requires Admissible(s, h) && s' == s.(pending := s'.pending)
    ensures Admissible(s', h)
  {
  }

  lemma JoinConn(s: State, conn: ConnId, addr: Addr, h: Hello, o: Oracle)
    requires Inv(s) && AtTheDoor(s, conn, addr, h)
    ensures var s' := Apply(s, HelloStep(conn, h, o)).state; s.nextPeer in s'.clients && s'.clients[s.nextPeer].connId == conn
    ensures Apply(s, HelloStep(conn, h, o)).jobs == []
  {
    hide Inv, Gate, Admit, Without, SanitizeKey, Admissible, FindPending, IsPending, ByKey;
    var s1 := s.(rates := s.rates.(hello := AllowRate(s.rates.hello, addr, 1.0, 2).0));
    InvFrame(s, s1);
    GateIffAdmissible(s, h, o);
    GateIgnoresRates(s, s1.rates, h, o);
    HostLookupIdle(s1, o);
    AdmitShape(s1, conn, addr, h, 1.0, o);
  }

  lemma StartRun(s: State)
    requires Inv(s)
    ensures Reaches(s, [], s)
  {
  }

  lemma NoKeys(clients: map<PeerId, Client>, k: Key)
    requires clients == map[]
    ensures ByKey(clients, k).None?
  {
  }

  lemma OtherKey(clients: map<PeerId, Client>, k: Key)
    requires forall p :: p in clients ==> clients[p].key != k
    ensures ByKey(clients, k).None?
  {
  }
}
