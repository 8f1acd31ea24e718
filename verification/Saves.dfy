/** What refused jobs cost: the session clears its dirty marks before it knows whether the
    worker's queue took the job. */
module Saves {
  import opened Bytes
  import opened Blobs
  import opened RateLimit
  import opened Types
  import opened Session
  import opened SessionInv
  import opened Admission
  import opened Uploads
  import opened Joining
  import opened Mixups
  import opened Persist

  /** The jobs the queue took. */
  function Taken(jobs: seq<Job>, took: seq<bool>): seq<Job>
    requires |took| == |jobs|
  {
    if jobs == [] then []
    else
      var n := |jobs| - 1;
      Taken(jobs[..n], took[..n]) + if took[n] then [jobs[n]] else []
  }

  /** The last snapshot of a record among the jobs; at first what was loaded, or the default. */
  function Snap(d: Saved, jobs: seq<Job>, k: Key): PlayerRec { RecOf(SaveJobs(d, jobs).players, k) }

  lemma SnapSnoc(d: Saved, jobs: seq<Job>, j: Job, k: Key)
    ensures Snap(d, jobs + [j], k) == if k in j.players then j.players[k] else Snap(d, jobs, k)
    ensures SaveJobs(d, jobs + [j]).world == if j.world.Some? then j.world.value else SaveJobs(d, jobs).world
  {
    assert (jobs + [j])[..|jobs|] == jobs;
  }

  // ---------------------------------------------------------------- the exact condition

  /** Job `j` was refused, no later job speaks of record `k`, and what it carried differs
      from the last snapshot that was taken. */
  ghost predicate LostAt(d: Saved, jobs: seq<Job>, took: seq<bool>, k: Key, j: nat)
    requires |took| == |jobs|
  {
    && j < |jobs| && !took[j] && k in jobs[j].players
    && (forall i :: j < i < |jobs| ==> k !in jobs[i].players)
    && !SameContent(jobs[j].players[k], Snap(d, Taken(jobs[..j], took[..j]), k))
  }

  ghost predicate Lost(d: Saved, jobs: seq<Job>, took: seq<bool>, k: Key)
    requires |took| == |jobs|
  {
    exists j: nat :: LostAt(d, jobs, took, k, j)
  }

  lemma LostSnoc(d: Saved, jobs: seq<Job>, took: seq<bool>, k: Key)
    requires |took| == |jobs| && jobs != []
    ensures var n := |jobs| - 1;
            Lost(d, jobs, took, k)
            <==> if k in jobs[n].players then !took[n] && !SameContent(jobs[n].players[k], Snap(d, Taken(jobs[..n], took[..n]), k))
                 else Lost(d, jobs[..n], took[..n], k)
  {
    hide SameContent, Snap, Taken;
    var n := |jobs| - 1;
    var front, tf := jobs[..n], took[..n];
    if k in jobs[n].players {
      forall j: nat | LostAt(d, jobs, took, k, j) ensures j == n { }
      assert !took[n] && !SameContent(jobs[n].players[k], Snap(d, Taken(jobs[..n], took[..n]), k)) ==> LostAt(d, jobs, took, k, n);
    } else {
      forall j: nat | j < n ensures LostAt(d, jobs, took, k, j) <==> LostAt(d, front, tf, k, j) {
        assert front[..j] == jobs[..j] && tf[..j] == took[..j];
        assert forall i :: j < i < n ==> front[i] == jobs[i];
      }
    }
  }

  lemma {:induction false} SnapshotsAgreeIff(d: Saved, jobs: seq<Job>, took: seq<bool>, k: Key)
    requires |took| == |jobs|
    ensures SameContent(Snap(d, jobs, k), Snap(d, Taken(jobs, took), k)) <==> !Lost(d, jobs, took, k)
  {
    hide Snap, Lost;
    if jobs == [] {
      assert !Lost(d, jobs, took, k) by { NothingLost(d, took, k); }
    } else {
      var n := |jobs| - 1;
      SnapshotsAgreeIff(d, jobs[..n], took[..n], k);
      LostSnoc(d, jobs, took, k);
      assert jobs == jobs[..n] + [jobs[n]];
      SnapSnoc(d, jobs[..n], jobs[n], k);
      SnapSnoc(d, Taken(jobs[..n], took[..n]), jobs[n], k);
      if !took[n] { assert Taken(jobs[..n], took[..n]) + [] == Taken(jobs[..n], took[..n]); }
    }
  }

  lemma NothingLost(d: Saved, took: seq<bool>, k: Key)
    requires took == []
    ensures !Lost(d, [], took, k)
  {
  }

  /** For every run, whichever jobs were refused: a record that is not marked dirty equals its
      last snapshot that was taken if and only if the last job that spoke of it was taken, or
      carried what that snapshot had already. */
  lemma RecordSafeIff(s: State, steps: seq<Step>, took: seq<bool>, k: Key)
    requires Initial(s) && Run(s, steps) && |took| == |JobsOf(s, steps)|
    requires k in After(s, steps).players && k !in After(s, steps).dirty
    ensures var d := Saved(s.players, s.world);
            SameContent(After(s, steps).players[k], Snap(d, Taken(JobsOf(s, steps), took), k)) <==> !Lost(d, JobsOf(s, steps), took, k)
  {
    hide Run, After, JobsOf, SaveJobs, Lost, Initial;
    ReachableMarked(s, steps);
    SnapshotsAgreeIff(Saved(s.players, s.world), JobsOf(s, steps), took, k);
  }

  /** The same for the world. */
  ghost predicate WorldLostAt(d: Saved, jobs: seq<Job>, took: seq<bool>, j: nat)
    requires |took| == |jobs|
  {
    && j < |jobs| && !took[j] && jobs[j].world.Some?
    && (forall i :: j < i < |jobs| ==> jobs[i].world.None?)
    && !SameWorld(jobs[j].world.value, SaveJobs(d, Taken(jobs[..j], took[..j])).world)
  }

  ghost predicate WorldLost(d: Saved, jobs: seq<Job>, took: seq<bool>)
    requires |took| == |jobs|
  {
    exists j: nat :: WorldLostAt(d, jobs, took, j)
  }

  lemma WorldLostSnoc(d: Saved, jobs: seq<Job>, took: seq<bool>)
    requires |took| == |jobs| && jobs != []
    ensures var n := |jobs| - 1;
            WorldLost(d, jobs, took)
            <==> if jobs[n].world.Some? then !took[n] && !SameWorld(jobs[n].world.value, SaveJobs(d, Taken(jobs[..n], took[..n])).world)
                 else WorldLost(d, jobs[..n], took[..n])
  {
    hide SameWorld, SaveJobs, Taken;
    var n := |jobs| - 1;
    var front, tf := jobs[..n], took[..n];
    if jobs[n].world.Some? {
      forall j: nat | WorldLostAt(d, jobs, took, j) ensures j == n { }
      assert !took[n] && !SameWorld(jobs[n].world.value, SaveJobs(d, Taken(jobs[..n], took[..n])).world) ==> WorldLostAt(d, jobs, took, n);
    } else {
      forall j: nat | j < n ensures WorldLostAt(d, jobs, took, j) <==> WorldLostAt(d, front, tf, j) {
        assert front[..j] == jobs[..j] && tf[..j] == took[..j];
        assert forall i :: j < i < n ==> front[i] == jobs[i];
      }
    }
  }

  lemma {:induction false} WorldsAgreeIff(d: Saved, jobs: seq<Job>, took: seq<bool>)
    requires |took| == |jobs|
    ensures SameWorld(SaveJobs(d, jobs).world, SaveJobs(d, Taken(jobs, took)).world) <==> !WorldLost(d, jobs, took)
  {
    hide SaveJobs, WorldLost;
    if jobs == [] {
      assert !WorldLost(d, jobs, took) by { NoWorldLost(d, took); }
    } else {
      var n := |jobs| - 1;
      WorldsAgreeIff(d, jobs[..n], took[..n]);
      WorldLostSnoc(d, jobs, took);
      assert jobs == jobs[..n] + [jobs[n]];
      SnapSnoc(d, jobs[..n], jobs[n], "");
      SnapSnoc(d, Taken(jobs[..n], took[..n]), jobs[n], "");
      if !took[n] { assert Taken(jobs[..n], took[..n]) + [] == Taken(jobs[..n], took[..n]); }
    }
  }

  lemma NoWorldLost(d: Saved, took: seq<bool>)
    requires took == []
    ensures !WorldLost(d, [], took)
  {
  }

  lemma WorldSafeIff(s: State, steps: seq<Step>, took: seq<bool>)
    requires Initial(s) && Run(s, steps) && |took| == |JobsOf(s, steps)| && !After(s, steps).worldDirty
    ensures var d := Saved(s.players, s.world);
            SameWorld(After(s, steps).world, SaveJobs(d, Taken(JobsOf(s, steps), took)).world) <==> !WorldLost(d, JobsOf(s, steps), took)
  {
    hide Run, After, JobsOf, SaveJobs, WorldLost, Initial;
    ReachableMarked(s, steps);
    WorldsAgreeIff(Saved(s.players, s.world), JobsOf(s, steps), took);
  }

  // ---------------------------------------------------------------- the worker's queue decides

  /** One job, after some steps of the thread. */
  method OfferOne(w: PersistWorker, job: Job, pause: nat) returns (ok: bool)
    requires w.Valid()
    modifies w
    ensures w.Valid() && w.running == old(w.running)
    ensures w.accepted == if ok then old(w.accepted) + [job] else old(w.accepted)
    ensures pause == 0 ==> ok == (|old(w.queue)| < PERSIST_QUEUE_MAX) && |w.queue| == |old(w.queue)| + if ok then 1 else 0
  {
    hide Ledger, Real;
    if pause > 0 {
      w.RunThread(pause);
    }
    ok := w.Enqueue(job);
  }

  /** The jobs of a run offered to the worker one by one, with `schedule[i]` steps of its thread
      before the i-th: the accepted ones are exactly those taken. */
  method Offer(w: PersistWorker, jobs: seq<Job>, schedule: seq<nat>) returns (took: seq<bool>)
    requires w.Valid() && |schedule| == |jobs|
    modifies w
    ensures w.Valid() && |took| == |jobs| && w.running == old(w.running)
    ensures w.accepted == old(w.accepted) + Taken(jobs, took)
    ensures Idle(schedule) ==> Filled(|old(w.queue)|, took, |w.queue|)
  {
    hide Ledger, Real, Idle, Filled, Taken;
    took := [];
    FilledNone(|w.queue|);
    assert Taken([], []) == [] by { TakenNone(); }
    for i := 0 to |jobs|
      invariant w.Valid() && |took| == i && w.running == old(w.running)
      invariant w.accepted == old(w.accepted) + Taken(jobs[..i], took)
      invariant Idle(schedule) ==> Filled(|old(w.queue)|, took, |w.queue|)
    {
      if schedule[i] > 0 { NotIdle(schedule, i); }
      ghost var len, sofar := |w.queue|, Taken(jobs[..i], took);
      var ok := OfferOne(w, jobs[i], schedule[i]);
      TakenSnoc(jobs[..i], took, jobs[i], ok);
      assert jobs[..i + 1] == jobs[..i] + [jobs[i]];
      assert old(w.accepted) + (sofar + [jobs[i]]) == (old(w.accepted) + sofar) + [jobs[i]];
      assert sofar + [] == sofar;
      FilledNext(|old(w.queue)|, took, len);
      took := took + [ok];
    }
    assert jobs[..|jobs|] == jobs;
  }

  /** The thread gets no step in between. */
  ghost predicate Idle(schedule: seq<nat>) { forall i :: 0 <= i < |schedule| ==> schedule[i] == 0 }

  /** A queue of length `from` that only fills: jobs are taken until it is full. */
  ghost predicate Filled(from: nat, took: seq<bool>, len: nat) {
    && len == (if from + |took| < PERSIST_QUEUE_MAX then from + |took| else PERSIST_QUEUE_MAX)
    && forall i :: 0 <= i < |took| ==> (took[i] <==> from + i < PERSIST_QUEUE_MAX)
  }

  lemma FilledNone(len: nat)
    requires len <= PERSIST_QUEUE_MAX
    ensures Filled(len, [], len)
  {
  }

  lemma FilledNext(from: nat, took: seq<bool>, len: nat)
    ensures Filled(from, took, len) ==>
              Filled(from, took + [len < PERSIST_QUEUE_MAX], if len < PERSIST_QUEUE_MAX then len + 1 else len)
  {
  }

  lemma NotIdle(schedule: seq<nat>, i: nat)
    requires i < |schedule| && schedule[i] > 0
    ensures !Idle(schedule)
  {
  }

  lemma TakenNone()
    ensures Taken([], []) == []
  {
  }

  lemma TakenSnoc(jobs: seq<Job>, took: seq<bool>, j: Job, ok: bool)
    requires |took| == |jobs|
    ensures Taken(jobs + [j], took + [ok]) == Taken(jobs, took) + if ok then [j] else []
  {
    assert (jobs + [j])[..|jobs|] == jobs && (took + [ok])[..|took|] == took;
  }

  // ---------------------------------------------------------------- a change that is lost

  const WHO := Oracle([1], 0, 0.0)

  lemma LocalStep(s: State, steps: seq<Step>, z: State, e: Event) returns (z': State)
    requires Stands(s, steps, z) && (e.Ban? || e.PersistTick?)
    ensures Reaches(s, steps + [Step(e, 1.0, WHO)], z')
    ensures Run(s, steps) && JobsOf(s, steps + [Step(e, 1.0, WHO)]) == JobsOf(s, steps) + ApplyIdle(z, e, WHO).jobs
    ensures z' == ApplyIdle(z, e, WHO).state && Alone(z')
  {
    hide Inv, Run, After, JobsOf, ChunksOf, ApplyIdle;
    InvAsm(z);
    var step := Step(e, 1.0, WHO);
    assert Enabled(z, step) by { assert 1 in z.clients.Keys; }
    GoOn(s, steps, z, step);
    z' := Apply(z, step).state;
    IdleFrame(z, e, WHO);
  }

  function Bans(n: nat): (r: seq<Step>)
    ensures |r| == n && forall i :: 0 <= i < n ==> r[i] == Step(Ban("x"), 1.0, WHO)
  {
    seq(n, _ => Step(Ban("x"), 1.0, WHO))
  }

  ghost predicate NoRecords(jobs: seq<Job>) { forall i :: 0 <= i < |jobs| ==> jobs[i].players == map[] }

  /** Ban commands, each of which offers a job. */
  lemma {:induction false} BanMany(s: State, steps: seq<Step>, z: State, n: nat) returns (z': State)
    requires Stands(s, steps, z) && JobsOf(s, steps) == []
    ensures Stands(s, steps + Bans(n), z') && z'.players == z.players && z'.dirty == z.dirty && KeyOf(z') == KeyOf(z)
    ensures |JobsOf(s, steps + Bans(n))| == n && NoRecords(JobsOf(s, steps + Bans(n)))
    decreases n
  {
    hide Inv, Run, After, JobsOf, ApplyIdle;
    if n == 0 {
      z' := z;
      assert steps + Bans(0) == steps;
    } else {
      var z1 := BanMany(s, steps, z, n - 1);
      BanShape(z1, Ban("x"), WHO);
      z' := LocalStep(s, steps + Bans(n - 1), z1, Ban("x"));
      assert steps + Bans(n) == steps + Bans(n - 1) + [Step(Ban("x"), 1.0, WHO)];
    }
  }

  lemma {:induction false} NoSnap(d: Saved, jobs: seq<Job>, k: Key)
    requires NoRecords(jobs)
    ensures Snap(d, jobs, k) == RecOf(d.players, k)
  {
    if jobs != [] {
      var n := |jobs| - 1;
      NoSnap(d, jobs[..n], k);
      assert jobs == jobs[..n] + [jobs[n]];
      SnapSnoc(d, jobs[..n], jobs[n], k);
    }
  }

  /** The jobs a worker takes whose thread gets no chance to run. */
  function FirstOnes(n: nat): (r: seq<bool>)
    ensures |r| == n && forall i :: 0 <= i < n ==> (r[i] <==> i < PERSIST_QUEUE_MAX)
  {
    seq(n, i => i < PERSIST_QUEUE_MAX)
  }

  lemma {:induction false} TakenAll(jobs: seq<Job>, took: seq<bool>)
    requires |took| == |jobs| && forall i :: 0 <= i < |took| ==> took[i]
    ensures Taken(jobs, took) == jobs
  {
    if jobs != [] {
      var n := |jobs| - 1;
      TakenAll(jobs[..n], took[..n]);
      assert jobs == jobs[..n] + [jobs[n]];
    }
  }

  /** One small upload, and the record is changed and marked. */
  lemma UploadSmall(s: State, h: Hello, kind: BlobKind, id: Word32, blob: seq<Byte>) returns (steps: seq<Step>, z: State)
    requires Initial(s) && s.rates.hello == map[] && s.rates.blob == map[] && Admissible(s, h)
    requires 1 <= |blob| <= 488
    ensures Stands(s, steps, z) && KeyOf(z) == SanitizeKey(h.playerKey)
    ensures JobsOf(s, steps) == [] && BlobOf(z.players, KeyOf(z), kind) == blob
  {
    hide Inv, Run, After, Apply, ChunksOf, SanitizeKey, Admissible, Packet, Accept, Feed, BlobOf, UploadOf, Initial, Enabled, JobsOf;
    var steps0, z0 := JoinAlone(s, h);
    var ps := Packets(KindByte(kind), id, blob);
    assert ChunkCount(blob) == 1 && |ps| == 1;
    var d, t := ps[0], 2.0;
    AssemblyIsFeed(s, steps0, 1, kind);
    NothingYet(s, kind);
    assert [] + [d] == ps;
    LastPacket(KindByte(kind), id, blob, EMPTY, [], d);
    ChunkEnabled(z0, kind, d, t);
    InvAsm(z0);
    StepUploads(z0, ChunkStep(kind, d, t));
    z := SendChunk(s, steps0, z0, kind, d, t);
    steps := steps0 + [ChunkStep(kind, d, t)];
  }

  /** From every initial state that would admit the player: the player uploads something new,
      256 ban commands fill the worker's queue before its thread runs, and the periodic flush is
      refused. The record is then not marked, and differs from its last snapshot that was taken. */
  lemma ChangeIsLost(s: State, h: Hello, kind: BlobKind, id: Word32, blob: seq<Byte>) returns (steps: seq<Step>)
    requires Initial(s) && s.rates.hello == map[] && s.rates.blob == map[] && Admissible(s, h)
    requires 1 <= |blob| <= 488 && BlobOf(s.players, SanitizeKey(h.playerKey), kind) != blob
    ensures Run(s, steps)
    ensures var z, k, jobs := After(s, steps), SanitizeKey(h.playerKey), JobsOf(s, steps);
            && k in z.players && k !in z.dirty
            && !SameContent(z.players[k], Snap(Saved(s.players, s.world), Taken(jobs, FirstOnes(|jobs|)), k))
  {
    hide Inv, Run, After, JobsOf, SanitizeKey, Admissible, Initial, Flush, ApplyIdle;
    var front, z := UploadSmall(s, h, kind, id, blob);
    var z1 := BanMany(s, front, z, PERSIST_QUEUE_MAX);
    var steps1 := front + Bans(PERSIST_QUEUE_MAX);
    TickIs(z1, PersistTick, WHO);
    FlushFrame(z1);
    var z2 := LocalStep(s, steps1, z1, PersistTick);
    steps := steps1 + [Step(PersistTick, 1.0, WHO)];
    var k, d := SanitizeKey(h.playerKey), Saved(s.players, s.world);
    var before, jobs := JobsOf(s, steps1), JobsOf(s, steps);
    InPlayers(z1);
    FlushOne(z1);
    TakenPrefix(before, Flush(z1).1);
    NoSnap(d, before, k);
    Differ(z2.players, s.players, k, kind);
  }

  lemma InPlayers(z: State)
    requires Alone(z)
    ensures KeyOf(z) in z.players
  {
    assert 1 in z.clients.Keys;
  }

  lemma FlushOne(s: State)
    ensures |Flush(s).1| <= 1
  {
  }

  lemma TakenPrefix(before: seq<Job>, more: seq<Job>)
    requires |before| == PERSIST_QUEUE_MAX && |more| <= 1
    ensures Taken(before + more, FirstOnes(|before + more|)) == before
  {
    var ones := FirstOnes(PERSIST_QUEUE_MAX);
    TakenAll(before, ones);
    if more == [] {
      assert before + more == before && FirstOnes(|before + more|) == ones;
    } else {
      assert FirstOnes(|before + more|) == ones + [false] && before + more == before + [more[0]];
      TakenSnoc(before, ones, more[0], false);
      assert before + [] == before;
    }
  }

  lemma Differ(ps: map<Key, PlayerRec>, qs: map<Key, PlayerRec>, k: Key, kind: BlobKind)
    requires k in ps && BlobOf(ps, k, kind) != BlobOf(qs, k, kind)
    ensures !SameContent(ps[k], RecOf(qs, k))
  {
  }
}
