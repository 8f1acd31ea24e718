/** Two uploads that mix: a run of the session in which the rate limit drops part of a long
    upload, and the next one of the same length completes with the old one's end. */
module Mixups {
  import opened Bytes
  import opened Blobs
  import opened RateLimit
  import opened Types
  import opened Session
  import opened SessionInv
  import opened Ownership
  import opened Admission
  import opened Uploads
  import opened Joining
  import Pipeline

  // ---------------------------------------------------------------- the only client sends a chunk

  function ChunkStep(kind: BlobKind, d: seq<Byte>, t: real): Step {
    Step(Net(TcpFrame(1, 1, InBlob(kind, d))), t, Oracle([1], 0, 0.0))
  }

  ghost predicate Alone(z: State) { Inv(z) && z.clients.Keys == {1} }

  lemma ChunkEnabled(z: State, kind: BlobKind, d: seq<Byte>, t: real)
    requires Alone(z)
    ensures Enabled(z, ChunkStep(kind, d, t))
    ensures UploadOf(z, ChunkStep(kind, d, t)) == if AllowRate(z.rates.blob, 1, t, 64).1 then Some(Chunk(1, kind, d)) else None
  {
    hide Inv;
    assert 1 in z.clients.Keys;
  }

  /** What it leaves behind, apart from the upload itself. */
  lemma ChunkEffect(z: State, kind: BlobKind, d: seq<Byte>, t: real)
    requires Alone(z)
    ensures var z' := Apply(z, ChunkStep(kind, d, t)).state;
            && z'.clients.Keys == {1} && z'.clients[1].key == z.clients[1].key
            && z'.rates.blob == AllowRate(z.rates.blob, 1, t, 64).0
            && Apply(z, ChunkStep(kind, d, t)).jobs == []
  {
    hide Inv, AllowRate, OnBlob;
    InvAsm(z);
    assert 1 in z.clients.Keys;
    BlobEffect(Touch(z, 1, t), kind, d, t, Oracle([1], 0, 0.0));
  }

  lemma BlobEffect(z: State, kind: BlobKind, d: seq<Byte>, t: real, o: Oracle)
    requires z.clients.Keys == {1} && AsmOk(AsmTable(z, kind))
    ensures 1 in z.clients.Keys
    ensures var z' := OnBlob(z, 1, kind, d, t, o).state;
            && z'.clients.Keys == {1} && z'.clients[1].key == z.clients[1].key
            && z'.rates.blob == AllowRate(z.rates.blob, 1, t, 64).0
            && OnBlob(z, 1, kind, d, t, o).jobs == []
  {
    hide Broadcast, Accept, AllowRate, KeepBlob, WithAsm;
    var s1 := z.(rates := z.rates.(blob := AllowRate(z.rates.blob, 1, t, 64).0));
    var table := AsmTable(s1, kind);
    var (asm, status) := Accept(AsmOf(table, 1), d);
    WithAsmKeeps(s1, kind, table[1 := asm]);
    WithAsmKeeps(s1, kind, table - {1});
    if status.Complete? { KeepBlobKeeps(WithAsm(s1, kind, table - {1}), kind, status.blob); }
  }

  lemma WithAsmKeeps(s: State, kind: BlobKind, table: map<PeerId, Assembly>)
    ensures WithAsm(s, kind, table).clients == s.clients && WithAsm(s, kind, table).rates == s.rates
  {
  }

  lemma KeepBlobKeeps(s: State, kind: BlobKind, blob: seq<Byte>)
    requires s.clients.Keys == {1}
    ensures 1 in s.clients.Keys
    ensures var s' := KeepBlob(s, 1, kind, blob);
            s'.clients.Keys == {1} && s'.clients[1].key == s.clients[1].key && s'.rates == s.rates
  {
    assert 1 in s.clients.Keys;
  }

  function KeyOf(z: State): Key { if 1 in z.clients then z.clients[1].key else "" }

  /** A run of `s` that ends in `z` with the first client alone in the session. */
  ghost predicate Stands(s: State, steps: seq<Step>, z: State) { Reaches(s, steps, z) && Alone(z) }

  /** The chunks a run took from the first client. */
  ghost function Took(s: State, steps: seq<Step>, kind: BlobKind): seq<seq<Byte>> {
    if Run(s, steps) then ChunksOf(s, steps, 1, kind) else []
  }

  lemma SendChunk(s: State, steps: seq<Step>, z: State, kind: BlobKind, d: seq<Byte>, t: real) returns (z': State)
    requires Stands(s, steps, z)
    ensures Stands(s, steps + [ChunkStep(kind, d, t)], z') && KeyOf(z') == KeyOf(z)
    ensures z' == (InvAsm(z); Apply(z, ChunkStep(kind, d, t)).state)
    ensures BucketOf(z'.rates.blob, 1) == Bump(BucketOf(z.rates.blob, 1), t)
    ensures Took(s, steps + [ChunkStep(kind, d, t)], kind)
         == Took(s, steps, kind) + if Bump(BucketOf(z.rates.blob, 1), t).count <= 64 then [d] else []
    ensures Run(s, steps) && Run(s, steps + [ChunkStep(kind, d, t)]) && JobsOf(s, steps + [ChunkStep(kind, d, t)]) == JobsOf(s, steps)
  {
    hide Inv, Run, After, Enabled, Apply, UploadOf, ChunksOf, JobsOf;
    var step := ChunkStep(kind, d, t);
    InvAsm(z);
    ChunkEnabled(z, kind, d, t);
    ChunkEffect(z, kind, d, t);
    GoOn(s, steps, z, step);
    z' := Apply(z, step).state;
    assert JobsOf(s, steps) + [] == JobsOf(s, steps);
  }

  // ---------------------------------------------------------------- bursts and slow sending

  function BurstOf(kind: BlobKind, ds: seq<seq<Byte>>, t: real): seq<Step> {
    if ds == [] then [] else BurstOf(kind, ds[..|ds| - 1], t) + [ChunkStep(kind, ds[|ds| - 1], t)]
  }

  /** What one window lets through. */
  function Window(ds: seq<seq<Byte>>): seq<seq<Byte>> { ds[..Min(|ds|, 64)] }

  /** Chunks sent at one moment in a fresh window: the first 64 are taken. */
  lemma {:induction false} SendBurst(s: State, steps: seq<Step>, z: State, kind: BlobKind, ds: seq<seq<Byte>>, t: real) returns (z': State)
    requires Stands(s, steps, z) && BucketOf(z.rates.blob, 1).windowStart <= t - 1.0
    ensures Stands(s, steps + BurstOf(kind, ds, t), z') && KeyOf(z') == KeyOf(z)
    ensures BucketOf(z'.rates.blob, 1) == if ds == [] then BucketOf(z.rates.blob, 1) else Bucket(t, |ds|)
    ensures Took(s, steps + BurstOf(kind, ds, t), kind) == Took(s, steps, kind) + Window(ds)
    decreases |ds|
  {
    hide Inv, Run, After, Apply, ChunksOf, ChunkStep;
    if ds == [] {
      z' := z;
      assert steps + [] == steps && Took(s, steps, kind) + [] == Took(s, steps, kind);
    } else {
      var n := |ds| - 1;
      var front, d := ds[..n], ds[n];
      var z1 := SendBurst(s, steps, z, kind, front, t);
      z' := SendChunk(s, steps + BurstOf(kind, front, t), z1, kind, d, t);
      assert steps + BurstOf(kind, ds, t) == steps + BurstOf(kind, front, t) + [ChunkStep(kind, d, t)];
      var sofar := Took(s, steps, kind);
      if n < 64 {
        assert (sofar + front) + [d] == sofar + ds;
        assert front[..Min(n, 64)] == front && ds[..Min(n + 1, 64)] == ds;
      } else {
        assert front[..64] == ds[..64];
        assert (sofar + front[..64]) + [] == sofar + ds[..64];
      }
    }
  }

  function SlowOf(kind: BlobKind, ds: seq<seq<Byte>>, t: real): seq<Step> {
    if ds == [] then [] else SlowOf(kind, ds[..|ds| - 1], t) + [ChunkStep(kind, ds[|ds| - 1], t + |ds| as real)]
  }

  /** Chunks sent one a second are all taken. */
  lemma {:induction false} SendSlowly(s: State, steps: seq<Step>, z: State, kind: BlobKind, ds: seq<seq<Byte>>, t: real) returns (z': State)
    requires Stands(s, steps, z) && BucketOf(z.rates.blob, 1).windowStart <= t
    ensures Stands(s, steps + SlowOf(kind, ds, t), z') && KeyOf(z') == KeyOf(z)
    ensures BucketOf(z'.rates.blob, 1).windowStart <= t + |ds| as real
    ensures Took(s, steps + SlowOf(kind, ds, t), kind) == Took(s, steps, kind) + ds
    decreases |ds|
  {
    hide Inv, Run, After, Apply, ChunksOf, ChunkStep;
    if ds == [] {
      z' := z;
      assert steps + [] == steps && Took(s, steps, kind) + [] == Took(s, steps, kind);
    } else {
      var n := |ds| - 1;
      var front, d := ds[..n], ds[n];
      var z1 := SendSlowly(s, steps, z, kind, front, t);
      z' := SendChunk(s, steps + SlowOf(kind, front, t), z1, kind, d, t + |ds| as real);
      assert steps + SlowOf(kind, ds, t) == steps + SlowOf(kind, front, t) + [ChunkStep(kind, d, t + |ds| as real)];
      assert (Took(s, steps, kind) + front) + [d] == Took(s, steps, kind) + ds;
    }
  }

  // ---------------------------------------------------------------- joining alone

  lemma JoinAlone(s: State, h: Hello) returns (steps: seq<Step>, z: State)
    requires Initial(s) && s.rates.hello == map[] && s.rates.blob == map[] && Admissible(s, h)
    ensures Stands(s, steps, z) && KeyOf(z) == SanitizeKey(h.playerKey) && z.rates.blob == map[] && z.dirty == {}
    ensures (forall kind: BlobKind :: Took(s, steps, kind) == []) && JobsOf(s, steps) == []
  {
    hide Inv, Run, After, SanitizeKey, Apply, Enabled, Admissible;
    InitialInv(s);
    StartRun(s);
    assert ValidOrder([], s.clients.Keys) && ValidOrder([1], s.clients.Keys + {1});
    NoKeys(s.clients, SanitizeKey(h.playerKey));
    steps, z := JoinRun(s, [], s, h, [1]);
    assert z.clients.Keys == {1};
  }

  // ---------------------------------------------------------------- what the assembly makes of it

  /** Which chunks of the first upload arrive: the first 64 and the last. */
  function Arriving(n: nat): (order: seq<nat>)
    requires n >= 66
    ensures |order| == 65 && forall i :: 0 <= i < 65 ==> order[i] == if i < 64 then i else n - 1
  {
    seq(65, i requires 0 <= i < 65 => if i < 64 then i else n - 1)
  }

  lemma FirstUpload(kind: Byte, id: Word32, x: seq<Byte>)
    requires Splittable(x) && ChunkCount(x) >= 66
    ensures var n, ps := ChunkCount(x), Packets(kind, id, x);
            && |ps| == n
            && Feed(EMPTY, ps[..64] + [ps[n - 1]]).0 == Partial(x, ElemsOf(Arriving(n)))
  {
    hide Packet, Accept;
    var n, ps := ChunkCount(x), Packets(kind, id, x);
    var order := Arriving(n);
    assert Deliver(kind, id, x, order) == ps[..64] + [ps[n - 1]];
    assert 64 !in order;
    DeliverPending(kind, id, x, EMPTY, order);
    assert order[0] in ElemsOf(order);
  }

  /** The chunk that fills the last gap completes with the old end. */
  lemma SecondUpload(kind: Byte, id: Word32, x: seq<Byte>, y: seq<Byte>)
    requires Splittable(x) && Splittable(y) && |x| == |y| && ChunkCount(x) >= 66
    ensures var n := ChunkCount(x);
            var a, qs, cut := Partial(x, ElemsOf(Arriving(n))), Packets(kind, id, y), Cut(y, n - 1);
            && ValidAssembly(a) && |qs| == n
            && Accept(Feed(a, qs[..n - 2]).0, qs[n - 2]).1 == Complete(y[..cut] + x[cut..])
  {
    hide Packet, Accept, Feed;
    var n := ChunkCount(x);
    var got, qs := ElemsOf(Arriving(n)), Packets(kind, id, y);
    assert Arriving(n)[64] == n - 1;
    assert n - 1 in got && n - 2 !in got;
    MixedCompletion(kind, id, x, y, got, n - 2);
    var a := Partial(x, got);
    FeedPrefix(a, qs, n - 1);
    assert qs[..n - 1][..n - 2] == qs[..n - 2] && qs[..n - 1][n - 2] == qs[n - 2];
    var (b, sts) := Feed(a, qs[..n - 2]);
    FeedSnoc(a, qs[..n - 1], b, sts);
    assert Feed(a, qs).1[n - 2] == Feed(a, qs).1[..n - 1][n - 2];
  }

  // ---------------------------------------------------------------- the run

  /** The run before its last step: what the assembly has been fed. */
  lemma MixingRun(s: State, h: Hello, kind: BlobKind, id: Word32, x: seq<Byte>, y: seq<Byte>) returns (steps: seq<Step>, z: State)
    requires Initial(s) && s.rates.hello == map[] && s.rates.blob == map[] && Admissible(s, h)
    requires Splittable(x) && Splittable(y) && |x| == |y| && ChunkCount(x) >= 66
    ensures Stands(s, steps, z) && KeyOf(z) == SanitizeKey(h.playerKey)
    ensures BucketOf(z.rates.blob, 1).windowStart <= 4.0 + (ChunkCount(x) - 2) as real
    ensures var n, ps, qs := ChunkCount(x), Packets(KindByte(kind), id, x), Packets(KindByte(kind), id, y);
            && |ps| == |qs| == n
            && Took(s, steps, kind) == (ps[..64] + [ps[n - 1]]) + qs[..n - 2]
  {
    hide Inv, Run, After, Apply, ChunksOf, JobsOf, SanitizeKey, Admissible, ChunkStep, Packet, Initial;
    var n, ps, qs := ChunkCount(x), Packets(KindByte(kind), id, x), Packets(KindByte(kind), id, y);
    var steps0, z0 := JoinAlone(s, h);
    var z1 := SendBurst(s, steps0, z0, kind, ps[..n - 1], 2.0);
    var steps1 := steps0 + BurstOf(kind, ps[..n - 1], 2.0);
    var z2 := SendChunk(s, steps1, z1, kind, ps[n - 1], 3.0);
    var steps2 := steps1 + [ChunkStep(kind, ps[n - 1], 3.0)];
    z := SendSlowly(s, steps2, z2, kind, qs[..n - 2], 4.0);
    steps := steps2 + SlowOf(kind, qs[..n - 2], 4.0);
    assert ps[..n - 1][..64] == ps[..64];
    assert Took(s, steps0, kind) + ps[..64] == ps[..64];
  }

  /** From every initial state that would admit the player: the middle of a long upload `x` is
      lost to the rate limit, its last chunk is not; then `y`, of the same length, is sent one
      chunk a second. The player's record ends up with neither, but with `y` up to its last
      chunk and the last chunk of `x`. */
  lemma UploadsMix(s: State, h: Hello, kind: BlobKind, id: Word32, x: seq<Byte>, y: seq<Byte>) returns (steps: seq<Step>)
    requires Initial(s) && s.rates.hello == map[] && s.rates.blob == map[] && Admissible(s, h)
    requires Splittable(x) && Splittable(y) && |x| == |y| && ChunkCount(x) >= 66
    ensures Run(s, steps)
    ensures var cut := Cut(y, ChunkCount(x) - 1);
            BlobOf(After(s, steps).players, SanitizeKey(h.playerKey), kind) == y[..cut] + x[cut..]
  {
    hide Inv, Run, After, Apply, ChunksOf, JobsOf, SanitizeKey, Admissible, Packet, Accept, Feed, BlobOf, UploadOf, Initial, Enabled;
    var n, ps, qs := ChunkCount(x), Packets(KindByte(kind), id, x), Packets(KindByte(kind), id, y);
    var front, z := MixingRun(s, h, kind, id, x, y);
    var d, t := qs[n - 2], 4.0 + (n - 1) as real;
    AssemblyIsFeed(s, front, 1, kind);
    NothingYet(s, kind);
    Pipeline.FeedConcat(EMPTY, ps[..64] + [ps[n - 1]], qs[..n - 2]);
    FirstUpload(KindByte(kind), id, x);
    SecondUpload(KindByte(kind), id, x, y);
    InvAsm(z);
    ChunkEnabled(z, kind, d, t);
    StepUploads(z, ChunkStep(kind, d, t));
    var z' := SendChunk(s, front, z, kind, d, t);
    steps := front + [ChunkStep(kind, d, t)];
  }

  lemma NothingYet(s: State, kind: BlobKind)
    requires Initial(s)
    ensures AsmAt(s, 1, kind) == EMPTY
  {
  }
}
