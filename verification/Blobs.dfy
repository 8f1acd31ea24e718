/** Splitting a blob into numbered chunks and putting it back together. */
module Blobs {
  import opened Bytes
  import opened Wire

  const MAX_BLOB_BYTES := 0xFFFF
  const MAX_BLOB_CHUNKS := (MAX_BLOB_BYTES + BLOB_PAYLOAD_MAX - 1) / BLOB_PAYLOAD_MAX

  datatype Option<+T> = None | Some(value: T)

  /** The fields of a chunk message after its header. */
  datatype ChunkHeader = ChunkHeader(peerId: Word32, index: Word16, count: Word16, blobBytes: Word16, payloadBytes: Word16)

  function EncodeChunk(kind: Byte, h: ChunkHeader, payload: seq<Byte>): (r: seq<Byte>)
    requires BLOB_HEADER_SIZE + |payload| < 0x1_0000
    ensures |r| == BLOB_HEADER_SIZE + |payload|
  {
    FillHeader(kind, BLOB_HEADER_SIZE + |payload|)
    + Le32(h.peerId) + Le16(h.index) + Le16(h.count) + Le16(h.blobBytes) + Le16(h.payloadBytes)
    + payload
  }

  function DecodeChunk(d: seq<Byte>): ChunkHeader
    requires |d| >= BLOB_HEADER_SIZE
  {
    ChunkHeader(FromLe32(d, 12), FromLe16(d, 16), FromLe16(d, 18), FromLe16(d, 20), FromLe16(d, 22))
  }

  lemma ChunkRoundTrip(kind: Byte, h: ChunkHeader, payload: seq<Byte>)
    requires BLOB_HEADER_SIZE + |payload| < 0x1_0000
    ensures var d := EncodeChunk(kind, h, payload);
            && DecodeChunk(d) == h
            && d[BLOB_HEADER_SIZE..] == payload
            && WellFormedFrame(d)
            && HeaderKind(d) == kind
  {
    var d := EncodeChunk(kind, h, payload);
    var tail := Le32(h.peerId) + Le16(h.index) + Le16(h.count) + Le16(h.blobBytes) + Le16(h.payloadBytes) + payload;
    assert d == FillHeader(kind, |d|) + tail;
    FillHeaderFields(kind, |d|, tail);
    assert d[12..16] == Le32(h.peerId);
    FromLe32At(d, 12, h.peerId);
    assert d[16..18] == Le16(h.index);
    FromLe16At(d, 16, h.index);
    assert d[18..20] == Le16(h.count);
    FromLe16At(d, 18, h.count);
    assert d[20..22] == Le16(h.blobBytes);
    FromLe16At(d, 20, h.blobBytes);
    assert d[22..24] == Le16(h.payloadBytes);
    FromLe16At(d, 22, h.payloadBytes);
  }

  // ---------------------------------------------------------------- splitting

  predicate Splittable(blob: seq<Byte>) {
    1 <= |blob| <= MAX_BLOB_BYTES
  }

  function ChunkCount(blob: seq<Byte>): (n: nat)
    requires Splittable(blob)
    ensures 1 <= n <= MAX_BLOB_CHUNKS
    ensures (n - 1) * BLOB_PAYLOAD_MAX < |blob| <= n * BLOB_PAYLOAD_MAX
  {
    (|blob| + BLOB_PAYLOAD_MAX - 1) / BLOB_PAYLOAD_MAX
  }

  function Min(a: nat, b: nat): nat { if a < b then a else b }

  /** The payload of chunk `i`. */
  function Piece(blob: seq<Byte>, i: nat): (p: seq<Byte>)
    requires Splittable(blob) && i < ChunkCount(blob)
    ensures 1 <= |p| <= BLOB_PAYLOAD_MAX
  {
    blob[i * BLOB_PAYLOAD_MAX..Min((i + 1) * BLOB_PAYLOAD_MAX, |blob|)]
  }

  function Packet(kind: Byte, peerId: Word32, blob: seq<Byte>, i: nat): (d: seq<Byte>)
    requires Splittable(blob) && i < ChunkCount(blob)
    ensures BLOB_HEADER_SIZE < |d| <= MAX_DATAGRAM
  {
    var p := Piece(blob, i);
    EncodeChunk(kind, ChunkHeader(peerId, i, ChunkCount(blob), |blob|, |p|), p)
  }

  /** `split_blob_chunks`: nothing for an empty or oversized blob. */
  function Packets(kind: Byte, peerId: Word32, blob: seq<Byte>): (ps: seq<seq<Byte>>) {
    if Splittable(blob) then seq(ChunkCount(blob), i requires 0 <= i < ChunkCount(blob) => Packet(kind, peerId, blob, i)) else []
  }

  method SplitBlobChunks(kind: Byte, peerId: Word32, blob: seq<Byte>) returns (ok: bool, out: seq<seq<Byte>>)
    ensures ok <==> Splittable(blob)
    ensures out == Packets(kind, peerId, blob)
  {
    hide EncodeChunk;
    out := [];
    if |blob| == 0 || |blob| > 0xFFFF {
      return false, out;
    }
    var total := |blob|;
    var count := (|blob| + BLOB_PAYLOAD_MAX - 1) / BLOB_PAYLOAD_MAX;
    var i := 0;
    while i < count
      invariant 0 <= i <= count
      invariant out == Packets(kind, peerId, blob)[..i]
    {
      var off := i * BLOB_PAYLOAD_MAX;
      var n := if BLOB_PAYLOAD_MAX < |blob| - off then BLOB_PAYLOAD_MAX else |blob| - off;
      var payload := blob[off..off + n];
      assert payload == Piece(blob, i);
      var packet := EncodeChunk(kind, ChunkHeader(peerId, i, count, total, n), payload);
      assert packet == Packet(kind, peerId, blob, i);
      out := out + [packet];
      i := i + 1;
    }
    ok := true;
  }

  function Pieces(blob: seq<Byte>): (ps: seq<seq<Byte>>)
    requires Splittable(blob)
    ensures |ps| == ChunkCount(blob)
  {
    seq(ChunkCount(blob), i requires 0 <= i < ChunkCount(blob) => Piece(blob, i))
  }

  lemma {:induction false} FlattenPieces(blob: seq<Byte>, n: nat)
    requires Splittable(blob) && n <= ChunkCount(blob)
    ensures Flatten(Pieces(blob)[..n]) == blob[..Min(n * BLOB_PAYLOAD_MAX, |blob|)]
  {
    if n > 0 {
      FlattenPieces(blob, n - 1);
      assert Pieces(blob)[..n] == Pieces(blob)[..n - 1] + [Piece(blob, n - 1)];
      FlattenSnoc(Pieces(blob)[..n - 1], Piece(blob, n - 1));
    }
  }

  lemma PiecesMakeBlob(blob: seq<Byte>)
    requires Splittable(blob)
    ensures Flatten(Pieces(blob)) == blob
  {
    FlattenPieces(blob, ChunkCount(blob));
    assert Pieces(blob)[..ChunkCount(blob)] == Pieces(blob);
  }

  // ---------------------------------------------------------------- assembling

  datatype Assembly = Assembly(chunkCount: Word16, blobBytes: Word16, chunks: seq<seq<Byte>>)

  datatype Status = Pending | Complete(blob: seq<Byte>) | Rejected

  const EMPTY := Assembly(0, 0, [])

  /** The slots number `chunkCount`, and each holds at most one payload. */
  ghost predicate ValidAssembly(a: Assembly) {
    && |a.chunks| == a.chunkCount <= MAX_BLOB_CHUNKS
    && forall i :: 0 <= i < |a.chunks| ==> |a.chunks[i]| <= BLOB_PAYLOAD_MAX
  }

  predicate ChunkAcceptable(d: seq<Byte>) {
    && |d| >= BLOB_HEADER_SIZE
    && var h := DecodeChunk(d);
       && 1 <= h.payloadBytes <= BLOB_PAYLOAD_MAX
       && BLOB_HEADER_SIZE + h.payloadBytes <= |d|
       && 1 <= h.count <= MAX_BLOB_CHUNKS
       && h.index < h.count
  }

  /** The slot table after storing an acceptable chunk. */
  function Store(a: Assembly, d: seq<Byte>): (r: Assembly)
    requires ValidAssembly(a) && ChunkAcceptable(d)
    ensures ValidAssembly(r)
  {
    var h := DecodeChunk(d);
    var base := if a.chunkCount != h.count || a.blobBytes != h.blobBytes
                then Assembly(h.count, h.blobBytes, seq(h.count, _ => []))
                else a;
    base.(chunks := base.chunks[h.index := d[BLOB_HEADER_SIZE..BLOB_HEADER_SIZE + h.payloadBytes]])
  }

  predicate AllFilled(chunks: seq<seq<Byte>>) {
    forall i :: 0 <= i < |chunks| ==> chunks[i] != []
  }

  /** What is decided once a chunk is stored. */
  function Settle(b: Assembly): (r: (Assembly, Status))
    requires ValidAssembly(b)
    ensures ValidAssembly(r.0)
  {
    if !AllFilled(b.chunks) then (b, Pending)
    else if |Flatten(b.chunks)| != b.blobBytes then (b, Rejected)
    else (EMPTY, Complete(Flatten(b.chunks)))
  }

  /** `assemble_blob_chunk` as a step on the assembly. */
  function Accept(a: Assembly, d: seq<Byte>): (r: (Assembly, Status))
    requires ValidAssembly(a)
    ensures ValidAssembly(r.0)
  {
    if !ChunkAcceptable(d) then (a, Rejected)
    else
      Settle(Store(a, d))
  }

  /** The scan over the slots: stops at the first empty one, else counts the bytes. */
  method CountFilled(chunks: seq<seq<Byte>>) returns (filled: bool, got: nat)
    ensures filled <==> AllFilled(chunks)
    ensures filled ==> got == |Flatten(chunks)|
  {
    got := 0;
    var i := 0;
    while i < |chunks|
      invariant 0 <= i <= |chunks|
      invariant forall j :: 0 <= j < i ==> chunks[j] != []
      invariant got == |Flatten(chunks[..i])|
    {
      if |chunks[i]| == 0 {
        return false, got;
      }
      got := got + |chunks[i]|;
      assert chunks[..i + 1] == chunks[..i] + [chunks[i]];
      FlattenSnoc(chunks[..i], chunks[i]);
      i := i + 1;
    }
    assert chunks[..i] == chunks;
    filled := true;
  }

  method Join(chunks: seq<seq<Byte>>) returns (out: seq<Byte>)
    ensures out == Flatten(chunks)
  {
    out := [];
    var i := 0;
    while i < |chunks|
      invariant 0 <= i <= |chunks|
      invariant out == Flatten(chunks[..i])
    {
      assert chunks[..i + 1] == chunks[..i] + [chunks[i]];
      FlattenSnoc(chunks[..i], chunks[i]);
      out := out + chunks[i];
      i := i + 1;
    }
    assert chunks[..i] == chunks;
  }

  method AssembleBlobChunk(a: Assembly, datagram: seq<Byte>) returns (a': Assembly, status: Status)
    requires ValidAssembly(a)
    ensures (a', status) == Accept(a, datagram)
  {
    a' := a;
    if |datagram| < BLOB_HEADER_SIZE {
      return a', Rejected;
    }
    var chunk := DecodeChunk(datagram);
    if chunk.payloadBytes == 0 || chunk.payloadBytes > BLOB_PAYLOAD_MAX
       || BLOB_HEADER_SIZE + chunk.payloadBytes > |datagram| {
      return a', Rejected;
    }
    if chunk.count == 0 || chunk.count > MAX_BLOB_CHUNKS || chunk.index >= chunk.count {
      return a', Rejected;
    }
    if a'.chunkCount != chunk.count || a'.blobBytes != chunk.blobBytes {
      a' := Assembly(chunk.count, chunk.blobBytes, seq(chunk.count, _ => []));
    }
    a' := a'.(chunks := a'.chunks[chunk.index := datagram[BLOB_HEADER_SIZE..BLOB_HEADER_SIZE + chunk.payloadBytes]]);
    assert a'.chunks == Store(a, datagram).chunks;
    var filled, got := CountFilled(a'.chunks);
    if !filled {
      return a', Pending;
    }
    if got != chunk.blobBytes {
      return a', Rejected;
    }
    var out := Join(a'.chunks);
    a' := EMPTY;
    status := Complete(out);
  }

  // ------------------------------------------------- delivery in any order

  /** What an assembly holds after exactly the chunks in `got` of `blob` arrived. */
  function Partial(blob: seq<Byte>, got: set<nat>): (a: Assembly)
    requires Splittable(blob)
  {
    Assembly(ChunkCount(blob), |blob|,
             seq(ChunkCount(blob), i requires 0 <= i < ChunkCount(blob) => if i in got then Piece(blob, i) else []))
  }

  predicate AllArrived(got: set<nat>, n: nat) {
    forall j :: 0 <= j < n ==> j in got
  }

  lemma PacketAcceptable(kind: Byte, peerId: Word32, blob: seq<Byte>, i: nat)
    requires Splittable(blob) && i < ChunkCount(blob)
    ensures var d := Packet(kind, peerId, blob, i);
            && ChunkAcceptable(d)
            && DecodeChunk(d) == ChunkHeader(peerId, i, ChunkCount(blob), |blob|, |Piece(blob, i)|)
            && d[BLOB_HEADER_SIZE..] == Piece(blob, i)
            && d[BLOB_HEADER_SIZE..BLOB_HEADER_SIZE + |Piece(blob, i)|] == Piece(blob, i)
            && WellFormedFrame(d)
            && HeaderKind(d) == kind
  {
    var p := Piece(blob, i);
    ChunkRoundTrip(kind, ChunkHeader(peerId, i, ChunkCount(blob), |blob|, |p|), p);
    var d := Packet(kind, peerId, blob, i);
    assert d[BLOB_HEADER_SIZE..BLOB_HEADER_SIZE + |p|] == d[BLOB_HEADER_SIZE..];
  }

  /** Storing packet `i` fills slot `i`, after a reset when the dimensions differ. */
  lemma StorePacket(kind: Byte, peerId: Word32, blob: seq<Byte>, a: Assembly, i: nat)
    requires Splittable(blob) && i < ChunkCount(blob) && ValidAssembly(a)
    ensures ChunkAcceptable(Packet(kind, peerId, blob, i))
    ensures var b := if a.chunkCount == ChunkCount(blob) && a.blobBytes == |blob| then a else Partial(blob, {});
            Store(a, Packet(kind, peerId, blob, i)) == b.(chunks := b.chunks[i := Piece(blob, i)])
  {
    PacketAcceptable(kind, peerId, blob, i);
    if !(a.chunkCount == ChunkCount(blob) && a.blobBytes == |blob|) {
      assert Partial(blob, {}).chunks == seq(ChunkCount(blob), _ => []);
    }
  }

  /** One packet of the blob, on an assembly already working on that blob. */
  lemma AcceptOnPartial(kind: Byte, peerId: Word32, blob: seq<Byte>, got: set<nat>, i: nat)
    requires Splittable(blob) && i < ChunkCount(blob)
    ensures ValidAssembly(Partial(blob, got))
    ensures Accept(Partial(blob, got), Packet(kind, peerId, blob, i))
         == if AllArrived(got + {i}, ChunkCount(blob))
            then (EMPTY, Complete(blob))
            else (Partial(blob, got + {i}), Pending)
  {
    StorePacket(kind, peerId, blob, Partial(blob, got), i);
    var d := Packet(kind, peerId, blob, i);
    var b := Store(Partial(blob, got), d);
    var next := Partial(blob, got + {i});
    assert b.chunks == next.chunks;
    if j :| 0 <= j < ChunkCount(blob) && j !in got + {i} {
      assert b.chunks[j] == [];
    } else {
      assert b.chunks == Pieces(blob);
      PiecesMakeBlob(blob);
    }
  }

  /** The same on an assembly with other dimensions, which is discarded. */
  lemma AcceptOnStale(kind: Byte, peerId: Word32, blob: seq<Byte>, a: Assembly, i: nat)
    requires Splittable(blob) && i < ChunkCount(blob) && ValidAssembly(a)
    requires a.chunkCount != ChunkCount(blob) || a.blobBytes != |blob|
    ensures ValidAssembly(Partial(blob, {}))
    ensures Accept(a, Packet(kind, peerId, blob, i)) == Accept(Partial(blob, {}), Packet(kind, peerId, blob, i))
  {
    StorePacket(kind, peerId, blob, a, i);
    StorePacket(kind, peerId, blob, Partial(blob, {}), i);
  }

  /** Statuses produced by feeding datagrams one after another. */
  function Feed(a: Assembly, ds: seq<seq<Byte>>): (r: (Assembly, seq<Status>))
    requires ValidAssembly(a)
    ensures ValidAssembly(r.0) && |r.1| == |ds|
    decreases |ds|
  {
    if ds == [] then (a, [])
    else
      var (b, sts) := Feed(a, ds[..|ds| - 1]);
      var (c, st) := Accept(b, ds[|ds| - 1]);
      (c, sts + [st])
  }

  lemma FeedSnoc(a: Assembly, ds: seq<seq<Byte>>, b: Assembly, sts: seq<Status>)
    requires ValidAssembly(a) && ds != [] && ValidAssembly(b)
    requires Feed(a, ds[..|ds| - 1]) == (b, sts)
    ensures var r := Accept(b, ds[|ds| - 1]); Feed(a, ds) == (r.0, sts + [r.1])
  {
  }

  /** A blob delivered completely: Pending up to the last packet, which completes it. */
  ghost predicate DeliveredExactly(blob: seq<Byte>, r: (Assembly, seq<Status>)) {
    && r.0 == EMPTY
    && |r.1| > 0
    && r.1[|r.1| - 1] == Complete(blob)
    && forall i :: 0 <= i < |r.1| - 1 ==> r.1[i] == Pending
  }

  ghost predicate Covers(order: seq<nat>, n: nat) {
    forall j :: 0 <= j < n ==> j in order
  }

  predicate Indices(order: seq<nat>, n: nat) {
    forall i :: 0 <= i < |order| ==> order[i] < n
  }

  function Deliver(kind: Byte, peerId: Word32, blob: seq<Byte>, order: seq<nat>): (ds: seq<seq<Byte>>)
    requires Splittable(blob) && Indices(order, ChunkCount(blob))
    ensures |ds| == |order|
  {
    seq(|order|, i requires 0 <= i < |order| => Packet(kind, peerId, blob, order[i]))
  }

  lemma DeliverFront(kind: Byte, peerId: Word32, blob: seq<Byte>, order: seq<nat>, n: nat)
    requires Splittable(blob) && Indices(order, ChunkCount(blob)) && n <= |order|
    ensures Deliver(kind, peerId, blob, order)[..n] == Deliver(kind, peerId, blob, order[..n])
  {
  }

  lemma DeliverInOrder(kind: Byte, peerId: Word32, blob: seq<Byte>)
    requires Splittable(blob)
    ensures var order := InOrder(ChunkCount(blob));
            && Covers(order, ChunkCount(blob))
            && !Covers(order[..ChunkCount(blob) - 1], ChunkCount(blob))
            && Deliver(kind, peerId, blob, order) == Packets(kind, peerId, blob)
  {
    var n := ChunkCount(blob);
    var order := InOrder(n);
    forall j | 0 <= j < n ensures j in order { assert order[j] == j; }
    assert n - 1 !in order[..n - 1];
  }

  ghost function ElemsOf(order: seq<nat>): set<nat> { set j | j in order }

  lemma ElemsOfSnoc(order: seq<nat>)
    requires order != []
    ensures ElemsOf(order) == ElemsOf(order[..|order| - 1]) + {order[|order| - 1]}
  {
    var n := |order| - 1;
    assert order == order[..n] + [order[n]];
    forall j ensures j in order <==> j in order[..n] || j == order[n] {
      assert j in order[..n] + [order[n]] <==> j in order[..n] || j in [order[n]];
    }
  }

  /** The state a delivery meets: untouched before the first packet, partial after it. */
  ghost predicate Holding(blob: seq<Byte>, a: Assembly, b: Assembly, got: set<nat>)
    requires Splittable(blob)
  {
    if got == {} then b == a && (a.chunkCount != ChunkCount(blob) || a.blobBytes != |blob|) else b == Partial(blob, got)
  }

  lemma DeliverOne(kind: Byte, peerId: Word32, blob: seq<Byte>, a: Assembly, b: Assembly, got: set<nat>, i: nat)
    requires Splittable(blob) && i < ChunkCount(blob) && ValidAssembly(b) && Holding(blob, a, b, got)
    ensures Accept(b, Packet(kind, peerId, blob, i))
         == if AllArrived(got + {i}, ChunkCount(blob))
            then (EMPTY, Complete(blob))
            else (Partial(blob, got + {i}), Pending)
  {
    if got == {} {
      AcceptOnStale(kind, peerId, blob, a, i);
    }
    AcceptOnPartial(kind, peerId, blob, got, i);
  }

  lemma {:induction false} DeliverPending(kind: Byte, peerId: Word32, blob: seq<Byte>, a: Assembly, order: seq<nat>)
    requires Splittable(blob) && Indices(order, ChunkCount(blob))
    requires ValidAssembly(a) && (a.chunkCount != ChunkCount(blob) || a.blobBytes != |blob|)
    requires !Covers(order, ChunkCount(blob))
    ensures var r := Feed(a, Deliver(kind, peerId, blob, order));
            && Holding(blob, a, r.0, ElemsOf(order))
            && forall i :: 0 <= i < |order| ==> r.1[i] == Pending
  {
    hide Accept, Packet;
    if order != [] {
      var n := |order| - 1;
      var front, last := order[..n], order[n];
      var ds := Deliver(kind, peerId, blob, order);
      DeliverFront(kind, peerId, blob, order, n);
      var j :| 0 <= j < ChunkCount(blob) && j !in order;
      assert j !in front;
      DeliverPending(kind, peerId, blob, a, front);
      ElemsOfSnoc(order);
      assert j !in ElemsOf(order);
      var (b, sts) := Feed(a, ds[..n]);
      DeliverOne(kind, peerId, blob, a, b, ElemsOf(front), last);
      FeedSnoc(a, ds, b, sts);
    }
  }

  /** Any order, any repeats, starting from an empty assembly or one with other
      dimensions: every delivery is Pending until all indices have arrived, and the
      delivery that brings the last missing index completes with exactly the blob. */
  lemma AnyOrderReassembles(kind: Byte, peerId: Word32, blob: seq<Byte>, a: Assembly, order: seq<nat>)
    requires Splittable(blob) && Indices(order, ChunkCount(blob))
    requires ValidAssembly(a) && (a.chunkCount != ChunkCount(blob) || a.blobBytes != |blob|)
    requires order != [] && Covers(order, ChunkCount(blob)) && !Covers(order[..|order| - 1], ChunkCount(blob))
    ensures DeliveredExactly(blob, Feed(a, Deliver(kind, peerId, blob, order)))
  {
    hide Accept, Packet;
    var n := |order| - 1;
    var front, last := order[..n], order[n];
    var ds := Deliver(kind, peerId, blob, order);
    DeliverFront(kind, peerId, blob, order, n);
    DeliverPending(kind, peerId, blob, a, front);
    ElemsOfSnoc(order);
    assert AllArrived(ElemsOf(order), ChunkCount(blob));
    var (b, sts) := Feed(a, ds[..n]);
    DeliverOne(kind, peerId, blob, a, b, ElemsOf(front), last);
    FeedSnoc(a, ds, b, sts);
  }

  // ------------------------------------------------- in order, on leftovers

  /** Leftovers with the dimensions of `blob` in which slot `m` is still empty. */
  ghost predicate SlotEmpty(blob: seq<Byte>, a: Assembly, m: nat)
    requires Splittable(blob)
  {
    && a.chunkCount == ChunkCount(blob) == |a.chunks|
    && a.blobBytes == |blob|
    && m < |a.chunks| && a.chunks[m] == []
  }

  function InOrder(n: nat): (r: seq<nat>)
    ensures |r| == n && forall i :: 0 <= i < n ==> r[i] == i
  {
    seq(n, i => i)
  }

  lemma OverwriteOne(kind: Byte, peerId: Word32, blob: seq<Byte>, b: Assembly, i: nat)
    requires Splittable(blob) && i < ChunkCount(blob) && ValidAssembly(b)
    requires b.chunkCount == ChunkCount(blob) && b.blobBytes == |blob|
    ensures Accept(b, Packet(kind, peerId, blob, i)) == Settle(b.(chunks := b.chunks[i := Piece(blob, i)]))
  {
    StorePacket(kind, peerId, blob, b, i);
  }

  /** Slots after the first `n` pieces overwrote the leftovers. */
  function Overwritten(blob: seq<Byte>, a: Assembly, n: nat): (b: Assembly)
    requires Splittable(blob) && ValidAssembly(a) && a.chunkCount == ChunkCount(blob) && n <= ChunkCount(blob)
    ensures ValidAssembly(b)
  {
    a.(chunks := Pieces(blob)[..n] + a.chunks[n..])
  }

  lemma OverwriteNext(kind: Byte, peerId: Word32, blob: seq<Byte>, a: Assembly, n: nat)
    requires Splittable(blob) && ValidAssembly(a) && n < ChunkCount(blob)
    requires a.chunkCount == ChunkCount(blob) && a.blobBytes == |blob|
    ensures Accept(Overwritten(blob, a, n), Packet(kind, peerId, blob, n)) == Settle(Overwritten(blob, a, n + 1))
  {
    var b := Overwritten(blob, a, n);
    OverwriteOne(kind, peerId, blob, b, n);
    assert b.chunks[n := Piece(blob, n)] == Overwritten(blob, a, n + 1).chunks;
  }

  lemma FeedEmpty(a: Assembly)
    requires ValidAssembly(a)
    ensures Feed(a, []) == (a, [])
  {
  }

  lemma OverwriteNothing(blob: seq<Byte>, a: Assembly)
    requires Splittable(blob) && ValidAssembly(a) && a.chunkCount == ChunkCount(blob)
    ensures Overwritten(blob, a, 0) == a
  {
    assert a.chunks == Overwritten(blob, a, 0).chunks;
  }

  /** Before the empty slot is reached nothing can be complete. */
  lemma StillPending(blob: seq<Byte>, a: Assembly, m: nat, n: nat)
    requires Splittable(blob) && ValidAssembly(a) && SlotEmpty(blob, a, m) && n <= m
    ensures Settle(Overwritten(blob, a, n)) == (Overwritten(blob, a, n), Pending)
  {
    assert Overwritten(blob, a, n).chunks[m] == [];
  }

  lemma {:induction false} OverwritePrefix(kind: Byte, peerId: Word32, blob: seq<Byte>, a: Assembly, m: nat, n: nat)
    requires Splittable(blob) && ValidAssembly(a) && SlotEmpty(blob, a, m)
    requires n <= m
    ensures var r := Feed(a, Packets(kind, peerId, blob)[..n]);
            && r.0 == Overwritten(blob, a, n)
            && forall i :: 0 <= i < n ==> r.1[i] == Pending
  {
    hide Accept, Packet, Overwritten, Settle, Feed;
    assert Feed(a, []) == (a, []) by { FeedEmpty(a); }
    if n > 0 {
      var ds := Packets(kind, peerId, blob)[..n];
      OverwritePrefix(kind, peerId, blob, a, m, n - 1);
      assert ds[..n - 1] == Packets(kind, peerId, blob)[..n - 1];
      var (b, sts) := Feed(a, ds[..n - 1]);
      OverwriteNext(kind, peerId, blob, a, n - 1);
      StillPending(blob, a, m, n);
      FeedSnoc(a, ds, b, sts);
      assert ds[n - 1] == Packet(kind, peerId, blob, n - 1);
    } else {
      OverwriteNothing(blob, a);
    }
  }

  /** Up to and including the packet that fills slot `m`. */
  lemma OverwriteThrough(kind: Byte, peerId: Word32, blob: seq<Byte>, a: Assembly, m: nat)
    requires Splittable(blob) && ValidAssembly(a) && SlotEmpty(blob, a, m)
    ensures var r := Feed(a, Packets(kind, peerId, blob)[..m + 1]);
            && (r.0, r.1[m]) == Settle(Overwritten(blob, a, m + 1))
            && forall i :: 0 <= i < m ==> r.1[i] == Pending
  {
    hide Accept, Packet;
    var ds := Packets(kind, peerId, blob)[..m + 1];
    OverwritePrefix(kind, peerId, blob, a, m, m);
    assert ds[..m] == Packets(kind, peerId, blob)[..m];
    var (b, sts) := Feed(a, ds[..m]);
    OverwriteNext(kind, peerId, blob, a, m);
    FeedSnoc(a, ds, b, sts);
  }

  lemma OverwriteAll(kind: Byte, peerId: Word32, blob: seq<Byte>, a: Assembly)
    requires Splittable(blob) && ValidAssembly(a) && SlotEmpty(blob, a, ChunkCount(blob) - 1)
    ensures DeliveredExactly(blob, Feed(a, Packets(kind, peerId, blob)))
  {
    hide Accept, Packet;
    var n := ChunkCount(blob);
    OverwriteThrough(kind, peerId, blob, a, n - 1);
    assert Packets(kind, peerId, blob)[..n] == Packets(kind, peerId, blob);
    assert Overwritten(blob, a, n).chunks == Pieces(blob);
    PiecesMakeBlob(blob);
  }

  /** In-order delivery over leftovers: exact whenever the dimensions differ or the
      last slot is empty, so nothing of the previous blob can leak into the result. */
  lemma InOrderReassembles(kind: Byte, peerId: Word32, blob: seq<Byte>, a: Assembly)
    requires Splittable(blob) && ValidAssembly(a)
    requires a.chunkCount != ChunkCount(blob) || a.blobBytes != |blob| || SlotEmpty(blob, a, ChunkCount(blob) - 1)
    ensures DeliveredExactly(blob, Feed(a, Packets(kind, peerId, blob)))
  {
    hide Accept, Packet;
    if SlotEmpty(blob, a, ChunkCount(blob) - 1) {
      OverwriteAll(kind, peerId, blob, a);
    } else {
      DeliverInOrder(kind, peerId, blob);
      AnyOrderReassembles(kind, peerId, blob, a, InOrder(ChunkCount(blob)));
    }
  }

  // ------------------------------------------------- what leaks otherwise

  lemma {:induction false} FeedPrefix(a: Assembly, ds: seq<seq<Byte>>, n: nat)
    requires ValidAssembly(a) && n <= |ds|
    ensures Feed(a, ds).1[..n] == Feed(a, ds[..n]).1
    decreases |ds|
  {
    hide Accept, Packet;
    if n < |ds| {
      var m := |ds| - 1;
      FeedPrefix(a, ds[..m], n);
      assert ds[..m][..n] == ds[..n];
      var (b, sts) := Feed(a, ds[..m]);
      FeedSnoc(a, ds, b, sts);
    } else {
      assert ds[..n] == ds;
    }
  }

  function Cut(blob: seq<Byte>, n: nat): (c: nat)
    ensures c <= |blob|
  {
    Min(n * BLOB_PAYLOAD_MAX, |blob|)
  }

  lemma FlattenRest(blob: seq<Byte>, n: nat)
    requires Splittable(blob) && n <= ChunkCount(blob)
    ensures Flatten(Pieces(blob)[n..]) == blob[Cut(blob, n)..]
  {
    hide Piece, ChunkCount;
    FlattenPieces(blob, n);
    PiecesMakeBlob(blob);
    var ps := Pieces(blob);
    assert ps == ps[..n] + ps[n..];
    FlattenConcat(ps[..n], ps[n..]);
    assert blob == blob[..Cut(blob, n)] + Flatten(ps[n..]);
  }

  /** The new pieces up to `n` followed by the old ones: the new prefix, the old tail. */
  lemma MixedPieces(x: seq<Byte>, y: seq<Byte>, n: nat)
    requires Splittable(x) && Splittable(y) && |x| == |y| && n <= ChunkCount(x)
    ensures Flatten(Pieces(y)[..n] + Pieces(x)[n..]) == y[..Cut(y, n)] + x[Cut(x, n)..]
  {
    hide Piece;
    FlattenConcat(Pieces(y)[..n], Pieces(x)[n..]);
    FlattenPieces(y, n);
    FlattenRest(x, n);
  }

  /** The largest index still missing. */
  lemma {:induction false} LastMissing(got: set<nat>, n: nat) returns (m: nat)
    requires !AllArrived(got, n)
    ensures m < n && m !in got && forall j :: m < j < n ==> j in got
  {
    if n - 1 in got {
      m := LastMissing(got, n - 1);
    } else {
      m := n - 1;
    }
  }

  lemma MixedSettle(x: seq<Byte>, y: seq<Byte>, got: set<nat>, m: nat)
    requires Splittable(x) && Splittable(y) && |x| == |y| && m < ChunkCount(x) && m !in got
    requires forall j :: m < j < ChunkCount(x) ==> j in got
    ensures ValidAssembly(Partial(x, got))
    ensures Settle(Overwritten(y, Partial(x, got), m + 1)) == (EMPTY, Complete(y[..Cut(y, m + 1)] + x[Cut(x, m + 1)..]))
  {
    var chunks := Overwritten(y, Partial(x, got), m + 1).chunks;
    assert chunks == Pieces(y)[..m + 1] + Pieces(x)[m + 1..];
    MixedPieces(x, y, m + 1);
  }

  /** When leftovers of an equally long blob hold the last slot, the packet that fills
      their last gap completes early, with the tail of the old blob. */
  lemma MixedCompletion(kind: Byte, peerId: Word32, x: seq<Byte>, y: seq<Byte>, got: set<nat>, m: nat)
    requires Splittable(x) && Splittable(y) && |x| == |y| && m < ChunkCount(x) && m !in got
    requires forall j :: m < j < ChunkCount(x) ==> j in got
    ensures ValidAssembly(Partial(x, got))
    ensures var cut := Cut(y, m + 1);
            Feed(Partial(x, got), Packets(kind, peerId, y)).1[m] == Complete(y[..cut] + x[cut..])
  {
    hide Accept, Packet;
    var a := Partial(x, got);
    OverwriteThrough(kind, peerId, y, a, m);
    FeedPrefix(a, Packets(kind, peerId, y), m + 1);
    MixedSettle(x, y, got, m);
    assert Feed(a, Packets(kind, peerId, y)).1[m] == Feed(a, Packets(kind, peerId, y)).1[..m + 1][m];
  }

  /** In-order delivery of `y` over leftovers of an equally long `x` is exact if and only
      if the last chunk of `x` had not arrived. */
  lemma LeftoversExactIff(kind: Byte, peerId: Word32, x: seq<Byte>, y: seq<Byte>, got: set<nat>)
    requires Splittable(x) && Splittable(y) && |x| == |y| && !AllArrived(got, ChunkCount(x))
    ensures ValidAssembly(Partial(x, got))
    ensures DeliveredExactly(y, Feed(Partial(x, got), Packets(kind, peerId, y))) <==> ChunkCount(x) - 1 !in got
  {
    hide Accept, Packet;
    var n := ChunkCount(x);
    if n - 1 in got {
      var m := LastMissing(got, n);
      MixedCompletion(kind, peerId, x, y, got, m);
      assert m != n - 1;
    } else {
      OverwriteAll(kind, peerId, y, Partial(x, got));
    }
  }
}
