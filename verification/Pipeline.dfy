/** A blob's whole way: split into packets, queued among other messages, drained in parts,
    read in arbitrary pieces, cut into frames, checked, reassembled and decoded. */
module Pipeline {
  import opened Bytes
  import opened Wire
  import opened Blobs
  import SendQueue
  import Framing
  import opened Inventory

  /** How a receiver finds the assembly of a packet: the server by its kind, on the connection
      of the client it comes from; the plugin by kind and peer id. */
  datatype Selector = ByKind(kind: Byte) | BySender(kind: Byte, peerId: Word32)

  predicate Takes(sel: Selector, f: seq<Byte>) {
    && |f| >= BLOB_HEADER_SIZE && HeaderKind(f) == sel.kind
    && (sel.BySender? ==> DecodeChunk(f).peerId == sel.peerId)
  }

  /** The messages meant for one assembly. */
  function Select(ms: seq<seq<Byte>>, sel: Selector): seq<seq<Byte>> {
    if ms == [] then [] else (if Takes(sel, ms[0]) then [ms[0]] else []) + Select(ms[1..], sel)
  }

  /** What the receiver dispatches to that assembly: those that pass the header check. */
  function Dispatch(fs: seq<seq<Byte>>, sel: Selector): seq<seq<Byte>> {
    if fs == [] then []
    else (if Takes(sel, fs[0]) && HeaderOk(fs[0], |fs[0]|) then [fs[0]] else []) + Dispatch(fs[1..], sel)
  }

  /** A selector that takes the packets of `peerId`, of either chunk kind. */
  predicate Fits(sel: Selector, peerId: Word32) {
    && (sel.kind == APPEARANCE_CHUNK || sel.kind == INVENTORY_CHUNK)
    && (sel.BySender? ==> sel.peerId == peerId)
  }

  /** The blobs an assembly completed, in order. */
  function Outputs(sts: seq<Status>): seq<seq<Byte>> {
    if sts == [] then []
    else Outputs(sts[..|sts| - 1]) + if sts[|sts| - 1].Complete? then [sts[|sts| - 1].blob] else []
  }

  function AllPackets(kind: Byte, peerId: Word32, blobs: seq<seq<Byte>>): seq<seq<Byte>> {
    if blobs == [] then []
    else AllPackets(kind, peerId, blobs[..|blobs| - 1]) + Packets(kind, peerId, blobs[|blobs| - 1])
  }

  /** Everything the receiver completes from what its reads delivered. */
  function Receive(cuts: seq<seq<Byte>>, sel: Selector): seq<seq<Byte>> {
    Outputs(Feed(EMPTY, Dispatch(Framing.Poll([], cuts).0, sel)).1)
  }

  // ---------------------------------------------------------------- feeding many blobs

  lemma {:induction false} FeedConcat(a: Assembly, xs: seq<seq<Byte>>, ys: seq<seq<Byte>>)
    requires ValidAssembly(a)
    ensures var (b, sts) := Feed(a, xs);
            Feed(a, xs + ys) == (Feed(b, ys).0, sts + Feed(b, ys).1)
    decreases |ys|
  {
    hide Accept;
    var (b, sts) := Feed(a, xs);
    if ys == [] {
      assert xs + ys == xs && sts + [] == sts;
    } else {
      var n := |ys| - 1;
      FeedConcat(a, xs, ys[..n]);
      assert (xs + ys)[..|xs| + n] == xs + ys[..n] && (xs + ys)[|xs| + n] == ys[n];
      var (c, more) := Feed(b, ys[..n]);
      var st := Accept(c, ys[n]).1;
      assert sts + (more + [st]) == (sts + more) + [st];
    }
  }

  lemma {:induction false} OutputsConcat(xs: seq<Status>, ys: seq<Status>)
    ensures Outputs(xs + ys) == Outputs(xs) + Outputs(ys)
    decreases |ys|
  {
    if ys == [] {
      assert xs + ys == xs;
    } else {
      var n := |ys| - 1;
      assert (xs + ys)[..|xs| + n] == xs + ys[..n];
      OutputsConcat(xs, ys[..n]);
    }
  }

  lemma {:induction false} NoOutputs(sts: seq<Status>)
    requires forall i :: 0 <= i < |sts| ==> sts[i] == Pending
    ensures Outputs(sts) == []
  {
    if sts != [] {
      NoOutputs(sts[..|sts| - 1]);
    }
  }

  lemma OneOutput(blob: seq<Byte>, r: (Assembly, seq<Status>))
    requires DeliveredExactly(blob, r)
    ensures Outputs(r.1) == [blob]
  {
    NoOutputs(r.1[..|r.1| - 1]);
  }

  ghost predicate AllSplittable(blobs: seq<seq<Byte>>) {
    forall i :: 0 <= i < |blobs| ==> Splittable(blobs[i])
  }

  /** Blobs sent one after the other come out one after the other. */
  lemma {:induction false} FeedMany(kind: Byte, peerId: Word32, blobs: seq<seq<Byte>>)
    requires AllSplittable(blobs)
    ensures var r := Feed(EMPTY, AllPackets(kind, peerId, blobs)); r.0 == EMPTY && Outputs(r.1) == blobs
  {
    hide Feed, Packets, Outputs, Splittable;
    if blobs == [] {
      FeedNothing();
    } else {
      var n := |blobs| - 1;
      var blob := blobs[n];
      FeedMany(kind, peerId, blobs[..n]);
      FeedConcat(EMPTY, AllPackets(kind, peerId, blobs[..n]), Packets(kind, peerId, blob));
      InOrderReassembles(kind, peerId, blob, EMPTY);
      OneOutput(blob, Feed(EMPTY, Packets(kind, peerId, blob)));
      OutputsConcat(Feed(EMPTY, AllPackets(kind, peerId, blobs[..n])).1, Feed(EMPTY, Packets(kind, peerId, blob)).1);
      assert blobs == blobs[..n] + [blob];
    }
  }

  lemma FeedNothing()
    ensures Feed(EMPTY, []) == (EMPTY, []) && Outputs([]) == []
  {
  }

  // ---------------------------------------------------------------- packets pass the header check

  ghost predicate Passing(ms: seq<seq<Byte>>, sel: Selector) {
    forall i :: 0 <= i < |ms| ==> Takes(sel, ms[i]) && HeaderOk(ms[i], |ms[i]|)
  }

  lemma PacketsPass(sel: Selector, peerId: Word32, blob: seq<Byte>)
    requires Fits(sel, peerId)
    ensures Passing(Packets(sel.kind, peerId, blob), sel)
  {
    hide ChunkAcceptable, Piece, EncodeChunk, DecodeChunk;
    if Splittable(blob) {
      forall i | 0 <= i < ChunkCount(blob)
        ensures var d := Packet(sel.kind, peerId, blob, i); Takes(sel, d) && HeaderOk(d, |d|)
      {
        PacketAcceptable(sel.kind, peerId, blob, i);
      }
    }
  }

  lemma {:induction false} AllPacketsPass(sel: Selector, peerId: Word32, blobs: seq<seq<Byte>>)
    requires Fits(sel, peerId)
    ensures Passing(AllPackets(sel.kind, peerId, blobs), sel)
  {
    hide Packets, Takes, HeaderOk;
    if blobs != [] {
      AllPacketsPass(sel, peerId, blobs[..|blobs| - 1]);
      PacketsPass(sel, peerId, blobs[|blobs| - 1]);
    }
  }

  lemma {:induction false} DispatchIsSelect(ms: seq<seq<Byte>>, sel: Selector)
    requires Passing(Select(ms, sel), sel)
    ensures Dispatch(ms, sel) == Select(ms, sel)
  {
    hide HeaderOk;
    if ms != [] {
      var all, rest := Select(ms, sel), Select(ms[1..], sel);
      var lead := |all| - |rest|;
      assert forall i :: 0 <= i < |rest| ==> rest[i] == all[lead + i];
      assert Takes(sel, ms[0]) ==> all[0] == ms[0];
      DispatchIsSelect(ms[1..], sel);
    }
  }

  // ---------------------------------------------------------------- one hop

  /** A run of the send queue that sent all it accepted: well-formed messages, among them
      the packets of `blobs` in order and no others for that assembly. */
  ghost predicate SentAll(q: SendQueue.Queue, sel: Selector, peerId: Word32, blobs: seq<seq<Byte>>) {
    && q.offset == |q.bytes|
    && Framing.AllWellFormed(q.accepted)
    && Select(q.accepted, sel) == AllPackets(sel.kind, peerId, blobs)
  }

  /** Whatever else is on the connection, however the socket took the bytes and however they
      were cut into reads, the receiver completes exactly the blobs sent, in order. */
  lemma BlobsArrive(ops: seq<SendQueue.Op>, cuts: seq<seq<Byte>>, sel: Selector, peerId: Word32, blobs: seq<seq<Byte>>)
    requires Fits(sel, peerId) && AllSplittable(blobs)
    requires SentAll(SendQueue.PerformAll(SendQueue.EMPTY_QUEUE, ops), sel, peerId, blobs)
    requires Flatten(cuts) == SendQueue.PerformAll(SendQueue.EMPTY_QUEUE, ops).sent
    ensures Receive(cuts, sel) == blobs
  {
    hide SendQueue.PerformAll, Framing.Poll, Feed, Dispatch, Select, AllPackets, Framing.AllWellFormed;
    SendQueue.EveryRunOk(ops);
    var q := SendQueue.PerformAll(SendQueue.EMPTY_QUEUE, ops);
    assert q.bytes[q.offset..] == [];
    assert Flatten(q.accepted) == q.sent;
    Framing.SegmentationIrrelevant(q.accepted, cuts);
    AllPacketsPass(sel, peerId, blobs);
    DispatchIsSelect(q.accepted, sel);
    FeedMany(sel.kind, peerId, blobs);
  }

  // ---------------------------------------------------------------- sheets, end to end

  function EncodeAll(sheets: seq<Sheet>): (r: seq<seq<Byte>>)
    ensures |r| == |sheets|
  {
    seq(|sheets|, i requires 0 <= i < |sheets| => Encode(sheets[i]))
  }

  function DecodeAll(blobs: seq<seq<Byte>>): (r: seq<Option<Sheet>>)
    ensures |r| == |blobs|
  {
    seq(|blobs|, i requires 0 <= i < |blobs| => Decode(blobs[i]))
  }

  lemma SheetsSplittable(sheets: seq<Sheet>)
    ensures AllSplittable(EncodeAll(sheets))
  {
    forall i | 0 <= i < |sheets| ensures Splittable(EncodeAll(sheets)[i]) {
      EncodingSplittable(sheets[i]);
    }
  }

  lemma SheetsDecode(sheets: seq<Sheet>)
    ensures DecodeAll(EncodeAll(sheets)) == seq(|sheets|, i requires 0 <= i < |sheets| => Some(Normal(sheets[i])))
  {
    hide Encode, Decode, Normal;
    forall i | 0 <= i < |sheets| ensures Decode(Encode(sheets[i])) == Some(Normal(sheets[i])) {
      assert Encode(sheets[i]) + [] == Encode(sheets[i]);
      RoundTrip(sheets[i], []);
    }
  }

  /** Any sheets, encoded, split, queued, drained, read, framed, checked, reassembled and
      decoded, come out as their normal forms. */
  lemma SheetsArrive(ops: seq<SendQueue.Op>, cuts: seq<seq<Byte>>, sel: Selector, peerId: Word32, sheets: seq<Sheet>)
    requires Fits(sel, peerId) && SentAll(SendQueue.PerformAll(SendQueue.EMPTY_QUEUE, ops), sel, peerId, EncodeAll(sheets))
    requires Flatten(cuts) == SendQueue.PerformAll(SendQueue.EMPTY_QUEUE, ops).sent
    ensures DecodeAll(Receive(cuts, sel)) == seq(|sheets|, i requires 0 <= i < |sheets| => Some(Normal(sheets[i])))
  {
    hide SentAll, SendQueue.PerformAll, Receive, EncodeAll, DecodeAll, Normal;
    SheetsSplittable(sheets);
    BlobsArrive(ops, cuts, sel, peerId, EncodeAll(sheets));
    SheetsDecode(sheets);
  }

  // ---------------------------------------------------------------- such senders exist

  /** A sender that waits until each message has left before it posts the next. */
  function SendEach(ms: seq<seq<Byte>>): seq<SendQueue.Op> {
    if ms == [] then []
    else SendEach(ms[..|ms| - 1]) + [SendQueue.Post(ms[|ms| - 1])] + [SendQueue.Flush(|ms[|ms| - 1]|)]
  }

  lemma PerformTwo(q: SendQueue.Queue, ops: seq<SendQueue.Op>, a: SendQueue.Op, b: SendQueue.Op)
    ensures SendQueue.PerformAll(q, ops + [a] + [b]) == SendQueue.Perform(SendQueue.Perform(SendQueue.PerformAll(q, ops), a), b)
  {
    hide SendQueue.Perform;
    assert (ops + [a] + [b])[..|ops| + 1] == ops + [a];
    assert (ops + [a])[..|ops|] == ops;
  }

  lemma PostAndFlush(sent: seq<Byte>, accepted: seq<seq<Byte>>, m: seq<Byte>)
    requires 0 < |m| <= SendQueue.LIMIT
    ensures SendQueue.Perform(SendQueue.Perform(SendQueue.Queue([], 0, sent, accepted, 0), SendQueue.Post(m)), SendQueue.Flush(|m|))
         == SendQueue.Queue([], 0, sent + m, accepted + [m], 0)
  {
    assert [] + m == m && m[0..|m|] == m;
  }

  /** Nothing it posts is refused, and all of it leaves. */
  lemma {:induction false} SendEachWorks(ms: seq<seq<Byte>>)
    requires forall i :: 0 <= i < |ms| ==> 0 < |ms[i]| <= SendQueue.LIMIT
    ensures SendQueue.PerformAll(SendQueue.EMPTY_QUEUE, SendEach(ms)) == SendQueue.Queue([], 0, Flatten(ms), ms, 0)
  {
    if ms != [] {
      hide SendQueue.Perform, SendQueue.PerformAll;
      var n := |ms| - 1;
      SendEachWorks(ms[..n]);
      PerformTwo(SendQueue.EMPTY_QUEUE, SendEach(ms[..n]), SendQueue.Post(ms[n]), SendQueue.Flush(|ms[n]|));
      PostAndFlush(Flatten(ms[..n]), ms[..n], ms[n]);
      assert ms[..n] + [ms[n]] == ms;
    }
  }

  lemma {:induction false} SelectAll(ms: seq<seq<Byte>>, sel: Selector)
    requires Passing(ms, sel)
    ensures Select(ms, sel) == ms
  {
    hide HeaderOk;
    if ms != [] {
      SelectAll(ms[1..], sel);
      assert ms == [ms[0]] + ms[1..];
    }
  }

  ghost predicate Carried(d: seq<Byte>) { WellFormedFrame(d) && 0 < |d| <= MAX_DATAGRAM }

  lemma {:induction false} AllPacketsCarried(kind: Byte, peerId: Word32, blobs: seq<seq<Byte>>)
    ensures forall i :: 0 <= i < |AllPackets(kind, peerId, blobs)| ==> Carried(AllPackets(kind, peerId, blobs)[i])
  {
    hide WellFormedFrame, Packet, Splittable, ChunkCount;
    if blobs != [] {
      var blob := blobs[|blobs| - 1];
      AllPacketsCarried(kind, peerId, blobs[..|blobs| - 1]);
      forall i | Splittable(blob) && 0 <= i < ChunkCount(blob) ensures Carried(Packet(kind, peerId, blob, i)) {
        PacketAcceptable(kind, peerId, blob, i);
      }
    }
  }

  /** Any blobs can be sent this way, so the hypotheses of the theorems above can be met. */
  lemma BlobsCanBeSent(sel: Selector, peerId: Word32, blobs: seq<seq<Byte>>)
    requires Fits(sel, peerId)
    ensures SentAll(SendQueue.PerformAll(SendQueue.EMPTY_QUEUE, SendEach(AllPackets(sel.kind, peerId, blobs))), sel, peerId, blobs)
  {
    hide SendQueue.PerformAll, AllPackets, Select, Takes, HeaderOk, WellFormedFrame, SendEach;
    var ms := AllPackets(sel.kind, peerId, blobs);
    AllPacketsCarried(sel.kind, peerId, blobs);
    AllPacketsPass(sel, peerId, blobs);
    SelectAll(ms, sel);
    assert forall i :: 0 <= i < |ms| ==> Carried(ms[i]);
    SendEachWorks(ms);
  }
}
