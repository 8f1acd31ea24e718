/** The nonblocking TCP send buffer: what it has sent, what it still holds, and what its
    compaction costs. */
module SendQueue {
  import opened Bytes

  const LIMIT := 1024 * 1024
  const COMPACT_FROM := 64 * 1024

  /** The buffer, and the history it is judged by: bytes sent, messages accepted, bytes
      moved by compaction. */
  datatype Queue = Queue(bytes: seq<Byte>, offset: nat, sent: seq<Byte>, accepted: seq<seq<Byte>>, moved: nat)

  const EMPTY_QUEUE := Queue([], 0, [], [], 0)

  /** Sent bytes followed by pending ones are the accepted messages; the buffer is at most
      twice the limit; compaction never moved more bytes than were sent. */
  ghost predicate Ok(q: Queue) {
    && q.offset <= |q.bytes| <= 2 * LIMIT
    && |q.bytes| - q.offset <= LIMIT
    && q.sent + q.bytes[q.offset..] == Flatten(q.accepted)
    && q.moved + q.offset <= |q.sent|
  }

  function PendingBytes(q: Queue): nat {
    if q.offset >= |q.bytes| then 0 else |q.bytes| - q.offset
  }

  predicate Fits(q: Queue, data: seq<Byte>) {
    |data| > 0 && PendingBytes(q) + |data| <= LIMIT
  }

  /** The room made before an append. */
  function Compacted(q: Queue): Queue {
    if q.offset > 0 && q.offset == |q.bytes| then q.(bytes := [], offset := 0)
    else if COMPACT_FROM < q.offset <= |q.bytes| && q.offset * 2 > |q.bytes| then
      q.(bytes := q.bytes[q.offset..], offset := 0, moved := q.moved + (|q.bytes| - q.offset))
    else q
  }

  function Appended(q: Queue, data: seq<Byte>): Queue {
    if !Fits(q, data) then q
    else
      var c := Compacted(q);
      c.(bytes := c.bytes + data, accepted := c.accepted + [data])
  }

  /** `n` pending bytes leave. */
  function Advanced(q: Queue, n: nat): Queue
    requires q.offset + n <= |q.bytes|
  {
    q.(offset := q.offset + n, sent := q.sent + q.bytes[q.offset..q.offset + n])
  }

  /** ... and an emptied buffer is reset. */
  function Drained(q: Queue, n: nat): Queue
    requires q.offset + n <= |q.bytes|
  {
    var d := Advanced(q, n);
    if d.offset == |d.bytes| && d.offset > 0 then d.(bytes := [], offset := 0) else d
  }

  lemma CompactedOk(q: Queue)
    requires Ok(q)
    ensures var c := Compacted(q);
            && Ok(c) && PendingBytes(c) == PendingBytes(q) && c.sent == q.sent && c.accepted == q.accepted
            && (c.offset <= COMPACT_FROM || c.offset * 2 <= |c.bytes|)
  {
    var c := Compacted(q);
    assert c.bytes[c.offset..] == q.bytes[q.offset..];
  }

  lemma AppendOk(q: Queue, data: seq<Byte>)
    requires Ok(q)
    ensures Ok(Appended(q, data))
  {
    if Fits(q, data) {
      CompactedOk(q);
      var c := Compacted(q);
      FlattenSnoc(c.accepted, data);
      assert (c.bytes + data)[c.offset..] == c.bytes[c.offset..] + data;
    }
  }

  lemma OkOffset(q: Queue)
    requires Ok(q)
    ensures q.offset <= |q.bytes|
  {
  }

  lemma Cut<T>(a: seq<T>, b: seq<T>, lo: nat, mid: nat, hi: nat)
    requires lo <= mid <= hi <= |b|
    ensures (a + b[lo..mid]) + b[mid..hi] == a + b[lo..hi]
  {
  }

  lemma DrainOk(q: Queue, n: nat)
    requires Ok(q) && q.offset + n <= |q.bytes|
    ensures Ok(Drained(q, n)) && Drained(q, n).accepted == q.accepted && |Drained(q, n).sent| == |q.sent| + n
  {
    var lo, mid, hi := q.offset, q.offset + n, |q.bytes|;
    assert q.bytes[lo..] == q.bytes[lo..hi] && q.bytes[mid..] == q.bytes[mid..hi];
    Cut(q.sent, q.bytes, lo, mid, hi);
    assert (q.sent + q.bytes[lo..mid]) + [] == q.sent + q.bytes[lo..mid];
  }

  /** Two partial sends are one. */
  lemma AdvanceTwice(q: Queue, m: nat, n: nat)
    requires q.offset + m + n <= |q.bytes|
    ensures Advanced(Advanced(q, m), n) == Advanced(q, m + n)
  {
    Cut(q.sent, q.bytes, q.offset, q.offset + m, q.offset + m + n);
  }

  lemma AdvanceNone(q: Queue)
    requires q.offset <= |q.bytes|
    ensures Advanced(q, 0) == q
  {
    assert q.sent + [] == q.sent;
  }

  // ---------------------------------------------------------------- every run

  datatype Op = Post(data: seq<Byte>) | Flush(n: nat)

  function Perform(q: Queue, op: Op): Queue {
    match op
    case Post(data) => Appended(q, data)
    case Flush(n) => if q.offset + n <= |q.bytes| then Drained(q, n) else q
  }

  function PerformAll(q: Queue, ops: seq<Op>): Queue {
    if ops == [] then q else Perform(PerformAll(q, ops[..|ops| - 1]), ops[|ops| - 1])
  }

  /** Over every run of appends and partial drains: nothing lost, nothing reordered, nothing
      from a refused message; bounded memory; amortised compaction cost. */
  lemma {:induction false} EveryRunOk(ops: seq<Op>)
    ensures Ok(PerformAll(EMPTY_QUEUE, ops))
  {
    if ops != [] {
      var n := |ops| - 1;
      EveryRunOk(ops[..n]);
      var q := PerformAll(EMPTY_QUEUE, ops[..n]);
      match ops[n]
      case Post(data) => AppendOk(q, data);
      case Flush(k) => if q.offset + k <= |q.bytes| { DrainOk(q, k); }
    }
  }

  // ---------------------------------------------------------------- the object

  /** What one `send` call can answer: it took `more + 1` bytes (or all that were offered),
      it would block, or the connection is broken. */
  datatype SendResult = Wrote(more: nat) | WouldBlock | Broken

  class TcpSendQueue {
    var bytes: seq<Byte>
    var offset: nat
    ghost var sent: seq<Byte>
    ghost var accepted: seq<seq<Byte>>
    ghost var moved: nat

    ghost function View(): Queue
      reads this
    {
      Queue(bytes, offset, sent, accepted, moved)
    }

    constructor ()
      ensures View() == EMPTY_QUEUE && Ok(View())
    {
      bytes, offset, sent, accepted, moved := [], 0, [], [], 0;
    }

    method Append(data: seq<Byte>) returns (ok: bool)
      requires Ok(View())
      modifies this
      ensures View() == Appended(old(View()), data) && Ok(View())
      ensures ok == Fits(old(View()), data)
    {
      AppendOk(View(), data);
      if |data| == 0 {
        return false;
      }
      if (if offset >= |bytes| then 0 else |bytes| - offset) + |data| > LIMIT {
        return false;
      }
      if offset > 0 && offset == |bytes| {
        bytes := [];
        offset := 0;
      } else if offset > COMPACT_FROM && offset * 2 > |bytes| {
        moved := moved + (|bytes| - offset);
        bytes := bytes[offset..];
        offset := 0;
      }
      bytes := bytes + data;
      accepted := accepted + [data];
      ok := true;
    }

    /** `drain` against a socket that answers its calls with `socket`, in order. */
    method Drain(socket: seq<SendResult>) returns (wantPollOut: bool, closed: bool, ghost n: nat)
      requires Ok(View())
      modifies this
      ensures old(offset) + n <= |old(bytes)| && View() == Drained(old(View()), n) && Ok(View())
      ensures wantPollOut ==> !closed
      ensures !wantPollOut && !closed ==> n == |old(bytes)| - old(offset)
    {
      hide Ok;
      OkOffset(View());
      AdvanceNone(View());
      n, wantPollOut, closed := 0, false, false;
      var i := 0;
      while offset < |bytes|
        invariant 0 <= i <= |socket| && old(offset) + n <= |old(bytes)|
        invariant View() == Advanced(old(View()), n)
        decreases |socket| - i
      {
        if i == |socket| || socket[i].WouldBlock? {
          wantPollOut := true;
          break;
        }
        if socket[i].Broken? {
          closed := true;
          break;
        }
        var k := if socket[i].more + 1 < |bytes| - offset then socket[i].more + 1 else |bytes| - offset;
        AdvanceTwice(old(View()), n, k);
        sent := sent + bytes[offset..offset + k];
        offset := offset + k;
        n := n + k;
        i := i + 1;
      }
      DrainOk(old(View()), n);
      if offset > 0 && offset == |bytes| {
        bytes := [];
        offset := 0;
      }
    }
  }
}
