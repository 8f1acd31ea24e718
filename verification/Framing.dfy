/** Cutting the TCP byte stream back into frames: on the server and in the plugin. */
module Framing {
  import opened Bytes
  import opened Wire

  const READ_MAX := 4096
  const BUFFER_MAX := MAX_TCP_FRAME * 2

  datatype Extracted = Nothing(rest: seq<Byte>) | Frame(frame: seq<Byte>, rest: seq<Byte>)

  predicate BadStart(buf: seq<Byte>)
    requires |buf| >= HEADER_SIZE
  {
    HeaderMagic(buf) != MAGIC || HeaderSize(buf) < HEADER_SIZE || HeaderSize(buf) > MAX_TCP_FRAME
  }

  /** `tcp_try_extract_frame`: garbage clears the buffer. */
  function Extract(buf: seq<Byte>): (e: Extracted)
    ensures e.Frame? ==> |e.rest| + |e.frame| == |buf| && |e.frame| >= HEADER_SIZE
  {
    if |buf| < HEADER_SIZE then Nothing(buf)
    else if BadStart(buf) then Nothing([])
    else if |buf| < HeaderSize(buf) then Nothing(buf)
    else Frame(buf[..HeaderSize(buf)], buf[HeaderSize(buf)..])
  }

  /** The extraction loop of `poll_conn`. */
  function Drain(buf: seq<Byte>): (r: (seq<seq<Byte>>, seq<Byte>))
    decreases |buf|
  {
    var e := Extract(buf);
    if e.Nothing? then ([], e.rest)
    else
      var (fs, rest) := Drain(e.rest);
      ([e.frame] + fs, rest)
  }

  lemma DrainUnfold(buf: seq<Byte>)
    ensures Extract(buf).Nothing? ==> Drain(buf) == ([], Extract(buf).rest) && |Extract(buf).rest| <= |buf|
    ensures Extract(buf).Frame? ==>
              && Drain(buf) == ([Extract(buf).frame] + Drain(Extract(buf).rest).0, Drain(Extract(buf).rest).1)
              && |Extract(buf).rest| < |buf|
  {
  }

  lemma AppendCons<T>(xs: seq<T>, x: T, ys: seq<T>)
    ensures xs + ([x] + ys) == (xs + [x]) + ys && xs + [] == xs
  {
  }

  lemma AppendAssoc<T>(xs: seq<T>, ys: seq<T>, zs: seq<T>)
    ensures xs + (ys + zs) == (xs + ys) + zs && xs + [] == xs && [] + xs == xs
  {
  }

  /** Reads appended one after the other, each followed by the extraction loop. */
  function Poll(buf: seq<Byte>, cuts: seq<seq<Byte>>): (r: (seq<seq<Byte>>, seq<Byte>))
    decreases |cuts|
  {
    if cuts == [] then ([], buf)
    else
      var (fs, rest) := Drain(buf + cuts[0]);
      var (more, last) := Poll(rest, cuts[1..]);
      (fs + more, last)
  }

  // ---------------------------------------------------------------- the residue is small

  /** Whatever arrived, what is left after the loop is shorter than one maximal frame. */
  lemma {:induction false} DrainResidue(buf: seq<Byte>)
    ensures |Drain(buf).1| < MAX_TCP_FRAME
    decreases |buf|
  {
    var e := Extract(buf);
    if e.Frame? {
      DrainResidue(e.rest);
    }
  }

  // ---------------------------------------------------------------- well-formed streams

  ghost predicate AllWellFormed(fs: seq<seq<Byte>>) {
    forall i :: 0 <= i < |fs| ==> WellFormedFrame(fs[i])
  }

  /** `buf` is the part of the stream `fs` that has arrived but is not yet a whole frame,
      and `rest` is what is still to come. */
  ghost predicate Waiting(buf: seq<Byte>, rest: seq<Byte>, fs: seq<seq<Byte>>) {
    && buf + rest == Flatten(fs)
    && (fs != [] ==> |buf| < |fs[0]|)
    && (fs == [] ==> buf == [])
  }

  lemma HeadFrame(buf: seq<Byte>, rest: seq<Byte>, fs: seq<seq<Byte>>)
    requires AllWellFormed(fs) && fs != [] && buf + rest == Flatten(fs)
    ensures Flatten(fs) == fs[0] + Flatten(fs[1..])
    ensures |buf| >= |fs[0]| ==> Extract(buf) == Frame(fs[0], buf[|fs[0]|..]) && buf[|fs[0]|..] + rest == Flatten(fs[1..])
    ensures |buf| < |fs[0]| ==> Extract(buf) == Nothing(buf)
  {
    var f := fs[0];
    assert WellFormedFrame(f);
    assert fs == [f] + fs[1..];
    FlattenCons(f, fs[1..]);
    var all := buf + rest;
    assert all[..|f|] == f;
    if |buf| >= |f| {
      assert buf[..|f|] == f by { assert buf[..|f|] == all[..|f|]; }
      assert buf[..4] == f[..4] && buf[6] == f[6] && buf[7] == f[7];
      assert HeaderMagic(buf) == HeaderMagic(f) && HeaderSize(buf) == HeaderSize(f);
      assert all[|f|..] == buf[|f|..] + rest;
    } else if |buf| >= HEADER_SIZE {
      assert buf == f[..|buf|] by { assert buf == all[..|buf|]; }
      assert buf[..4] == f[..4] && buf[6] == f[6] && buf[7] == f[7];
      assert HeaderMagic(buf) == HeaderMagic(f) && HeaderSize(buf) == HeaderSize(f);
    }
  }

  /** The loop takes exactly the frames that have completely arrived. */
  lemma {:induction false} DrainWellFormed(buf: seq<Byte>, rest: seq<Byte>, fs: seq<seq<Byte>>) returns (k: nat)
    requires AllWellFormed(fs) && buf + rest == Flatten(fs)
    ensures k <= |fs| && Drain(buf).0 == fs[..k]
    ensures Waiting(Drain(buf).1, rest, fs[k..])
    decreases |fs|
  {
    if fs == [] {
      k := 0;
      assert buf == [];
    } else {
      HeadFrame(buf, rest, fs);
      if |buf| >= |fs[0]| {
        var tail := buf[|fs[0]|..];
        var j := DrainWellFormed(tail, rest, fs[1..]);
        k := j + 1;
        assert fs[..k] == [fs[0]] + fs[1..][..j];
        assert fs[1..][j..] == fs[k..];
      } else {
        k := 0;
        assert fs[k..] == fs;
      }
    }
  }

  lemma {:induction false} PollWellFormed(buf: seq<Byte>, cuts: seq<seq<Byte>>, rest: seq<Byte>, fs: seq<seq<Byte>>) returns (k: nat)
    requires AllWellFormed(fs) && Waiting(buf, Flatten(cuts) + rest, fs)
    ensures k <= |fs| && Poll(buf, cuts).0 == fs[..k]
    ensures Waiting(Poll(buf, cuts).1, rest, fs[k..])
    decreases |cuts|
  {
    hide Drain, WellFormedFrame;
    if cuts == [] {
      k := 0;
      assert Flatten(cuts) + rest == rest;
      assert fs[k..] == fs;
    } else {
      var later := Flatten(cuts[1..]) + rest;
      assert cuts == [cuts[0]] + cuts[1..];
      FlattenCons(cuts[0], cuts[1..]);
      assert buf + (Flatten(cuts) + rest) == (buf + cuts[0]) + later;
      var j := DrainWellFormed(buf + cuts[0], later, fs);
      var i := PollWellFormed(Drain(buf + cuts[0]).1, cuts[1..], rest, fs[j..]);
      k := j + i;
      SliceSlice(fs, j, i);
    }
  }

  lemma SliceSlice<T>(s: seq<T>, j: nat, i: nat)
    requires j + i <= |s|
    ensures s[..j + i] == s[..j] + s[j..][..i] && s[j..][i..] == s[j + i..]
  {
  }

  /** Framing does not depend on segmentation: however the bytes of well-formed frames are
      cut into reads, exactly those frames come out, in order, and nothing is left over. */
  lemma SegmentationIrrelevant(fs: seq<seq<Byte>>, cuts: seq<seq<Byte>>)
    requires AllWellFormed(fs) && Flatten(cuts) == Flatten(fs)
    ensures Poll([], cuts) == (fs, [])
  {
    assert [] + (Flatten(cuts) + []) == Flatten(fs);
    WaitingStart(fs, Flatten(cuts) + []);
    var k := PollWellFormed([], cuts, [], fs);
    var left := fs[k..];
    if left != [] {
      assert left == [left[0]] + left[1..];
      FlattenCons(left[0], left[1..]);
      assert false;
    }
    assert fs[..k] == fs;
  }

  lemma WaitingStart(fs: seq<seq<Byte>>, all: seq<Byte>)
    requires AllWellFormed(fs) && all == Flatten(fs)
    ensures Waiting([], all, fs)
  {
    if fs != [] { assert WellFormedFrame(fs[0]); }
  }

  // ---------------------------------------------------------------- the receive buffer object

  /** The receive buffer of one connection. */
  class RecvBuffer {
    var buf: seq<Byte>

    constructor ()
      ensures buf == []
    {
      buf := [];
    }

    /** `tcp_try_extract_frame`. */
    method TryExtract() returns (ok: bool, frame: seq<Byte>)
      modifies this
      ensures ok <==> Extract(old(buf)).Frame?
      ensures buf == Extract(old(buf)).rest
      ensures ok ==> frame == Extract(old(buf)).frame
    {
      frame := [];
      if |buf| < HEADER_SIZE {
        return false, frame;
      }
      if buf[..4] != MAGIC || FromLe16(buf, 6) < HEADER_SIZE || FromLe16(buf, 6) > MAX_TCP_FRAME {
        buf := [];
        return false, frame;
      }
      var size := FromLe16(buf, 6);
      if |buf| < size {
        return false, frame;
      }
      frame := buf[..size];
      buf := buf[size..];
      ok := true;
    }

    /** `tcp_recv_append` of bytes that arrived; false is its overflow result. */
    method RecvAppend(chunk: seq<Byte>) returns (ok: bool)
      modifies this
      ensures ok <==> |old(buf)| + |chunk| <= BUFFER_MAX
      ensures buf == if ok then old(buf) + chunk else []
    {
      if |buf| + |chunk| > BUFFER_MAX {
        buf := [];
        return false;
      }
      buf := buf + chunk;
      ok := true;
    }

    /** The inner loop of `poll_conn`: frames are taken while there are any. */
    method ExtractAll() returns (frames: seq<seq<Byte>>)
      modifies this
      ensures (frames, buf) == Drain(old(buf))
    {
      hide Drain, Extract;
      frames := [];
      DrainUnfold(buf);
      var more, frame := TryExtract();
      AppendAssoc([frame] + Drain(buf).0, [], []);
      while more
        invariant more ==> Drain(old(buf)) == (frames + ([frame] + Drain(buf).0), Drain(buf).1)
        invariant !more ==> Drain(old(buf)) == (frames, buf)
        decreases |buf|, more
      {
        DrainUnfold(buf);
        AppendCons(frames, frame, Drain(buf).0);
        frames := frames + [frame];
        more, frame := TryExtract();
        AppendAssoc(frames, [], []);
      }
    }

    /** The read loop of `poll_conn`: for arbitrary bytes the overflow result is never
        reached, and the frames are those of the specification. */
    method PollConn(cuts: seq<seq<Byte>>) returns (frames: seq<seq<Byte>>, overflow: bool)
      requires |buf| < MAX_TCP_FRAME
      requires forall i :: 0 <= i < |cuts| ==> |cuts[i]| <= READ_MAX
      modifies this
      ensures !overflow && |buf| < MAX_TCP_FRAME
      ensures (frames, buf) == Poll(old(buf), cuts)
    {
      hide Drain;
      frames, overflow := [], false;
      var i := 0;
      assert cuts[0..] == cuts;
      while i < |cuts|
        invariant 0 <= i <= |cuts| && |buf| < MAX_TCP_FRAME && !overflow
        invariant Poll(old(buf), cuts).0 == frames + Poll(buf, cuts[i..]).0
        invariant Poll(old(buf), cuts).1 == Poll(buf, cuts[i..]).1
      {
        assert cuts[i..][0] == cuts[i] && cuts[i..][1..] == cuts[i + 1..];
        DrainResidue(buf + cuts[i]);
        var fit := RecvAppend(cuts[i]);
        if !fit {
          overflow := true;
          break;
        }
        var more := ExtractAll();
        AppendAssoc(frames, more, Poll(buf, cuts[i + 1..]).0);
        frames := frames + more;
        i := i + 1;
      }
      assert cuts[i..] == [];
      AppendAssoc(frames, [], []);
    }
  }

  // ---------------------------------------------------------------- the plugin's extractor

  /** What one call of the plugin's `cmp_net_tcp_recv_frame` returns on a live connection. */
  datatype Received = NoFrame | Got(frame: seq<Byte>)

  /** One call: all available bytes are appended, then at most one frame is taken. A frame
      longer than the caller's buffer is dropped. There is no check of the magic. */
  function PluginCall(buf: seq<Byte>, arrived: seq<Byte>, maxlen: nat): (seq<Byte>, Received) {
    var b := buf + arrived;
    if maxlen < HEADER_SIZE then (buf, NoFrame)
    else if |b| < HEADER_SIZE then (b, NoFrame)
    else
      var size := FromLe16(b, 6);
      if size < HEADER_SIZE || size > MAX_TCP_FRAME then ([], NoFrame)
      else if |b| < size then (b, NoFrame)
      else if size > maxlen then (b[size..], NoFrame)
      else (b[size..], Got(b[..size]))
  }

  /** The plugin's global receive buffer. */
  class PluginBuffer {
    var buf: seq<Byte>

    constructor ()
      ensures buf == []
    {
      buf := [];
    }

    /** `cmp_net_tcp_recv_frame` when its `recv` calls deliver `arrivals` and then block. */
    method RecvFrame(arrivals: seq<seq<Byte>>, maxlen: nat) returns (r: Received)
      modifies this
      ensures (buf, r) == PluginCall(old(buf), Flatten(arrivals), maxlen)
    {
      if maxlen < HEADER_SIZE {
        return NoFrame;
      }
      for i := 0 to |arrivals|
        invariant buf == old(buf) + Flatten(arrivals[..i])
      {
        assert arrivals[..i + 1] == arrivals[..i] + [arrivals[i]];
        FlattenSnoc(arrivals[..i], arrivals[i]);
        AppendAssoc(old(buf), Flatten(arrivals[..i]), arrivals[i]);
        buf := buf + arrivals[i];
      }
      assert arrivals[..|arrivals|] == arrivals;
      if |buf| < HEADER_SIZE {
        return NoFrame;
      }
      var size := FromLe16(buf, 6);
      if size < HEADER_SIZE || size > MAX_TCP_FRAME {
        buf := [];
        return NoFrame;
      }
      if |buf| < size {
        return NoFrame;
      }
      r := if size > maxlen then NoFrame else Got(buf[..size]);
      buf := buf[size..];
    }
  }

  /** The frames a series of calls hands to the game. */
  function PluginRun(buf: seq<Byte>, arrivals: seq<seq<Byte>>, maxlen: nat): (seq<Byte>, seq<seq<Byte>>)
    decreases |arrivals|
  {
    if arrivals == [] then (buf, [])
    else
      var (b, r) := PluginCall(buf, arrivals[0], maxlen);
      var (last, fs) := PluginRun(b, arrivals[1..], maxlen);
      (last, (if r.Got? then [r.frame] else []) + fs)
  }

  /** The frames that fit the caller's buffer. */
  function Fitting(fs: seq<seq<Byte>>, maxlen: nat): seq<seq<Byte>> {
    if fs == [] then [] else (if |fs[0]| <= maxlen then [fs[0]] else []) + Fitting(fs[1..], maxlen)
  }

  /** One call on a well-formed stream takes the next frame if it has completely arrived. */
  lemma PluginCallStep(buf: seq<Byte>, arrived: seq<Byte>, rest: seq<Byte>, fs: seq<seq<Byte>>, maxlen: nat)
    requires AllWellFormed(fs) && (buf + arrived) + rest == Flatten(fs) && maxlen >= HEADER_SIZE
    ensures var b := buf + arrived;
            var taken := fs != [] && |fs[0]| <= |b|;
            && (taken ==> PluginCall(buf, arrived, maxlen) == (b[|fs[0]|..], if |fs[0]| <= maxlen then Got(fs[0]) else NoFrame)
                          && b[|fs[0]|..] + rest == Flatten(fs[1..]))
            && (!taken ==> PluginCall(buf, arrived, maxlen) == (b, NoFrame))
  {
    var b := buf + arrived;
    if fs == [] {
      assert b == [];
    } else {
      var f := fs[0];
      assert WellFormedFrame(f);
      HeadFrame(b, rest, fs);
      var all := b + rest;
      if |b| >= HEADER_SIZE {
        assert b[6] == all[6] == f[6] && b[7] == all[7] == f[7];
      }
      if |f| <= |b| {
        assert b[..|f|] == f by { assert b[..|f|] == all[..|f|]; }
      }
    }
  }

  /** Any calls on a well-formed stream hand over a prefix of its fitting frames, in order,
      and keep the rest of the stream in the buffer. */
  lemma {:induction false} PluginPrefix(buf: seq<Byte>, arrivals: seq<seq<Byte>>, rest: seq<Byte>, fs: seq<seq<Byte>>, maxlen: nat)
    returns (k: nat)
    requires AllWellFormed(fs) && buf + (Flatten(arrivals) + rest) == Flatten(fs) && maxlen >= HEADER_SIZE
    ensures k <= |fs|
    ensures var (b, got) := PluginRun(buf, arrivals, maxlen);
            got == Fitting(fs[..k], maxlen) && b + rest == Flatten(fs[k..])
    decreases |arrivals|
  {
    if arrivals == [] {
      k := 0;
      assert buf + (Flatten(arrivals) + rest) == buf + rest;
      assert fs[k..] == fs;
    } else {
      var later := Flatten(arrivals[1..]) + rest;
      assert arrivals == [arrivals[0]] + arrivals[1..];
      FlattenCons(arrivals[0], arrivals[1..]);
      assert buf + (Flatten(arrivals) + rest) == (buf + arrivals[0]) + later;
      PluginCallStep(buf, arrivals[0], later, fs, maxlen);
      var b := PluginCall(buf, arrivals[0], maxlen).0;
      if fs != [] && |fs[0]| <= |buf + arrivals[0]| {
        var j := PluginPrefix(b, arrivals[1..], rest, fs[1..], maxlen);
        k := j + 1;
        assert fs[..k][0] == fs[0] && fs[..k][1..] == fs[1..][..j];
        assert fs[1..][j..] == fs[k..];
      } else {
        k := PluginPrefix(b, arrivals[1..], rest, fs, maxlen);
      }
    }
  }

  function Calls(n: nat): (r: seq<seq<Byte>>)
    ensures |r| == n && forall i :: 0 <= i < n ==> r[i] == []
  {
    seq(n, _ => [])
  }

  /** Once the stream has arrived, as many further calls as frames are left hand over all
      of them. */
  lemma {:induction false} PluginCatchesUp(buf: seq<Byte>, fs: seq<seq<Byte>>, maxlen: nat)
    requires AllWellFormed(fs) && buf == Flatten(fs) && maxlen >= HEADER_SIZE
    ensures PluginRun(buf, Calls(|fs|), maxlen) == ([], Fitting(fs, maxlen))
    decreases |fs|
  {
    if fs != [] {
      var calls := Calls(|fs|);
      assert calls[1..] == Calls(|fs| - 1);
      assert (buf + calls[0]) + [] == Flatten(fs);
      assert buf + calls[0] == buf;
      PluginCallStep(buf, calls[0], [], fs, maxlen);
      HeadFrame(buf, [], fs);
      PluginCatchesUp(buf[|fs[0]|..], fs[1..], maxlen);
    }
  }

  lemma {:induction false} AllFit(fs: seq<seq<Byte>>, maxlen: nat)
    requires AllWellFormed(fs) && maxlen >= MAX_TCP_FRAME
    ensures Fitting(fs, maxlen) == fs
  {
    if fs != [] {
      assert WellFormedFrame(fs[0]);
      AllFit(fs[1..], maxlen);
      assert fs == [fs[0]] + fs[1..];
    }
  }

  lemma {:induction false} PluginRunConcat(buf: seq<Byte>, a: seq<seq<Byte>>, b: seq<seq<Byte>>, maxlen: nat)
    ensures var (m, fs) := PluginRun(buf, a, maxlen);
            PluginRun(buf, a + b, maxlen) == (PluginRun(m, b, maxlen).0, fs + PluginRun(m, b, maxlen).1)
    decreases |a|
  {
    if a == [] {
      assert a + b == b;
      AppendAssoc(PluginRun(buf, b, maxlen).1, [], []);
    } else {
      assert (a + b)[1..] == a[1..] + b && (a + b)[0] == a[0];
      var (m, r) := PluginCall(buf, a[0], maxlen);
      PluginRunConcat(m, a[1..], b, maxlen);
      var x := if r.Got? then [r.frame] else [];
      var (m2, fs) := PluginRun(m, a[1..], maxlen);
      assert x + (fs + PluginRun(m2, b, maxlen).1) == (x + fs) + PluginRun(m2, b, maxlen).1;
    }
  }

  lemma {:induction false} FittingConcat(a: seq<seq<Byte>>, b: seq<seq<Byte>>, maxlen: nat)
    ensures Fitting(a + b, maxlen) == Fitting(a, maxlen) + Fitting(b, maxlen)
    decreases |a|
  {
    if a == [] {
      assert a + b == b;
    } else {
      assert (a + b)[1..] == a[1..] + b;
      FittingConcat(a[1..], b, maxlen);
    }
  }

  /** On a live connection both extractors see the same frames: whatever way the stream is
      cut for either side, the plugin (with a buffer for maximal frames) ends up with exactly
      what the server's loop yields. */
  lemma SameFramesBothSides(fs: seq<seq<Byte>>, cuts: seq<seq<Byte>>, arrivals: seq<seq<Byte>>, maxlen: nat)
    requires AllWellFormed(fs) && maxlen >= MAX_TCP_FRAME
    requires Flatten(cuts) == Flatten(fs) && Flatten(arrivals) == Flatten(fs)
    ensures PluginRun([], arrivals + Calls(|fs|), maxlen).1 == Poll([], cuts).0 == fs
  {
    hide PluginRun, Poll, Fitting, WellFormedFrame;
    SegmentationIrrelevant(fs, cuts);
    assert [] + (Flatten(arrivals) + []) == Flatten(fs);
    var k := PluginPrefix([], arrivals, [], fs, maxlen);
    var (b, got) := PluginRun([], arrivals, maxlen);
    assert b == Flatten(fs[k..]) by { assert b + [] == b; }
    CatchUpWithSpare(b, fs[k..], k, maxlen);
    assert |fs[k..]| + k == |fs|;
    PluginRunConcat([], arrivals, Calls(|fs|), maxlen);
    FittingConcat(fs[..k], fs[k..], maxlen);
    assert fs[..k] + fs[k..] == fs;
    AllFit(fs, maxlen);
  }

  lemma CatchUpWithSpare(buf: seq<Byte>, fs: seq<seq<Byte>>, spare: nat, maxlen: nat)
    requires AllWellFormed(fs) && buf == Flatten(fs) && maxlen >= HEADER_SIZE
    ensures PluginRun(buf, Calls(|fs| + spare), maxlen) == ([], Fitting(fs, maxlen))
  {
    assert Calls(|fs| + spare) == Calls(|fs|) + Calls(spare);
    PluginCatchesUp(buf, fs, maxlen);
    PluginRunConcat(buf, Calls(|fs|), Calls(spare), maxlen);
    IdleCalls(spare, maxlen);
    assert Fitting(fs, maxlen) + [] == Fitting(fs, maxlen);
  }

  lemma {:induction false} IdleCalls(n: nat, maxlen: nat)
    ensures PluginRun([], Calls(n), maxlen) == ([], [])
  {
    if n > 0 {
      assert Calls(n)[1..] == Calls(n - 1);
      IdleCalls(n - 1, maxlen);
    }
  }
}
