/** Smoothing of remote movement: the ring of timed samples, sampling it at a render time,
    and stepping an actor toward the sampled transform. Arithmetic is over the reals. */
module Motion {
  const RING_SIZE := 8
  const SNAP := 2048.0
  const MIN_MOVE := 0.01
  const HALF_TURN := 3.14159265
  const FULL_TURN := 6.2831853

  datatype Transform = Transform(
    x: real, y: real, z: real, yaw: real, pitch: real, speed: real, vx: real, vy: real, flags: nat, location: nat)

  datatype Sample = Sample(t: real, at: Transform)

  datatype Sampled = Invalid | Valid(at: Transform, extrapolated: bool)

  // ---------------------------------------------------------------- the ring

  ghost predicate Ordered(ring: seq<Sample>) {
    forall i, j :: 0 <= i < j < |ring| ==> ring[i].t <= ring[j].t
  }

  ghost predicate ValidRing(ring: seq<Sample>) {
    |ring| <= RING_SIZE && Ordered(ring)
  }

  /** Standing still: everything but time, pitch, velocity and location is the same. */
  predicate SamePlace(a: Transform, b: Transform) {
    a.x == b.x && a.y == b.y && a.z == b.z && a.yaw == b.yaw && a.speed == b.speed && a.flags == b.flags
  }

  /** A sample never lies before its predecessor. */
  function Clamped(ring: seq<Sample>, s: Sample): Sample {
    if ring != [] && s.t < ring[|ring| - 1].t then s.(t := ring[|ring| - 1].t) else s
  }

  /** The history without a size limit: clamped times, repeats replaced. */
  function Record(history: seq<Sample>, s: Sample): seq<Sample> {
    var c := Clamped(history, s);
    if history != [] && SamePlace(c.at, history[|history| - 1].at) then history[..|history| - 1] + [c]
    else history + [c]
  }

  function Newest(history: seq<Sample>): (ring: seq<Sample>)
    ensures |ring| <= RING_SIZE
  {
    if |history| <= RING_SIZE then history else history[|history| - RING_SIZE..]
  }

  function Push(ring: seq<Sample>, s: Sample): seq<Sample> {
    Newest(Record(ring, s))
  }

  function PushAll(samples: seq<Sample>): seq<Sample> {
    if samples == [] then [] else Push(PushAll(samples[..|samples| - 1]), samples[|samples| - 1])
  }

  function History(samples: seq<Sample>): seq<Sample> {
    if samples == [] then [] else Record(History(samples[..|samples| - 1]), samples[|samples| - 1])
  }

  lemma RecordOrdered(history: seq<Sample>, s: Sample)
    requires Ordered(history)
    ensures Ordered(Record(history, s))
  {
  }

  lemma PushIsNewest(history: seq<Sample>, s: Sample)
    ensures Push(Newest(history), s) == Newest(Record(history, s))
  {
    if |history| > RING_SIZE {
      var ring := Newest(history);
      assert ring[|ring| - 1] == history[|history| - 1];
      var c, n := Clamped(history, s), |history|;
      assert Clamped(ring, s) == c;
      SuffixSnoc(history[..n - 1], c, n - RING_SIZE);
      assert history[..n - 1][n - RING_SIZE..] == ring[..RING_SIZE - 1];
      SuffixSnoc(history, c, n + 1 - RING_SIZE);
      assert history[n + 1 - RING_SIZE..] == ring[1..];
      SuffixSnoc(ring, c, 1);
    }
  }

  lemma SuffixSnoc<T>(s: seq<T>, x: T, i: nat)
    requires i <= |s|
    ensures (s + [x])[i..] == s[i..] + [x]
  {
  }

  lemma NewestOfNone()
    ensures Newest([]) == [] && Ordered([])
  {
  }

  lemma NewestOrdered(history: seq<Sample>)
    requires Ordered(history)
    ensures ValidRing(Newest(history))
  {
  }

  /** The ring is always the last eight entries of the unlimited history, and its times
      never decrease. */
  lemma {:induction false} RingIsNewestHistory(samples: seq<Sample>)
    ensures PushAll(samples) == Newest(History(samples))
    ensures Ordered(History(samples)) && ValidRing(PushAll(samples))
  {
    hide Push, Record, Newest, Ordered;
    assert Newest([]) == [] && Ordered([]) by { NewestOfNone(); }
    if samples != [] {
      var n := |samples| - 1;
      RingIsNewestHistory(samples[..n]);
      PushIsNewest(History(samples[..n]), samples[n]);
      RecordOrdered(History(samples[..n]), samples[n]);
      NewestOrdered(History(samples));
    }
  }

  class PoseRing {
    var samples: seq<Sample>

    constructor ()
      ensures samples == [] && ValidRing(samples)
    {
      samples := [];
    }

    method PushSample(sample: Sample)
      requires ValidRing(samples)
      modifies this
      ensures samples == Push(old(samples), sample) && ValidRing(samples)
    {
      hide Ordered;
      RecordOrdered(samples, sample);
      NewestOrdered(Record(samples, sample));
      var s := sample;
      if |samples| > 0 {
        var last := samples[|samples| - 1];
        if s.t < last.t {
          s := s.(t := last.t);
        }
        if s.at.x == last.at.x && s.at.y == last.at.y && s.at.z == last.at.z && s.at.yaw == last.at.yaw
           && s.at.speed == last.at.speed && s.at.flags == last.at.flags {
          samples := samples[..|samples| - 1] + [s];
          return;
        }
      }
      samples := samples + [s];
      ghost var all := samples;
      while |samples| > RING_SIZE
        invariant samples == all || (|all| == RING_SIZE + 1 && samples == all[1..])
      {
        samples := samples[1..];
      }
    }
  }

  // ---------------------------------------------------------------- angles

  /** The part `t` of a difference. */
  function Part(d: real, t: real): real { d * t }

  function Lerp(a: real, b: real, t: real): real { a + Part(b - a, t) }

  /** How many whole turns away from the half circle `d` is: a termination measure. */
  function Excess(d: real): nat {
    if d > HALF_TURN then d.Floor else if d < -HALF_TURN then (-d).Floor else 0
  }

  lemma ExcessDrops(d: real)
    requires d > HALF_TURN || d < -HALF_TURN
    ensures d > HALF_TURN ==> d - FULL_TURN > -HALF_TURN && Excess(d - FULL_TURN) < Excess(d)
    ensures d < -HALF_TURN ==> d + FULL_TURN < HALF_TURN && Excess(d + FULL_TURN) < Excess(d)
  {
  }

  /** The turn actually made for a requested turn `d`. */
  function Turn(d: real): real
    decreases Excess(d)
  {
    if d > HALF_TURN then ExcessDrops(d); Turn(d - FULL_TURN)
    else if d < -HALF_TURN then ExcessDrops(d); Turn(d + FULL_TURN)
    else d
  }

  function LerpAngle(a: real, b: real, t: real): real { a + Part(Turn(b - a), t) }

  /** The two loops end, at the turn of the specification. */
  method LerpAngleLoop(a: real, b: real, t: real) returns (r: real)
    ensures r == LerpAngle(a, b, t)
  {
    var d := b - a;
    while d > HALF_TURN
      invariant Turn(d) == Turn(b - a)
      decreases Excess(d), d > HALF_TURN
    {
      ExcessDrops(d);
      d := d - FULL_TURN;
    }
    while d < -HALF_TURN
      invariant Turn(d) == Turn(b - a) && d <= HALF_TURN
      decreases Excess(d), d < -HALF_TURN
    {
      ExcessDrops(d);
      d := d + FULL_TURN;
    }
    r := a + d * t;
  }

  /** The turn is congruent to the requested one, by `k` whole turns. */
  lemma {:induction false} TurnCongruent(d: real) returns (k: int)
    ensures Turn(d) == d - FULL_TURN * k as real
    ensures -HALF_TURN <= Turn(d) <= HALF_TURN
    decreases Excess(d)
  {
    if d > HALF_TURN {
      ExcessDrops(d);
      var j := TurnCongruent(d - FULL_TURN);
      k := j + 1;
    } else if d < -HALF_TURN {
      ExcessDrops(d);
      var j := TurnCongruent(d + FULL_TURN);
      k := j - 1;
    } else {
      k := 0;
    }
  }

  function Abs(x: real): real { if x < 0.0 then -x else x }

  /** No congruent turn is shorter: actors turn the short way round. */
  lemma TurnShortest(d: real, j: int)
    ensures Abs(Turn(d)) <= Abs(d - FULL_TURN * j as real)
  {
    hide Turn;
    var k := TurnCongruent(d);
    var m := (j - k) as real;
    assert d - FULL_TURN * j as real == Turn(d) - FULL_TURN * m;
    if j < k { assert m <= -1.0; } else if j > k { assert m >= 1.0; }
  }

  // ---------------------------------------------------------------- sampling

  predicate Brackets(a: Sample, b: Sample, r: real) { a.t <= r <= b.t }

  /** The first adjacent pair around `r`, from index `i` on; `|ring|` when there is none. */
  function FindPair(ring: seq<Sample>, r: real, i: nat): nat
    decreases |ring| - i
  {
    if i + 1 >= |ring| then |ring|
    else if Brackets(ring[i], ring[i + 1], r) then i
    else FindPair(ring, r, i + 1)
  }

  /** How far between the two samples `r` lies. */
  function Fraction(a: Sample, b: Sample, r: real): real {
    var span := b.t - a.t;
    if span > 0.000001 then (r - a.t) / span else 1.0
  }

  function Blend(a: Transform, b: Transform, t: real): Transform {
    Transform(
      Lerp(a.x, b.x, t), Lerp(a.y, b.y, t), Lerp(a.z, b.z, t), LerpAngle(a.yaw, b.yaw, t), Lerp(a.pitch, b.pitch, t),
      Lerp(a.speed, b.speed, t), Lerp(a.vx, b.vx, t), Lerp(a.vy, b.vy, t),
      if t < 0.5 then a.flags else b.flags,
      if b.location != 0 then b.location else a.location)
  }

  function MinReal(a: real, b: real): real { if b < a then b else a }

  /** `SampleAt`. */
  function SampleAt(ring: seq<Sample>, r: real): Sampled {
    if ring == [] then Invalid
    else if |ring| == 1 || r <= ring[0].t then Valid(ring[0].at, false)
    else
      var newest := ring[|ring| - 1];
      if r >= newest.t then
        var dt := MinReal(0.15, r - newest.t);
        Valid(newest.at.(x := newest.at.x + newest.at.vx * dt, y := newest.at.y + newest.at.vy * dt), dt > 0.0001)
      else
        var i := FindPair(ring, r, 0);
        if i + 1 < |ring| then Valid(Blend(ring[i].at, ring[i + 1].at, Fraction(ring[i], ring[i + 1], r)), false)
        else Valid(newest.at, false)
  }

  method SampleRing(ring: seq<Sample>, r: real) returns (out: Sampled)
    ensures out == SampleAt(ring, r)
  {
    hide LerpAngle;
    if |ring| == 0 {
      return Invalid;
    }
    if |ring| == 1 || r <= ring[0].t {
      return Valid(ring[0].at, false);
    }
    var newest := ring[|ring| - 1];
    if r >= newest.t {
      var dt := if r - newest.t < 0.15 then r - newest.t else 0.15;
      var at := newest.at.(x := newest.at.x + newest.at.vx * dt, y := newest.at.y + newest.at.vy * dt);
      return Valid(at, dt > 0.0001);
    }
    var i := 0;
    while i + 1 < |ring|
      invariant 0 <= i < |ring|
      invariant FindPair(ring, r, i) == FindPair(ring, r, 0)
    {
      var a, b := ring[i], ring[i + 1];
      if r < a.t || r > b.t {
        i := i + 1;
        continue;
      }
      var t := Fraction(a, b, r);
      var yaw := LerpAngleLoop(a.at.yaw, b.at.yaw, t);
      var at := Blend(a.at, b.at, t);
      return Valid(at.(yaw := yaw), false);
    }
    out := Valid(newest.at, false);
  }

  ghost predicate Interior(ring: seq<Sample>, r: real) {
    |ring| >= 2 && ring[0].t < r < ring[|ring| - 1].t
  }

  /** Every interior time is bracketed, by a first pair; the last fallback is never taken. */
  lemma {:induction false} InteriorBracketed(ring: seq<Sample>, r: real, i: nat)
    requires i + 1 < |ring| && ring[i].t <= r < ring[|ring| - 1].t
    ensures var k := FindPair(ring, r, i);
            i <= k < |ring| - 1 && ring[k].t <= r <= ring[k + 1].t && (forall j :: i < j <= k ==> ring[j].t < r)
    decreases |ring| - i
  {
    if !Brackets(ring[i], ring[i + 1], r) {
      InteriorBracketed(ring, r, i + 1);
    }
  }

  predicate Between(a: real, b: real, x: real) { a <= x <= b || b <= x <= a }

  lemma LerpBetween(a: real, b: real, t: real)
    requires 0.0 <= t <= 1.0
    ensures Between(a, b, Lerp(a, b, t))
  {
    hide Part;
    ScaleBounds(b - a, t);
  }

  lemma ProductNonneg(a: real, b: real)
    requires a >= 0.0 && b >= 0.0
    ensures a * b >= 0.0
  {
  }

  lemma ProductPositive(a: real, b: real)
    requires a > 0.0 && b > 0.0
    ensures a * b > 0.0
  {
  }

  lemma NegatedProduct(a: real, b: real)
    ensures (-a) * b == -(a * b)
  {
  }

  /** A part of a difference lies between nothing and all of it. */
  lemma ScaleBounds(d: real, t: real)
    requires 0.0 <= t <= 1.0
    ensures Between(0.0, d, Part(d, t))
  {
    Rest(d, t);
    if d >= 0.0 {
      ProductNonneg(d, t);
      ProductNonneg(d, 1.0 - t);
    } else {
      ProductNonneg(-d, t);
      ProductNonneg(-d, 1.0 - t);
      NegatedProduct(d, t);
      NegatedProduct(d, 1.0 - t);
    }
  }

  lemma FractionBounds(a: Sample, b: Sample, r: real)
    requires Brackets(a, b, r)
    ensures 0.0 <= Fraction(a, b, r) <= 1.0
    ensures r == b.t ==> Fraction(a, b, r) == 1.0
  {
    var span, part := b.t - a.t, r - a.t;
    if span > 0.000001 {
      assert 0.0 <= part <= span;
      assert part / span <= span / span;
    }
  }

  /** Everything a blend lies between. */
  ghost predicate BlendBetween(a: Transform, b: Transform, s: Transform) {
    && Between(a.x, b.x, s.x) && Between(a.y, b.y, s.y) && Between(a.z, b.z, s.z)
    && Between(a.pitch, b.pitch, s.pitch) && Between(a.speed, b.speed, s.speed)
    && Between(a.vx, b.vx, s.vx) && Between(a.vy, b.vy, s.vy)
    && Abs(s.yaw - a.yaw) <= HALF_TURN
    && (s.flags == a.flags || s.flags == b.flags)
    && (s.location == a.location || s.location == b.location)
  }

  lemma BlendStaysBetween(a: Transform, b: Transform, t: real)
    requires 0.0 <= t <= 1.0
    ensures BlendBetween(a, b, Blend(a, b, t))
  {
    hide Lerp, LerpAngle, Turn, Between, Abs;
    LerpBetween(a.x, b.x, t);
    LerpBetween(a.y, b.y, t);
    LerpBetween(a.z, b.z, t);
    LerpBetween(a.pitch, b.pitch, t);
    LerpBetween(a.speed, b.speed, t);
    LerpBetween(a.vx, b.vx, t);
    LerpBetween(a.vy, b.vy, t);
    LerpAngleNear(a.yaw, b.yaw, t);
  }

  lemma LerpAngleNear(a: real, b: real, t: real)
    requires 0.0 <= t <= 1.0
    ensures Abs(LerpAngle(a, b, t) - a) <= HALF_TURN
  {
    hide Turn, Abs, Part;
    TurnPartBounded(b - a, t);
    assert LerpAngle(a, b, t) - a == Part(Turn(b - a), t);
  }

  lemma TurnPartBounded(d: real, t: real)
    requires 0.0 <= t <= 1.0
    ensures Abs(Part(Turn(d), t)) <= HALF_TURN
  {
    hide Turn, Part;
    TurnBounded(d);
    PartBounded(Turn(d), t, HALF_TURN);
  }

  lemma TurnBounded(d: real)
    ensures -HALF_TURN <= Turn(d) <= HALF_TURN
  {
    var k := TurnCongruent(d);
  }

  lemma PartBounded(e: real, t: real, h: real)
    requires 0.0 <= t <= 1.0 && -h <= e <= h
    ensures Abs(Part(e, t)) <= h
  {
    hide Part;
    ScaleBounds(e, t);
  }

  /** At an interior time the result lies between two adjacent samples around that time. */
  lemma InteriorBetween(ring: seq<Sample>, r: real) returns (k: nat)
    requires Interior(ring, r)
    ensures k + 1 < |ring| && ring[k].t <= r <= ring[k + 1].t
    ensures SampleAt(ring, r).Valid? && !SampleAt(ring, r).extrapolated
    ensures BlendBetween(ring[k].at, ring[k + 1].at, SampleAt(ring, r).at)
  {
    hide Blend, Fraction, BlendBetween;
    InteriorBracketed(ring, r, 0);
    k := FindPair(ring, r, 0);
    FractionBounds(ring[k], ring[k + 1], r);
    BlendStaysBetween(ring[k].at, ring[k + 1].at, Fraction(ring[k], ring[k + 1], r));
  }

  /** At the time of an interior sample the result is that sample, the first one if times
      tie; the yaw is its yaw up to whole turns. */
  lemma HitsSample(ring: seq<Sample>, j: nat) returns (turns: int)
    requires Ordered(ring) && j < |ring| && Interior(ring, ring[j].t)
    requires forall i :: 0 <= i < j ==> ring[i].t < ring[j].t
    ensures var s := SampleAt(ring, ring[j].t);
            && s.Valid? && !s.extrapolated
            && s.at.x == ring[j].at.x && s.at.y == ring[j].at.y && s.at.z == ring[j].at.z
            && s.at.pitch == ring[j].at.pitch && s.at.speed == ring[j].at.speed
            && s.at.vx == ring[j].at.vx && s.at.vy == ring[j].at.vy && s.at.flags == ring[j].at.flags
            && s.at.yaw == ring[j].at.yaw - FULL_TURN * turns as real
  {
    hide Turn, Fraction, FindPair;
    var r := ring[j].t;
    InteriorBracketed(ring, r, 0);
    var k := FindPair(ring, r, 0);
    assert k < j;
    assert k + 1 == j;
    FractionBounds(ring[k], ring[k + 1], r);
    turns := TurnCongruent(ring[j].at.yaw - ring[k].at.yaw);
  }

  /** Outside the ring: the oldest sample before it, the newest pushed along its velocity
      for at most 0.15 seconds after it. */
  lemma OutsideTheRing(ring: seq<Sample>, r: real)
    requires Ordered(ring) && ring != []
    ensures r <= ring[0].t ==> SampleAt(ring, r) == Valid(ring[0].at, false)
    ensures r >= ring[|ring| - 1].t ==>
              var newest, s := ring[|ring| - 1].at, SampleAt(ring, r);
              && s.Valid?
              && (|ring| > 1 && r > ring[0].t ==>
                    && Abs(s.at.x - newest.x) <= 0.15 * Abs(newest.vx)
                    && Abs(s.at.y - newest.y) <= 0.15 * Abs(newest.vy)
                    && s.at == newest.(x := s.at.x, y := s.at.y)
                    && (r == ring[|ring| - 1].t ==> s == Valid(newest, false)))
  {
    var newest := ring[|ring| - 1];
    var dt := MinReal(0.15, r - newest.t);
    if r >= newest.t {
      DriftBounded(newest.at.vx, dt);
      DriftBounded(newest.at.vy, dt);
    }
  }

  lemma DriftBounded(v: real, dt: real)
    requires 0.0 <= dt <= 0.15
    ensures Abs(v * dt) <= 0.15 * Abs(v)
  {
    var part := dt / 0.15;
    ScaleBounds(0.15 * v, part);
    assert Part(0.15 * v, part) == v * dt;
  }

  // ---------------------------------------------------------------- stepping

  datatype Point = Point(x: real, y: real, z: real)

  function Square(a: real): real { a * a }

  function Dist2(p: Point, q: Point): real { Square(q.x - p.x) + Square(q.y - p.y) + Square(q.z - p.z) }

  /** `d` is the distance of two points: the square root the source computes. */
  ghost predicate IsDistance(d: real, p: Point, q: Point) { d >= 0.0 && Square(d) == Dist2(p, q) }

  /** The point a part `s` of the way from `p` to `q`. */
  function Along(p: Point, q: Point, s: real): Point {
    Point(p.x + Part(q.x - p.x, s), p.y + Part(q.y - p.y, s), p.z + Part(q.z - p.z, s))
  }

  predicate Jumps(dist: real, delayMs: real) { dist > SNAP || dist < MIN_MOVE || delayMs <= 0.0 }

  function StepLength(dist: real, speed: real, dt: real): real {
    var catchUp := if dist > 256.0 then 2.5 else 1.35;
    MinReal(dist, (if speed < 40.0 then 40.0 else speed) * dt * catchUp)
  }

  /** `StepToward`, with the distance of the two points given: the new place and whether
      it was a snap. */
  function StepToward(cur: Point, target: Point, dist: real, speed: real, dt: real, delayMs: real): (Point, bool) {
    if Jumps(dist, delayMs) then (target, dist > SNAP)
    else (Along(cur, target, StepLength(dist, speed, dt) / dist), false)
  }

  lemma ScaledSquare(a: real, s: real)
    ensures Square(Part(a, s)) == Part(Square(a), Square(s))
  {
    var p := a * s;
    assert p * p == (p * a) * s;
    assert p * a == (a * a) * s;
    assert ((a * a) * s) * s == (a * a) * (s * s);
  }

  lemma AlongDistances(p: Point, q: Point, s: real)
    ensures Dist2(p, Along(p, q, s)) == Part(Dist2(p, q), Square(s))
    ensures Dist2(Along(p, q, s), q) == Part(Dist2(p, q), Square(1.0 - s))
  {
    hide Square, Part;
    var dx, dy, dz := q.x - p.x, q.y - p.y, q.z - p.z;
    ScaledSquare(dx, s);
    ScaledSquare(dy, s);
    ScaledSquare(dz, s);
    ScaledSquare(dx, 1.0 - s);
    ScaledSquare(dy, 1.0 - s);
    ScaledSquare(dz, 1.0 - s);
    Rest(dx, s);
    Rest(dy, s);
    Rest(dz, s);
    var m := Along(p, q, s);
    var k := 1.0 - s;
    assert m.x - p.x == Part(dx, s) && m.y - p.y == Part(dy, s) && m.z - p.z == Part(dz, s);
    assert q.x - m.x == Part(dx, k) && q.y - m.y == Part(dy, k) && q.z - m.z == Part(dz, k);
    Distribute(Square(dx), Square(dy), Square(dz), Square(s));
    Distribute(Square(dx), Square(dy), Square(dz), Square(1.0 - s));
  }

  lemma Rest(d: real, s: real)
    ensures d - Part(d, s) == Part(d, 1.0 - s)
  {
  }

  lemma Distribute(a: real, b: real, c: real, k: real)
    ensures Part(a, k) + Part(b, k) + Part(c, k) == Part(a + b + c, k)
  {
  }

  /** A step that does not jump goes exactly its length along the segment, so the distance
      to the target falls by exactly that length: never past the target. */
  lemma StepExact(cur: Point, target: Point, dist: real, speed: real, dt: real, delayMs: real)
    requires IsDistance(dist, cur, target) && dt > 0.0 && !Jumps(dist, delayMs)
    ensures var p := StepToward(cur, target, dist, speed, dt, delayMs).0; var step := StepLength(dist, speed, dt);
            && 0.0 < step <= dist
            && IsDistance(step, cur, p)
            && IsDistance(dist - step, p, target)
            && (step == dist ==> p == target)
  {
    hide Square, Dist2, Part;
    var step := StepLength(dist, speed, dt);
    StepPositive(dist, speed, dt);
    var s := step / dist;
    Quotient(step, dist);
    AlongDistances(cur, target, s);
    ScaledSquare(dist, s);
    ScaledSquare(dist, 1.0 - s);
    Rest(dist, s);
    if step == dist {
      AlongAll(cur, target);
    }
  }

  lemma Quotient(a: real, b: real)
    requires b > 0.0
    ensures Part(b, a / b) == a && (a == b ==> a / b == 1.0)
  {
  }

  lemma AlongAll(p: Point, q: Point)
    ensures Along(p, q, 1.0) == q
  {
  }

  lemma StepPositive(dist: real, speed: real, dt: real)
    requires dist > 0.0 && dt > 0.0
    ensures 0.0 < StepLength(dist, speed, dt) <= dist
    ensures StepLength(dist, speed, dt) == dist || StepLength(dist, speed, dt) >= 54.0 * dt
  {
    var v := if speed < 40.0 then 40.0 else speed;
    assert (v - 40.0) * dt >= 0.0;
    assert v * dt >= 40.0 * dt;
  }

  lemma SquareGrows(a: real, b: real)
    requires 0.0 <= a < b
    ensures Square(a) < Square(b)
  {
    ProductNonneg(a, b - a);
    ProductPositive(b, b - a);
    assert Square(b) == Square(a) + a * (b - a) + b * (b - a);
  }

  lemma RootUnique(a: real, b: real)
    requires a >= 0.0 && b >= 0.0 && Square(a) == Square(b)
    ensures a == b
  {
    if a < b {
      SquareGrows(a, b);
    } else if b < a {
      SquareGrows(b, a);
    }
  }

  // ---------------------------------------------------------------- convergence

  /** The smallest frame time the caller passes, and what a step then covers at least. */
  const MIN_DT := 1.0 / 120.0
  const MIN_STEP := 0.45

  /** A frame: its duration, and the distance measured before the step. */
  datatype Frame = Frame(dt: real, speed: real, delayMs: real, dist: real)

  /** The place after the frames, all toward one target. */
  function Walk(start: Point, target: Point, frames: seq<Frame>): Point {
    if frames == [] then start
    else
      var p, f := Walk(start, target, frames[..|frames| - 1]), frames[|frames| - 1];
      StepToward(p, target, f.dist, f.speed, f.dt, f.delayMs).0
  }

  /** Every frame measured the distance it really had. */
  ghost predicate Measured(start: Point, target: Point, frames: seq<Frame>) {
    forall i :: 0 <= i < |frames| ==> frames[i].dt >= MIN_DT && IsDistance(frames[i].dist, Walk(start, target, frames[..i]), target)
  }

  lemma MeasuredFront(start: Point, target: Point, frames: seq<Frame>)
    requires Measured(start, target, frames) && frames != []
    ensures Measured(start, target, frames[..|frames| - 1])
  {
    var front := frames[..|frames| - 1];
    forall i | 0 <= i < |front|
      ensures front[i].dt >= MIN_DT && IsDistance(front[i].dist, Walk(start, target, front[..i]), target)
    {
      assert front[..i] == frames[..i];
    }
  }

  lemma DistanceToSelf(p: Point)
    ensures IsDistance(0.0, p, p)
  {
  }

  /** Every frame covers at least `MIN_STEP` or arrives, and what has arrived stays. */
  lemma {:induction false} WalkProgress(start: Point, target: Point, frames: seq<Frame>, d: real) returns (left: real)
    requires IsDistance(d, start, target) && Measured(start, target, frames)
    ensures var p := Walk(start, target, frames);
            IsDistance(left, p, target) && (p == target || left <= d - MIN_STEP * |frames| as real)
  {
    hide IsDistance, StepToward;
    if frames == [] {
      left := d;
    } else {
      var n := |frames| - 1;
      var f, q := frames[n], Walk(start, target, frames[..n]);
      MeasuredFront(start, target, frames);
      var before := WalkProgress(start, target, frames[..n], d);
      assert frames[n].dt >= MIN_DT && IsDistance(f.dist, q, target);
      SameDistance(before, f.dist, q, target);
      left := OneFrame(q, target, f);
    }
  }

  lemma SameDistance(a: real, b: real, p: Point, q: Point)
    requires IsDistance(a, p, q) && IsDistance(b, p, q)
    ensures a == b
  {
    hide Square;
    RootUnique(a, b);
  }

  lemma OneFrame(q: Point, target: Point, f: Frame) returns (left: real)
    requires IsDistance(f.dist, q, target) && f.dt >= MIN_DT
    ensures var p := StepToward(q, target, f.dist, f.speed, f.dt, f.delayMs).0;
            && IsDistance(left, p, target)
            && (p == target || left <= f.dist - MIN_STEP)
            && (q == target ==> p == target)
  {
    hide IsDistance, Square, Along, StepLength;
    if Jumps(f.dist, f.delayMs) {
      DistanceToSelf(target);
      left := 0.0;
    } else {
      if q == target {
        DistanceToSelf(q);
        SameDistance(f.dist, 0.0, q, target);
      }
      StepExact(q, target, f.dist, f.speed, f.dt, f.delayMs);
      StepPositive(f.dist, f.speed, f.dt);
      left := f.dist - StepLength(f.dist, f.speed, f.dt);
    }
  }

  /** Repeated steps to a fixed target reach it: from distance `d` within `d / 0.45`
      frames, and from anywhere within 4552. */
  lemma Converges(start: Point, target: Point, frames: seq<Frame>, d: real)
    requires IsDistance(d, start, target) && Measured(start, target, frames)
    requires MIN_STEP * |frames| as real > d || |frames| >= 4552
    ensures Walk(start, target, frames) == target
  {
    hide StepToward;
    if d > SNAP && MIN_STEP * |frames| as real <= d {
      var first := frames[..1];
      assert first[..0] == [];
      assert Walk(start, target, frames[..0]) == start;
      assert IsDistance(frames[0].dist, start, target) by { assert frames[..0] == []; }
      SameDistance(d, frames[0].dist, start, target);
      SnapArrives(start, target, frames[0]);
      assert Walk(start, target, first) == target;
      StaysThere(start, target, frames, 1);
      assert frames[..|frames|] == frames;
    } else {
      var left := WalkProgress(start, target, frames, d);
      assert left >= 0.0;
    }
  }

  lemma SnapArrives(q: Point, target: Point, f: Frame)
    requires f.dist > SNAP
    ensures StepToward(q, target, f.dist, f.speed, f.dt, f.delayMs) == (target, true)
  {
  }

  lemma {:induction false} StaysThere(start: Point, target: Point, frames: seq<Frame>, n: nat)
    requires Measured(start, target, frames) && n <= |frames| && Walk(start, target, frames[..n]) == target
    ensures Walk(start, target, frames) == target
    decreases |frames|
  {
    hide StepToward, IsDistance;
    if n < |frames| {
      var m := |frames| - 1;
      assert frames[..m][..n] == frames[..n];
      MeasuredFront(start, target, frames);
      StaysThere(start, target, frames[..m], n);
      assert IsDistance(frames[m].dist, Walk(start, target, frames[..m]), target);
      var left := OneFrame(target, target, frames[m]);
    } else {
      assert frames[..n] == frames;
    }
  }
}
