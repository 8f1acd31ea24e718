/** The movement arithmetic in plain terms: what a sample, a push and a step come to. */
module Sampling {
  import opened Motion

  // ---------------------------------------------------------------- between two samples

  /** `v` has gone from `a` toward `b` the same part of the way as `part` of `span`. */
  predicate Proportional(a: real, b: real, v: real, part: real, span: real) { (v - a) * span == (b - a) * part }

  lemma LerpProportional(a: real, b: real, part: real, span: real)
    requires span > 0.0
    ensures Proportional(a, b, Lerp(a, b, part / span), part, span)
  {
    Shares(b - a, part, span);
    assert Lerp(a, b, part / span) - a == (b - a) * (part / span);
  }

  lemma Shares(d: real, part: real, span: real)
    requires span > 0.0
    ensures (d * (part / span)) * span == d * part
  {
    var q := part / span;
    assert q * span == part;
    assert (d * q) * span == d * (q * span);
  }

  lemma AngleProportional(a: real, b: real, part: real, span: real) returns (turns: int)
    requires span > 0.0
    ensures var e := b - a - 6.2831853 * turns as real;
            -3.14159265 <= e <= 3.14159265 && (LerpAngle(a, b, part / span) - a) * span == e * part
  {
    hide Turn;
    turns := TurnCongruent(b - a);
    var e := Turn(b - a);
    Shares(e, part, span);
    assert LerpAngle(a, b, part / span) - a == e * (part / span);
  }

  lemma HalfWay(part: real, span: real)
    requires span > 0.0
    ensures part / span < 0.5 <==> 2.0 * part < span
  {
    var q := part / span;
    assert q * span == part;
    if q < 0.5 {
      ProductPositive(0.5 - q, span);
      assert (0.5 - q) * span == 0.5 * span - part;
    } else {
      ProductNonneg(q - 0.5, span);
      assert (q - 0.5) * span == part - 0.5 * span;
    }
  }

  /** A blend of two samples `part` of `span` apart. */
  ghost predicate Proportions(a: Transform, b: Transform, s: Transform, part: real, span: real) {
    && Proportional(a.x, b.x, s.x, part, span) && Proportional(a.y, b.y, s.y, part, span) && Proportional(a.z, b.z, s.z, part, span)
    && Proportional(a.pitch, b.pitch, s.pitch, part, span) && Proportional(a.speed, b.speed, s.speed, part, span)
    && Proportional(a.vx, b.vx, s.vx, part, span) && Proportional(a.vy, b.vy, s.vy, part, span)
    && s.flags == (if 2.0 * part < span then a.flags else b.flags)
  }

  lemma BlendProportional(a: Transform, b: Transform, part: real, span: real)
    requires span > 0.0
    ensures Proportions(a, b, Blend(a, b, part / span), part, span)
  {
    hide Lerp, LerpAngle, Proportional;
    LerpProportional(a.x, b.x, part, span);
    LerpProportional(a.y, b.y, part, span);
    LerpProportional(a.z, b.z, part, span);
    LerpProportional(a.pitch, b.pitch, part, span);
    LerpProportional(a.speed, b.speed, part, span);
    LerpProportional(a.vx, b.vx, part, span);
    LerpProportional(a.vy, b.vy, part, span);
    HalfWay(part, span);
  }

  lemma BlendWhole(a: Transform, b: Transform) returns (turns: int)
    ensures Blend(a, b, 1.0) == b.(yaw := b.yaw - 6.2831853 * turns as real, location := if b.location != 0 then b.location else a.location)
    ensures -3.14159265 <= b.yaw - 6.2831853 * turns as real - a.yaw <= 3.14159265
  {
    hide Turn;
    turns := TurnCongruent(b.yaw - a.yaw);
  }

  /** Inside the ring every value moves in proportion to the time since the sample before `r`;
      the yaw turns the short way, the flags change half way, and two samples a microsecond
      apart count as one step. */
  lemma InteriorExact(ring: seq<Sample>, r: real) returns (k: nat, turns: int)
    requires Interior(ring, r)
    ensures k + 1 < |ring| && r <= ring[k + 1].t && forall j :: 0 <= j <= k ==> ring[j].t < r || (j == k && ring[j].t <= r)
    ensures SampleAt(ring, r).Valid? && !SampleAt(ring, r).extrapolated
    ensures var a, b, s, part, span := ring[k].at, ring[k + 1].at, SampleAt(ring, r).at, r - ring[k].t, ring[k + 1].t - ring[k].t;
            var e := b.yaw - a.yaw - 6.2831853 * turns as real;
            && -3.14159265 <= e <= 3.14159265
            && s.location == (if b.location != 0 then b.location else a.location)
            && (span > 0.000001 ==> Proportions(a, b, s, part, span) && (s.yaw - a.yaw) * span == e * part)
            && (span <= 0.000001 ==> s == b.(yaw := a.yaw + e, location := s.location))
  {
    hide FindPair, Turn, LerpAngle, Proportions;
    InteriorBracketed(ring, r, 0);
    k := FindPair(ring, r, 0);
    var a, b := ring[k].at, ring[k + 1].at;
    var part, span := r - ring[k].t, ring[k + 1].t - ring[k].t;
    if span > 0.000001 {
      BlendProportional(a, b, part, span);
      turns := AngleProportional(a.yaw, b.yaw, part, span);
    } else {
      turns := BlendWhole(a, b);
    }
  }

  // ---------------------------------------------------------------- after the last sample

  /** Past the newest sample of two or more the place goes on at its velocity for the time
      elapsed, at most 0.15 seconds; nothing else changes. */
  lemma AfterExact(ring: seq<Sample>, r: real)
    requires |ring| >= 2 && r > ring[0].t && r >= ring[|ring| - 1].t
    ensures var n, s, elapsed := ring[|ring| - 1].at, SampleAt(ring, r), r - ring[|ring| - 1].t;
            && s.Valid? && s.at == n.(x := s.at.x, y := s.at.y)
            && (elapsed <= 0.15 ==> s.at.x - n.x == n.vx * elapsed && s.at.y - n.y == n.vy * elapsed)
            && (elapsed >= 0.15 ==> s.at.x - n.x == n.vx * 0.15 && s.at.y - n.y == n.vy * 0.15)
            && (s.extrapolated <==> elapsed > 0.0001)
  {
  }

  /** One sample is where it is at any time, and no sample is nowhere. */
  lemma FewSamples(ring: seq<Sample>, r: real)
    requires |ring| <= 1
    ensures SampleAt(ring, r) == if ring == [] then Invalid else Valid(ring[0].at, false)
  {
  }

  // ---------------------------------------------------------------- a new sample

  /** The newest sample is the one pushed, never earlier than the one before it; one that
      stands still replaces its predecessor, any other is added, and a ninth drops the oldest. */
  lemma PushCases(ring: seq<Sample>, s: Sample)
    requires ValidRing(ring)
    ensures var next := Push(ring, s); var n := |ring|;
            && next != [] && next[|next| - 1].at == s.at
            && (n == 0 ==> next == [s])
            && (n > 0 ==>
                  var last := ring[n - 1];
                  && next[|next| - 1].t == (if s.t < last.t then last.t else s.t)
                  && next[..|next| - 1]
                     == if s.at.x == last.at.x && s.at.y == last.at.y && s.at.z == last.at.z && s.at.yaw == last.at.yaw
                           && s.at.speed == last.at.speed && s.at.flags == last.at.flags then ring[..n - 1]
                        else if n < 8 then ring else ring[1..])
  {
    hide Ordered;
    if |ring| > 0 {
      var c := Clamped(ring, s);
      assert Record(ring, s) == (if SamePlace(c.at, ring[|ring| - 1].at) then ring[..|ring| - 1] else ring) + [c];
      if |ring| == 8 && !SamePlace(c.at, ring[7].at) {
        assert (ring + [c])[1..] == ring[1..] + [c];
      }
    }
  }

  // ---------------------------------------------------------------- one step

  /** Far away, close by, or without smoothing the actor is put on the target; otherwise it goes
      its speed, at least 40, for the frame, 1.35 times and beyond 256 units 2.5 times as fast,
      and not past the target. */
  lemma StepIs(cur: Point, target: Point, dist: real, speed: real, dt: real, delayMs: real) returns (moved: real)
    requires IsDistance(dist, cur, target) && dt > 0.0
    ensures var r := StepToward(cur, target, dist, speed, dt, delayMs);
            && (r.1 <==> dist > 2048.0)
            && (if dist > 2048.0 || dist < 0.01 || delayMs <= 0.0 then r.0 == target && moved == dist
                else
                  var pace := (if speed < 40.0 then 40.0 else speed) * dt * (if dist > 256.0 then 2.5 else 1.35);
                  && moved == (if pace < dist then pace else dist)
                  && IsDistance(moved, cur, r.0) && IsDistance(dist - moved, r.0, target))
  {
    hide IsDistance, Along;
    if Jumps(dist, delayMs) {
      moved := dist;
    } else {
      StepExact(cur, target, dist, speed, dt, delayMs);
      moved := StepLength(dist, speed, dt);
    }
  }
}
