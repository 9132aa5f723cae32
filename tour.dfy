/** The auto-tour camera path of PanSVG: an ordered keyframe table, the
    findIndex segment search with its fall-back to segment 0, linear
    interpolation inside a segment, and the looping progress of the clock. */
module Tour {
  import opened ViewportMath

  /** One camera keyframe: normalised time t and the offset (x, y) at that time. */
  datatype Keyframe = Keyframe(t: real, x: real, y: real)

  /** Length of one tour loop, in milliseconds. */
  const AnimDuration: real := 200000.0

  /** The keyframe table of the element: five frames with times strictly
      increasing from 0 to 1, whose first and last frames hold the same offset,
      the map moved up by a tenth of the window's inner height. */
  function TourFrames(innerHeight: real): (f: seq<Keyframe>)
    ensures WellFormed(f) && Animatable(f) && |f| == 5
    ensures f[0].x == f[4].x == -168.0 && f[0].y == f[4].y == -(innerHeight * 0.1)
  {
    [ Keyframe(0.0, -168.0, -(innerHeight * 0.1)),
      Keyframe(0.35, -2184.0, -945.0),
      Keyframe(0.55, -1680.0, 0.0),
      Keyframe(0.85, -504.0, -210.0),
      Keyframe(1.0, -168.0, -(innerHeight * 0.1)) ]
  }

  /** lerp(a, b, s): starts at a, ends at b, and stays between them on [0, 1]. */
  function Lerp(a: real, b: real, s: real): (r: real)
    ensures s == 0.0 ==> r == a
    ensures s == 1.0 ==> r == b
    ensures 0.0 <= s <= 1.0 ==> Min(a, b) <= r <= Max(a, b)
  {
    var d := (b - a) * s;
    assert s == 0.0 ==> d == 0.0;
    assert s == 1.0 ==> d == b - a;
    if 0.0 <= s <= 1.0 then StepBetween(b - a, s); a + d else a + d
  }

  /** Scaling a signed length by a factor in [0, 1] lands between 0 and that length. */
  lemma StepBetween(len: real, s: real)
    requires 0.0 <= s <= 1.0
    ensures Min(0.0, len) <= len * s <= Max(0.0, len)
  {
    if len >= 0.0 {
      assert len * (1.0 - s) >= 0.0;
    } else {
      var m, q := -len, 1.0 - s;
      assert m * s >= 0.0 && m * q >= 0.0;
      assert len * s == -(m * s) && len * s - len == m * q;
    }
  }

  /** The findIndex predicate: frame idx starts a segment whose half-open time
      range holds p. The last frame has no successor, so it never matches. */
  predicate InSegment(frames: seq<Keyframe>, idx: nat, p: real): (b: bool)
    requires idx < |frames|
    ensures idx == |frames| - 1 ==> !b
    ensures b ==> frames[idx].t <= p < frames[idx + 1].t && frames[idx].t < frames[idx + 1].t
  {
    idx + 1 < |frames| && frames[idx].t <= p && p < frames[idx + 1].t
  }

  /** Array.prototype.findIndex with InSegment, scanning from index `from`:
      the first matching index, or -1 when none matches. */
  function FindIndexFrom(frames: seq<Keyframe>, p: real, from: nat): (i: int)
    requires from <= |frames|
    ensures i == -1 || (from <= i < |frames| && InSegment(frames, i, p))
    ensures i == -1 ==> forall j: nat :: from <= j < |frames| ==> !InSegment(frames, j, p)
    ensures i != -1 ==> forall j: nat :: from <= j < i ==> !InSegment(frames, j, p)
    decreases |frames| - from
  {
    if from == |frames| then -1
    else if InSegment(frames, from, p) then from
    else FindIndexFrom(frames, p, from + 1)
  }

  /** What a tick needs of the table so that it never divides by zero: two
      frames, and distinct times on the fall-back segment 0. */
  predicate Animatable(frames: seq<Keyframe>)
  {
    |frames| >= 2 && frames[0].t != frames[1].t
  }

  /** A properly configured table: times strictly increasing from 0 to 1. */
  predicate WellFormed(frames: seq<Keyframe>)
  {
    && |frames| >= 2
    && frames[0].t == 0.0
    && frames[|frames| - 1].t == 1.0
    && forall i, j :: 0 <= i < j < |frames| ==> frames[i].t < frames[j].t
  }

  /** The segment a tick uses: the findIndex result, or 0 when nothing matches. */
  function Segment(frames: seq<Keyframe>, p: real): (i: nat)
    requires Animatable(frames)
    ensures i + 1 < |frames| && frames[i].t != frames[i + 1].t
    ensures FindIndexFrom(frames, p, 0) == -1 ==> i == 0
    ensures FindIndexFrom(frames, p, 0) != -1 ==> InSegment(frames, i, p)
    ensures forall j: nat :: j < i ==> !InSegment(frames, j, p)
  {
    var k := FindIndexFrom(frames, p, 0);
    if k == -1 then 0 else k
  }

  /** Position of p inside segment i, 0 at its start frame and 1 at its end frame. */
  function LocalT(frames: seq<Keyframe>, i: nat, p: real): (s: real)
    requires i + 1 < |frames| && frames[i].t != frames[i + 1].t
    ensures frames[i].t + s * (frames[i + 1].t - frames[i].t) == p
    ensures p == frames[i].t ==> s == 0.0
    ensures p == frames[i + 1].t ==> s == 1.0
  {
    var d := frames[i + 1].t - frames[i].t;
    var s := (p - frames[i].t) / d;
    assert s * d == p - frames[i].t;
    assert p == frames[i + 1].t ==> s == 1.0 by {
      if p == frames[i + 1].t {
        assert s == d / d;
        DivSelf(d);
      }
    }
    s
  }

  /** A non-zero length divided by itself is 1. */
  lemma DivSelf(d: real)
    requires d != 0.0
    ensures d / d == 1.0
  {
  }

  /** The camera offset that segment i's interpolation gives at time p. */
  function SegmentPoint(frames: seq<Keyframe>, i: nat, p: real): (q: Point)
    requires i + 1 < |frames| && frames[i].t != frames[i + 1].t
    ensures p == frames[i].t ==> q == Point(frames[i].x, frames[i].y)
    ensures p == frames[i + 1].t ==> q == Point(frames[i + 1].x, frames[i + 1].y)
  {
    var s := LocalT(frames, i, p);
    Point(Lerp(frames[i].x, frames[i + 1].x, s), Lerp(frames[i].y, frames[i + 1].y, s))
  }

  /** The offset a tick at progress p writes, before the clamp: the
      interpolation of the first segment holding p, or of segment 0 when no
      segment holds it. */
  function CameraAt(frames: seq<Keyframe>, p: real): (q: Point)
    requires Animatable(frames)
    ensures (forall j: nat :: j < |frames| ==> !InSegment(frames, j, p)) ==> q == SegmentPoint(frames, 0, p)
    ensures forall k: nat :: FirstMatch(frames, k, p) ==> q == SegmentPoint(frames, k, p)
  {
    FirstMatchIsSegment(frames, p);
    SegmentPoint(frames, Segment(frames, p), p)
  }

  /** Frame k starts the first segment that holds p. */
  predicate FirstMatch(frames: seq<Keyframe>, k: nat, p: real)
  {
    k < |frames| && InSegment(frames, k, p) && forall j: nat :: j < k ==> !InSegment(frames, j, p)
  }

  /** At most one frame starts the first matching segment, and it is the one the tick uses. */
  lemma FirstMatchIsSegment(frames: seq<Keyframe>, p: real)
    requires Animatable(frames)
    ensures forall k: nat :: FirstMatch(frames, k, p) ==> k == Segment(frames, p)
  {
    forall k: nat | FirstMatch(frames, k, p) ensures k == Segment(frames, p) {
      var i := FindIndexFrom(frames, p, 0);
      assert i != -1;
    }
  }

  /** In a sorted table, a time between frame `from` and the last frame is
      matched by some segment at or after `from`. */
  lemma {:induction false} FoundFrom(frames: seq<Keyframe>, p: real, from: nat)
    requires WellFormed(frames)
    requires from < |frames| - 1
    requires frames[from].t <= p < frames[|frames| - 1].t
    ensures FindIndexFrom(frames, p, from) != -1
    decreases |frames| - from
  {
    if !InSegment(frames, from, p) {
      assert frames[from + 1].t <= p;
      FoundFrom(frames, p, from + 1);
    }
  }

  /** A matching segment is the one findIndex returns. */
  lemma SegmentOf(frames: seq<Keyframe>, p: real, k: nat)
    requires WellFormed(frames)
    requires k < |frames| && InSegment(frames, k, p)
    ensures FindIndexFrom(frames, p, 0) == k && Segment(frames, p) == k
  {
  }

  /** One tick of a well-formed tour at progress p in [0, 1): findIndex finds
      the segment whose time range holds p, the local time lies in [0, 1), and
      the offset lies between the segment's two keyframes on each axis. */
  lemma TourTick(frames: seq<Keyframe>, p: real)
    requires WellFormed(frames)
    requires 0.0 <= p < 1.0
    ensures FindIndexFrom(frames, p, 0) != -1
    ensures var i := Segment(frames, p);
      && frames[i].t <= p < frames[i + 1].t
      && 0.0 <= LocalT(frames, i, p) < 1.0
      && Min(frames[i].x, frames[i + 1].x) <= CameraAt(frames, p).x <= Max(frames[i].x, frames[i + 1].x)
      && Min(frames[i].y, frames[i + 1].y) <= CameraAt(frames, p).y <= Max(frames[i].y, frames[i + 1].y)
  {
    FoundFrom(frames, p, 0);
    var i := Segment(frames, p);
    QuotientBelowOne(p - frames[i].t, frames[i + 1].t - frames[i].t);
  }

  /** A quotient of a non-negative numerator below a positive denominator lies in [0, 1). */
  lemma QuotientBelowOne(n: real, d: real)
    requires 0.0 <= n < d
    ensures 0.0 <= n / d < 1.0
  {
    var q := n / d;
    assert q * d == n;
  }

  /** The path is continuous at every interior keyframe: the segments on both
      sides of frame k meet at that frame's offset. */
  lemma KnotContinuity(frames: seq<Keyframe>, k: nat)
    requires WellFormed(frames)
    requires 0 < k < |frames| - 1
    ensures CameraAt(frames, frames[k].t) == Point(frames[k].x, frames[k].y)
    ensures SegmentPoint(frames, k - 1, frames[k].t) == Point(frames[k].x, frames[k].y)
  {
    assert frames[k].t < frames[k + 1].t;
    SegmentOf(frames, frames[k].t, k);
    assert LocalT(frames, k, frames[k].t) == 0.0;
    assert frames[k - 1].t < frames[k].t;
    assert LocalT(frames, k - 1, frames[k].t) == 1.0;
  }

  /** The tour loops without a jump: the last segment ends where the tour starts. */
  lemma TourLoopCloses(innerHeight: real)
    ensures SegmentPoint(TourFrames(innerHeight), 3, 1.0) == CameraAt(TourFrames(innerHeight), 0.0)
    ensures CameraAt(TourFrames(innerHeight), 0.0) == Point(-168.0, -(innerHeight * 0.1))
  {
    SegmentOf(TourFrames(innerHeight), 0.0, 0);
  }

  /** JavaScript's x % 1 on a finite number: the remainder of truncating
      division, which keeps the sign of x. */
  function TruncRem1(x: real): (r: real)
    ensures -1.0 < r < 1.0
    ensures 0.0 <= x ==> 0.0 <= r
    ensures x <= 0.0 ==> r <= 0.0
    ensures (x - r).Floor as real == x - r
  {
    if x >= 0.0 then
      var n := x.Floor;
      assert (n as real).Floor == n;
      x - n as real
    else
      var n := (-x).Floor;
      assert (-n as real).Floor == -n;
      x + n as real
  }

  /** The normalised loop time of a tick at timestamp ts for a tour started at
      `start`; for timestamps not before the start it lies in [0, 1). */
  function Progress(ts: real, start: real): (r: real)
    ensures start <= ts ==> 0.0 <= r < 1.0
  {
    TruncRem1((ts - start) / AnimDuration)
  }

  /** The tour repeats: one full period later the progress is the same. */
  lemma ProgressPeriodic(ts: real, start: real)
    requires start <= ts
    ensures Progress(ts + AnimDuration, start) == Progress(ts, start)
  {
    var x := (ts - start) / AnimDuration;
    assert (ts + AnimDuration - start) / AnimDuration == x + 1.0;
    assert (x + 1.0).Floor == x.Floor + 1;
  }
}
