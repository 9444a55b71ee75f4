/** The circadian baseline (circadian_base_score in app/core/bio_engine.py):
    a piecewise-linear score of the hour of day, low at night, peaking in the
    late morning, dipping after lunch and declining through the evening. */
module Circadian {
  import opened Numerics

  /** The baseline score at `hour` (hours since midnight, fractional). */
  function CircadianBase(hour: real): (score: real)
    ensures 15.0 <= score <= 60.0
    ensures hour < 6.0 ==> score == 15.0
    ensures score == 60.0 <==> 9.0 <= hour <= 12.0
    ensures 15.0 <= hour < 17.0 ==> score == 50.0
    ensures hour >= 22.0 ==> score <= 16.0
  {
    if hour < 6.0 then 15.0
    else if hour < 7.0 then 15.0 + (hour - 6.0) * 20.0
    else if hour < 9.0 then 35.0 + (hour - 7.0) * 12.5
    else if hour < 12.0 then 60.0
    else if hour < 13.0 then 60.0 - (hour - 12.0) * 10.0
    else if hour < 14.5 then 50.0 - (hour - 13.0) * 10.0
    else if hour < 15.0 then 35.0 + (hour - 14.5) * 30.0
    else if hour < 17.0 then 50.0
    else if hour < 20.0 then 50.0 - (hour - 17.0) * 8.0
    else if hour < 22.0 then 26.0 - (hour - 20.0) * 5.0
    else Max(15.0, 16.0 - (hour - 22.0) * 0.5)
  }

  /** A point of the daily schedule: the baseline score at an hour. */
  datatype Knot = Knot(hour: real, score: real)

  /** The schedule as its corner points; the baseline interpolates linearly
      between neighbours. */
  const Schedule: seq<Knot> := [
    Knot(0.0, 15.0), Knot(6.0, 15.0), Knot(7.0, 35.0), Knot(9.0, 60.0),
    Knot(12.0, 60.0), Knot(13.0, 50.0), Knot(14.5, 35.0), Knot(15.0, 50.0),
    Knot(17.0, 50.0), Knot(20.0, 26.0), Knot(22.0, 16.0), Knot(24.0, 15.0)
  ]

  ghost predicate Ascending(ks: seq<Knot>) {
    forall i :: 0 <= i < |ks| - 1 ==> ks[i].hour < ks[i + 1].hour
  }

  /** The straight line through two knots, evaluated at `h`. */
  function Lerp(a: Knot, b: Knot, h: real): real
    requires a.hour < b.hour
  {
    a.score + (h - a.hour) * (b.score - a.score) / (b.hour - a.hour)
  }

  /** Piecewise-linear interpolation through ascending knots: the segment
      that contains `h`, extended beyond the first and last knot. */
  function Interpolate(ks: seq<Knot>, h: real): real
    requires |ks| >= 2 && Ascending(ks)
    decreases |ks|
  {
    if |ks| == 2 || h < ks[1].hour then Lerp(ks[0], ks[1], h)
    else Interpolate(ks[1..], h)
  }

  lemma ScheduleAscending()
    ensures Ascending(Schedule)
  {
    forall i | 0 <= i < |Schedule| - 1
      ensures Schedule[i].hour < Schedule[i + 1].hour
    {
      assert i == 0 || i == 1 || i == 2 || i == 3 || i == 4 || i == 5
          || i == 6 || i == 7 || i == 8 || i == 9 || i == 10;
    }
  }

  lemma {:induction false} AscendingMonotone(ks: seq<Knot>, i: int, j: int)
    requires Ascending(ks)
    requires 0 <= i <= j < |ks|
    ensures ks[i].hour <= ks[j].hour
    decreases j - i
  {
    if i < j {
      AscendingMonotone(ks, i + 1, j);
    }
  }

  /** Interpolation on the segment starting at knot `i` is that segment's line. */
  lemma {:induction false} InterpolateOnSegment(ks: seq<Knot>, i: int, h: real)
    requires |ks| >= 2 && Ascending(ks)
    requires 0 <= i <= |ks| - 2
    requires i == 0 || ks[i].hour <= h
    requires i == |ks| - 2 || h < ks[i + 1].hour
    ensures Interpolate(ks, h) == Lerp(ks[i], ks[i + 1], h)
    decreases i
  {
    if i > 0 {
      AscendingMonotone(ks, 1, i);
      assert Interpolate(ks, h) == Interpolate(ks[1..], h);
      InterpolateOnSegment(ks[1..], i - 1, h);
    }
  }

  /** Where the branch for one segment is that segment's line, the baseline
      agrees with the interpolation there. */
  lemma SegmentAgrees(i: int, a: Knot, b: Knot, h: real)
    requires 0 <= i <= |Schedule| - 2
    requires Schedule[i] == a && Schedule[i + 1] == b
    requires i == 0 || a.hour <= h
    requires i == |Schedule| - 2 || h < b.hour
    requires a.hour < b.hour && CircadianBase(h) == Lerp(a, b, h)
    ensures Ascending(Schedule)
    ensures CircadianBase(h) == Interpolate(Schedule, h)
  {
    ScheduleAscending();
    InterpolateOnSegment(Schedule, i, h);
  }

  /** The branch chain of the baseline is exactly linear interpolation through
      the schedule's corner points, for every hour of the day (and before it).
      In particular the segments join without jumps, and the floor at 15 after
      22:00 is only reached at midnight. */
  lemma CircadianFollowsSchedule(h: real)
    requires h < 24.0
    ensures Ascending(Schedule)
    ensures CircadianBase(h) == Interpolate(Schedule, h)
  {
    if h < 6.0 { SegmentAgrees(0, Knot(0.0, 15.0), Knot(6.0, 15.0), h); }
    else if h < 7.0 { SegmentAgrees(1, Knot(6.0, 15.0), Knot(7.0, 35.0), h); }
    else if h < 9.0 { SegmentAgrees(2, Knot(7.0, 35.0), Knot(9.0, 60.0), h); }
    else if h < 12.0 { SegmentAgrees(3, Knot(9.0, 60.0), Knot(12.0, 60.0), h); }
    else if h < 13.0 { SegmentAgrees(4, Knot(12.0, 60.0), Knot(13.0, 50.0), h); }
    else if h < 14.5 { SegmentAgrees(5, Knot(13.0, 50.0), Knot(14.5, 35.0), h); }
    else if h < 15.0 { SegmentAgrees(6, Knot(14.5, 35.0), Knot(15.0, 50.0), h); }
    else if h < 17.0 { SegmentAgrees(7, Knot(15.0, 50.0), Knot(17.0, 50.0), h); }
    else if h < 20.0 { SegmentAgrees(8, Knot(17.0, 50.0), Knot(20.0, 26.0), h); }
    else if h < 22.0 { SegmentAgrees(9, Knot(20.0, 26.0), Knot(22.0, 16.0), h); }
    else { SegmentAgrees(10, Knot(22.0, 16.0), Knot(24.0, 15.0), h); }
  }
}
