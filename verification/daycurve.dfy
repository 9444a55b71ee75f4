/** The day curve (generate_day_curve in app/core/bio_engine.py): the engine
    evaluated every `intervalMinutes` minutes from the midnight that starts
    the given date's day, over the 1440 minutes of that day. */
module DayCurve {
  import opened Wrappers
  import opened Numerics
  import opened Clock
  import opened Load
  import opened Composer

  const MinutesPerDay: int := 24 * 60
  const DefaultIntervalMinutes: int := 15

  /** The integers range(start, stop, step) yields, for a non-zero step. */
  function IntRange(start: int, stop: int, step: int): seq<int>
    requires step != 0
    decreases if step > 0 then stop - start else start - stop
  {
    if step > 0 then
      if start < stop then [start] + IntRange(start + step, stop, step) else []
    else
      if start > stop then [start] + IntRange(start + step, stop, step) else []
  }

  /** A positive step walks from start in equal strides and stops at the
      first value that reaches stop: the count is the ceiling of
      (stop - start) / step. */
  lemma {:induction false} RangeShape(start: int, stop: int, step: int)
    requires step > 0
    ensures var r := IntRange(start, stop, step);
            && (forall k :: 0 <= k < |r| ==> r[k] == start + k * step)
            && (forall k :: 0 <= k < |r| ==> start <= r[k] < stop)
            && (forall j, k :: 0 <= j < k < |r| ==> r[j] < r[k])
            && (start >= stop ==> |r| == 0)
            && (start < stop ==> |r| > 0 && (|r| - 1) * step < stop - start <= |r| * step)
    decreases stop - start
  {
    var r := IntRange(start, stop, step);
    if start < stop {
      var tail := IntRange(start + step, stop, step);
      RangeShape(start + step, stop, step);
      assert r == [start] + tail;
      forall k | 0 <= k < |r|
        ensures r[k] == start + k * step
      {
        if k > 0 {
          assert r[k] == tail[k - 1] == start + step + (k - 1) * step;
        }
      }
      forall j, k | 0 <= j < k < |r|
        ensures r[j] < r[k]
      {
        if j > 0 {
          assert r[j] == tail[j - 1] && r[k] == tail[k - 1];
        } else {
          assert r[k] == tail[k - 1];
        }
      }
      assert |r| * step == step + |tail| * step;
    }
  }

  /** A negative step from 0 never gets below 1440: the range is empty. */
  lemma NegativeStepIsEmpty(start: int, stop: int, step: int)
    requires step < 0 && start <= stop
    ensures IntRange(start, stop, step) == []
  {
  }

  /** The result of generating a day curve: the samples in time order, or the
      ValueError `range()` raises for a zero step. */
  datatype DayCurveResult = Points(samples: seq<ScoreSample>) | ZeroInterval

  /** The instants `offsets` minutes after `start`. */
  function GridTimes(start: Instant, offsets: seq<int>): (times: seq<Instant>)
    ensures |times| == |offsets|
    ensures forall k :: 0 <= k < |times| ==> times[k] == start + SecondsPerMinute * offsets[k]
  {
    seq(|offsets|, k requires 0 <= k < |offsets| => start + SecondsPerMinute * offsets[k])
  }

  /** The engine evaluated at each instant in turn, with the same intakes and
      sleep inputs. */
  function Evaluate(m: Transcendentals, times: seq<Instant>, intakes: seq<Intake>,
                    sleepDurationMin: Option<real>, sleepConfidence: Option<real>): (samples: seq<ScoreSample>)
    ensures |samples| == |times|
    decreases |times|
  {
    if |times| == 0 then []
    else [BioScore(m, times[0], intakes, sleepDurationMin, sleepConfidence)]
         + Evaluate(m, times[1..], intakes, sleepDurationMin, sleepConfidence)
  }

  /** Sample k is the engine at instant k, and so carries that instant. */
  lemma {:induction false} EvaluatePointwise(m: Transcendentals, times: seq<Instant>, intakes: seq<Intake>,
                                             sleepDurationMin: Option<real>, sleepConfidence: Option<real>)
    ensures var samples := Evaluate(m, times, intakes, sleepDurationMin, sleepConfidence);
            && (forall k :: 0 <= k < |times| ==>
                  samples[k] == BioScore(m, times[k], intakes, sleepDurationMin, sleepConfidence))
            && (forall k :: 0 <= k < |times| ==> samples[k].timestamp == times[k])
    decreases |times|
  {
    var samples := Evaluate(m, times, intakes, sleepDurationMin, sleepConfidence);
    if |times| > 0 {
      var tail := Evaluate(m, times[1..], intakes, sleepDurationMin, sleepConfidence);
      EvaluatePointwise(m, times[1..], intakes, sleepDurationMin, sleepConfidence);
      assert samples == [BioScore(m, times[0], intakes, sleepDurationMin, sleepConfidence)] + tail;
      forall k | 0 <= k < |times|
        ensures samples[k] == BioScore(m, times[k], intakes, sleepDurationMin, sleepConfidence)
      {
        if k > 0 {
          assert samples[k] == tail[k - 1];
          assert times[1..][k - 1] == times[k];
        }
      }
    }
  }

  /** Sample k of an evaluation is the engine at any instant equal to instant k. */
  lemma EvaluateAt(m: Transcendentals, times: seq<Instant>, intakes: seq<Intake>,
                   sleepDurationMin: Option<real>, sleepConfidence: Option<real>, k: int, t: Instant)
    requires 0 <= k < |times| && times[k] == t
    ensures Evaluate(m, times, intakes, sleepDurationMin, sleepConfidence)[k]
         == BioScore(m, t, intakes, sleepDurationMin, sleepConfidence)
  {
    EvaluatePointwise(m, times, intakes, sleepDurationMin, sleepConfidence);
  }

  /** The sample instants of a day curve with a non-zero step. */
  function DayGrid(date: Instant, intervalMinutes: int): (times: seq<Instant>)
    requires intervalMinutes != 0
  {
    GridTimes(DayStart(date), IntRange(0, MinutesPerDay, intervalMinutes))
  }

  /** For a positive step the grid has ceiling(1440 / step) instants. */
  lemma DayGridCount(date: Instant, intervalMinutes: int)
    requires intervalMinutes > 0
    ensures var n := |DayGrid(date, intervalMinutes)|;
            && n > 0
            && (n - 1) * intervalMinutes < MinutesPerDay <= n * intervalMinutes
  {
    RangeShape(0, MinutesPerDay, intervalMinutes);
  }

  /** For a positive step instant k of the grid is k * step minutes past the
      day's midnight, and the instants strictly increase inside that day. */
  lemma DayGridInstants(date: Instant, intervalMinutes: int)
    requires intervalMinutes > 0
    ensures var times := DayGrid(date, intervalMinutes);
            && (forall k :: 0 <= k < |times| ==> times[k] == DayStart(date) + SecondsPerMinute * (k * intervalMinutes))
            && (forall k :: 0 <= k < |times| ==> DayStart(date) <= times[k] < DayStart(date) + SecondsPerDay)
            && (forall j, k :: 0 <= j < k < |times| ==> times[j] < times[k])
  {
    RangeShape(0, MinutesPerDay, intervalMinutes);
    var offsets := IntRange(0, MinutesPerDay, intervalMinutes);
    var times := DayGrid(date, intervalMinutes);
    forall k | 0 <= k < |times|
      ensures times[k] == DayStart(date) + SecondsPerMinute * (k * intervalMinutes)
      ensures DayStart(date) <= times[k] < DayStart(date) + SecondsPerDay
    {
      assert offsets[k] == k * intervalMinutes && 0 <= offsets[k] < MinutesPerDay;
    }
    forall j, k | 0 <= j < k < |times|
      ensures times[j] < times[k]
    {
      assert offsets[j] < offsets[k];
    }
  }

  lemma DayGridAt(date: Instant, intervalMinutes: int, k: int)
    requires intervalMinutes > 0
    requires 0 <= k < |DayGrid(date, intervalMinutes)|
    ensures DayGrid(date, intervalMinutes)[k] == DayStart(date) + SecondsPerMinute * (k * intervalMinutes)
  {
    DayGridInstants(date, intervalMinutes);
  }

  /** One engine evaluation per grid offset, in offset order, all with the
      same intakes and sleep inputs. */
  function GenerateDayCurve(m: Transcendentals, date: Instant, intakes: seq<Intake>,
                            sleepDurationMin: Option<real>, sleepConfidence: Option<real>,
                            intervalMinutes: int): (r: DayCurveResult)
    ensures r.ZeroInterval? <==> intervalMinutes == 0
    ensures intervalMinutes < 0 ==> r == Points([])
  {
    if intervalMinutes == 0 then ZeroInterval
    else Points(Evaluate(m, DayGrid(date, intervalMinutes), intakes, sleepDurationMin, sleepConfidence))
  }

  /** For a positive step the grid covers the day: the count is the ceiling
      of 1440 / step, and sample k is the engine at k * step minutes past the
      day's midnight. */
  lemma DayCurveGrid(m: Transcendentals, date: Instant, intakes: seq<Intake>,
                     sleepDurationMin: Option<real>, sleepConfidence: Option<real>,
                     intervalMinutes: int)
    requires intervalMinutes > 0
    ensures var r := GenerateDayCurve(m, date, intakes, sleepDurationMin, sleepConfidence, intervalMinutes);
            && r.Points?
            && |r.samples| > 0
            && (|r.samples| - 1) * intervalMinutes < MinutesPerDay <= |r.samples| * intervalMinutes
            && (forall k :: 0 <= k < |r.samples| ==>
                  r.samples[k] == BioScore(m, DayStart(date) + SecondsPerMinute * (k * intervalMinutes),
                                           intakes, sleepDurationMin, sleepConfidence))
  {
    var times := DayGrid(date, intervalMinutes);
    var samples := Evaluate(m, times, intakes, sleepDurationMin, sleepConfidence);
    DayGridCount(date, intervalMinutes);
    forall k | 0 <= k < |samples|
      ensures samples[k] == BioScore(m, DayStart(date) + SecondsPerMinute * (k * intervalMinutes),
                                     intakes, sleepDurationMin, sleepConfidence)
    {
      DayGridAt(date, intervalMinutes, k);
      EvaluateAt(m, times, intakes, sleepDurationMin, sleepConfidence, k,
                 DayStart(date) + SecondsPerMinute * (k * intervalMinutes));
    }
  }

  /** For a positive step the curve starts at the day's midnight and its
      sample times strictly increase and stay inside that day. */
  lemma DayCurveTimes(m: Transcendentals, date: Instant, intakes: seq<Intake>,
                      sleepDurationMin: Option<real>, sleepConfidence: Option<real>,
                      intervalMinutes: int)
    requires intervalMinutes > 0
    ensures var r := GenerateDayCurve(m, date, intakes, sleepDurationMin, sleepConfidence, intervalMinutes);
            && r.Points?
            && |r.samples| > 0
            && r.samples[0].timestamp == DayStart(date)
            && (forall k :: 0 <= k < |r.samples| ==>
                  DayStart(date) <= r.samples[k].timestamp < DayStart(date) + SecondsPerDay)
            && (forall j, k :: 0 <= j < k < |r.samples| ==> r.samples[j].timestamp < r.samples[k].timestamp)
  {
    var times := DayGrid(date, intervalMinutes);
    DayGridCount(date, intervalMinutes);
    DayGridInstants(date, intervalMinutes);
    EvaluatePointwise(m, times, intakes, sleepDurationMin, sleepConfidence);
  }

  lemma ScaleUp(a: int, b: int, c: int)
    requires a <= b && c >= 0
    ensures a * c <= b * c
  {
    assert b * c - a * c == (b - a) * c;
  }

  lemma DefaultGridCount(date: Instant)
    ensures |DayGrid(date, DefaultIntervalMinutes)| == 96
  {
    DayGridCount(date, DefaultIntervalMinutes);
    var n := |DayGrid(date, DefaultIntervalMinutes)|;
    if n < 96 {
      ScaleUp(n, 95, DefaultIntervalMinutes);
    } else if n > 96 {
      ScaleUp(96, n - 1, DefaultIntervalMinutes);
    }
  }

  /** With the default 15-minute step the grid has 96 instants, instant k
      being k quarter hours past the day's midnight. */
  lemma DefaultGridHas96Instants(date: Instant)
    ensures var times := DayGrid(date, DefaultIntervalMinutes);
            && |times| == 96
            && (forall k :: 0 <= k < 96 ==> times[k] == DayStart(date) + SecondsPerMinute * (k * 15))
  {
    DefaultGridCount(date);
    DayGridInstants(date, DefaultIntervalMinutes);
  }

  /** k quarter hours after a midnight, for k below 96, the wall clock reads
      k / 4 hours. */
  lemma QuarterHours(midnight: Instant)
    requires midnight % SecondsPerDay == 0
    ensures forall k :: 0 <= k < 96 ==> HourOfDay(midnight + SecondsPerMinute * (k * 15)) == k as real / 4.0
  {
    forall k | 0 <= k < 96
      ensures HourOfDay(midnight + SecondsPerMinute * (k * 15)) == k as real / 4.0
    {
      HourAfterMidnight(midnight, k * 15);
    }
  }

  /** With the default 15-minute step the curve has 96 samples, from 00:00 to
      23:45, sample k sitting k quarter hours past the day's midnight (hour
      k / 4 of the day, by QuarterHours). */
  lemma DefaultDayCurveHas96Samples(m: Transcendentals, date: Instant, intakes: seq<Intake>,
                                    sleepDurationMin: Option<real>, sleepConfidence: Option<real>)
    ensures var r := GenerateDayCurve(m, date, intakes, sleepDurationMin, sleepConfidence, DefaultIntervalMinutes);
            && r.Points?
            && |r.samples| == 96
            && r.samples[0].timestamp == DayStart(date)
            && r.samples[95].timestamp == DayStart(date) + SecondsPerMinute * (23 * 60 + 45)
            && (forall k :: 0 <= k < 96 ==> r.samples[k].timestamp == DayStart(date) + SecondsPerMinute * (k * 15))
  {
    var times := DayGrid(date, DefaultIntervalMinutes);
    DefaultGridHas96Instants(date);
    EvaluatePointwise(m, times, intakes, sleepDurationMin, sleepConfidence);
  }
}
