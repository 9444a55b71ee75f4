/** The sleep modifier (sleep_quality_modifier in app/core/bio_engine.py):
    last night's sleep duration, bucketed into whole-hour bands, optionally
    scaled by the tracker's confidence. */
module Sleep {
  import opened Wrappers

  /** The band value for `hours` of sleep. */
  function BandScore(hours: real): (base: real)
    ensures -20.0 <= base <= 10.0
    ensures base < 0.0 <==> hours < 7.0
    ensures base > 0.0 <==> hours >= 8.0
    ensures hours < 5.0 ==> base == -20.0
    ensures 5.0 <= hours < 6.0 ==> base == -10.0
    ensures 6.0 <= hours < 7.0 ==> base == -5.0
    ensures 7.0 <= hours < 8.0 ==> base == 0.0
    ensures 8.0 <= hours < 9.0 ==> base == 5.0
    ensures hours >= 9.0 ==> base == 10.0
  {
    if hours < 5.0 then -20.0
    else if hours < 6.0 then -10.0
    else if hours < 7.0 then -5.0
    else if hours < 8.0 then 0.0
    else if hours < 9.0 then 5.0
    else 10.0
  }

  /** The score adjustment for a sleep sample. No sample, no adjustment; a
      positive confidence (in percent) scales the band value. */
  function SleepModifier(durationMin: Option<real>, confidence: Option<real>): (modifier: real)
    ensures durationMin.None? ==> modifier == 0.0
    ensures confidence.None? || confidence.value <= 100.0 ==> -20.0 <= modifier <= 10.0
    ensures durationMin.Some? && (confidence.None? || confidence.value <= 0.0) ==>
              modifier == BandScore(durationMin.value / 60.0)
    ensures durationMin.Some? && confidence.Some? && confidence.value > 0.0 ==>
              modifier == BandScore(durationMin.value / 60.0) * (confidence.value / 100.0)
  {
    match durationMin
    case None => 0.0
    case Some(minutes) =>
      var base := BandScore(minutes / 60.0);
      if confidence.Some? && confidence.value > 0.0 then
        ScaleStaysInBand(base, confidence.value / 100.0);
        base * (confidence.value / 100.0)
      else base
  }

  lemma ScaleStaysInBand(base: real, factor: real)
    requires -20.0 <= base <= 10.0
    requires 0.0 < factor
    ensures factor <= 1.0 ==> -20.0 <= base * factor <= 10.0
    ensures (base < 0.0 <==> base * factor < 0.0) && (base > 0.0 <==> base * factor > 0.0)
  {
    assert base * factor - base == base * (factor - 1.0);
    if factor <= 1.0 {
      if base >= 0.0 {
        assert base * (factor - 1.0) <= 0.0;
      } else {
        assert base * (factor - 1.0) >= 0.0;
      }
    }
  }

  lemma BandMonotone(h1: real, h2: real)
    requires h1 <= h2
    ensures BandScore(h1) <= BandScore(h2)
  {
  }

  /** More sleep never lowers the modifier, whatever the confidence. */
  lemma SleepModifierMonotone(d1: real, d2: real, confidence: Option<real>)
    requires d1 <= d2
    ensures SleepModifier(Some(d1), confidence) <= SleepModifier(Some(d2), confidence)
  {
    BandMonotone(d1 / 60.0, d2 / 60.0);
    if confidence.Some? && confidence.value > 0.0 {
      var f := confidence.value / 100.0;
      assert BandScore(d1 / 60.0) * f <= BandScore(d2 / 60.0) * f;
    }
  }

  /** The sign of the modifier depends on the duration alone: below 7 hours
      it is a penalty, from 8 hours on a bonus, in between nothing. */
  lemma SleepModifierSign(d: real, confidence: Option<real>)
    ensures SleepModifier(Some(d), confidence) < 0.0 <==> d < 420.0
    ensures SleepModifier(Some(d), confidence) > 0.0 <==> d >= 480.0
  {
    var base := BandScore(d / 60.0);
    assert d < 420.0 <==> d / 60.0 < 7.0;
    assert d >= 480.0 <==> d / 60.0 >= 8.0;
    if confidence.Some? && confidence.value > 0.0 {
      var f := confidence.value / 100.0;
      if base < 0.0 {
        assert base * f < 0.0;
      } else if base > 0.0 {
        assert base * f > 0.0;
      } else {
        assert base * f == 0.0;
      }
    }
  }

  /** Six and a half hours of sleep is a -5 band; at 50% confidence it counts half. */
  lemma SleepModifierExample()
    ensures SleepModifier(Some(390.0), None) == -5.0
    ensures SleepModifier(Some(390.0), Some(50.0)) == -2.5
  {
  }

  /** The confidence is not capped at 100: under 5 hours at confidence 101
      the modifier is -20.2, below the band range. */
  lemma ConfidenceAboveHundredLeavesRange()
    ensures SleepModifier(Some(240.0), Some(101.0)) == -20.2
  {
  }
}
