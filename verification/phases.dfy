/** The phase label (_determine_phase in app/core/bio_engine.py): an ordered
    first-match rule list over the hour of day and the stimulant level. */
module Phases {

  datatype Phase =
    | Sleep | Waking
    | PeakFocus | ActiveFocus | Declining | LowResidual
    | MiddayDip | WindDown | Baseline

  /** The phase for a stimulant level (the larger of the amphetamine and the
      combined methylphenidate levels), a caffeine level and an hour of day.
      The early-morning hours win over everything, then the stimulant bands,
      then the time-of-day labels. Stated below as a decision table: each
      label holds exactly on its own region. */
  function PhaseOf(stimLevel: real, caffeineLevel: real, hour: real): (p: Phase)
    ensures p == Sleep <==> hour < 6.0
    ensures p == Waking <==> 6.0 <= hour < 7.0
    ensures p == PeakFocus <==> hour >= 7.0 && stimLevel >= 0.85
    ensures p == ActiveFocus <==> hour >= 7.0 && 0.5 <= stimLevel < 0.85
    ensures p == Declining <==> hour >= 7.0 && 0.2 <= stimLevel < 0.5
    ensures p == LowResidual <==> hour >= 7.0 && 0.05 <= stimLevel < 0.2
    ensures p == MiddayDip <==> stimLevel < 0.05 && 12.5 <= hour <= 14.5
    ensures p == WindDown <==> stimLevel < 0.05 && hour >= 20.0
    ensures p == Baseline <==> stimLevel < 0.05 && (7.0 <= hour < 12.5 || 14.5 < hour < 20.0)
  {
    if hour < 6.0 then Sleep
    else if hour < 7.0 then Waking
    else if stimLevel >= 0.85 then PeakFocus
    else if stimLevel >= 0.5 then ActiveFocus
    else if stimLevel >= 0.2 then Declining
    else if stimLevel >= 0.05 then LowResidual
    else if 12.5 <= hour <= 14.5 then MiddayDip
    else if hour >= 20.0 then WindDown
    else Baseline
  }

  /** The caffeine level never influences the phase. */
  lemma PhaseIgnoresCaffeine(stimLevel: real, c1: real, c2: real, hour: real)
    ensures PhaseOf(stimLevel, c1, hour) == PhaseOf(stimLevel, c2, hour)
  {
  }

  /** A higher stimulant level never yields a less focused label from 7:00 on. */
  lemma PhaseFocusMonotone(s1: real, s2: real, caffeine: real, hour: real)
    requires hour >= 7.0 && s1 <= s2
    ensures FocusRank(PhaseOf(s1, caffeine, hour)) <= FocusRank(PhaseOf(s2, caffeine, hour))
  {
  }

  /** Stimulant bands ordered by strength; time-of-day labels rank lowest. */
  function FocusRank(p: Phase): nat {
    match p
    case PeakFocus => 4
    case ActiveFocus => 3
    case Declining => 2
    case LowResidual => 1
    case _ => 0
  }
}
