/** The composite Bio-Score (compute_bio_score in app/core/bio_engine.py):
    circadian baseline plus one capped boost per stimulant group plus the
    sleep modifier, clamped to [0, 100], with the raw levels, an uncapped CNS
    load and a phase label alongside. */
module Composer {
  import opened Wrappers
  import opened Numerics
  import opened Config
  import opened Clock
  import opened Load
  import opened Circadian
  import opened Sleep
  import opened Phases
  import Bateman
  import Curves

  /** One evaluation of the engine at one instant. Values are unrounded. */
  datatype ScoreSample = ScoreSample(
    score: real,
    circadian: real,
    elvanseBoost: real,
    medikinetBoost: real,
    caffeineBoost: real,
    sleepModifier: real,
    elvanseLevel: real,
    medikinetLevel: real,
    caffeineLevel: real,
    cnsLoad: real,
    phase: Phase,
    timestamp: Instant)

  const ElvanseCap: real := 30.0
  const MedikinetCap: real := 25.0
  const CaffeineCap: real := 15.0

  /** `min(cap, level * cap)`: proportional to the level up to a level of 1,
      where it saturates at the cap. */
  function Boost(level: real, cap: real): (b: real)
    requires cap > 0.0
    ensures level >= 0.0 ==> 0.0 <= b <= cap
    ensures level >= 1.0 ==> b == cap
    ensures level <= 1.0 ==> b == level * cap
  {
    CapCrossing(level, cap);
    Min(cap, level * cap)
  }

  /** `level * cap` crosses the cap exactly where the level crosses 1. */
  lemma CapCrossing(level: real, cap: real)
    requires cap > 0.0
    ensures level >= 1.0 ==> level * cap >= cap
    ensures level <= 1.0 ==> level * cap <= cap
  {
    assert level * cap - cap == (level - 1.0) * cap;
  }

  lemma BoostMonotone(l1: real, l2: real, cap: real)
    requires cap > 0.0 && l1 <= l2
    ensures Boost(l1, cap) <= Boost(l2, cap)
  {
    var b1, b2 := Boost(l1, cap), Boost(l2, cap);
    var p1, p2 := l1 * cap, l2 * cap;
    ScaleMonotone(l1, l2, cap);
    assert p1 <= p2;
    if l1 < 1.0 {
      ScaleMonotone(l1, 1.0, cap);
      assert p1 <= cap;
      assert b1 == p1;
      assert b2 == p2 || b2 == cap;
    } else {
      assert b1 == cap == b2;
    }
  }

  /** The sum the score clamps. */
  function RawScore(r: ScoreSample): real {
    r.circadian + r.elvanseBoost + r.medikinetBoost + r.caffeineBoost + r.sleepModifier
  }

  /** The engine's evaluation at `target`. */
  function BioScore(m: Transcendentals, target: Instant, intakes: seq<Intake>,
                    sleepDurationMin: Option<real>, sleepConfidence: Option<real>): (r: ScoreSample)
    ensures 0.0 <= r.score <= 100.0
    ensures 0.0 < RawScore(r) < 100.0 ==> r.score == RawScore(r)
    ensures RawScore(r) <= 0.0 ==> r.score == 0.0
    ensures RawScore(r) >= 100.0 ==> r.score == 100.0
    ensures r.elvanseLevel == TotalLoad(m, intakes, target, Elvanse)
    ensures r.medikinetLevel == TotalLoad(m, intakes, target, Medikinet) + TotalLoad(m, intakes, target, MedikinetRetard)
    ensures r.caffeineLevel == TotalLoad(m, intakes, target, Mate)
    ensures 0.0 <= r.elvanseBoost <= ElvanseCap && 0.0 <= r.medikinetBoost <= MedikinetCap
         && 0.0 <= r.caffeineBoost <= CaffeineCap
    ensures r.elvanseBoost == Boost(r.elvanseLevel, ElvanseCap)
    ensures r.medikinetBoost == Boost(r.medikinetLevel, MedikinetCap)
    ensures r.caffeineBoost == Boost(r.caffeineLevel, CaffeineCap)
    ensures r.cnsLoad == r.elvanseLevel + r.medikinetLevel + r.caffeineLevel
    ensures r.cnsLoad >= 0.0
    ensures r.circadian == CircadianBase(HourOfDay(target))
    ensures r.sleepModifier == SleepModifier(sleepDurationMin, sleepConfidence)
    ensures r.phase == PhaseOf(Max(r.elvanseLevel, r.medikinetLevel), r.caffeineLevel, HourOfDay(target))
    ensures r.timestamp == target
  {
    var hour := HourOfDay(target);
    var circadian := CircadianBase(hour);

    var elvanseLevel := TotalLoad(m, intakes, target, Elvanse);
    var elvanseBoost := Boost(elvanseLevel, ElvanseCap);

    var medikinetIrLevel := TotalLoad(m, intakes, target, Medikinet);
    var medikinetRetardLevel := TotalLoad(m, intakes, target, MedikinetRetard);
    var medikinetCombined := medikinetIrLevel + medikinetRetardLevel;
    var medikinetBoost := Boost(medikinetCombined, MedikinetCap);

    var caffeineLevel := TotalLoad(m, intakes, target, Mate);
    var caffeineBoost := Boost(caffeineLevel, CaffeineCap);

    var sleepModifier := SleepModifier(sleepDurationMin, sleepConfidence);

    var raw := circadian + elvanseBoost + medikinetBoost + caffeineBoost + sleepModifier;
    var score := Clamp(raw, 0.0, 100.0);
    var cnsLoad := elvanseLevel + medikinetCombined + caffeineLevel;
    var phase := PhaseOf(Max(elvanseLevel, medikinetCombined), caffeineLevel, hour);

    ScoreSample(score, circadian, elvanseBoost, medikinetBoost, caffeineBoost, sleepModifier,
                elvanseLevel, medikinetCombined, caffeineLevel, cnsLoad, phase, target)
  }

  /** The sample depends on the intake log only through the four loads. */
  lemma SameLoadsSameSample(m: Transcendentals, target: Instant, a: seq<Intake>, b: seq<Intake>,
                            sleepDurationMin: Option<real>, sleepConfidence: Option<real>)
    requires TotalLoad(m, a, target, Elvanse) == TotalLoad(m, b, target, Elvanse)
    requires TotalLoad(m, a, target, Medikinet) == TotalLoad(m, b, target, Medikinet)
    requires TotalLoad(m, a, target, MedikinetRetard) == TotalLoad(m, b, target, MedikinetRetard)
    requires TotalLoad(m, a, target, Mate) == TotalLoad(m, b, target, Mate)
    ensures BioScore(m, target, a, sleepDurationMin, sleepConfidence)
         == BioScore(m, target, b, sleepDurationMin, sleepConfidence)
  {
  }

  /** The order in which intakes are logged never changes the sample. */
  lemma IntakeOrderIrrelevant(m: Transcendentals, target: Instant, a: seq<Intake>, b: seq<Intake>,
                              sleepDurationMin: Option<real>, sleepConfidence: Option<real>)
    requires multiset(a) == multiset(b)
    ensures BioScore(m, target, a, sleepDurationMin, sleepConfidence)
         == BioScore(m, target, b, sleepDurationMin, sleepConfidence)
  {
    LoadPermutationInvariant(m, a, b, target, Elvanse);
    LoadPermutationInvariant(m, a, b, target, Medikinet);
    LoadPermutationInvariant(m, a, b, target, MedikinetRetard);
    LoadPermutationInvariant(m, a, b, target, Mate);
    SameLoadsSameSample(m, target, a, b, sleepDurationMin, sleepConfidence);
  }

  /** Higher loads never give a lower score, levels or CNS load. */
  lemma HigherLoadsNeverLowerScore(m: Transcendentals, target: Instant, a: seq<Intake>, b: seq<Intake>,
                                   sleepDurationMin: Option<real>, sleepConfidence: Option<real>)
    requires TotalLoad(m, a, target, Elvanse) <= TotalLoad(m, b, target, Elvanse)
    requires TotalLoad(m, a, target, Medikinet) <= TotalLoad(m, b, target, Medikinet)
    requires TotalLoad(m, a, target, MedikinetRetard) <= TotalLoad(m, b, target, MedikinetRetard)
    requires TotalLoad(m, a, target, Mate) <= TotalLoad(m, b, target, Mate)
    ensures var before := BioScore(m, target, a, sleepDurationMin, sleepConfidence);
            var after := BioScore(m, target, b, sleepDurationMin, sleepConfidence);
            && before.score <= after.score
            && before.elvanseLevel <= after.elvanseLevel
            && before.medikinetLevel <= after.medikinetLevel
            && before.caffeineLevel <= after.caffeineLevel
            && before.cnsLoad <= after.cnsLoad
  {
    var before := BioScore(m, target, a, sleepDurationMin, sleepConfidence);
    var after := BioScore(m, target, b, sleepDurationMin, sleepConfidence);
    RawScoreMonotone(before, after);
  }

  /** Between two samples with the same baseline and sleep modifier, whose
      boosts follow their levels, higher levels mean a higher sum. */
  lemma RawScoreMonotone(before: ScoreSample, after: ScoreSample)
    requires before.circadian == after.circadian && before.sleepModifier == after.sleepModifier
    requires before.elvanseLevel <= after.elvanseLevel
    requires before.medikinetLevel <= after.medikinetLevel
    requires before.caffeineLevel <= after.caffeineLevel
    requires before.elvanseBoost == Boost(before.elvanseLevel, ElvanseCap)
    requires after.elvanseBoost == Boost(after.elvanseLevel, ElvanseCap)
    requires before.medikinetBoost == Boost(before.medikinetLevel, MedikinetCap)
    requires after.medikinetBoost == Boost(after.medikinetLevel, MedikinetCap)
    requires before.caffeineBoost == Boost(before.caffeineLevel, CaffeineCap)
    requires after.caffeineBoost == Boost(after.caffeineLevel, CaffeineCap)
    ensures RawScore(before) <= RawScore(after)
  {
    BoostMonotone(before.elvanseLevel, after.elvanseLevel, ElvanseCap);
    BoostMonotone(before.medikinetLevel, after.medikinetLevel, MedikinetCap);
    BoostMonotone(before.caffeineLevel, after.caffeineLevel, CaffeineCap);
  }

  /** Logging one more intake never lowers the score, any level, or the CNS load. */
  lemma ExtraIntakeNeverLowersScore(m: Transcendentals, target: Instant, intakes: seq<Intake>, x: Intake,
                                    sleepDurationMin: Option<real>, sleepConfidence: Option<real>)
    ensures var before := BioScore(m, target, intakes, sleepDurationMin, sleepConfidence);
            var after := BioScore(m, target, intakes + [x], sleepDurationMin, sleepConfidence);
            && before.score <= after.score
            && before.elvanseLevel <= after.elvanseLevel
            && before.medikinetLevel <= after.medikinetLevel
            && before.caffeineLevel <= after.caffeineLevel
            && before.cnsLoad <= after.cnsLoad
  {
    LoadGrowsWithIntakes(m, intakes, x, target, Elvanse);
    LoadGrowsWithIntakes(m, intakes, x, target, Medikinet);
    LoadGrowsWithIntakes(m, intakes, x, target, MedikinetRetard);
    LoadGrowsWithIntakes(m, intakes, x, target, Mate);
    HigherLoadsNeverLowerScore(m, target, intakes, intakes + [x], sleepDurationMin, sleepConfidence);
  }

  /** Records with an untracked substance tag change nothing. */
  lemma UntrackedIntakeIgnored(m: Transcendentals, target: Instant, intakes: seq<Intake>, x: Intake,
                               sleepDurationMin: Option<real>, sleepConfidence: Option<real>)
    requires !x.substance.Tracked()
    ensures BioScore(m, target, intakes + [x], sleepDurationMin, sleepConfidence)
         == BioScore(m, target, intakes, sleepDurationMin, sleepConfidence)
  {
    UntrackedAppendIgnored(m, intakes, x, target, Elvanse);
    UntrackedAppendIgnored(m, intakes, x, target, Medikinet);
    UntrackedAppendIgnored(m, intakes, x, target, MedikinetRetard);
    UntrackedAppendIgnored(m, intakes, x, target, Mate);
    SameLoadsSameSample(m, target, intakes + [x], intakes, sleepDurationMin, sleepConfidence);
  }

  /** Before 06:00 the phase is "sleep" and before 07:00 "waking", whatever was taken. */
  lemma EarlyHoursIgnoreStimulants(m: Transcendentals, target: Instant, intakes: seq<Intake>,
                                   sleepDurationMin: Option<real>, sleepConfidence: Option<real>)
    ensures var r := BioScore(m, target, intakes, sleepDurationMin, sleepConfidence);
            && (HourOfDay(target) < 6.0 ==> r.phase == Sleep)
            && (6.0 <= HourOfDay(target) < 7.0 ==> r.phase == Waking)
  {
  }

  /** With nothing logged and no sleep sample the score is the circadian
      baseline alone and the phase is a time-of-day label. */
  lemma EmptyLogIsBaseline(m: Transcendentals, target: Instant)
    ensures var r := BioScore(m, target, [], None, None);
            && r.score == CircadianBase(HourOfDay(target))
            && r.cnsLoad == 0.0
            && r.phase !in {PeakFocus, ActiveFocus, Declining, LowResidual}
  {
  }

  /** One 40 mg amphetamine intake at 08:00, evaluated at 12:00 with no sleep
      sample: the level is the single normalised curve 4 hours in (if it clears
      the threshold), the boost is that level times 30 up to 30, the baseline
      is the late-morning plateau and the sleep modifier is 0. */
  lemma SingleElvanseDoseExample(m: Transcendentals)
    ensures var r := BioScore(m, 12 * SecondsPerHour, [Intake(Elvanse, 8 * SecondsPerHour, Some(40.0))], None, None);
            var level := Bateman.Normalized(m, 4.0, ElvanseKa, ElvanseKe);
            && r.elvanseLevel == (if level > NegligibleEffect then level else 0.0)
            && r.elvanseBoost == Min(ElvanseCap, r.elvanseLevel * ElvanseCap)
            && r.circadian == 60.0
            && r.sleepModifier == 0.0
            && r.medikinetLevel == 0.0 && r.caffeineLevel == 0.0
  {
    var target := 12 * SecondsPerHour;
    var x := Intake(Elvanse, 8 * SecondsPerHour, Some(40.0));
    SingleElvanseDoseLoads(m);
    HourAfterMidnight(0, 12 * 60);
    assert target == 0 + SecondsPerMinute * (12 * 60);
  }

  /** The loads of the single-dose example: the Elvanse load is the
      normalised curve 4 hours in (when it clears the threshold), the others
      are 0. */
  lemma SingleElvanseDoseLoads(m: Transcendentals)
    ensures var x := Intake(Elvanse, 8 * SecondsPerHour, Some(40.0));
            var level := Bateman.Normalized(m, 4.0, ElvanseKa, ElvanseKe);
            && TotalLoad(m, [x], 12 * SecondsPerHour, Elvanse) == (if level > NegligibleEffect then level else 0.0)
            && TotalLoad(m, [x], 12 * SecondsPerHour, Medikinet) == 0.0
            && TotalLoad(m, [x], 12 * SecondsPerHour, MedikinetRetard) == 0.0
            && TotalLoad(m, [x], 12 * SecondsPerHour, Mate) == 0.0
  {
    var target := 12 * SecondsPerHour;
    var x := Intake(Elvanse, 8 * SecondsPerHour, Some(40.0));
    assert HoursBetween(x.timestamp, target) == 4.0;
    Curves.ReferenceDoseIsLevel(m, Elvanse, 4.0);
    assert [x][1..] == [];
  }
}
