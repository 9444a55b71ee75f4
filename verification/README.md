# Bio-Engine model

A Dafny model of the Bio-Engine of the bio-dashboard, together with its shipped
pharmacokinetic constant table and the hydration-instruction rules of the
WaterTracker health server.

The Bio-Engine estimates a cognitive-performance score from three inputs: a log
of stimulant intakes, last night's sleep, and the time of day. Each tracked
substance has a Bateman absorption/elimination curve. The four substances are
lisdexamfetamine ("elvanse"), methylphenidate immediate release ("medikinet")
and modified release ("medikinet_retard"), and caffeine ("mate"). The engine
works through these steps:

1. It normalises each curve to its peak and scales it by dose / reference dose.
2. It sums the curves over the logged intakes of each substance.
3. It turns each group's level into a capped boost.
4. It adds the boosts to a piecewise-linear circadian baseline and a
   sleep-duration modifier.
5. It clamps the result to [0, 100] and labels it with a phase.
6. The day curve samples this score on a fixed minute grid over one day.

Modules, one per component:

- `Numerics`: the `exp`/`ln` pair the curve uses, passed in as a value
  (`Transcendentals`). `Lawful` lists the only facts the proofs assume about it:
  exp is positive, exp is strictly increasing, and ln is positive above 1.
  `SampleIsLawful` shows these facts are consistent. The module also holds the
  real min/max/clamp helpers.
- `Config`: the shipped rate constants and reference doses.
- `Clock`: instants are whole seconds on a naive local time line. The module
  gives hours between two instants, the hour of the day, and the day's midnight.
- `Bateman`: the raw curve, the peak time and the normalised level, each with
  the guards of `_bateman_raw`, `_bateman_tmax` and `_bateman_normalized`.
- `Curves`: the four dose-scaled effect curves.
- `Load`: intake records and load aggregation.
- `Circadian`: the baseline, plus its corner-point schedule as an independent
  interpolation reference.
- `Sleep`: the sleep modifier.
- `Phases`: the phase classifier.
- `Composer`: the composite score sample.
- `DayCurve`: the day grid.
- `Water`: the hydration instruction.

Notes on the code as written:

- The circadian floor `max(15, …)` after 22:00 never binds during a day: the
  line from 16 reaches 15 only at 24:00 (`CircadianFollowsSchedule`).
- A logged dose of 0 is replaced by the reference dose, because
  `compute_substance_load` falls back with `or`.
- A negative logged dose is used as is. Its effect is then non-positive, and the
  0.005 threshold drops it.
- With distinct positive rates the normalised level is strictly positive at every
  instant after an intake. Whether it counts then depends only on the threshold.
- The sleep confidence is not capped at 100, so the sleep modifier can leave
  [-20, 10] when the confidence exceeds 100: under 5 hours at confidence 101 it
  is -20.2 (`ConfidenceAboveHundredLeavesRange`).

## Model

| member | source | states |
|---|---|---|
| Config.Constants | app/config.py:38-62 | The table binds each tracked substance to its shipped constants. In every pair ka > ke > 0 and every reference dose is positive, so the peak formula and every dose factor are defined. |
| Config.MedikinetFormulationsShareElimination | app/config.py:47-55 | The retard formulation shares the IR elimination rate 0.28 and absorbs more slowly (1.2 < 1.72). |
| Clock.HoursBetween | app/core/bio_engine.py:181-182 | Hours since an intake are the elapsed seconds over 3600. They are ≤ 0 exactly when the target is not after the intake. |
| Clock.HourOfDay | app/core/bio_engine.py:233 | hour + minute/60 lies in [0, 24) and equals the minute of the day over 60; seconds are dropped. |
| Clock.DayStart | app/core/bio_engine.py:329 | The start instant is a midnight, at or before the date and less than a day before it. |
| Clock.HourAfterMidnight | app/core/bio_engine.py:331-333 | The sample taken `offset` minutes after midnight reads hour offset/60. |
| Bateman.Raw | app/core/bio_engine.py:50-58 | The raw curve is 0 for t ≤ 0 and for ka == ke, the guard that prevents division by zero. |
| Bateman.RawPositive | app/core/bio_engine.py:50-58 | For t > 0 and distinct positive rates the raw curve is strictly positive, whichever rate is larger. |
| Bateman.DecayOrder | app/core/bio_engine.py:58 | At any instant after the intake the faster of two decays exp(-k·t) is further down. |
| Bateman.Tmax | app/core/bio_engine.py:61-65 | The peak time falls back to 1.0 unless ka > ke > 0; for ka > ke > 0 it is ln(ka/ke) / (ka - ke), stated as tmax · (ka - ke) = ln(ka/ke). |
| Bateman.TmaxPositive | app/core/bio_engine.py:61-65 | The peak time is positive: ln(ka/ke) > 0 when ka > ke > 0, else the fallback. |
| Bateman.Normalized | app/core/bio_engine.py:68-79 | The level is never negative. It is 0 for t ≤ 0, 0 whenever the peak value is not positive (in particular when ka == ke), and otherwise, wherever the curve is non-negative, the level times the peak value is the curve's value. |
| Bateman.NegativeAbsorptionHasNoLevel | app/core/bio_engine.py:61-79 | The non-positive peak guard is reachable: with ka = -1 and ke = 1 the fallback peak time gives a negative peak value and the level is 0 at every instant. |
| Bateman.PeakIsOne | app/core/bio_engine.py:61-79 | For distinct positive rates the curve's value at Tmax (the 1-hour fallback when ka < ke) is positive and the normalised level at Tmax is exactly 1. |
| Bateman.LevelPositiveAfterIntake | app/core/bio_engine.py:68-79 | After the intake the level is positive and equals raw / peak value; the clamp at 0 never changes it. |
| Curves.Effect | app/core/bio_engine.py:84-127 | An effect is 0 at or before the intake and has the sign of the dose. |
| Curves.DoseLinear | app/core/bio_engine.py:84-127 | Scaling the dose by k scales the effect by k. |
| Curves.DoseAdditive | app/core/bio_engine.py:84-127 | The effect of two doses summed is the sum of their effects. |
| Curves.ReferenceDoseIsLevel | app/core/bio_engine.py:84-127 | At the reference dose the effect is the normalised level. |
| Curves.ReferenceDosePeaksAtOne | app/core/bio_engine.py:84-127 | A reference dose reaches exactly 1 at the substance's peak time. |
| Curves.EffectPositiveAfterIntake | app/core/bio_engine.py:84-127 | A positive dose has a positive effect at every instant after the intake. |
| Load.EffectiveDose | app/core/bio_engine.py:183 | The logged dose is used unless it is absent or zero, in which case the default dose is used. The result is never 0 when the default is not 0. |
| Load.Contribution | app/core/bio_engine.py:178-186 | One intake adds either nothing or more than 0.005. Whatever it adds is the effect of its effective dose, and it adds only when its tag matches the substance, and nothing at or after the target instant. |
| Load.MatchingIntakeContributesEffect | app/core/bio_engine.py:179-186 | An intake with the requested tag, with or without a logged dose, adds the effect of its effective dose exactly when that effect exceeds 0.005, and nothing otherwise. |
| Load.ZeroDoseCountsAsUndosed | app/core/bio_engine.py:183 | A logged dose of 0 contributes exactly what an intake without a logged dose contributes. |
| Load.TotalLoad | app/core/bio_engine.py:166-187 | A load is non-negative, and either 0 or above the 0.005 threshold. |
| Load.ComputeSubstanceLoad | app/core/bio_engine.py:177-187 | The source's loop, with its skip and its threshold, computes the sum of contributions. |
| Load.LoadAppend | app/core/bio_engine.py:177-187 | Superposition splits over concatenation of intake logs. |
| Load.LoadRemove | app/core/bio_engine.py:177-187 | Removing one intake lowers the load by exactly that intake's contribution. |
| Load.LoadPermutationInvariant | app/core/bio_engine.py:175-187 | Any permutation of the intake log gives the same load. |
| Load.OfSubstance | app/core/bio_engine.py:179-180 | The filter keeps every intake with the tag, as many times as it is logged, and no other intake. |
| Load.OnlyMatchingIntakesCount | app/core/bio_engine.py:179-180 | Dropping all records of other substances leaves the load unchanged. |
| Load.FutureIntakesContributeNothing | app/core/bio_engine.py:181-186 | Intakes at or after the target instant give a load of 0. |
| Load.UndosedIntakeContributesLevel | app/core/bio_engine.py:183-186 | An intake without a dose contributes its normalised level (dose factor 1) when that exceeds 0.005, else nothing. |
| Load.LoadGrowsWithIntakes | app/core/bio_engine.py:177-187 | Appending an intake raises the load by its contribution, so the load never falls. |
| Load.UntrackedAppendIgnored | app/core/bio_engine.py:179-180 | Appending a record with an untracked tag leaves every tracked load unchanged. |
| Circadian.CircadianBase | app/core/bio_engine.py:132-161 | The baseline lies in [15, 60]. It is 15 before 06:00, is 60 exactly on [9, 12], is 50 on [15, 17), and is at most 16 from 22:00. |
| Circadian.CircadianFollowsSchedule | app/core/bio_engine.py:140-161 | For every hour below 24, the branch chain equals linear interpolation through the corner points (0,15) (6,15) (7,35) (9,60) (12,60) (13,50) (14.5,35) (15,50) (17,50) (20,26) (22,16) (24,15). So the segments join without jumps. |
| Sleep.BandScore | app/core/bio_engine.py:198-211 | The whole-hour buckets: under 5 h -20, [5, 6) -10, [6, 7) -5, [7, 8) 0, [8, 9) +5, from 9 h +10. Hence the value lies in [-20, 10], is negative exactly below 7 h and positive exactly from 8 h. |
| Sleep.BandMonotone | app/core/bio_engine.py:200-211 | Longer sleep never falls into a lower band. |
| Sleep.ScaleStaysInBand | app/core/bio_engine.py:213-215 | Scaling by a confidence fraction in (0, 1] keeps the value in [-20, 10] and keeps its sign. |
| Sleep.SleepModifier | app/core/bio_engine.py:190-217 | An absent duration gives 0. A confidence that is absent or ≤ 0 leaves the band value unscaled, and a positive confidence scales it by confidence / 100. The result lies in [-20, 10] when the confidence is absent or ≤ 100. |
| Sleep.SleepModifierMonotone | app/core/bio_engine.py:190-217 | More sleep never lowers the modifier, whatever the confidence. |
| Sleep.SleepModifierSign | app/core/bio_engine.py:190-217 | The modifier is negative exactly below 420 min and positive exactly from 480 min, whatever the confidence. |
| Sleep.SleepModifierExample | app/core/bio_engine.py:198-215 | 390 min of sleep gives -5, and -2.5 at confidence 50. |
| Sleep.ConfidenceAboveHundredLeavesRange | app/core/bio_engine.py:200-215 | 240 min of sleep at confidence 101 gives -20.2, outside [-20, 10]. |
| Phases.PhaseOf | app/core/bio_engine.py:294-315 | The first-match rule list equals a decision table. Sleep holds exactly before 6 and waking exactly on [6, 7). From 7 on, the stimulant bands ≥0.85, [0.5,0.85), [0.2,0.5) and [0.05,0.2) decide. Below 0.05, midday-dip holds exactly on [12.5, 14.5] inclusive, wind-down exactly from 20, and baseline otherwise. |
| Phases.PhaseIgnoresCaffeine | app/core/bio_engine.py:294-315 | The caffeine level never changes the phase. |
| Phases.PhaseFocusMonotone | app/core/bio_engine.py:301-308 | From 07:00 on, a higher stimulant level never gives a less focused band. |
| Composer.Boost | app/core/bio_engine.py:243 | A boost is level × cap up to level 1 and saturates at the cap from there. For non-negative levels it lies in [0, cap]. |
| Composer.BoostMonotone | app/core/bio_engine.py:243-262 | A higher level never gives a smaller boost. |
| Composer.RawScoreMonotone | app/core/bio_engine.py:243-265 | With the same baseline and sleep modifier, and boosts that follow their levels, higher levels never give a lower raw sum. |
| Composer.BioScore | app/core/bio_engine.py:233-276 | The score lies in [0, 100]: it is the raw sum when that is inside the range, and the bound otherwise. The levels are the substance loads, with medikinet = IR + retard. The boosts lie in [0, 30], [0, 25] and [0, 15]. The CNS load is the uncapped sum of the three levels. The circadian value is taken at hour + minute/60. |
| Composer.SameLoadsSameSample | app/core/bio_engine.py:239-276 | Two intake logs with the same four loads give the same sample. |
| Composer.HigherLoadsNeverLowerScore | app/core/bio_engine.py:239-272 | Loads that are each at least as high never give a lower score, level or CNS load. |
| Composer.IntakeOrderIrrelevant | app/core/bio_engine.py:239-262 | Reordering the intake log leaves the whole sample unchanged. |
| Composer.ExtraIntakeNeverLowersScore | app/core/bio_engine.py:239-272 | One more intake never lowers the score, any level, or the CNS load. |
| Composer.UntrackedIntakeIgnored | app/core/bio_engine.py:239-262 | A record with an untracked tag leaves the sample unchanged. |
| Composer.EarlyHoursIgnoreStimulants | app/core/bio_engine.py:296-299 | Before 06:00 the phase is sleep and before 07:00 it is waking, whatever was taken. |
| Composer.EmptyLogIsBaseline | app/core/bio_engine.py:233-276 | With no intakes and no sleep sample, the score is the circadian baseline, the CNS load is 0, and the phase is not a stimulant band. |
| Composer.SingleElvanseDoseExample | app/core/bio_engine.py:233-265 | A 40 mg dose at 08:00 evaluated at 12:00 has level equal to the 4-hour normalised curve value when above 0.005, and boost min(30, level × 30). The baseline is 60, the sleep modifier 0, and the other levels 0. |
| Composer.SingleElvanseDoseLoads | app/core/bio_engine.py:177-187 | For the 40 mg 08:00 dose at 12:00, the Elvanse load is the 4-hour normalised level when above 0.005, and the other loads are 0. |
| DayCurve.RangeShape | app/core/bio_engine.py:331 | For a positive step, range(start, stop, step) holds start + k·step, strictly increasing, inside [start, stop). Its count n satisfies (n-1)·step < stop - start ≤ n·step. |
| DayCurve.NegativeStepIsEmpty | app/core/bio_engine.py:331 | A negative step from 0 to 1440 yields nothing. |
| DayCurve.EvaluatePointwise | app/core/bio_engine.py:331-335 | Sample k is the engine at instant k with the shared intakes and sleep inputs, so it carries instant k as its timestamp. |
| DayCurve.DayGridCount | app/core/bio_engine.py:329-333 | For a positive step the grid has n instants, with (n-1)·step < 1440 ≤ n·step: the ceiling of 1440/step. |
| DayCurve.DayGridInstants | app/core/bio_engine.py:329-333 | Instant k is k·step minutes after the day's midnight. The instants strictly increase and stay inside that day. |
| DayCurve.GenerateDayCurve | app/core/bio_engine.py:318-336 | Step 0 is the error case, and only step 0. A negative step gives an empty curve. |
| DayCurve.DayCurveGrid | app/core/bio_engine.py:328-336 | For a positive step, the sample count is the ceiling of 1440/step. Sample k is the engine at k·step minutes after midnight, with the same intakes and sleep inputs. |
| DayCurve.DayCurveTimes | app/core/bio_engine.py:329-334 | The first sample is at midnight. Sample times strictly increase and stay inside that day. |
| DayCurve.DefaultGridHas96Instants | app/core/bio_engine.py:318-333 | At the default step of 15 the grid has exactly 96 instants, instant k being k quarter hours after midnight. |
| DayCurve.QuarterHours | app/core/bio_engine.py:233 | k quarter hours after a midnight, for k below 96, the hour of day is k/4. |
| DayCurve.DefaultDayCurveHas96Samples | app/core/bio_engine.py:318-336 | At the default step of 15 there are exactly 96 samples, from 00:00 to 23:45, sample k being k quarter hours after midnight (hour k/4 by QuarterHours). |
| Water.HoursPassed | WaterTracker/scripts/health_server.py:68-69 | The hours passed lie in [0, 24) and equal the UTC minute of the day over 60. |
| Water.ExpectedIntake | WaterTracker/scripts/health_server.py:72 | Expected intake is goal × hours / 16 up to 16 h and the goal from then on. It lies in [0, goal] for a non-negative goal. |
| Water.TruncateTowardZero | WaterTracker/scripts/health_server.py:80 | The deficit is truncated toward zero, like int() on a float. |
| Water.Decide | WaterTracker/scripts/health_server.py:74-123 | Rules, first match wins. A deficit > 500 gives 500 ml with deadline 30, high priority iff deficit > 1000. A deficit in (200, 500] gives min(deficit, 300) ml, normal, deadline 45. Otherwise, a last drink over 120 min ago gives 250/high/15, and over 90 min ago 200/normal/30. Otherwise, nothing drunk after the first hour gives 250/high/15. Otherwise there is no advice, amount 0, priority none and deadline 0. The amount is always in [0, 500] and the target override always 0. |
| Water.WaterInstruction | WaterTracker/scripts/health_server.py:64-72 | Absent parameters default to 0 ml drunk and a 2500 ml goal before the rules apply, in each of the four present/absent combinations. |
| Water.AbsentParametersTakeDefaults | WaterTracker/scripts/health_server.py:64-65 | Leaving out the intake decides as an intake of 0 ml, and leaving out the goal as a goal of 2500 ml, each whatever the other parameter is. |
| Water.UnparseableLastDrinkIgnored | WaterTracker/scripts/health_server.py:92-108 | An unparseable last-drink time decides exactly like none. |
| Water.DeficitOutranksLastDrink | WaterTracker/scripts/health_server.py:79-108 | Once a deficit rule fires, the last-drink input no longer matters. |
| Water.EarlyMorningOnlyLastDrinkRules | WaterTracker/scripts/health_server.py:69-115 | Up to 01:00 UTC with the default goal and a non-negative intake, only a last-drink rule can fire, or none. |

## Left out

- exp and ln are not computed. The engine takes them as a parameter, and the proofs assume only the facts in `Numerics.Lawful`. Closed-form values, such as the level 4 hours after a dose, are not derived.
- Floating point is modelled as exact reals. This covers IEEE rounding, exp overflow or underflow for extreme arguments, and the non-associativity of float summation. The permutation property holds for the reals only.
- Bateman.Tmax: that the curve reaches its maximum at Tmax for ka > ke > 0 is not proved. It needs exp(ln x) = x and the derivative of exp, which `Lawful` does not provide. Only the formula's value is stated.
- Bateman.Normalized: the upper bound 1 promised for the normalised level is not stated. Showing that the peak time is the curve's maximum needs calculus facts about exp beyond `Lawful`. Only "the level at the peak time is exactly 1" is proved.
- The display rounding of the sample (`round(x, 1)`, `round(x, 3)`) and the `isoformat()` timestamp text are left out. The model returns unrounded values and the instant itself.
- Timestamps are not parsed. `fromisoformat` parsing, its ValueError on a malformed timestamp, microseconds, and time-zone-aware/naive mixing are left out. Intake times are whole seconds on one naive local time line.
- `compute_substance_load` takes a curve function and a default dose. Every call in bio_engine.py passes the substance's own curve and its reference dose, so the model keys the load on the substance alone.
- Substance tags are a closed enumeration, and any tag the engine does not track is `Other`.
- Environment-variable overrides in app/config.py are left out; only the shipped defaults are modelled. Overridden constants could violate ka > ke.
- The water server's Flask routing, bearer-token check, global latest report, status endpoint, and the `int()` parsing errors of query parameters are left out. `datetime.now(timezone.utc)` becomes an hour and minute passed in, and dateutil parsing becomes a `LastDrink` value (absent, unparseable, or minutes ago).
- The German message texts are left out. The instruction records which message applies (`Advice`, with the quoted deficit), not its wording.
- The dashboard, the FastAPI wiring, the Home Assistant importer, the Google Fit sync and the personalised model fitting are not part of this model.
