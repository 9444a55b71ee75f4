/** The four substance effect curves (app/core/bio_engine.py): the normalised
    Bateman level for the substance's constants, scaled by the dose factor
    dose / reference dose. */
module Curves {
  import opened Numerics
  import opened Config
  import Bateman

  /** Effect of one dose of a tracked substance, `hoursSinceIntake` after it. */
  function Effect(m: Transcendentals, s: Substance, hoursSinceIntake: real, doseMg: real): (e: real)
    requires s.Tracked()
    ensures hoursSinceIntake <= 0.0 ==> e == 0.0
    ensures doseMg >= 0.0 ==> e >= 0.0
    ensures doseMg <= 0.0 ==> e <= 0.0
  {
    var c := Constants(s);
    var doseFactor := doseMg / c.referenceDoseMg;
    Bateman.Normalized(m, hoursSinceIntake, c.ka, c.ke) * doseFactor
  }

  /** Dose scaling is linear: k times the dose gives k times the effect. */
  lemma DoseLinear(m: Transcendentals, s: Substance, t: real, doseMg: real, k: real)
    requires s.Tracked()
    ensures Effect(m, s, t, k * doseMg) == k * Effect(m, s, t, doseMg)
  {
    var c := Constants(s);
    ScaledFactor(Bateman.Normalized(m, t, c.ka, c.ke), doseMg, c.referenceDoseMg, k);
  }

  lemma ScaledFactor(level: real, dose: real, reference: real, k: real)
    requires reference > 0.0
    ensures level * ((k * dose) / reference) == k * (level * (dose / reference))
  {
    assert (k * dose) / reference == k * (dose / reference);
  }

  /** Two doses taken together act as their sum. */
  lemma DoseAdditive(m: Transcendentals, s: Substance, t: real, d1: real, d2: real)
    requires s.Tracked()
    ensures Effect(m, s, t, d1 + d2) == Effect(m, s, t, d1) + Effect(m, s, t, d2)
  {
    var c := Constants(s);
    SummedFactor(Bateman.Normalized(m, t, c.ka, c.ke), d1, d2, c.referenceDoseMg);
  }

  lemma SummedFactor(level: real, d1: real, d2: real, reference: real)
    requires reference > 0.0
    ensures level * ((d1 + d2) / reference) == level * (d1 / reference) + level * (d2 / reference)
  {
    assert (d1 + d2) / reference == d1 / reference + d2 / reference;
  }

  /** At the reference dose the effect is the normalised level itself. */
  lemma ReferenceDoseIsLevel(m: Transcendentals, s: Substance, t: real)
    requires s.Tracked()
    ensures Effect(m, s, t, Constants(s).referenceDoseMg)
         == Bateman.Normalized(m, t, Constants(s).ka, Constants(s).ke)
  {
    var c := Constants(s);
    assert c.referenceDoseMg / c.referenceDoseMg == 1.0;
  }

  /** A reference dose reaches exactly 1 at the substance's peak time, so it
      alone saturates its boost cap there. */
  lemma ReferenceDosePeaksAtOne(m: Transcendentals, s: Substance)
    requires Lawful(m)
    requires s.Tracked()
    ensures Effect(m, s, Bateman.Tmax(m, Constants(s).ka, Constants(s).ke), Constants(s).referenceDoseMg) == 1.0
  {
    var c := Constants(s);
    ReferenceDoseIsLevel(m, s, Bateman.Tmax(m, c.ka, c.ke));
    Bateman.PeakIsOne(m, c.ka, c.ke);
  }

  /** A positive dose of a tracked substance has a positive effect at every
      instant after the intake. */
  lemma EffectPositiveAfterIntake(m: Transcendentals, s: Substance, t: real, doseMg: real)
    requires Lawful(m)
    requires s.Tracked()
    requires t > 0.0 && doseMg > 0.0
    ensures Effect(m, s, t, doseMg) > 0.0
  {
    var c := Constants(s);
    Bateman.LevelPositiveAfterIntake(m, t, c.ka, c.ke);
    var level := Bateman.Normalized(m, t, c.ka, c.ke);
    var factor := doseMg / c.referenceDoseMg;
    assert factor > 0.0;
    Bateman.PositiveProduct(level, factor);
  }
}
