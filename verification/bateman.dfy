/** The Bateman absorption/elimination curve (app/core/bio_engine.py):
      C(t) = ka / (ka - ke) * (exp(-ke t) - exp(-ka t)),
    its peak time, and the curve normalised by its value at the peak. Each of
    the three carries the guards `_bateman_raw`, `_bateman_tmax` and
    `_bateman_normalized` apply to degenerate constants. */
module Bateman {
  import opened Numerics

  /** The un-normalised curve; 0 at or before the intake and for equal rates. */
  function Raw(m: Transcendentals, t: real, ka: real, ke: real): (c: real)
    ensures t <= 0.0 || ka == ke ==> c == 0.0
  {
    if t <= 0.0 || ka == ke then 0.0
    else (ka / (ka - ke)) * (m.exp(-ke * t) - m.exp(-ka * t))
  }

  /** Peak time ln(ka/ke) / (ka - ke), or 1 hour unless ka > ke > 0. */
  function Tmax(m: Transcendentals, ka: real, ke: real): (tmax: real)
    ensures !(ka > ke > 0.0) ==> tmax == 1.0
    ensures ka > ke > 0.0 ==> tmax * (ka - ke) == m.ln(ka / ke)
  {
    if ka <= ke || ka <= 0.0 || ke <= 0.0 then 1.0
    else
      var peak := m.ln(ka / ke) / (ka - ke);
      assert peak * (ka - ke) == m.ln(ka / ke);
      peak
  }

  /** The curve divided by its value at the peak time, never negative; 0
      whenever that peak value is not positive. */
  function Normalized(m: Transcendentals, t: real, ka: real, ke: real): (level: real)
    ensures level >= 0.0
    ensures t <= 0.0 ==> level == 0.0
    ensures ka == ke ==> level == 0.0
    ensures Raw(m, Tmax(m, ka, ke), ka, ke) <= 0.0 ==> level == 0.0
    ensures t > 0.0 && Raw(m, Tmax(m, ka, ke), ka, ke) > 0.0 && Raw(m, t, ka, ke) >= 0.0 ==>
              level * Raw(m, Tmax(m, ka, ke), ka, ke) == Raw(m, t, ka, ke)
  {
    if t <= 0.0 then 0.0
    else
      var cmax := Raw(m, Tmax(m, ka, ke), ka, ke);
      if cmax <= 0.0 then 0.0
      else
        var c := Raw(m, t, ka, ke);
        assert (c / cmax) * cmax == c;
        Max(0.0, c / cmax)
  }

  /** The guard for a non-positive peak value is reachable: with ka = -1 and
      ke = 1 the fallback peak time 1 gives a negative peak value, and the
      level is 0 at every instant. */
  lemma NegativeAbsorptionHasNoLevel(m: Transcendentals, t: real)
    requires Lawful(m)
    ensures Raw(m, Tmax(m, -1.0, 1.0), -1.0, 1.0) < 0.0
    ensures Normalized(m, t, -1.0, 1.0) == 0.0
  {
    DecayOrder(m, 1.0, 1.0, -1.0);
  }

  /** The peak time is positive: the formula's when ka > ke > 0, else the fallback. */
  lemma TmaxPositive(m: Transcendentals, ka: real, ke: real)
    requires Lawful(m)
    ensures Tmax(m, ka, ke) > 0.0
  {
    if ka > ke > 0.0 {
      var ratio := ka / ke;
      assert ratio * ke == ka;
      assert ratio > 1.0;
      assert m.ln(ratio) > 0.0;
    }
  }

  /** For distinct positive rates the raw curve is positive after the intake:
      a dose is felt at every later instant. */
  lemma RawPositive(m: Transcendentals, t: real, ka: real, ke: real)
    requires Lawful(m)
    requires t > 0.0 && ka > 0.0 && ke > 0.0 && ka != ke
    ensures Raw(m, t, ka, ke) > 0.0
  {
    if ka > ke {
      CurvePositive(m, t, ka, ke);
    } else {
      FlippedCurvePositive(m, t, ka, ke);
    }
  }

  /** The formula's value after the intake when absorption is faster. */
  lemma CurvePositive(m: Transcendentals, t: real, ka: real, ke: real)
    requires Lawful(m)
    requires t > 0.0 && ka > ke > 0.0
    ensures (ka / (ka - ke)) * (m.exp(-ke * t) - m.exp(-ka * t)) > 0.0
  {
    DecayOrder(m, t, ka, ke);
    PositiveQuotient(ka, ka - ke);
    PositiveProduct(ka / (ka - ke), m.exp(-ke * t) - m.exp(-ka * t));
  }

  /** The formula's value after the intake when elimination is faster: both
      factors are negative. */
  lemma FlippedCurvePositive(m: Transcendentals, t: real, ka: real, ke: real)
    requires Lawful(m)
    requires t > 0.0 && ke > ka > 0.0
    ensures (ka / (ka - ke)) * (m.exp(-ke * t) - m.exp(-ka * t)) > 0.0
  {
    DecayOrder(m, t, ke, ka);
    var flipped := ka / (ke - ka);
    PositiveQuotient(ka, ke - ka);
    NegatedProduct(ka / (ka - ke), m.exp(-ke * t) - m.exp(-ka * t), flipped);
  }

  /** The faster of two decays is further down at any later instant. */
  lemma DecayOrder(m: Transcendentals, t: real, fast: real, slow: real)
    requires Lawful(m)
    requires t > 0.0 && fast > slow
    ensures m.exp(-fast * t) < m.exp(-slow * t)
  {
    StrictScale(-fast, -slow, t);
  }

  lemma NegatedProduct(coeff: real, diff: real, flipped: real)
    requires flipped > 0.0 && diff < 0.0
    requires coeff == -flipped
    ensures coeff * diff > 0.0
  {
    PositiveProduct(flipped, -diff);
  }

  lemma PositiveProduct(a: real, b: real)
    requires a > 0.0 && b > 0.0
    ensures a * b > 0.0
  {
  }

  /** With distinct positive rates the normalised level at Tmax is exactly 1. For ka > ke > 0 that is the peak of the formula; for
      0 < ka < ke it is the curve's value at the 1-hour fallback. */
  lemma PeakIsOne(m: Transcendentals, ka: real, ke: real)
    requires Lawful(m)
    requires ka > 0.0 && ke > 0.0 && ka != ke
    ensures Tmax(m, ka, ke) > 0.0
    ensures Raw(m, Tmax(m, ka, ke), ka, ke) > 0.0
    ensures Normalized(m, Tmax(m, ka, ke), ka, ke) == 1.0
  {
    var tmax := Tmax(m, ka, ke);
    TmaxPositive(m, ka, ke);
    RawPositive(m, tmax, ka, ke);
    var cmax := Raw(m, tmax, ka, ke);
    assert cmax / cmax == 1.0;
  }

  /** After the intake, with distinct positive rates, the level is positive and
      is exactly the raw curve over its peak value: the clamp at 0 never bites. */
  lemma LevelPositiveAfterIntake(m: Transcendentals, t: real, ka: real, ke: real)
    requires Lawful(m)
    requires t > 0.0 && ka > 0.0 && ke > 0.0 && ka != ke
    ensures Normalized(m, t, ka, ke) > 0.0
    ensures Normalized(m, t, ka, ke) * Raw(m, Tmax(m, ka, ke), ka, ke) == Raw(m, t, ka, ke)
  {
    PeakIsOne(m, ka, ke);
    RawPositive(m, t, ka, ke);
    var cmax := Raw(m, Tmax(m, ka, ke), ka, ke);
    var c := Raw(m, t, ka, ke);
    PositiveQuotient(c, cmax);
  }
}
