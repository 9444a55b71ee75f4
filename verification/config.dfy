/** The shipped pharmacokinetic constant table (app/config.py): absorption
    rate ka and elimination rate ke in 1/h, and the reference dose in mg
    that a curve's dose factor divides by. Environment overrides are not
    modelled; only the defaults. */
module Config {

  /** Substance tags an intake record may carry. `Other` stands for any tag
      the engine does not track; it has no curve. */
  datatype Substance = Elvanse | Medikinet | MedikinetRetard | Mate | Other {
    predicate Tracked() {
      !Other?
    }
  }

  datatype PkConstants = PkConstants(ka: real, ke: real, referenceDoseMg: real)

  const ElvanseDefaultDoseMg: real := 40.0
  const ElvanseKa: real := 0.78
  const ElvanseKe: real := 0.088

  const MedikinetDefaultDoseMg: real := 10.0
  const MedikinetIrKa: real := 1.72
  const MedikinetIrKe: real := 0.28

  const MedikinetRetardDefaultDoseMg: real := 30.0
  const MedikinetRetardKa: real := 1.2
  const MedikinetRetardKe: real := 0.28

  const MateCaffeineMg: real := 76.0
  const CaffeineKa: real := 2.5
  const CaffeineKe: real := 0.16

  /** The curve constants bound to each tracked substance. Every shipped pair
      absorbs faster than it eliminates and every reference dose is positive,
      so the peak-time formula and every dose factor are well defined. */
  function Constants(s: Substance): (c: PkConstants)
    requires s.Tracked()
    ensures c.ka > c.ke > 0.0
    ensures c.referenceDoseMg > 0.0
  {
    match s
    case Elvanse => PkConstants(ElvanseKa, ElvanseKe, ElvanseDefaultDoseMg)
    case Medikinet => PkConstants(MedikinetIrKa, MedikinetIrKe, MedikinetDefaultDoseMg)
    case MedikinetRetard => PkConstants(MedikinetRetardKa, MedikinetRetardKe, MedikinetRetardDefaultDoseMg)
    case Mate => PkConstants(CaffeineKa, CaffeineKe, MateCaffeineMg)
  }

  /** The two methylphenidate formulations differ only in absorption. */
  lemma MedikinetFormulationsShareElimination()
    ensures Constants(MedikinetRetard).ke == Constants(Medikinet).ke
    ensures Constants(MedikinetRetard).ka < Constants(Medikinet).ka
  {
  }
}
