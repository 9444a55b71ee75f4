/** Load aggregation (compute_substance_load in app/core/bio_engine.py): the
    linear superposition of every logged intake of one substance at a target
    instant, keeping only contributions above a negligibility threshold. */
module Load {
  import opened Wrappers
  import opened Numerics
  import opened Config
  import opened Clock
  import Curves
  import Bateman

  /** One logged intake. An absent dose means "the reference dose". */
  datatype Intake = Intake(substance: Substance, timestamp: Instant, doseMg: Option<real>)

  /** Contributions at or below this are dropped. */
  const NegligibleEffect: real := 0.005

  /** The dose an intake counts with: its logged dose, unless that is absent
      or zero, in which case the default dose. */
  function EffectiveDose(i: Intake, defaultDoseMg: real): (d: real)
    ensures i.doseMg.None? ==> d == defaultDoseMg
    ensures i.doseMg.Some? ==> d == i.doseMg.value || (i.doseMg.value == 0.0 && d == defaultDoseMg)
    ensures d == 0.0 ==> defaultDoseMg == 0.0
  {
    match i.doseMg
    case None => defaultDoseMg
    case Some(dose) => if dose != 0.0 then dose else defaultDoseMg
  }

  /** What one intake adds to the load of `s` at `target`: its effect when the
      substance matches and the effect exceeds the threshold, else nothing. */
  function Contribution(m: Transcendentals, i: Intake, target: Instant, s: Substance): (c: real)
    requires s.Tracked()
    ensures c == 0.0 || c > NegligibleEffect
    ensures c > 0.0 ==> i.substance == s
    ensures c > 0.0 ==>
              c == Curves.Effect(m, s, HoursBetween(i.timestamp, target), EffectiveDose(i, Constants(s).referenceDoseMg))
    ensures target <= i.timestamp ==> c == 0.0
  {
    if i.substance != s then 0.0
    else
      var hoursSince := HoursBetween(i.timestamp, target);
      var effect := Curves.Effect(m, s, hoursSince, EffectiveDose(i, Constants(s).referenceDoseMg));
      if effect > NegligibleEffect then effect else 0.0
  }

  /** The load of `s` at `target`: the sum of every intake's contribution. */
  function TotalLoad(m: Transcendentals, intakes: seq<Intake>, target: Instant, s: Substance): (total: real)
    requires s.Tracked()
    ensures total >= 0.0
    ensures total == 0.0 || total > NegligibleEffect
    decreases |intakes|
  {
    if |intakes| == 0 then 0.0
    else Contribution(m, intakes[0], target, s) + TotalLoad(m, intakes[1..], target, s)
  }

  /** The loop of `compute_substance_load`: walk the intakes in order, skip other
      substances, and add each effect above the threshold. */
  method ComputeSubstanceLoad(m: Transcendentals, intakes: seq<Intake>, target: Instant, s: Substance)
    returns (total: real)
    requires s.Tracked()
    ensures total == TotalLoad(m, intakes, target, s)
  {
    total := 0.0;
    for k := 0 to |intakes|
      invariant total == TotalLoad(m, intakes[..k], target, s)
    {
      var intake := intakes[k];
      LoadAppend(m, intakes[..k], [intake], target, s);
      assert intakes[..k + 1] == intakes[..k] + [intake];
      if intake.substance != s {
        continue;
      }
      var hoursSince := HoursBetween(intake.timestamp, target);
      var dose := EffectiveDose(intake, Constants(s).referenceDoseMg);
      var effect := Curves.Effect(m, s, hoursSince, dose);
      if effect > NegligibleEffect {
        total := total + effect;
      }
    }
    assert intakes[..|intakes|] == intakes;
  }

  /** Superposition splits over concatenation. */
  lemma {:induction false} LoadAppend(m: Transcendentals, a: seq<Intake>, b: seq<Intake>, target: Instant, s: Substance)
    requires s.Tracked()
    ensures TotalLoad(m, a + b, target, s) == TotalLoad(m, a, target, s) + TotalLoad(m, b, target, s)
    decreases |a|
  {
    if |a| == 0 {
      assert a + b == b;
    } else {
      assert (a + b)[1..] == a[1..] + b;
      LoadAppend(m, a[1..], b, target, s);
    }
  }

  /** Intake order does not matter: any permutation of the log gives the same load. */
  lemma {:induction false} LoadPermutationInvariant(m: Transcendentals, a: seq<Intake>, b: seq<Intake>, target: Instant, s: Substance)
    requires s.Tracked()
    requires multiset(a) == multiset(b)
    ensures TotalLoad(m, a, target, s) == TotalLoad(m, b, target, s)
    decreases |a|
  {
    if |a| == 0 {
      assert |b| == |multiset(b)| == 0;
    } else {
      var x := a[0];
      assert x in multiset(b);
      var j :| 0 <= j < |b| && b[j] == x;
      var rest := b[..j] + b[j + 1..];
      LoadRemove(m, b, j, target, s);
      RemoveMatched(a, b, j);
      LoadPermutationInvariant(m, a[1..], rest, target, s);
    }
  }

  /** Striking the first element of one sequence and a copy of it from a
      permutation of it leaves two permutations of each other. */
  lemma RemoveMatched(a: seq<Intake>, b: seq<Intake>, j: int)
    requires |a| > 0 && 0 <= j < |b| && b[j] == a[0]
    requires multiset(a) == multiset(b)
    ensures multiset(a[1..]) == multiset(b[..j] + b[j + 1..])
  {
    var x := a[0];
    var rest := b[..j] + b[j + 1..];
    assert b == b[..j] + [x] + b[j + 1..];
    assert a == [x] + a[1..];
    assert multiset(a) == multiset{x} + multiset(a[1..]);
    calc {
      multiset(b);
      multiset(b[..j] + [x] + b[j + 1..]);
      multiset(b[..j]) + multiset{x} + multiset(b[j + 1..]);
      multiset(rest) + multiset{x};
    }
    assert multiset(a[1..]) == multiset(a) - multiset{x};
    assert multiset(rest) == multiset(b) - multiset{x};
  }

  /** Taking one intake out of the log lowers the load by exactly its contribution. */
  lemma LoadRemove(m: Transcendentals, b: seq<Intake>, j: int, target: Instant, s: Substance)
    requires s.Tracked()
    requires 0 <= j < |b|
    ensures TotalLoad(m, b, target, s)
         == Contribution(m, b[j], target, s) + TotalLoad(m, b[..j] + b[j + 1..], target, s)
  {
    assert b == (b[..j] + [b[j]]) + b[j + 1..];
    LoadAppend(m, b[..j] + [b[j]], b[j + 1..], target, s);
    LoadAppend(m, b[..j], [b[j]], target, s);
    LoadAppend(m, b[..j], b[j + 1..], target, s);
    assert TotalLoad(m, [b[j]], target, s) == Contribution(m, b[j], target, s) by {
      assert [b[j]][1..] == [];
    }
  }

  /** The intakes of substance `s`, in log order. */
  function OfSubstance(intakes: seq<Intake>, s: Substance): (r: seq<Intake>)
    ensures forall k :: 0 <= k < |r| ==> r[k].substance == s
    ensures forall i :: multiset(r)[i] == (if i.substance == s then multiset(intakes)[i] else 0)
    decreases |intakes|
  {
    if |intakes| == 0 then []
    else
      var x := intakes[0];
      var tail := OfSubstance(intakes[1..], s);
      assert intakes == [x] + intakes[1..];
      assert multiset(intakes) == multiset{x} + multiset(intakes[1..]);
      if x.substance == s then
        assert multiset([x] + tail) == multiset{x} + multiset(tail);
        [x] + tail
      else tail
  }

  /** Only intakes tagged with the requested substance contribute: dropping
      every other record leaves the load unchanged. */
  lemma {:induction false} OnlyMatchingIntakesCount(m: Transcendentals, intakes: seq<Intake>, target: Instant, s: Substance)
    requires s.Tracked()
    ensures TotalLoad(m, intakes, target, s) == TotalLoad(m, OfSubstance(intakes, s), target, s)
    decreases |intakes|
  {
    if |intakes| > 0 {
      OnlyMatchingIntakesCount(m, intakes[1..], target, s);
      var tail := OfSubstance(intakes[1..], s);
      if intakes[0].substance == s {
        assert ([intakes[0]] + tail)[1..] == tail;
      }
    }
  }

  /** Intakes logged at or after the target instant contribute nothing. */
  lemma {:induction false} FutureIntakesContributeNothing(m: Transcendentals, intakes: seq<Intake>, target: Instant, s: Substance)
    requires s.Tracked()
    requires forall k :: 0 <= k < |intakes| ==> intakes[k].timestamp >= target
    ensures TotalLoad(m, intakes, target, s) == 0.0
    decreases |intakes|
  {
    if |intakes| > 0 {
      FutureIntakesContributeNothing(m, intakes[1..], target, s);
    }
  }

  /** A matching intake contributes the effect of its effective dose when
      that effect clears the threshold, and nothing otherwise. */
  lemma MatchingIntakeContributesEffect(m: Transcendentals, i: Intake, target: Instant, s: Substance)
    requires s.Tracked()
    requires i.substance == s
    ensures var effect := Curves.Effect(m, s, HoursBetween(i.timestamp, target), EffectiveDose(i, Constants(s).referenceDoseMg));
            Contribution(m, i, target, s) == if effect > NegligibleEffect then effect else 0.0
  {
  }

  /** A logged dose of 0 counts as no logged dose: both take the reference dose. */
  lemma ZeroDoseCountsAsUndosed(m: Transcendentals, substance: Substance, timestamp: Instant, target: Instant, s: Substance)
    requires s.Tracked()
    ensures Contribution(m, Intake(substance, timestamp, Some(0.0)), target, s)
         == Contribution(m, Intake(substance, timestamp, None), target, s)
  {
  }

  /** A matching intake without a logged dose contributes its normalised
      level (dose factor 1) when that clears the threshold. */
  lemma UndosedIntakeContributesLevel(m: Transcendentals, i: Intake, target: Instant, s: Substance)
    requires s.Tracked()
    requires i.substance == s && i.doseMg.None?
    ensures var level := Bateman.Normalized(m, HoursBetween(i.timestamp, target), Constants(s).ka, Constants(s).ke);
            Contribution(m, i, target, s) == if level > NegligibleEffect then level else 0.0
  {
    Curves.ReferenceDoseIsLevel(m, s, HoursBetween(i.timestamp, target));
  }

  /** Each extra intake can only raise the load (by its own contribution). */
  lemma LoadGrowsWithIntakes(m: Transcendentals, intakes: seq<Intake>, x: Intake, target: Instant, s: Substance)
    requires s.Tracked()
    ensures TotalLoad(m, intakes + [x], target, s) == TotalLoad(m, intakes, target, s) + Contribution(m, x, target, s)
    ensures TotalLoad(m, intakes + [x], target, s) >= TotalLoad(m, intakes, target, s)
  {
    LoadAppend(m, intakes, [x], target, s);
  }

  /** Appending a record with an untracked tag leaves every load unchanged. */
  lemma UntrackedAppendIgnored(m: Transcendentals, intakes: seq<Intake>, x: Intake, target: Instant, s: Substance)
    requires s.Tracked() && !x.substance.Tracked()
    ensures TotalLoad(m, intakes + [x], target, s) == TotalLoad(m, intakes, target, s)
  {
    LoadGrowsWithIntakes(m, intakes, x, target, s);
  }
}
