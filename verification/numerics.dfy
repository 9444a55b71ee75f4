/** Real-number helpers shared by the engine, and the two transcendental
    functions the Bateman curve calls.

    The engine calls `exp` and `ln` from the host's maths library. They are
    not computed here: every engine function takes them as a value of type
    `Transcendentals`, and the proofs that need them assume only the facts
    collected in `Lawful`. `SampleIsLawful` shows those facts can be met. */
module Numerics {

  datatype Transcendentals = Transcendentals(exp: real -> real, ln: real -> real)

  /** The facts about exp and ln that the proofs use. */
  ghost predicate Lawful(m: Transcendentals) {
    && (forall x :: m.exp(x) > 0.0)
    && (forall x, y :: x < y ==> m.exp(x) < m.exp(y))
    && (forall x :: x > 1.0 ==> m.ln(x) > 0.0)
  }

  /** A positive, strictly increasing stand-in for exp. */
  function SampleExp(x: real): real {
    if x >= 0.0 then 1.0 + x else 1.0 / (1.0 - x)
  }

  /** A stand-in for ln that is positive above 1. */
  function SampleLn(x: real): real {
    x - 1.0
  }

  /** The assumptions in `Lawful` are consistent: some pair of functions meets them. */
  lemma SampleIsLawful()
    ensures Lawful(Transcendentals(SampleExp, SampleLn))
  {
    forall x, y | x < y
      ensures SampleExp(x) < SampleExp(y)
    {
      if y < 0.0 {
        ReciprocalAntitone(1.0 - x, 1.0 - y);
      } else if x < 0.0 {
        assert 1.0 / (1.0 - x) < 1.0;
      }
    }
  }

  lemma ReciprocalAntitone(a: real, b: real)
    requires a > b > 0.0
    ensures 1.0 / a < 1.0 / b
  {
    var ratio := b / a;
    assert ratio * a == b;
    assert ratio < 1.0;
    assert 1.0 / a == ratio * (1.0 / b);
    assert 1.0 / b > 0.0;
    assert ratio * (1.0 / b) < 1.0 / b by {
      assert 1.0 / b - ratio * (1.0 / b) == (1.0 - ratio) * (1.0 / b);
    }
  }

  function Min(a: real, b: real): (r: real)
    ensures r <= a && r <= b
    ensures r == a || r == b
  {
    if a <= b then a else b
  }

  function Max(a: real, b: real): (r: real)
    ensures r >= a && r >= b
    ensures r == a || r == b
  {
    if a >= b then a else b
  }

  /** `max(lo, min(hi, x))`, the clamp idiom of `compute_bio_score`. */
  function Clamp(x: real, lo: real, hi: real): (r: real)
    requires lo <= hi
    ensures lo <= r <= hi
    ensures lo <= x <= hi ==> r == x
    ensures x <= lo ==> r == lo
    ensures x >= hi ==> r == hi
  {
    Max(lo, Min(hi, x))
  }

  lemma ScaleMonotone(x: real, y: real, k: real)
    requires x <= y && k >= 0.0
    ensures x * k <= y * k
  {
    if k > 0.0 && x < y {
      assert (y - x) * k > 0.0;
    }
  }

  lemma StrictScale(x: real, y: real, k: real)
    requires x < y && k > 0.0
    ensures x * k < y * k
  {
    assert (y - x) * k > 0.0;
  }

  lemma PositiveQuotient(a: real, b: real)
    requires a > 0.0 && b > 0.0
    ensures a / b > 0.0
  {
    assert (a / b) * b == a;
  }
}
