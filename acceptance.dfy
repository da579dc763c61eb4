/** The Metropolis acceptance test on two chi-square values and a uniform draw. */
module Acceptance {
  /** What the model assumes of the exponential function it is given: at least 1 on the
      non-negative reals, and non-decreasing. */
  ghost predicate ExpLike(exp: real -> real)
  {
    (forall x :: 0.0 <= x ==> 1.0 <= exp(x)) &&
    (forall x, y :: x <= y ==> exp(x) <= exp(y))
  }

  /** `exp(-(Newchi2 - Oldchi2) / 2)`, the ratio of the two likelihoods. */
  function LikelihoodRatio(exp: real -> real, Oldchi2: real, Newchi2: real): real
  {
    exp(-(Newchi2 - Oldchi2) / 2.0)
  }

  /** False (reject) exactly when the likelihood ratio is below the uniform draw `u`. */
  function MetropolisHastings(exp: real -> real, Oldchi2: real, Newchi2: real, u: real): (good: bool)
  {
    if LikelihoodRatio(exp, Oldchi2, Newchi2) < u then false else true
  }

  /** A candidate that is no worse than the current point is always accepted, whatever `u < 1`;
      so a rejected candidate is strictly worse. */
  lemma AcceptsNoWorse(exp: real -> real, Oldchi2: real, Newchi2: real, u: real)
    requires ExpLike(exp) && u < 1.0
    ensures Newchi2 <= Oldchi2 ==> MetropolisHastings(exp, Oldchi2, Newchi2, u)
  {
    if Newchi2 <= Oldchi2 {
      assert 0.0 <= -(Newchi2 - Oldchi2) / 2.0;
    }
  }

  /** Acceptance is monotone: a cheaper candidate, or a smaller draw, is accepted whenever the
      original one is. */
  lemma AcceptanceMonotone(exp: real -> real, Oldchi2: real, Newchi2: real, u: real, cheaper: real, smaller: real)
    requires ExpLike(exp)
    requires MetropolisHastings(exp, Oldchi2, Newchi2, u)
    requires cheaper <= Newchi2 && smaller <= u
    ensures MetropolisHastings(exp, Oldchi2, cheaper, smaller)
  {
    assert -(Newchi2 - Oldchi2) / 2.0 <= -(cheaper - Oldchi2) / 2.0;
  }
}
