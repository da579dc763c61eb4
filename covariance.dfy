/** The proposal covariance: `scale * diag(SD^2)` in a wide and a narrow regime. */
module Covariance {
  type Matrix = seq<seq<real>>

  /** The square matrix with `scale * sd[i]^2` on the diagonal and zeros elsewhere. */
  function ScaledDiag(scale: real, sd: seq<real>): (m: Matrix)
    ensures |m| == |sd|
    ensures forall i :: 0 <= i < |sd| ==> |m[i]| == |sd|
  {
    seq(|sd|, i requires 0 <= i < |sd| =>
      seq(|sd|, j requires 0 <= j < |sd| => if i == j then scale * (sd[i] * sd[i]) else 0.0))
  }

  /** The exploration covariance the constructor installs: `10 * alpha * diag(SD^2)`. */
  function Wide(alpha: real, sd: seq<real>): Matrix
  {
    ScaledDiag(10.0 * alpha, sd)
  }

  /** The exploitation covariance installed once a candidate is good enough: `alpha * diag(SD^2)`. */
  function Narrow(alpha: real, sd: seq<real>): Matrix
  {
    ScaledDiag(alpha, sd)
  }

  /** The covariance after one step whose candidate cost is `newChi2`; the acceptance decision plays no part. */
  function Adapt(cov: Matrix, newChi2: real, threshold: real, alpha: real, sd: seq<real>): Matrix
  {
    if newChi2 < threshold then Narrow(alpha, sd) else cov
  }

  /** The switch is one-way: the result is narrow exactly when the covariance was narrow already or
      the candidate beat the threshold, it stays within the two regimes, and a cost at or above
      the threshold leaves the covariance untouched. */
  lemma AdaptIsOneWay(cov: Matrix, newChi2: real, threshold: real, alpha: real, sd: seq<real>)
    ensures Adapt(cov, newChi2, threshold, alpha, sd) == Narrow(alpha, sd)
            <==> cov == Narrow(alpha, sd) || newChi2 < threshold
    ensures cov == Wide(alpha, sd) || cov == Narrow(alpha, sd) ==>
              Adapt(cov, newChi2, threshold, alpha, sd) == Wide(alpha, sd) ||
              Adapt(cov, newChi2, threshold, alpha, sd) == Narrow(alpha, sd)
    ensures threshold <= newChi2 ==> Adapt(cov, newChi2, threshold, alpha, sd) == cov
  {
  }

  /** Every entry of the wide matrix is ten times the matching entry of the narrow one. */
  lemma WideIsTenTimesNarrow(alpha: real, sd: seq<real>, i: nat, j: nat)
    requires i < |sd| && j < |sd|
    ensures Wide(alpha, sd)[i][j] == 10.0 * Narrow(alpha, sd)[i][j]
  {
  }
}
