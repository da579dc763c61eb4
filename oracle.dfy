/** The random stream seeded in the constructor, as oracles indexed by call number. */
module Oracle {
  import opened Domain
  import opened Covariance

  /** `normal(mean, cov, p)` is the vector drawn by the `p`-th call of the stream, a multivariate
      normal draw; `uniform(p, i)` is component `i` of the `p`-th call, a uniform draw. */
  datatype Rng = Rng(normal: (Vector, Matrix, nat) -> Vector, uniform: (nat, nat) -> real)

  /** Uniform draws lie in [0, 1). */
  ghost predicate ValidRng(rng: Rng)
  {
    forall p: nat, i: nat :: 0.0 <= rng.uniform(p, i) < 1.0
  }

  /** The vector of `n` uniform draws returned by the `p`-th call. */
  function UniformDraw(rng: Rng, n: nat, p: nat): (u: Vector)
    ensures |u| == n
    ensures forall i :: 0 <= i < n ==> u[i] == rng.uniform(p, i)
  {
    seq(n, i requires 0 <= i < n => rng.uniform(p, i))
  }
}
