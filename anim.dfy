/** The corrected copy of the chain in animation/anim.py, whose class extends the sampler of
    src/mcmc.py: the loop moves the proposal centre to each accepted step and tracks the best
    step, which it reads after the loop whether or not it was ever bound. */
module Animation {
  import opened Wrappers
  import opened Domain
  import opened Covariance
  import opened Acceptance
  import opened Oracle
  import opened Proposal
  import opened Chain
  import opened Sampler

  /** `Anim.MainChain` on the sampler state `m` it inherits: the Animated variant of `Chain.Run`.
      It returns the acceptance ratio, or the error raised by the division or by reading the
      unbound best step, and the best chi-square it prints. */
  method MainChain(m: MCMC, rng: Rng, exp: real -> real, cost: Vector -> real, observations: nat, pos: nat, fuel: nat)
    returns (ratio: Result<real, ChainError>, Bestchi2: real)
    requires m.Valid()
    modifies m
    ensures m.Valid()
    ensures var env := m.EnvOf(Animated, rng, exp, cost, observations, fuel);
            match Run(env, Init(env, old(m.CovMat), pos), Iterations(m.NumberOfSteps))
            case None => ratio == Failure(ProposalStalled)
            case Some(t) =>
              ratio == AnimatedReport(t, m.NumberOfSteps) && Bestchi2 == t.bestChi2 && m.CovMat == t.cov
  {
    var env := m.EnvOf(Animated, rng, exp, cost, observations, fuel);
    ghost var s0 := Init(env, m.CovMat, pos);
    var OldStep := FirstStep(m.mins, m.maxs, UniformDraw(rng, m.NumberOfParams, pos));
    var Oldchi2 := cost(OldStep);
    Bestchi2 := Oldchi2;
    var BestStep: Option<Vector> := None;
    var multiplicity: nat := 0;
    var acceptedpoints: nat := 0;
    var p: nat := pos + 1;
    ghost var log: seq<Sample> := [];
    var n := Iterations(m.NumberOfSteps);
    ghost var st := s0;
    for i := 0 to n
      invariant m.Valid()
      invariant Run(env, s0, i) == Some(st)
      invariant st == State(s0.start, s0.startChi2, OldStep, Oldchi2, BestStep, Bestchi2, None,
                            multiplicity, acceptedpoints, i, m.CovMat, p, log)
    {
      multiplicity := multiplicity + 1;
      var d := m.NextStep(rng, OldStep, p, fuel);
      if d.Exhausted? {
        RunStalls(env, s0, i, st, n);
        return Failure(ProposalStalled), Bestchi2;
      }
      var NewStep := d.step;
      var Newchi2 := cost(NewStep);
      var GoodPoint := MetropolisHastings(exp, Oldchi2, Newchi2, rng.uniform(d.next, 0));
      RunNext(env, s0, i, st, NewStep, d.next);
      AdvanceState(env, st, NewStep, d.next, GoodPoint, 2.0 * observations as real);
      p := d.next + 1;
      if Newchi2 < 2.0 * observations as real {
        m.CovMat := Narrow(m.alpha, m.SD);
      }
      if GoodPoint {
        if Newchi2 < Bestchi2 {
          BestStep := Some(NewStep);
          Bestchi2 := Newchi2;
        }
        log := log + [Sample(Newchi2, multiplicity, NewStep)];
        acceptedpoints := acceptedpoints + 1;
        multiplicity := 0;
        OldStep := NewStep;
        Oldchi2 := Newchi2;
        st := Advance(env, st, NewStep, d.next);
      } else {
        st := Advance(env, st, NewStep, d.next);
        continue;
      }
    }
    ratio := AcceptanceRatio(acceptedpoints, m.NumberOfSteps);
    if ratio.Success? && BestStep.None? {
      ratio := Failure(BestStepUnbound);
    }
  }
}
