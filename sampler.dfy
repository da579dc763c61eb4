/** The sampler object of src/mcmc.py: configuration fixed by the constructor, the proposal
    covariance updated in place, and the methods that draw points and run the chain. */
module Sampler {
  import opened Wrappers
  import opened Domain
  import opened Covariance
  import opened Acceptance
  import opened Oracle
  import opened Proposal
  import opened Chain

  /** The constructor's check: the three vectors have `NumberOfParams` entries each. */
  predicate DimensionsAgree(NumberOfParams: int, Mins: Vector, Maxs: Vector, SDs: Vector)
  {
    NumberOfParams == |Mins| && NumberOfParams == |Maxs| && NumberOfParams == |SDs|
  }

  class MCMC {
    const NumberOfSteps: int
    const NumberOfParams: int
    const mins: Vector
    const maxs: Vector
    const SD: Vector
    const alpha: real
    const write2file: bool
    const outputfilename: string
    var CovMat: Matrix

    /** The dimensions agree and the covariance is in its wide or its narrow regime. */
    ghost predicate Valid()
      reads this
    {
      DimensionsAgree(NumberOfParams, mins, maxs, SD) &&
      (CovMat == Wide(alpha, SD) || CovMat == Narrow(alpha, SD))
    }

    /** The part of `__init__` after its dimension check: store the configuration and install the
        wide covariance. */
    constructor (NumberOfSteps: int, NumberOfParams: int, Mins: Vector, Maxs: Vector, SDs: Vector,
                 alpha: real, write2file: bool, outputfilename: string)
      requires DimensionsAgree(NumberOfParams, Mins, Maxs, SDs)
      ensures Valid()
      ensures this.NumberOfSteps == NumberOfSteps && this.NumberOfParams == NumberOfParams
      ensures mins == Mins && maxs == Maxs && SD == SDs && this.alpha == alpha
      ensures this.write2file == write2file && this.outputfilename == outputfilename
      ensures CovMat == Wide(alpha, SDs)
    {
      this.write2file := write2file;
      this.outputfilename := outputfilename;
      this.NumberOfSteps := NumberOfSteps;
      this.NumberOfParams := NumberOfParams;
      mins := Mins;
      maxs := Maxs;
      SD := SDs;
      this.alpha := alpha;
      CovMat := ScaledDiag(10.0 * alpha, SDs);
    }

    /** `__init__` with its check: no object (the program exits) when the dimensions disagree,
        otherwise a fresh object configured as given with the wide covariance. */
    static method Create(NumberOfSteps: int, NumberOfParams: int, Mins: Vector, Maxs: Vector, SDs: Vector,
                         alpha: real, write2file: bool, outputfilename: string) returns (obj: MCMC?)
      ensures obj == null <==> !DimensionsAgree(NumberOfParams, Mins, Maxs, SDs)
      ensures obj != null ==>
                fresh(obj) && obj.Valid() &&
                obj.NumberOfSteps == NumberOfSteps && obj.NumberOfParams == NumberOfParams &&
                obj.mins == Mins && obj.maxs == Maxs && obj.SD == SDs && obj.alpha == alpha &&
                obj.write2file == write2file && obj.outputfilename == outputfilename &&
                obj.CovMat == Wide(alpha, SDs)
    {
      if !(NumberOfParams == |Mins| && NumberOfParams == |Maxs| && NumberOfParams == |SDs|) {
        return null;
      }
      obj := new MCMC(NumberOfSteps, NumberOfParams, Mins, Maxs, SDs, alpha, write2file, outputfilename);
    }

    /** The run's environment; `observations` is `len(Y)`, so the threshold is `2 * len(Y)`. */
    function EnvOf(variant: Variant, rng: Rng, exp: real -> real, cost: Vector -> real,
                   observations: nat, fuel: nat): (env: Env)
      ensures env.mins == mins && env.maxs == maxs && env.sd == SD && env.alpha == alpha
      ensures env.threshold == 2.0 * observations as real && env.variant == variant && env.fuel == fuel
    {
      Env(variant, mins, maxs, SD, alpha, 2.0 * observations as real, rng, exp, cost, fuel)
    }

    /** Draw from the normal centred at `Oldstep` with the current covariance until the draw lies
        in the box: the first admissible draw among the next `fuel` calls of the stream. */
    method NextStep(rng: Rng, Oldstep: Vector, pos: nat, fuel: nat) returns (d: Draw)
      ensures d == Propose(rng, Oldstep, CovMat, mins, maxs, pos, fuel)
    {
      if fuel == 0 {
        return Exhausted;
      }
      var NS := rng.normal(Oldstep, CovMat, pos);
      var p: nat, f: nat := pos + 1, fuel - 1;
      while !InBox(NS, mins, maxs)
        invariant pos < p
        invariant Propose(rng, Oldstep, CovMat, mins, maxs, pos, fuel) ==
                  if InBox(NS, mins, maxs) then Found(NS, p) else Propose(rng, Oldstep, CovMat, mins, maxs, p, f)
        decreases f
      {
        if f == 0 {
          return Exhausted;
        }
        NS := rng.normal(Oldstep, CovMat, p);
        p, f := p + 1, f - 1;
      }
      d := Found(NS, p);
    }

    /** The chain of src/mcmc.py. It returns the acceptance ratio (or the error the division
        raises) and the best chi-square it prints; the loop is the Original variant of
        `Chain.Run`, so the proposals stay centred on the first step. */
    method MainChain(rng: Rng, exp: real -> real, cost: Vector -> real, observations: nat, pos: nat, fuel: nat)
      returns (ratio: Result<real, ChainError>, Bestchi2: real)
      requires Valid()
      modifies this
      ensures Valid()
      ensures var env := EnvOf(Original, rng, exp, cost, observations, fuel);
              match Run(env, Init(env, old(CovMat), pos), Iterations(NumberOfSteps))
              case None => ratio == Failure(ProposalStalled)
              case Some(t) =>
                ratio == AcceptanceRatio(t.accepted, NumberOfSteps) && Bestchi2 == t.bestChi2 && CovMat == t.cov
    {
      var env := EnvOf(Original, rng, exp, cost, observations, fuel);
      ghost var s0 := Init(env, CovMat, pos);
      var OldStep := FirstStep(mins, maxs, UniformDraw(rng, NumberOfParams, pos));
      var Oldchi2 := cost(OldStep);
      Bestchi2 := Oldchi2;
      var multiplicity: nat := 0;
      var acceptedpoints: nat := 0;
      var Oldstep: Option<Vector> := None;
      var p: nat := pos + 1;
      ghost var log: seq<Sample> := [];
      var n := Iterations(NumberOfSteps);
      ghost var st := s0;
      for i := 0 to n
        invariant Valid()
        invariant Run(env, s0, i) == Some(st)
        invariant st == State(s0.start, s0.startChi2, OldStep, Oldchi2, None, Bestchi2, Oldstep,
                              multiplicity, acceptedpoints, i, CovMat, p, log)
      {
        multiplicity := multiplicity + 1;
        var d := NextStep(rng, OldStep, p, fuel);
        if d.Exhausted? {
          RunStalls(env, s0, i, st, n);
          return Failure(ProposalStalled), Bestchi2;
        }
        var NewStep := d.step;
        var Newchi2 := cost(NewStep);
        var GoodPoint := MetropolisHastings(exp, Oldchi2, Newchi2, rng.uniform(d.next, 0));
        RunNext(env, s0, i, st, NewStep, d.next);
        AdvanceState(env, st, NewStep, d.next, GoodPoint, 2.0 * observations as real);
        p := d.next + 1;
        if Newchi2 < 2.0 * observations as real {
          CovMat := Narrow(alpha, SD);
        }
        if GoodPoint {
          if Newchi2 < Bestchi2 {
            Bestchi2 := Newchi2;
          }
          log := log + [Sample(Newchi2, multiplicity, NewStep)];
          acceptedpoints := acceptedpoints + 1;
          multiplicity := 0;
          Oldstep := Some(NewStep);
          Oldchi2 := Newchi2;
          st := Advance(env, st, NewStep, d.next);
        } else {
          st := Advance(env, st, NewStep, d.next);
          continue;
        }
      }
      ratio := AcceptanceRatio(acceptedpoints, NumberOfSteps);
    }
  }
}
