/** The step loop of `MainChain` as a pure state machine over the chain's running state.
    Both copies of the loop are described: `Original` (src/mcmc.py), whose centre never moves
    because the update writes a misspelt variable, and `Animated` (animation/anim.py), which
    moves the centre and tracks the best step. */
module Chain {
  import opened Wrappers
  import opened Domain
  import opened Covariance
  import opened Acceptance
  import opened Oracle
  import opened Proposal

  datatype Variant = Original | Animated

  /** One accepted sample: its chi-square, the multiplicity at acceptance and the parameter vector,
      the record src/mcmc.py writes to its output file. */
  datatype Sample = Sample(chi2: real, multiplicity: nat, step: Vector)

  /** What a run is given: the configuration, the random stream, `exp`, the cost function, the
      narrowing threshold `2 * len(Y)` and the number of draws a single proposal may look at. */
  datatype Env = Env(variant: Variant, mins: Vector, maxs: Vector, sd: Vector, alpha: real,
                     threshold: real, rng: Rng, exp: real -> real, cost: Vector -> real, fuel: nat)

  /** The loop's variables. `strayStep` is the misspelt `Oldstep` of src/mcmc.py, written on
      acceptance and never read; `bestStep` is unbound (`None`) until a candidate beats the start;
      `steps` counts iterations, `pos` is the position in the random stream and `log` holds the
      accepted samples in order. */
  datatype State = State(start: Vector, startChi2: real,
                         oldStep: Vector, oldChi2: real,
                         bestStep: Option<Vector>, bestChi2: real,
                         strayStep: Option<Vector>,
                         multiplicity: nat, accepted: nat, steps: nat,
                         cov: Matrix, pos: nat, log: seq<Sample>)

  datatype ChainError = ProposalStalled | LoopIndexUnbound | DivisionByZero | BestStepUnbound

  /** The number of iterations of `range(NumberOfSteps)`. */
  function Iterations(numberOfSteps: int): nat
  {
    if numberOfSteps > 0 then numberOfSteps else 0
  }

  /** The state before the loop: a uniform initial point, its cost as current and best cost,
      zero counters, and the covariance the object holds on entry. */
  function Init(env: Env, cov: Matrix, pos: nat): State
    requires |env.mins| == |env.maxs|
  {
    var start := FirstStep(env.mins, env.maxs, UniformDraw(env.rng, |env.mins|, pos));
    var c := env.cost(start);
    State(start, c, start, c, None, c, None, 0, 0, 0, cov, pos + 1, [])
  }

  /** One iteration: propose around `oldStep`, then `Advance`. `None` when the proposal found
      no admissible candidate within the fuel. */
  function Step(env: Env, s: State): Option<State>
  {
    match Propose(env.rng, s.oldStep, s.cov, env.mins, env.maxs, s.pos, env.fuel)
    case Exhausted => None
    case Found(cand, next) => Some(Advance(env, s, cand, next))
  }

  /** The rest of an iteration once the candidate `cand` was drawn and the stream is at `next`:
      score the candidate, run the acceptance test with the next uniform draw, narrow the
      covariance on a good enough candidate whatever the test said, and on acceptance log the
      sample and move to it. */
  function Advance(env: Env, s: State, cand: Vector, next: nat): State
  {
    var m := s.multiplicity + 1;
    var c := env.cost(cand);
    var good := MetropolisHastings(env.exp, s.oldChi2, c, env.rng.uniform(next, 0));
    var base := s.(multiplicity := m, steps := s.steps + 1,
                   cov := Adapt(s.cov, c, env.threshold, env.alpha, env.sd), pos := next + 1);
    if !good then base
    else
      var better := c < s.bestChi2;
      base.(bestChi2 := if better then c else s.bestChi2,
            bestStep := if better && env.variant == Animated then Some(cand) else s.bestStep,
            accepted := s.accepted + 1,
            multiplicity := 0,
            log := s.log + [Sample(c, m, cand)],
            oldStep := if env.variant == Animated then cand else s.oldStep,
            strayStep := if env.variant == Original then Some(cand) else s.strayStep,
            oldChi2 := c)
  }

  /** `n` iterations from `s`; `None` once a proposal stalls. */
  function Run(env: Env, s: State, n: nat): Option<State>
  {
    if n == 0 then Some(s)
    else
      match Run(env, s, n - 1)
      case None => None
      case Some(t) => Step(env, t)
  }

  /** Helper for the loops: the run extended by one step whose proposal found `cand`. */
  lemma RunNext(env: Env, s: State, i: nat, t: State, cand: Vector, next: nat)
    requires Run(env, s, i) == Some(t)
    requires Propose(env.rng, t.oldStep, t.cov, env.mins, env.maxs, t.pos, env.fuel) == Found(cand, next)
    ensures Run(env, s, i + 1) == Some(Advance(env, t, cand, next))
  {
  }

  /** Helper for the loops: the run stalls for good once a proposal is exhausted. */
  lemma RunStalls(env: Env, s: State, i: nat, t: State, n: nat)
    requires Run(env, s, i) == Some(t) && i < n
    requires Propose(env.rng, t.oldStep, t.cov, env.mins, env.maxs, t.pos, env.fuel) == Exhausted
    ensures Run(env, s, n) == None
  {
    RunStaysStalled(env, s, i + 1, n);
  }

  /** Helper: `Advance` field by field. */
  lemma AdvanceFields(env: Env, s: State, cand: Vector, next: nat, good: bool, threshold: real)
    requires good == MetropolisHastings(env.exp, s.oldChi2, env.cost(cand), env.rng.uniform(next, 0))
    requires threshold == env.threshold
    ensures var t := Advance(env, s, cand, next);
            var c := env.cost(cand);
            && t.start == s.start && t.startChi2 == s.startChi2
            && t.steps == s.steps + 1 && t.pos == next + 1
            && t.cov == (if c < threshold then Narrow(env.alpha, env.sd) else s.cov)
            && t.accepted == (if good then s.accepted + 1 else s.accepted)
            && t.multiplicity == (if good then 0 else s.multiplicity + 1)
            && t.oldChi2 == (if good then c else s.oldChi2)
            && t.bestChi2 == (if good && c < s.bestChi2 then c else s.bestChi2)
            && t.bestStep == (if good && c < s.bestChi2 && env.variant == Animated then Some(cand) else s.bestStep)
            && t.oldStep == (if good && env.variant == Animated then cand else s.oldStep)
            && t.strayStep == (if good && env.variant == Original then Some(cand) else s.strayStep)
            && t.log == (if good then s.log + [Sample(c, s.multiplicity + 1, cand)] else s.log)
  {
  }

  /** Helper for the loops: `Advance` as one constructor application. */
  lemma AdvanceState(env: Env, s: State, cand: Vector, next: nat, good: bool, threshold: real)
    requires good == MetropolisHastings(env.exp, s.oldChi2, env.cost(cand), env.rng.uniform(next, 0))
    requires threshold == env.threshold
    ensures var c := env.cost(cand);
            Advance(env, s, cand, next) ==
              State(s.start, s.startChi2,
                    if good && env.variant == Animated then cand else s.oldStep,
                    if good then c else s.oldChi2,
                    if good && c < s.bestChi2 && env.variant == Animated then Some(cand) else s.bestStep,
                    if good && c < s.bestChi2 then c else s.bestChi2,
                    if good && env.variant == Original then Some(cand) else s.strayStep,
                    if good then 0 else s.multiplicity + 1,
                    if good then s.accepted + 1 else s.accepted,
                    s.steps + 1,
                    if c < threshold then Narrow(env.alpha, env.sd) else s.cov,
                    next + 1,
                    if good then s.log + [Sample(c, s.multiplicity + 1, cand)] else s.log)
  {
  }

  function Last(log: seq<Sample>): Sample
    requires log != []
  {
    log[|log| - 1]
  }

  /** The sum of the logged multiplicities. */
  function TotalMultiplicity(log: seq<Sample>): nat
  {
    if log == [] then 0 else TotalMultiplicity(log[..|log| - 1]) + Last(log).multiplicity
  }

  /** The running best cost: the start cost, replaced by each logged cost strictly below it. */
  function MinCost(init: real, log: seq<Sample>): real
  {
    if log == [] then init
    else
      var m := MinCost(init, log[..|log| - 1]);
      if Last(log).chi2 < m then Last(log).chi2 else m
  }

  /** The running best step: unbound until a logged cost is strictly below the running best. */
  function BestOf(init: real, log: seq<Sample>): Option<Vector>
  {
    if log == [] then None
    else if Last(log).chi2 < MinCost(init, log[..|log| - 1]) then Some(Last(log).step)
    else BestOf(init, log[..|log| - 1])
  }

  /** The invariant of the loop: the counters agree with the log, every logged sample is an
      admissible point scored by the cost function, the current cost is the last accepted one,
      the best cost is the minimum so far, the covariance is in one of its two regimes, and the
      centre is fixed at the start (Original) or is the last accepted step (Animated). */
  ghost predicate Consistent(env: Env, s: State)
  {
    && env.cost(s.start) == s.startChi2
    && |s.log| == s.accepted
    && TotalMultiplicity(s.log) + s.multiplicity == s.steps
    && (forall k :: 0 <= k < |s.log| ==> 1 <= s.log[k].multiplicity)
    && (forall k :: 0 <= k < |s.log| ==>
          InBox(s.log[k].step, env.mins, env.maxs) && env.cost(s.log[k].step) == s.log[k].chi2)
    && s.bestChi2 == MinCost(s.startChi2, s.log)
    && s.oldChi2 == (if s.log == [] then s.startChi2 else Last(s.log).chi2)
    && (s.cov == Wide(env.alpha, env.sd) || s.cov == Narrow(env.alpha, env.sd))
    && match env.variant
       case Original =>
         && s.oldStep == s.start
         && s.strayStep == (if s.log == [] then None else Some(Last(s.log).step))
         && s.bestStep == None
       case Animated =>
         && s.oldStep == (if s.log == [] then s.start else Last(s.log).step)
         && s.strayStep == None
         && s.bestStep == BestOf(s.startChi2, s.log)
  }

  /** The best cost is at most the start cost and every logged cost, and is one of them. */
  lemma {:induction false} MinCostBounds(init: real, log: seq<Sample>)
    ensures MinCost(init, log) <= init
    ensures forall k :: 0 <= k < |log| ==> MinCost(init, log) <= log[k].chi2
    ensures MinCost(init, log) == init || exists k :: 0 <= k < |log| && log[k].chi2 == MinCost(init, log)
  {
    if log != [] {
      var front := log[..|log| - 1];
      MinCostBounds(init, front);
      assert forall k :: 0 <= k < |front| ==> front[k] == log[k];
      if MinCost(init, front) != init && Last(log).chi2 >= MinCost(init, front) {
        var k :| 0 <= k < |front| && front[k].chi2 == MinCost(init, front);
        assert log[k].chi2 == MinCost(init, log);
      }
    }
  }

  /** The best step stays unbound exactly when no logged cost is below the start cost; once bound
      it is a logged step whose cost is the best cost, strictly below the start cost. */
  lemma {:induction false} BestOfSpec(init: real, log: seq<Sample>)
    ensures BestOf(init, log) == None <==> forall k :: 0 <= k < |log| ==> init <= log[k].chi2
    ensures BestOf(init, log) == None ==> MinCost(init, log) == init
    ensures BestOf(init, log).Some? ==>
              MinCost(init, log) < init &&
              exists k :: 0 <= k < |log| && log[k].step == BestOf(init, log).value && log[k].chi2 == MinCost(init, log)
  {
    if log != [] {
      var front := log[..|log| - 1];
      BestOfSpec(init, front);
      MinCostBounds(init, front);
      assert forall k :: 0 <= k < |front| ==> front[k] == log[k];
      if Last(log).chi2 < MinCost(init, front) {
        assert log[|log| - 1].step == BestOf(init, log).value;
      } else if BestOf(init, front).Some? {
        var k :| 0 <= k < |front| && front[k].step == BestOf(init, front).value && front[k].chi2 == MinCost(init, front);
        assert log[k].step == BestOf(init, log).value;
      } else {
        assert forall k :: 0 <= k < |log| ==> init <= log[k].chi2 by {
          forall k | 0 <= k < |log| ensures init <= log[k].chi2 {
            if k == |log| - 1 { } else { assert log[k] == front[k]; }
          }
        }
      }
    }
  }

  /** Each logged multiplicity is at least one, so the log is no longer than the total. */
  lemma {:induction false} TotalAtLeastLength(log: seq<Sample>)
    requires forall k :: 0 <= k < |log| ==> 1 <= log[k].multiplicity
    ensures |log| <= TotalMultiplicity(log)
  {
    if log != [] {
      var front := log[..|log| - 1];
      assert forall k :: 0 <= k < |front| ==> front[k] == log[k];
      TotalAtLeastLength(front);
    }
  }

  /** The state before the loop satisfies the invariant, provided the covariance is in a regime. */
  lemma InitConsistent(env: Env, cov: Matrix, pos: nat)
    requires |env.mins| == |env.maxs|
    requires cov == Wide(env.alpha, env.sd) || cov == Narrow(env.alpha, env.sd)
    ensures Consistent(env, Init(env, cov, pos))
    ensures Init(env, cov, pos).steps == 0 && Init(env, cov, pos).accepted == 0
    ensures Init(env, cov, pos).bestChi2 == Init(env, cov, pos).startChi2 == env.cost(Init(env, cov, pos).start)
  {
  }

  /** With ordered bounds and uniform draws in [0, 1) the initial point is admissible. */
  lemma InitInBox(env: Env, cov: Matrix, pos: nat)
    requires WellFormed(env.mins, env.maxs) && ValidRng(env.rng)
    ensures InBox(Init(env, cov, pos).start, env.mins, env.maxs)
  {
    FirstStepInBox(env.mins, env.maxs, UniformDraw(env.rng, |env.mins|, pos));
  }

  /** Helper for `StepConsistent`, the bookkeeping of one step: a step accepts exactly when the Metropolis test passes for
      the proposed candidate; a rejection changes nothing but the multiplicity, the counters, the
      covariance and the stream position; an acceptance logs the candidate with its cost and
      multiplicity, resets the multiplicity, makes its cost current and, in the Animated loop,
      moves the centre to it. */
  lemma StepBookkeeping(env: Env, s: State, t: State)
    requires Step(env, s) == Some(t)
    ensures t.steps == s.steps + 1 && t.start == s.start && t.startChi2 == s.startChi2
    ensures t.accepted == s.accepted ==>
              t == s.(multiplicity := s.multiplicity + 1, steps := s.steps + 1, cov := t.cov, pos := t.pos)
    ensures t.accepted != s.accepted ==>
              && t.accepted == s.accepted + 1 && t.multiplicity == 0
              && |t.log| == |s.log| + 1 && t.log[..|s.log|] == s.log
              && Last(t.log).multiplicity == s.multiplicity + 1
              && t.oldChi2 == Last(t.log).chi2
    ensures var d := Propose(env.rng, s.oldStep, s.cov, env.mins, env.maxs, s.pos, env.fuel);
            d.Found? &&
            (t.accepted != s.accepted <==>
               MetropolisHastings(env.exp, s.oldChi2, env.cost(d.step), env.rng.uniform(d.next, 0)))
    ensures var d := Propose(env.rng, s.oldStep, s.cov, env.mins, env.maxs, s.pos, env.fuel);
            t.accepted != s.accepted ==>
              && Last(t.log) == Sample(env.cost(d.step), s.multiplicity + 1, d.step)
              && t.oldChi2 == env.cost(d.step)
              && (env.variant == Animated ==> t.oldStep == d.step)
              && (env.variant == Original ==> t.strayStep == Some(d.step))
  {
    var Found(cand, next) := Propose(env.rng, s.oldStep, s.cov, env.mins, env.maxs, s.pos, env.fuel);
    var good := MetropolisHastings(env.exp, s.oldChi2, env.cost(cand), env.rng.uniform(next, 0));
    AdvanceFields(env, s, cand, next, good, env.threshold);
    if good {
      AppendSample(s.startChi2, s.log, Sample(env.cost(cand), s.multiplicity + 1, cand));
    }
  }

  /** One step keeps the invariant, counts one more step, never raises the best cost, never widens
      the covariance, and either changes nothing but the counters, the covariance and the stream
      position (rejection) or logs one sample with multiplicity at least one, resets the
      multiplicity and makes the sample's cost current (acceptance). A step accepts exactly when
      the Metropolis test passes for the proposed candidate, and then logs that candidate with its
      cost, makes its cost current and, in the Animated loop, moves the centre to it. */
  lemma StepConsistent(env: Env, s: State, t: State)
    requires Consistent(env, s)
    requires Step(env, s) == Some(t)
    ensures Consistent(env, t)
    ensures t.steps == s.steps + 1 && t.start == s.start && t.startChi2 == s.startChi2
    ensures t.bestChi2 <= s.bestChi2
    ensures s.cov == Narrow(env.alpha, env.sd) ==> t.cov == Narrow(env.alpha, env.sd)
    ensures t.accepted == s.accepted ==>
              t == s.(multiplicity := s.multiplicity + 1, steps := s.steps + 1, cov := t.cov, pos := t.pos)
    ensures t.accepted != s.accepted ==>
              && t.accepted == s.accepted + 1 && t.multiplicity == 0
              && |t.log| == |s.log| + 1 && t.log[..|s.log|] == s.log
              && Last(t.log).multiplicity == s.multiplicity + 1
              && t.oldChi2 == Last(t.log).chi2
    ensures var d := Propose(env.rng, s.oldStep, s.cov, env.mins, env.maxs, s.pos, env.fuel);
            d.Found? &&
            (t.accepted != s.accepted <==>
               MetropolisHastings(env.exp, s.oldChi2, env.cost(d.step), env.rng.uniform(d.next, 0)))
    ensures var d := Propose(env.rng, s.oldStep, s.cov, env.mins, env.maxs, s.pos, env.fuel);
            t.accepted != s.accepted ==>
              && Last(t.log) == Sample(env.cost(d.step), s.multiplicity + 1, d.step)
              && t.oldChi2 == env.cost(d.step)
              && (env.variant == Animated ==> t.oldStep == d.step)
              && (env.variant == Original ==> t.strayStep == Some(d.step))
  {
    StepBookkeeping(env, s, t);
    var Found(cand, next) := Propose(env.rng, s.oldStep, s.cov, env.mins, env.maxs, s.pos, env.fuel);
    ProposeFinds(env.rng, s.oldStep, s.cov, env.mins, env.maxs, s.pos, env.fuel, cand, next);
    var good := MetropolisHastings(env.exp, s.oldChi2, env.cost(cand), env.rng.uniform(next, 0));
    AdvanceFields(env, s, cand, next, good, env.threshold);
    if good {
      AppendSample(s.startChi2, s.log, Sample(env.cost(cand), s.multiplicity + 1, cand));
    }
  }

  /** Helper: what appending one sample does to the functions of the log. */
  lemma AppendSample(init: real, log: seq<Sample>, x: Sample)
    ensures var l := log + [x];
            && l[..|log|] == log && Last(l) == x
            && (forall k :: 0 <= k < |log| ==> l[k] == log[k])
            && TotalMultiplicity(l) == TotalMultiplicity(log) + x.multiplicity
            && MinCost(init, l) == (if x.chi2 < MinCost(init, log) then x.chi2 else MinCost(init, log))
            && BestOf(init, l) == (if x.chi2 < MinCost(init, log) then Some(x.step) else BestOf(init, log))
  {
    assert (log + [x])[..|log|] == log;
  }

  /** A stalled run stays stalled. */
  lemma {:induction false} RunStaysStalled(env: Env, s: State, i: nat, j: nat)
    requires Run(env, s, i) == None && i <= j
    ensures Run(env, s, j) == None
    decreases j
  {
    if i < j {
      RunStaysStalled(env, s, i, j - 1);
    }
  }

  /** `n` steps keep the invariant and count `n` steps; the best cost never rises, the log only
      grows, at most one sample is logged per step, and a narrow covariance stays narrow. */
  lemma {:induction false} RunConsistent(env: Env, s: State, n: nat, t: State)
    requires Consistent(env, s)
    requires Run(env, s, n) == Some(t)
    ensures Consistent(env, t)
    ensures t.steps == s.steps + n && t.start == s.start
    ensures t.bestChi2 <= s.bestChi2
    ensures |s.log| <= |t.log| <= |s.log| + n && t.log[..|s.log|] == s.log
    ensures s.cov == Narrow(env.alpha, env.sd) ==> t.cov == Narrow(env.alpha, env.sd)
  {
    if n == 0 {
      assert s.log[..|s.log|] == s.log;
    } else {
      var r := Run(env, s, n - 1).value;
      RunConsistent(env, s, n - 1, r);
      StepConsistent(env, r, t);
      PrefixOfPrefix(s.log, r.log, t.log);
    }
  }

  /** Helper: a prefix of a prefix is a prefix. */
  lemma PrefixOfPrefix(a: seq<Sample>, b: seq<Sample>, c: seq<Sample>)
    requires |a| <= |b| <= |c| && b[..|a|] == a && c[..|b|] == b
    ensures c[..|a|] == a
  {
    assert c[..|a|] == c[..|b|][..|a|];
  }

  /** What the invariant gives a caller: no more acceptances than steps, and the best cost below
      the current and the start cost; in the Original loop the centre is still the start while the
      misspelt variable holds the last accepted step; in the Animated loop the centre is
      admissible or the start, and a bound best step is admissible and has the best cost. */
  lemma ConsistentFacts(env: Env, s: State)
    requires Consistent(env, s)
    ensures s.accepted <= s.steps && s.multiplicity <= s.steps
    ensures s.bestChi2 <= s.oldChi2 && s.bestChi2 <= s.startChi2
    ensures env.variant == Original ==>
              s.oldStep == s.start && (s.accepted > 0 ==> s.strayStep == Some(Last(s.log).step))
    ensures env.variant == Animated ==>
              (s.oldStep == s.start || InBox(s.oldStep, env.mins, env.maxs)) &&
              (s.bestStep.Some? ==>
                 InBox(s.bestStep.value, env.mins, env.maxs) && env.cost(s.bestStep.value) == s.bestChi2)
  {
    TotalAtLeastLength(s.log);
    MinCostBounds(s.startChi2, s.log);
    if env.variant == Animated {
      BestOfSpec(s.startChi2, s.log);
    }
  }

  /** The narrowing happens on every step whose candidate beats the threshold, accepted or not,
      and a step whose candidate does not beat it leaves the covariance as it was. */
  lemma StepNarrows(env: Env, s: State)
    requires Propose(env.rng, s.oldStep, s.cov, env.mins, env.maxs, s.pos, env.fuel).Found?
    ensures Step(env, s).Some?
    ensures var cand := Propose(env.rng, s.oldStep, s.cov, env.mins, env.maxs, s.pos, env.fuel).step;
            Step(env, s).value.cov == if env.cost(cand) < env.threshold then Narrow(env.alpha, env.sd) else s.cov
  {
  }

  /** A candidate no worse than the current cost is always accepted: with uniform draws below 1
      the step logs it, makes it the current cost and resets the multiplicity. */
  lemma StepAcceptsNoWorse(env: Env, s: State)
    requires ExpLike(env.exp) && ValidRng(env.rng)
    requires Propose(env.rng, s.oldStep, s.cov, env.mins, env.maxs, s.pos, env.fuel).Found?
    requires env.cost(Propose(env.rng, s.oldStep, s.cov, env.mins, env.maxs, s.pos, env.fuel).step) <= s.oldChi2
    ensures Step(env, s).Some?
    ensures Step(env, s).value.accepted == s.accepted + 1 && Step(env, s).value.multiplicity == 0
    ensures Step(env, s).value.oldChi2 == env.cost(Propose(env.rng, s.oldStep, s.cov, env.mins, env.maxs, s.pos, env.fuel).step)
  {
    var Found(cand, next) := Propose(env.rng, s.oldStep, s.cov, env.mins, env.maxs, s.pos, env.fuel);
    AcceptsNoWorse(env.exp, s.oldChi2, env.cost(cand), env.rng.uniform(next, 0));
  }

  /** A whole run from the initial state: it takes exactly `n` steps, accepts at most `n`
      candidates, its best cost is no more than the start cost and no more than the current
      cost, and the invariant holds at the end. */
  lemma RunFromInit(env: Env, cov: Matrix, pos: nat, n: nat, t: State)
    requires |env.mins| == |env.maxs|
    requires cov == Wide(env.alpha, env.sd) || cov == Narrow(env.alpha, env.sd)
    requires Run(env, Init(env, cov, pos), n) == Some(t)
    ensures Consistent(env, t)
    ensures t.steps == n && t.accepted <= n
    ensures t.bestChi2 <= t.startChi2 && t.bestChi2 <= t.oldChi2
    ensures t.start == Init(env, cov, pos).start && t.startChi2 == env.cost(t.start)
    ensures env.variant == Original ==> t.oldStep == t.start
  {
    InitConsistent(env, cov, pos);
    RunConsistent(env, Init(env, cov, pos), n, t);
    ConsistentFacts(env, t);
  }

  /** The acceptance ratio as written: `acceptedpoints / i`, where `i` is the last index of
      `range(NumberOfSteps)`; `i` is unbound when no iteration ran and zero after one. */
  function AcceptanceRatio(accepted: nat, numberOfSteps: int): (r: Result<real, ChainError>)
    ensures r.Success? <==> 2 <= numberOfSteps
    ensures r.Success? ==> r.value * (numberOfSteps - 1) as real == accepted as real
    ensures numberOfSteps <= 0 ==> r == Failure(LoopIndexUnbound)
    ensures numberOfSteps == 1 ==> r == Failure(DivisionByZero)
  {
    if numberOfSteps <= 0 then Failure(LoopIndexUnbound)
    else if numberOfSteps == 1 then Failure(DivisionByZero)
    else Success(accepted as real / (numberOfSteps - 1) as real)
  }

  /** A chain of length `n >= 2` that accepts every candidate reports a ratio above one. */
  lemma AllAcceptedRatioAboveOne(n: nat)
    requires 2 <= n
    ensures AcceptanceRatio(n, n).Success? && 1.0 < AcceptanceRatio(n, n).value
  {
    var r := AcceptanceRatio(n, n).value;
    assert r * (n - 1) as real == n as real;
  }

  /** The intended ratio: accepted steps over steps taken, undefined when no step was taken. */
  function IntendedRatio(accepted: nat, steps: nat): (r: Option<real>)
    ensures r.Some? <==> 0 < steps
    ensures r.Some? ==> r.value * steps as real == accepted as real
    ensures r.Some? && accepted <= steps ==> 0.0 <= r.value <= 1.0
  {
    if steps == 0 then None else Some(accepted as real / steps as real)
  }

  /** The result of Animation.MainChain as written: the ratio's failure when the division fails,
      otherwise a failure for the unbound best step, otherwise the ratio. */
  function AnimatedReport(t: State, numberOfSteps: int): (r: Result<real, ChainError>)
    ensures r.Success? <==> 2 <= numberOfSteps && t.bestStep.Some?
    ensures r.Success? ==> r == AcceptanceRatio(t.accepted, numberOfSteps)
    ensures 2 <= numberOfSteps && t.bestStep.None? ==> r == Failure(BestStepUnbound)
  {
    match AcceptanceRatio(t.accepted, numberOfSteps)
    case Failure(e) => Failure(e)
    case Success(ratio) => if t.bestStep.None? then Failure(BestStepUnbound) else Success(ratio)
  }

  /** In the Animated loop the best step is still unbound at the end exactly when no accepted
      candidate cost less than the start, for instance when every candidate was rejected. */
  lemma BestStepUnboundIff(env: Env, t: State)
    requires env.variant == Animated && Consistent(env, t)
    ensures t.bestStep.None? <==> forall k :: 0 <= k < |t.log| ==> t.startChi2 <= t.log[k].chi2
  {
    BestOfSpec(t.startChi2, t.log);
  }

  /** The final summary: the best point, its cost and the acceptance ratio. */
  datatype ChainResult = ChainResult(bestPoint: Vector, bestCost: real, ratio: Option<real>)

  /** The best point with the start as its seed, so that it is always bound. */
  function BestPoint(t: State): Vector
  {
    match t.bestStep
    case None => t.start
    case Some(v) => v
  }

  function Summarize(t: State): ChainResult
  {
    ChainResult(BestPoint(t), t.bestChi2, IntendedRatio(t.accepted, t.steps))
  }

  /** The summary of an Animated run is sound: the best point's cost is the best cost, no more
      than the start cost, and the ratio is defined once a step was taken and lies in [0, 1]. */
  lemma SummarizeSound(env: Env, t: State)
    requires env.variant == Animated && Consistent(env, t)
    ensures env.cost(Summarize(t).bestPoint) == Summarize(t).bestCost <= t.startChi2
    ensures Summarize(t).ratio.Some? <==> 0 < t.steps
    ensures Summarize(t).ratio.Some? ==> 0.0 <= Summarize(t).ratio.value <= 1.0
  {
    ConsistentFacts(env, t);
    BestOfSpec(t.startChi2, t.log);
  }
}
