/** Rejection sampling of the proposal: redraw from the Gaussian until the candidate is in the box. */
module Proposal {
  import opened Domain
  import opened Covariance
  import opened Oracle

  /** The outcome of a proposal: the admissible candidate and the next stream position, or
      `Exhausted` when `fuel` draws were all outside the box. */
  datatype Draw = Found(step: Vector, next: nat) | Exhausted

  /** Draw at positions `pos, pos + 1, ...` from the normal centred at `mean` with covariance
      `cov`, and keep the first draw inside the box, looking at no more than `fuel` draws. */
  function Propose(rng: Rng, mean: Vector, cov: Matrix, mins: Vector, maxs: Vector, pos: nat, fuel: nat): Draw
    decreases fuel
  {
    if fuel == 0 then Exhausted
    else
      var ns := rng.normal(mean, cov, pos);
      if InBox(ns, mins, maxs) then Found(ns, pos + 1)
      else Propose(rng, mean, cov, mins, maxs, pos + 1, fuel - 1)
  }

  /** A box with an empty side `mins[k] > maxs[k]` admits no draw, so every proposal is
      exhausted whatever the fuel: the redraw loop of the original never ends for such bounds. */
  lemma {:induction false} ProposeEmptyBox(rng: Rng, mean: Vector, cov: Matrix, mins: Vector, maxs: Vector,
                                           pos: nat, fuel: nat, k: nat)
    requires k < |mins| && k < |maxs| && maxs[k] < mins[k]
    ensures Propose(rng, mean, cov, mins, maxs, pos, fuel) == Exhausted
    decreases fuel
  {
    if fuel > 0 {
      var ns := rng.normal(mean, cov, pos);
      assert !InBox(ns, mins, maxs) by {
        if |ns| == |mins| {
          assert !(mins[k] <= ns[k] <= maxs[k]);
        }
      }
      ProposeEmptyBox(rng, mean, cov, mins, maxs, pos + 1, fuel - 1, k);
    }
  }

  /** A found candidate is the draw just before `next`; it lies in the box; every earlier draw
      of this proposal lay outside the box and was discarded. */
  lemma {:induction false} ProposeFinds(rng: Rng, mean: Vector, cov: Matrix, mins: Vector, maxs: Vector,
                                        pos: nat, fuel: nat, v: Vector, q: nat)
    requires Propose(rng, mean, cov, mins, maxs, pos, fuel) == Found(v, q)
    ensures pos < q <= pos + fuel
    decreases fuel
    ensures v == rng.normal(mean, cov, q - 1) && InBox(v, mins, maxs)
    ensures forall p :: pos <= p < q - 1 ==> !InBox(rng.normal(mean, cov, p), mins, maxs)
  {
    if !InBox(rng.normal(mean, cov, pos), mins, maxs) {
      ProposeFinds(rng, mean, cov, mins, maxs, pos + 1, fuel - 1, v, q);
    }
  }

  /** Conversely, the first in-box draw within the fuel is the one found. */
  lemma {:induction false} ProposeComplete(rng: Rng, mean: Vector, cov: Matrix, mins: Vector, maxs: Vector,
                                           pos: nat, fuel: nat, q: nat)
    requires pos <= q < pos + fuel
    requires InBox(rng.normal(mean, cov, q), mins, maxs)
    requires forall p :: pos <= p < q ==> !InBox(rng.normal(mean, cov, p), mins, maxs)
    ensures Propose(rng, mean, cov, mins, maxs, pos, fuel) == Found(rng.normal(mean, cov, q), q + 1)
    decreases fuel
  {
    if pos < q {
      ProposeComplete(rng, mean, cov, mins, maxs, pos + 1, fuel - 1, q);
    }
  }

  /** The fuel only bounds the search: more fuel never changes a found candidate. */
  lemma {:induction false} ProposeMoreFuel(rng: Rng, mean: Vector, cov: Matrix, mins: Vector, maxs: Vector,
                                           pos: nat, fuel: nat, more: nat)
    requires Propose(rng, mean, cov, mins, maxs, pos, fuel).Found?
    requires fuel <= more
    ensures Propose(rng, mean, cov, mins, maxs, pos, more) == Propose(rng, mean, cov, mins, maxs, pos, fuel)
    decreases fuel
  {
    if !InBox(rng.normal(mean, cov, pos), mins, maxs) {
      ProposeMoreFuel(rng, mean, cov, mins, maxs, pos + 1, fuel - 1, more - 1);
    }
  }
}
