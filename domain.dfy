/** Parameter vectors and the rectangular box `[mins, maxs]` they are sampled in. */
module Domain {
  type Vector = seq<real>

  /** The bounds have one entry per parameter and are ordered componentwise. */
  predicate WellFormed(mins: Vector, maxs: Vector)
  {
    |mins| == |maxs| && forall i :: 0 <= i < |mins| ==> mins[i] <= maxs[i]
  }

  /** `v` lies in the closed box; its negation is the redraw condition of `NextStep`. */
  predicate InBox(v: Vector, mins: Vector, maxs: Vector)
  {
    |v| == |mins| && |v| == |maxs| &&
    forall i :: 0 <= i < |v| ==> mins[i] <= v[i] <= maxs[i]
  }

  /** The initial point `mins + u * (maxs - mins)`, componentwise, for a vector `u` of uniform draws. */
  function FirstStep(mins: Vector, maxs: Vector, u: Vector): (v: Vector)
    requires |mins| == |maxs| == |u|
    ensures |v| == |mins|
  {
    seq(|mins|, i requires 0 <= i < |mins| => mins[i] + u[i] * (maxs[i] - mins[i]))
  }

  /** With uniform draws in [0, 1) every component of the initial point lies within its bounds,
      and a dimension whose bounds coincide is pinned to that value. */
  lemma FirstStepInBox(mins: Vector, maxs: Vector, u: Vector)
    requires WellFormed(mins, maxs) && |u| == |mins|
    requires forall i :: 0 <= i < |u| ==> 0.0 <= u[i] < 1.0
    ensures InBox(FirstStep(mins, maxs, u), mins, maxs)
    ensures forall i :: 0 <= i < |mins| && mins[i] == maxs[i] ==> FirstStep(mins, maxs, u)[i] == mins[i]
  {
    var v := FirstStep(mins, maxs, u);
    forall i | 0 <= i < |v|
      ensures mins[i] <= v[i] <= maxs[i]
    {
      var d := maxs[i] - mins[i];
      assert 0.0 <= u[i] * d by { assert 0.0 <= d; }
      assert u[i] * d <= d by { assert 0.0 <= (1.0 - u[i]) * d; }
    }
  }
}
