/** The operator over many integration steps. Between two calls the integrator may
    move every body arbitrarily but leaves the attribute store alone, so all history
    lives in the two bounds the operator keeps: they end up as the running minimum and
    maximum of their starting values and of every semi-major axis computed on the way. */
module MinmaxASteps {
  import opened Wrappers
  import opened Rebound
  import opened MinmaxA

  /** The integrator's effect between two calls: new Cartesian states, same attributes. */
  function WithStates(ps: seq<Particle>, st: seq<State>): (r: seq<Particle>)
    requires |st| == |ps|
    ensures |r| == |ps|
  {
    seq(|ps|, k requires 0 <= k < |ps| => ps[k].(state := st[k]))
  }

  /** Every step supplies one state per body. */
  predicate Shaped(ps: seq<Particle>, steps: seq<seq<State>>)
  {
    forall j :: 0 <= j < |steps| ==> |steps[j]| == |ps|
  }

  /** The bodies after the integrator has produced the states `steps[0]`, `steps[1]`,
      ... in turn, with the operator called after each of them. */
  function Evolve(ps: seq<Particle>, steps: seq<seq<State>>, n: int, nVar: int, g: real, orbit: OrbitFn): (r: seq<Particle>)
    requires Shaped(ps, steps)
    ensures |r| == |ps|
    decreases |steps|
  {
    if steps == [] then ps
    else Evolve(Track(WithStates(ps, steps[0]), n, nVar, g, orbit), steps[1..], n, nVar, g, orbit)
  }

  /** What the orbit routine reports for body `k` at step `j`. */
  function Observed(steps: seq<seq<State>>, j: nat, k: nat, g: real, orbit: OrbitFn): Option<real>
    requires j < |steps| && k < |steps[j]|
  {
    orbit(g, steps[j][k], steps[j][0])
  }

  /** One step: attributes are neither created nor removed, untracked bodies keep their
      bounds, and tracked bodies get `UpdateBounds` with that step's orbit. */
  lemma OneStep(ps: seq<Particle>, st: seq<State>, n: int, nVar: int, g: real, orbit: OrbitFn, k: nat)
    requires |st| == |ps| && k < |ps|
    ensures var b := Track(WithStates(ps, st), n, nVar, g, orbit)[k];
      b.minA.Some? == ps[k].minA.Some? && b.maxA.Some? == ps[k].maxA.Some? &&
      (Eligible(ps, k, n, nVar) ==>
         b.minA == UpdateBounds(ps[k], orbit(g, st[k], st[0])).minA &&
         b.maxA == UpdateBounds(ps[k], orbit(g, st[k], st[0])).maxA) &&
      (!Eligible(ps, k, n, nVar) ==> b.minA == ps[k].minA && b.maxA == ps[k].maxA)
  {
    var w := WithStates(ps, st);
    TrackAt(w, n, nVar, g, orbit, k);
    assert w[k] == ps[k].(state := st[k]);
    assert w[0] == ps[0].(state := st[0]);
  }

  /** Across any number of steps, attributes are never created or removed, and the
      bounds of every untracked body stay as they were. */
  lemma {:induction false} EvolveFrame(ps: seq<Particle>, steps: seq<seq<State>>, n: int, nVar: int, g: real, orbit: OrbitFn, k: nat)
    requires Shaped(ps, steps) && k < |ps|
    ensures var b := Evolve(ps, steps, n, nVar, g, orbit)[k];
      b.minA.Some? == ps[k].minA.Some? && b.maxA.Some? == ps[k].maxA.Some? &&
      (!Eligible(ps, k, n, nVar) ==> b.minA == ps[k].minA && b.maxA == ps[k].maxA)
    decreases |steps|
  {
    if steps != [] {
      var ps1 := Track(WithStates(ps, steps[0]), n, nVar, g, orbit);
      OneStep(ps, steps[0], n, nVar, g, orbit, k);
      assert Shaped(ps1, steps[1..]);
      EvolveFrame(ps1, steps[1..], n, nVar, g, orbit, k);
    }
  }

  /** Across any number of steps, the bounds of a tracked body enclose their starting
      range and every semi-major axis computed for it. */
  lemma {:induction false} EvolveEncloses(ps: seq<Particle>, steps: seq<seq<State>>, n: int, nVar: int, g: real, orbit: OrbitFn, k: nat)
    requires Shaped(ps, steps) && Eligible(ps, k, n, nVar)
    ensures var b := Evolve(ps, steps, n, nVar, g, orbit)[k];
      HasBounds(b) && b.minA.value <= ps[k].minA.value && ps[k].maxA.value <= b.maxA.value &&
      forall j :: 0 <= j < |steps| && Observed(steps, j, k, g, orbit).Some? ==>
        b.minA.value <= Observed(steps, j, k, g, orbit).value <= b.maxA.value
    decreases |steps|
  {
    if steps != [] {
      var ps1 := Track(WithStates(ps, steps[0]), n, nVar, g, orbit);
      OneStep(ps, steps[0], n, nVar, g, orbit, k);
      assert Shaped(ps1, steps[1..]);
      assert Eligible(ps1, k, n, nVar);
      EvolveEncloses(ps1, steps[1..], n, nVar, g, orbit, k);
      var b := Evolve(ps, steps, n, nVar, g, orbit)[k];
      forall j | 0 <= j < |steps| && Observed(steps, j, k, g, orbit).Some?
        ensures b.minA.value <= Observed(steps, j, k, g, orbit).value <= b.maxA.value
      {
        if j > 0 {
          assert Observed(steps, j, k, g, orbit) == Observed(steps[1..], j - 1, k, g, orbit);
        }
      }
    }
  }

  /** Across any number of steps, each bound of a tracked body is either its starting
      value or a semi-major axis actually computed for it: the range is never wider
      than what was seen. */
  lemma {:induction false} EvolveAttained(ps: seq<Particle>, steps: seq<seq<State>>, n: int, nVar: int, g: real, orbit: OrbitFn, k: nat)
    requires Shaped(ps, steps) && Eligible(ps, k, n, nVar)
    ensures var b := Evolve(ps, steps, n, nVar, g, orbit)[k];
      HasBounds(b) &&
      (b.minA == ps[k].minA || exists j :: 0 <= j < |steps| && Observed(steps, j, k, g, orbit) == b.minA) &&
      (b.maxA == ps[k].maxA || exists j :: 0 <= j < |steps| && Observed(steps, j, k, g, orbit) == b.maxA)
    decreases |steps|
  {
    if steps != [] {
      var ps1 := Track(WithStates(ps, steps[0]), n, nVar, g, orbit);
      OneStep(ps, steps[0], n, nVar, g, orbit, k);
      assert Shaped(ps1, steps[1..]);
      assert Eligible(ps1, k, n, nVar);
      EvolveAttained(ps1, steps[1..], n, nVar, g, orbit, k);
      var b := Evolve(ps, steps, n, nVar, g, orbit)[k];
      assert b == Evolve(ps1, steps[1..], n, nVar, g, orbit)[k];
      if b.minA != ps1[k].minA {
        var j :| 0 <= j < |steps[1..]| && Observed(steps[1..], j, k, g, orbit) == b.minA;
        assert Observed(steps, j + 1, k, g, orbit) == b.minA;
      } else if b.minA != ps[k].minA {
        assert Observed(steps, 0, k, g, orbit) == b.minA;
      }
      if b.maxA != ps1[k].maxA {
        var j :| 0 <= j < |steps[1..]| && Observed(steps[1..], j, k, g, orbit) == b.maxA;
        assert Observed(steps, j + 1, k, g, orbit) == b.maxA;
      } else if b.maxA != ps[k].maxA {
        assert Observed(steps, 0, k, g, orbit) == b.maxA;
      }
    }
  }

  /** When every semi-major axis computed for a tracked body lies inside its starting
      range, its bounds never move, however many steps are taken. */
  lemma NeverRetightened(ps: seq<Particle>, steps: seq<seq<State>>, n: int, nVar: int, g: real, orbit: OrbitFn, k: nat)
    requires Shaped(ps, steps) && Eligible(ps, k, n, nVar)
    requires forall j :: 0 <= j < |steps| && Observed(steps, j, k, g, orbit).Some? ==>
      ps[k].minA.value <= Observed(steps, j, k, g, orbit).value <= ps[k].maxA.value
    ensures var b := Evolve(ps, steps, n, nVar, g, orbit)[k];
      b.minA == ps[k].minA && b.maxA == ps[k].maxA
  {
    EvolveEncloses(ps, steps, n, nVar, g, orbit, k);
    EvolveAttained(ps, steps, n, nVar, g, orbit, k);
  }
}
