/** The semi-major-axis range tracker: once per step, every opted-in body widens its
    stored `min_a`/`max_a` bounds to include its current osculating semi-major axis. */
module MinmaxA {
  import opened Wrappers
  import opened Rebound

  /** A body opts in by carrying both the `min_a` and the `max_a` attribute. */
  predicate HasBounds(b: Particle)
  {
    b.minA.Some? && b.maxA.Some?
  }

  /** The indices the operator visits: past the reference body 0 and before the
      trailing block of `nVar` variational bodies. */
  predicate InTrackedRange(k: int, n: int, nVar: int)
  {
    1 <= k < n - nVar
  }

  /** Body `k` of `ps` is tracked by the operator. */
  predicate Eligible(ps: seq<Particle>, k: int, n: int, nVar: int)
  {
    InTrackedRange(k, n, nVar) && k < |ps| && HasBounds(ps[k])
  }

  /** The update one visited body receives, given the outcome `a` of the orbit
      routine: nothing without both bounds or after a failed computation, otherwise
      each bound is compared with `a` on its own. */
  function UpdateBounds(b: Particle, a: Option<real>): (r: Particle)
    ensures r.state == b.state
    ensures r.minA.Some? == b.minA.Some? && r.maxA.Some? == b.maxA.Some?
    ensures !HasBounds(b) || a.None? ==> r == b
    ensures HasBounds(b) && a.Some? ==>
      r.minA.value <= b.minA.value && r.minA.value <= a.value &&
      (r.minA.value == b.minA.value || r.minA.value == a.value)
    ensures HasBounds(b) && a.Some? ==>
      r.maxA.value >= b.maxA.value && r.maxA.value >= a.value &&
      (r.maxA.value == b.maxA.value || r.maxA.value == a.value)
    ensures HasBounds(b) && a.Some? ==>
      (r == b <==> b.minA.value <= a.value <= b.maxA.value)
  {
    if HasBounds(b) && a.Some? then
      Particle(b.state,
               if a.value < b.minA.value then Some(a.value) else b.minA,
               if a.value > b.maxA.value then Some(a.value) else b.maxA)
    else
      b
  }

  /** The bodies after one call of the operator on bodies `ps`; the orbit of body
      `k` is taken relative to body 0 as it stands before the call. */
  function Track(ps: seq<Particle>, n: int, nVar: int, g: real, orbit: OrbitFn): (r: seq<Particle>)
    ensures |r| == |ps|
  {
    seq(|ps|, k requires 0 <= k < |ps| =>
      if InTrackedRange(k, n, nVar) then UpdateBounds(ps[k], orbit(g, ps[k].state, ps[0].state))
      else ps[k])
  }

  /** Body `k` after one call: visited bodies get `UpdateBounds` with the orbit
      relative to body 0, all others are copied. */
  lemma TrackAt(ps: seq<Particle>, n: int, nVar: int, g: real, orbit: OrbitFn, k: nat)
    requires k < |ps|
    ensures Track(ps, n, nVar, g, orbit)[k] ==
      if InTrackedRange(k, n, nVar) then UpdateBounds(ps[k], orbit(g, ps[k].state, ps[0].state))
      else ps[k]
  {
  }

  /** The operator itself: walks bodies 1 .. N-N_var-1 and updates the bounds of each
      opted-in body in place. `dt` and the operator handle are unused and left out. */
  method TrackMinmaxA(sim: Simulation, orbit: OrbitFn)
    requires sim.Valid()
    modifies sim.particles
    ensures sim.particles[..] == Track(old(sim.particles[..]), sim.n, sim.nVar, sim.g, orbit)
  {
    var a := sim.particles;
    ghost var pre := a[..];
    ghost var post := Track(pre, sim.n, sim.nVar, sim.g, orbit);
    assert forall k :: 0 <= k < |pre| ==>
      post[k] == if InTrackedRange(k, sim.n, sim.nVar)
                 then UpdateBounds(pre[k], orbit(sim.g, pre[k].state, pre[0].state))
                 else pre[k];
    var limit := sim.n - sim.nVar;
    var i := 1;
    while i < limit
      invariant 1 <= i && (i == 1 || i <= limit)
      invariant forall k :: 0 <= k < a.Length ==> a[k] == if k < i then post[k] else pre[k]
    {
      var minA := a[i].minA;
      var maxA := a[i].maxA;
      if minA.Some? && maxA.Some? {
        var source := a[0];
        var o := orbit(sim.g, a[i].state, source.state);
        if o.Some? {
          if o.value < a[i].minA.value {
            a[i] := a[i].(minA := Some(o.value));
          }
          if o.value > a[i].maxA.value {
            a[i] := a[i].(maxA := Some(o.value));
          }
        }
      }
      assert a[i] == post[i];
      i := i + 1;
    }
    assert a[..] == post;
  }
}
