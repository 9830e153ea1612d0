/** What one call of the operator promises, stated about its specification `Track`
    (the method `MinmaxA.TrackMinmaxA` is proved to produce exactly `Track` of the
    bodies it was given). */
module MinmaxAProperties {
  import opened Wrappers
  import opened Rebound
  import opened MinmaxA

  /** Reference definitions of the smaller and the larger of two reals. */
  function Min(x: real, y: real): real
  {
    if x <= y then x else y
  }

  function Max(x: real, y: real): real
  {
    if x >= y then x else y
  }

  /** The reference body 0 is never modified, whatever attributes it carries. */
  lemma ReferenceUnchanged(ps: seq<Particle>, n: int, nVar: int, g: real, orbit: OrbitFn)
    requires |ps| > 0
    ensures Track(ps, n, nVar, g, orbit)[0] == ps[0]
  {
    TrackAt(ps, n, nVar, g, orbit, 0);
  }

  /** The trailing `nVar` variational bodies are never modified. */
  lemma VariationalUnchanged(ps: seq<Particle>, n: int, nVar: int, g: real, orbit: OrbitFn)
    ensures forall k :: n - nVar <= k < |ps| && 0 <= k ==> Track(ps, n, nVar, g, orbit)[k] == ps[k]
  {
    forall k | n - nVar <= k < |ps| && 0 <= k {
      TrackAt(ps, n, nVar, g, orbit, k);
    }
  }

  /** No body's Cartesian state is written, and no attribute is created or removed. */
  lemma StateAndAttributesKept(ps: seq<Particle>, n: int, nVar: int, g: real, orbit: OrbitFn)
    ensures forall k :: 0 <= k < |ps| ==>
      var b := Track(ps, n, nVar, g, orbit)[k];
      b.state == ps[k].state && b.minA.Some? == ps[k].minA.Some? && b.maxA.Some? == ps[k].maxA.Some?
  {
    forall k | 0 <= k < |ps| {
      TrackAt(ps, n, nVar, g, orbit, k);
    }
  }

  /** A body the operator does not track (index 0, a variational body, or one lacking
      either attribute) is left exactly as it was. */
  lemma IneligibleUnchanged(ps: seq<Particle>, n: int, nVar: int, g: real, orbit: OrbitFn)
    ensures forall k :: 0 <= k < |ps| && !Eligible(ps, k, n, nVar) ==> Track(ps, n, nVar, g, orbit)[k] == ps[k]
  {
    forall k | 0 <= k < |ps| && !Eligible(ps, k, n, nVar) {
      TrackAt(ps, n, nVar, g, orbit, k);
    }
  }

  /** A body whose orbit computation reports an error keeps both bounds. */
  lemma FailedOrbitUnchanged(ps: seq<Particle>, n: int, nVar: int, g: real, orbit: OrbitFn, k: nat)
    requires k < |ps|
    requires orbit(g, ps[k].state, ps[0].state).None?
    ensures Track(ps, n, nVar, g, orbit)[k] == ps[k]
  {
    TrackAt(ps, n, nVar, g, orbit, k);
  }

  /** For a tracked body the lower bound never rises and the upper bound never drops. */
  lemma BoundsWiden(ps: seq<Particle>, n: int, nVar: int, g: real, orbit: OrbitFn, k: nat)
    requires Eligible(ps, k, n, nVar)
    ensures var b := Track(ps, n, nVar, g, orbit)[k];
      HasBounds(b) && b.minA.value <= ps[k].minA.value && b.maxA.value >= ps[k].maxA.value
  {
    TrackAt(ps, n, nVar, g, orbit, k);
  }

  /** After a successful orbit computation giving `a`, the new bounds are the minimum
      and the maximum of `a` and the old bounds, each taken against its own old value. */
  lemma BoundsAreRunningMinMax(ps: seq<Particle>, n: int, nVar: int, g: real, orbit: OrbitFn, k: nat, a: real)
    requires Eligible(ps, k, n, nVar)
    requires orbit(g, ps[k].state, ps[0].state) == Some(a)
    ensures var b := Track(ps, n, nVar, g, orbit)[k];
      b.minA == Some(Min(ps[k].minA.value, a)) && b.maxA == Some(Max(ps[k].maxA.value, a))
  {
    TrackAt(ps, n, nVar, g, orbit, k);
  }

  /** A tracked body is left unchanged exactly when its orbit computation fails or
      yields a value already inside its stored range: the range is never re-tightened. */
  lemma UnchangedIffInsideRange(ps: seq<Particle>, n: int, nVar: int, g: real, orbit: OrbitFn, k: nat)
    requires Eligible(ps, k, n, nVar)
    ensures var o := orbit(g, ps[k].state, ps[0].state);
      Track(ps, n, nVar, g, orbit)[k] == ps[k] <==>
        (o.None? || ps[k].minA.value <= o.value <= ps[k].maxA.value)
  {
    TrackAt(ps, n, nVar, g, orbit, k);
  }

  /** With the bodies' states unchanged, a second call leaves the bounds as the first
      call set them. */
  lemma Idempotent(ps: seq<Particle>, n: int, nVar: int, g: real, orbit: OrbitFn)
    ensures Track(Track(ps, n, nVar, g, orbit), n, nVar, g, orbit) == Track(ps, n, nVar, g, orbit)
  {
    var r := Track(ps, n, nVar, g, orbit);
    var rr := Track(r, n, nVar, g, orbit);
    forall k | 0 <= k < |ps| ensures rr[k] == r[k] {
      TrackAt(ps, n, nVar, g, orbit, k);
      TrackAt(r, n, nVar, g, orbit, k);
      TrackAt(ps, n, nVar, g, orbit, 0);
    }
  }
}
