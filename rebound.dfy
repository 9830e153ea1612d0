/** The parts of the host simulation that the semi-major-axis tracker reads or writes. */
module Rebound {
  import opened Wrappers

  /** Cartesian state of one body: position, velocity and mass. The integrator owns
      it; the tracker only reads it. */
  datatype State = State(x: real, y: real, z: real, vx: real, vy: real, vz: real, m: real)

  /** One body together with the two optional tracking attributes attached to it
      (`min_a` and `max_a`). `None` means the attribute is not attached. */
  datatype Particle = Particle(state: State, minA: Option<real>, maxA: Option<real>)

  /** The external orbit routine: given G, the body's state and the reference body's
      state, the osculating semi-major axis of the relative orbit, or `None` when the
      routine reports an error. */
  type OrbitFn = (real, State, State) -> Option<real>

  /** The simulation handle: the body array, the body count `N`, the number `N_var`
      of trailing variational bodies and the gravitational constant. */
  class Simulation {
    var particles: array<Particle>
    var n: nat
    var nVar: nat
    var g: real

    /** The first `n` slots of the array hold the bodies; the host may allocate more. */
    ghost predicate Valid()
      reads this
    {
      n <= particles.Length
    }

    constructor (bodies: seq<Particle>, variational: nat, gravity: real)
      ensures Valid() && fresh(particles)
      ensures particles[..] == bodies && n == |bodies|
      ensures nVar == variational && g == gravity
    {
      particles := new Particle[|bodies|](k requires 0 <= k < |bodies| => bodies[k]);
      n := |bodies|;
      nVar := variational;
      g := gravity;
    }
  }
}
