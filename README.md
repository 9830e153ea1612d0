# Semi-major-axis range tracking (REBOUNDx `track_minmax_a`), in Dafny

This project models the REBOUNDx operator `rebx_track_minmax_a`. The host simulation runs it
once per integration step. It visits the bodies `1 .. N-N_var-1`. The reference body 0 and the
trailing block of `N_var` variational bodies are skipped. A visited body is tracked only if it
already carries both the `min_a` and the `max_a` attribute. For a tracked body, the external
orbit routine computes the osculating semi-major axis `a` relative to body 0, using `G`. If that
routine reports an error, the body is left alone. Otherwise `min_a` is lowered to `a` when `a`
is smaller, and `max_a` is raised to `a` when `a` is larger. Each comparison uses that bound's
own stored value.

Files and modules:

- `wrappers.dfy` (`Wrappers`): the `Option` type.
- `rebound.dfy` (`Rebound`): what the tracker touches in the host.
  - `State` is a body's Cartesian state and mass.
  - `Particle` is a state plus the two optional attributes.
  - `OrbitFn` is the type of the external orbit routine.
  - `Simulation` is the handle: the body array, `N`, `N_var` and `G`.
- `track_minmax_a.dfy` (`MinmaxA`): the operator.
  - `UpdateBounds` is the update of one body.
  - `Track` is the specification of one whole call, as a function of the bodies before the call.
  - `TrackMinmaxA` is the in-place loop over the body array. It is proved to leave the array equal to `Track` of the old array.
- `track_minmax_a_properties.dfy` (`MinmaxAProperties`): what one call promises, proved about `Track`.
- `track_minmax_a_steps.dfy` (`MinmaxASteps`): the operator over many steps. The integrator between two calls is an arbitrary new set of states. The result is that the bounds are exactly the running minimum and maximum of their start values and of every computed semi-major axis.

The orbit routine `reb_tools_particle_to_orbit_err` is a function-valued parameter
`(G, body state, reference state) -> Option<real>`. `None` stands for its error flag. It sees only
Cartesian states, never the bounds. The operator reads the reference body from the array on
every visit, as the source does. Body 0 is never written, so this is its state before the call.

## Model

| member | source | states |
|---|---|---|
| `MinmaxA.UpdateBounds` | src/track_minmax_a.c:73-86 | Keeps the state. Creates and removes no attribute. Returns the body unchanged when either bound is missing or the orbit failed. Otherwise the new `min_a` is the smaller of the old `min_a` and `a`, and the new `max_a` is the larger of the old `max_a` and `a`. The body is unchanged exactly when `a` lies in `[min_a, max_a]`. |
| `MinmaxA.TrackMinmaxA` | src/track_minmax_a.c:64-89 | The in-place loop over indices `1 <= i < N - N_var` leaves the body array equal to `Track` of the array before the call. The loop invariant says that the visited prefix is done and the rest is untouched. |
| `MinmaxAProperties.ReferenceUnchanged` | src/track_minmax_a.c:67 | Body 0 is never modified, even when it carries `min_a`/`max_a`. |
| `MinmaxAProperties.VariationalUnchanged` | src/track_minmax_a.c:66-67 | Every body with index `>= N - N_var` is never modified. |
| `MinmaxAProperties.StateAndAttributesKept` | src/track_minmax_a.c:68-85 | No body's position, velocity or mass changes. No `min_a`/`max_a` attribute is created or removed. |
| `MinmaxAProperties.IneligibleUnchanged` | src/track_minmax_a.c:70-73 | A body that is not tracked (index 0, a variational body, or one lacking either attribute) is left exactly as it was. |
| `MinmaxAProperties.FailedOrbitUnchanged` | src/track_minmax_a.c:76-79 | When the orbit routine reports an error for a body, that body is identical before and after the call. |
| `MinmaxAProperties.BoundsWiden` | src/track_minmax_a.c:80-85 | For a tracked body, the new `min_a` is at most the old one and the new `max_a` is at least the old one. |
| `MinmaxAProperties.BoundsAreRunningMinMax` | src/track_minmax_a.c:80-85 | After a successful computation of `a`, the new `min_a` is `Min(old min_a, a)` and the new `max_a` is `Max(old max_a, a)`. `Min` and `Max` are independent reference definitions. |
| `MinmaxAProperties.UnchangedIffInsideRange` | src/track_minmax_a.c:76-85 | A tracked body is left unchanged if and only if the orbit failed or `old min_a <= a <= old max_a`. So a wide range is never re-tightened. |
| `MinmaxAProperties.Idempotent` | src/track_minmax_a.c:64-89 | If the bodies' states do not change, calling the operator twice gives the same bodies as calling it once. |
| `MinmaxASteps.OneStep` | src/track_minmax_a.c:67-86 | After the integrator sets new states and the operator runs, attributes are neither created nor removed. Untracked bodies keep their bounds. Tracked bodies get `UpdateBounds` with the orbit for the new states. |
| `MinmaxASteps.EvolveFrame` | src/track_minmax_a.c:66-73 | Over any number of steps, no attribute is created or removed, and the bounds of every untracked body stay the same. |
| `MinmaxASteps.EvolveEncloses` | src/track_minmax_a.c:79-85 | Over any number of steps, a tracked body's bounds contain the starting range and every semi-major axis that was successfully computed for it. |
| `MinmaxASteps.EvolveAttained` | src/track_minmax_a.c:79-85 | Over any number of steps, each bound of a tracked body is either its starting value or a semi-major axis actually computed for it at some step. |
| `MinmaxASteps.NeverRetightened` | src/track_minmax_a.c:80-85 | If every semi-major axis computed for a tracked body lies inside its starting range, its bounds never change, however many steps are taken. |

## Left out

- `reb_tools_particle_to_orbit_err` (the osculating-element derivation) is not part of this model. It is an arbitrary function parameter that returns `None` for its error flag.
- `rebx_get_param` (the string-keyed attribute store) is not part of this model. It is replaced by two optional fields on each body. The model does not capture one attribute list shared by several bodies.
- Double-precision arithmetic: bounds and `a` are mathematical reals. The model does not capture NaN. A NaN `a` would fail both comparisons in the source and leave the bounds alone. A NaN stored bound has no counterpart either. The sign of `a` for hyperbolic orbits is passed through unchanged, as in the source.
- The unused `dt` and `operator` arguments, the `sim->extras` handle, and registering the operator with the host scheduler.
- The integrator itself. Between two calls, `MinmaxASteps` lets it replace the Cartesian states arbitrarily and leave the attributes alone.
