# Bed-mesh validation, modelled in Dafny

This project models the decision engine of the Klipper plug-in
`validate_bed_mesh`. The plug-in checks that a stored bed mesh still matches
the bed. It probes a few points and compares each measured height with the
height the mesh predicts. When they differ by too much, it asks for a new mesh.

The model is functional. The printer's collaborators are parameters:

- the mesh's height lookup `calc_z` is an opaque function `(real, real) -> real`;
- the probe is an opaque function from a point to the Z of the first probe
  result, or `None` when the probe run raises an error;
- the plug-in's bound state is a `Setup`: travel speed, `horizontal_move_z`,
  the probe's lift speed and Z offset, and whether an MCU probe that needs
  arming is bound (a probe whose name starts with `probe_air`).

An operation returns the trace of actions it would issue. The actions are
moves, waits, dwells, the arming step, the four probe-session calls and
G-code scripts. It also returns the published status: the last mesh Z, the
last probed Z and the last deviation. Coordinates are exact `real`s.

Modules:

- `Trace` (trace.dfy): the action datatype, the queries used in the
  properties, and travel safety. Each query picks the matching actions out
  of a trace: XY travels, Z heights set, scripts run, probe calls or probe
  runs. Travel safety holds when no XY travel starts while the nozzle may be
  below travel height.
- `Motion` (motion.dfy): `_move_helper`.
- `Evaluator` (evaluator.dfy): `_validate_at` and `get_status`.
- `Arguments` (arguments.dfy): the MAX_DEVIATION and SAVE_CONFIG arguments.
- `Orchestrator` (orchestrator.dfy): `cmd_VALIDATE_BED_MESH`. This covers the
  five sample points, the early-exit loop, the final lift, and the choice
  between remeshing and returning to the centre.

`VALIDATE_BED_MESH_AT` is exactly one `Evaluator.ValidateAt` call followed by
three messages, so it has no member of its own.

## Behaviour worth noting

- The command reads only MAX_DEVIATION and SAVE_CONFIG. The mesh bounds come
  from the mesh's own status (`extras/validate_bed_mesh.py:125-129`).
- The "centre" is `(max_x/2, max_y/2)`, both as the third sample point and
  as the return point (:133, :155). It is the midpoint of the mesh only when
  the mesh minimum is `(0, 0)`, as `Orchestrator.CentreIsMidpointIff` proves.
- A breach always stops sampling and always runs `BED_MESH_CALIBRATE`
  (:141-150).
- The lift to travel height after the loop comes before the remesh-or-centre
  branch (:146). A breached run therefore ends with whatever the calibration
  leaves.
- The probe session is not closed when the probe run fails: there is no
  `finally` (:105-108). The modelled trace stops after the run call, and the
  status keeps the failed point's mesh Z, which is set first (:96-97).
- MAX_DEVIATION is not checked to be positive (:125). Any threshold is
  accepted.

## Model

| member | source | states |
|---|---|---|
| `Motion.MoveHelper` | extras/validate_bed_mesh.py:80-92 | A pair target is padded with no Z and a triple is passed unchanged. The one move is first and is followed by a wait. The speed is the travel speed when Z is absent and the lift speed when Z is given. The dwell, `home_zero`, dwell arming triple follows the wait if and only if an MCU probe is bound; otherwise nothing follows. |
| `Evaluator.ValidateAt` | extras/validate_bed_mesh.py:94-111 | The published mesh Z is `calc_z(x, y)`. When the probe yields raw Z, probed Z is raw Z minus the probe's Z offset and deviation is probed Z minus mesh Z. When the probe run fails, only the mesh Z changes. |
| `Evaluator.ValidateAtOrder` | extras/validate_bed_mesh.py:99-108 | The trace starts with a Z-only lift to `horizontal_move_z` at lift speed. It has exactly one XY travel, to `(x, y)` with no Z, and that travel is made at travel height. There is exactly one probe run. The probe calls are start, run, pull, end (only start, run when the run fails), and they end the trace, after both moves. No script runs. |
| `Evaluator.GetStatus` | extras/validate_bed_mesh.py:74-78 | The status has exactly the keys `last_mesh_z`, `last_probed_z` and `last_deviation`. |
| `Evaluator.StatusBeforeEvaluation` | extras/validate_bed_mesh.py:20-22 | Before any evaluation, every value `get_status` reports is zero. |
| `Evaluator.StatusAfterValidate` | extras/validate_bed_mesh.py:96-111 | After an evaluation whose probe yields raw Z, `get_status` reports `calc_z(x, y)`, raw Z minus the Z offset, and their difference. |
| `Arguments.SaveConfigSpellings` | extras/validate_bed_mesh.py:126 | SAVE_CONFIG is on exactly when its text is a case-variant of `TRUE`: four characters, each equal to `T`, `R`, `U`, `E` ignoring case. |
| `Arguments.SaveConfigDefault` | extras/validate_bed_mesh.py:126 | Without a SAVE_CONFIG argument the configuration is not saved. |
| `Orchestrator.DefaultThresholdBoundary` | extras/validate_bed_mesh.py:125-141 | Without MAX_DEVIATION the threshold is exactly 0.05; with it, the threshold is the given value. For every threshold m, a deviation d is a breach if and only if d > m or d < -m, so a deviation equal to the threshold in magnitude is within it; in particular ±0.05 is within the default and ±0.06 is not. |
| `Orchestrator.CentreIsMidpointIff` | extras/validate_bed_mesh.py:131-135 | The centre point `(max_x/2, max_y/2)` equals the mesh midpoint if and only if the mesh minimum is `(0, 0)`. |
| `Orchestrator.ValidateBedMesh` | extras/validate_bed_mesh.py:124-156 | The run samples the five points built from the mesh bounds with the resolved threshold. Its trace begins with the sampling loop's trace. A failed probe ends the run there. |
| `Orchestrator.SweepPoints` | extras/validate_bed_mesh.py:137-143 | The loop never opens more probe sessions than there are points. |
| `Orchestrator.SweepRecords` | extras/validate_bed_mesh.py:137-143 | The i-th evaluated point is the i-th listed point and holds what the mesh and probe give there. A point exceeds the threshold if and only if it is the last one evaluated and the loop ended on a breach. Without a breach or failure, every point is evaluated. The published status is the last point's, or the failed point's mesh Z over the previous values. |
| `Orchestrator.SweepTravels` | extras/validate_bed_mesh.py:137-139 | The loop travels to exactly the attempted points, in order, and to no later point. It probes once per attempted point. |
| `Orchestrator.SweepHeights` | extras/validate_bed_mesh.py:137-139 | The loop sets Z once per attempted point, always to `horizontal_move_z`, and runs no script. |
| `Orchestrator.SweepSafe` | extras/validate_bed_mesh.py:99-103 | Every XY travel in the loop is made at travel height, whatever height the loop starts at. |
| `Orchestrator.SweepStopsAt` | extras/validate_bed_mesh.py:141-143 | If the probe succeeds at points 0..i, none of points 0..i-1 breaches and point i does, then the loop stops on a breach after exactly i+1 points. |
| `Orchestrator.FirstBreachStops` | extras/validate_bed_mesh.py:137-150 | Under those conditions on the five sample points, the command probes and travels to exactly the first i+1 points. It then runs `BED_MESH_CALIBRATE`, followed by `SAVE_CONFIG` only when requested. |
| `Orchestrator.CleanRunRecentres` | extras/validate_bed_mesh.py:137-156 | When every point probes successfully within the threshold, all five are probed in order and no script runs. The last travel is to `(max_x/2, max_y/2)`, and the status is the fifth point's. |
| `Orchestrator.LiftBeforeEveryTravel` | extras/validate_bed_mesh.py:101-155 | The whole run is travel-safe from an unknown starting height. No XY travel starts unless the latest Z move raised the nozzle to `horizontal_move_z` and no probe run or script has happened since. In particular, every XY travel is preceded by such a lift. |
| `Orchestrator.RemeshOrRecentre` | extras/validate_bed_mesh.py:146-156 | The scripts run are `BED_MESH_CALIBRATE` (plus `SAVE_CONFIG` exactly when requested) after a breach, and none otherwise. The travels are the attempted points, plus the centre only after a clean sweep. So remesh and re-centre exclude each other. |
| `Orchestrator.OneFinalLift` | extras/validate_bed_mesh.py:145-146 | Right after the loop comes the single lift to `horizontal_move_z`, and it is the only Z move after the loop. Nothing is probed after the loop. A failed probe leaves no final lift. |
| `Orchestrator.SaveOnlyAfterCalibrate` | extras/validate_bed_mesh.py:150-152 | Every `SAVE_CONFIG` in the trace immediately follows a `BED_MESH_CALIBRATE`. |

## Left out

- Klipper wiring: the `__init__` configuration reads, event and command
  registration, and `load_config`. This is host plumbing. The configured
  `speed` and `horizontal_move_z` are fields of `Setup`.
- `_handle_connect`: the object lookups and the errors raised when the mesh
  or probe is missing. This is lifecycle I/O. Only its result is modelled,
  as `Setup`. The probe's X/Y offsets are read but never used, so they are
  not modelled.
- The toolhead, the probe hardware and the mesh interpolation. These are
  foreign code and appear only as the oracles above. A probe reading depends
  only on the point, so probing the same point twice gives the same value.
- Message output (`respond_info`) and the printing and float parsing in
  `VALIDATE_BED_MESH_AT`. These are presentation only. An unparsable
  MAX_DEVIATION is rejected by `gcmd.get_float` at the start of the command,
  before any action, so the model takes it already parsed or absent.
- Errors from moves, from the mesh lookup `calc_z`, from
  `BED_MESH_CALIBRATE` and from `SAVE_CONFIG`. These are host exceptions that
  propagate unchanged. A failing `calc_z` (:96) raises before any motion for
  that point, but the model treats `calc_z` as a total function. Only a
  failing probe run is modelled, as the trace stopping.
- The session calls other than `run_probe` failing. A failure in
  `start_probe_session` or `pull_probed_results` is not told apart from a
  failing run.
- `Arguments.SaveConfigSpellings`: upper-casing is ASCII only. Python's
  `str.upper` also maps non-ASCII letters, which this model does not.
- IEEE floating point: coordinates and heights are exact reals, and halving
  is exact.
- Concurrency: the host runs one command at a time, so none is modelled.
