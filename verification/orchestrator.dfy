/**
 * VALIDATE_BED_MESH: evaluate five fixed points of the mesh in order, stop at
 * the first point whose deviation exceeds the threshold, lift to travel
 * height, then either recalibrate the mesh (and optionally save the
 * configuration) or return to the centre.
 */
module Orchestrator {
  import opened Wrappers
  import opened Trace
  import opened Motion
  import opened Evaluator
  import opened Arguments

  const CalibrateScript: string := "BED_MESH_CALIBRATE"
  const SaveConfigScript: string := "SAVE_CONFIG"

  /** The point the run calls the centre: half the mesh maximum on each axis. */
  function Centre(meshMax: Point): Point {
    Point(meshMax.x / 2.0, meshMax.y / 2.0)
  }

  /** The midpoint of the mesh rectangle. */
  function Midpoint(meshMin: Point, meshMax: Point): Point {
    Point(meshMin.x + (meshMax.x - meshMin.x) / 2.0, meshMin.y + (meshMax.y - meshMin.y) / 2.0)
  }

  /** The centre the run uses is the mesh midpoint exactly when the mesh starts at the origin. */
  lemma CentreIsMidpointIff(meshMin: Point, meshMax: Point)
    ensures Centre(meshMax) == Midpoint(meshMin, meshMax) <==> meshMin.x == 0.0 && meshMin.y == 0.0
  {
  }

  /** The five sample points, in the order they are visited. */
  function SamplePoints(meshMin: Point, meshMax: Point): seq<Point> {
    [ Point(meshMin.x, meshMin.y),
      Point(meshMin.x, meshMax.y),
      Centre(meshMax),
      Point(meshMax.x, meshMin.y),
      Point(meshMax.x, meshMax.y) ]
  }

  function Abs(d: real): real {
    if d < 0.0 then -d else d
  }

  /** A breach: the deviation's magnitude is strictly above the threshold. */
  predicate Exceeds(deviation: real, maxDeviation: real) {
    Abs(deviation) > maxDeviation
  }

  /**
   * Without MAX_DEVIATION the threshold is 0.05, with it the threshold is the
   * given value, and for every threshold the comparison is strict in both
   * directions: a deviation of exactly the threshold either way is within it.
   */
  lemma DefaultThresholdBoundary()
    ensures MaxDeviation(None) == 0.05
    ensures forall m :: MaxDeviation(Some(m)) == m
    ensures forall d, m :: Exceeds(d, m) <==> d > m || d < -m
    ensures !Exceeds(0.05, MaxDeviation(None)) && !Exceeds(-0.05, MaxDeviation(None))
    ensures Exceeds(0.06, MaxDeviation(None)) && Exceeds(-0.06, MaxDeviation(None))
  {
  }

  /** One evaluated point and the values it published. */
  datatype Record = Record(at: Point, values: Status)

  /** `rec` holds what the mesh and the probe give at its point. */
  predicate Agrees(s: Setup, calcZ: MeshQuery, probe: ProbeQuery, rec: Record) {
    var p := rec.at;
    && probe(p.x, p.y).Some?
    && rec.values.meshZ == calcZ(p.x, p.y)
    && rec.values.probedZ == probe(p.x, p.y).value - s.probeZOffset
    && rec.values.deviation == rec.values.probedZ - rec.values.meshZ
  }

  /** Whether the probe at `p` succeeds with a deviation beyond the threshold. */
  predicate BreachAt(s: Setup, calcZ: MeshQuery, probe: ProbeQuery, p: Point, maxDeviation: real) {
    && probe(p.x, p.y).Some?
    && Exceeds(probe(p.x, p.y).value - s.probeZOffset - calcZ(p.x, p.y), maxDeviation)
  }

  datatype Verdict = AllWithin | Breached | ProbeFailed

  /**
   * The outcome of the sampling loop: the evaluated points, the trace, the
   * status left behind and why the loop ended.
   */
  datatype Sweep = Sweep(records: seq<Record>, trace: seq<Action>, status: Status, verdict: Verdict) {
    /** The number of points at which a probe session was opened. */
    function Attempted(): nat {
      |records| + (if verdict == ProbeFailed then 1 else 0)
    }
  }

  /** The values of the last record, or `st` when there is none. */
  function LastOr(records: seq<Record>, st: Status): Status {
    if |records| == 0 then st else records[|records| - 1].values
  }

  function SweepPoints(s: Setup, st: Status, calcZ: MeshQuery, probe: ProbeQuery,
                       ps: seq<Point>, maxDeviation: real): (r: Sweep)
    decreases |ps|
    ensures r.Attempted() <= |ps|
  {
    if |ps| == 0 then Sweep([], [], st, AllWithin)
    else
      var step := ValidateAt(s, st, calcZ, probe, ps[0]);
      if !step.probed then Sweep([], step.trace, step.status, ProbeFailed)
      else
        var rec := Record(ps[0], step.status);
        if Exceeds(rec.values.deviation, maxDeviation) then
          Sweep([rec], step.trace, step.status, Breached)
        else
          var rest := SweepPoints(s, step.status, calcZ, probe, ps[1..], maxDeviation);
          Sweep([rec] + rest.records, step.trace + rest.trace, rest.status, rest.verdict)
  }

  /**
   * The sampling loop visits the points in order and stops right after the
   * first breach: every evaluated point holds what the mesh and the probe give
   * there, only the last one can exceed the threshold, and it does exactly
   * when the loop ended on a breach. Without a breach or a probe failure all
   * points are evaluated. The published status is that of the last evaluated
   * point; a failed probe leaves only its mesh height published.
   */
  lemma {:induction false} SweepRecords(s: Setup, st: Status, calcZ: MeshQuery, probe: ProbeQuery,
                                        ps: seq<Point>, maxDeviation: real)
    ensures var r := SweepPoints(s, st, calcZ, probe, ps, maxDeviation);
      && (forall i :: 0 <= i < |r.records| ==>
            r.records[i].at == ps[i] && Agrees(s, calcZ, probe, r.records[i]))
      && (forall i :: 0 <= i < |r.records| ==>
            (Exceeds(r.records[i].values.deviation, maxDeviation)
             <==> r.verdict == Breached && i == |r.records| - 1))
      && (r.verdict == AllWithin ==> |r.records| == |ps|)
      && (r.verdict == Breached ==> |r.records| > 0)
      && (r.verdict == ProbeFailed ==> probe(ps[|r.records|].x, ps[|r.records|].y).None?)
      && (r.verdict != ProbeFailed ==> r.status == LastOr(r.records, st))
      && (r.verdict == ProbeFailed ==>
            r.status == LastOr(r.records, st).(meshZ := calcZ(ps[|r.records|].x, ps[|r.records|].y)))
    decreases |ps|
  {
    if |ps| > 0 {
      var step := ValidateAt(s, st, calcZ, probe, ps[0]);
      if step.probed {
        var rec := Record(ps[0], step.status);
        if !Exceeds(rec.values.deviation, maxDeviation) {
          SweepRecords(s, step.status, calcZ, probe, ps[1..], maxDeviation);
        }
      }
    }
  }

  /** The XY travel targets for a sequence of points. */
  function Targets(ps: seq<Point>): (r: seq<Coord>)
    ensures |r| == |ps|
  {
    seq(|ps|, i requires 0 <= i < |ps| => XYTarget(ps[i]))
  }

  /** How the sampling loop's trace is built from its first evaluation and the rest of the loop. */
  lemma SweepUnfold(s: Setup, st: Status, calcZ: MeshQuery, probe: ProbeQuery,
                    ps: seq<Point>, maxDeviation: real)
    requires |ps| > 0
    ensures var r := SweepPoints(s, st, calcZ, probe, ps, maxDeviation);
      var step := ValidateAt(s, st, calcZ, probe, ps[0]);
      var rest := SweepPoints(s, step.status, calcZ, probe, ps[1..], maxDeviation);
      if r.Attempted() == 1 && r.trace == step.trace then true
      else r.trace == step.trace + rest.trace && r.Attempted() == rest.Attempted() + 1
  {
  }

  lemma TargetsCons(ps: seq<Point>, k: nat)
    requires 0 < k <= |ps|
    ensures Targets(ps[..k]) == [XYTarget(ps[0])] + Targets(ps[1..][..k - 1])
  {
    assert ps[..k] == [ps[0]] + ps[1..][..k - 1];
  }

  /**
   * The sampling loop travels to exactly the attempted points, in order, and
   * to no later point, and probes once per attempted point.
   */
  lemma {:induction false} SweepTravels(s: Setup, st: Status, calcZ: MeshQuery, probe: ProbeQuery,
                                        ps: seq<Point>, maxDeviation: real)
    ensures var r := SweepPoints(s, st, calcZ, probe, ps, maxDeviation);
      && Travels(r.trace) == Targets(ps[..r.Attempted()])
      && ProbeRuns(r.trace) == r.Attempted()
    decreases |ps|
  {
    var r := SweepPoints(s, st, calcZ, probe, ps, maxDeviation);
    if |ps| > 0 {
      var step := ValidateAt(s, st, calcZ, probe, ps[0]);
      var rest := SweepPoints(s, step.status, calcZ, probe, ps[1..], maxDeviation);
      ValidateAtQueries(s, st, calcZ, probe, ps[0]);
      SweepUnfold(s, st, calcZ, probe, ps, maxDeviation);
      if r.Attempted() == 1 && r.trace == step.trace {
        assert Targets(ps[..1]) == [XYTarget(ps[0])];
      } else {
        SweepTravels(s, step.status, calcZ, probe, ps[1..], maxDeviation);
        var k := r.Attempted();
        SelectAppend(step.trace, rest.trace, TravelOf);
        SelectAppend(step.trace, rest.trace, RunOf);
        TargetsCons(ps, k);
      }
    }
  }

  /** The sampling loop lifts once per attempted point, always to travel height, and runs no script. */
  lemma {:induction false} SweepHeights(s: Setup, st: Status, calcZ: MeshQuery, probe: ProbeQuery,
                                        ps: seq<Point>, maxDeviation: real)
    ensures var r := SweepPoints(s, st, calcZ, probe, ps, maxDeviation);
      && |ZMoves(r.trace)| == r.Attempted()
      && (forall i :: 0 <= i < |ZMoves(r.trace)| ==> ZMoves(r.trace)[i] == s.horizontalMoveZ)
      && Scripts(r.trace) == []
    decreases |ps|
  {
    var r := SweepPoints(s, st, calcZ, probe, ps, maxDeviation);
    if |ps| > 0 {
      var step := ValidateAt(s, st, calcZ, probe, ps[0]);
      var rest := SweepPoints(s, step.status, calcZ, probe, ps[1..], maxDeviation);
      ValidateAtQueries(s, st, calcZ, probe, ps[0]);
      SweepUnfold(s, st, calcZ, probe, ps, maxDeviation);
      if !(r.Attempted() == 1 && r.trace == step.trace) {
        SweepHeights(s, step.status, calcZ, probe, ps[1..], maxDeviation);
        SelectAppend(step.trace, rest.trace, ZOf);
        SelectAppend(step.trace, rest.trace, ScriptOf);
      }
    }
  }

  /** Every travel of the sampling loop is made at travel height; a probe run ends it low. */
  lemma {:induction false} SweepSafe(s: Setup, st: Status, calcZ: MeshQuery, probe: ProbeQuery,
                                     ps: seq<Point>, maxDeviation: real, lifted: bool)
    ensures var r := SweepPoints(s, st, calcZ, probe, ps, maxDeviation);
      && SafeFrom(r.trace, s.horizontalMoveZ, lifted)
      && (r.Attempted() == 0 ==> r.trace == [])
      && (r.Attempted() > 0 ==> !LiftedAfterAll(r.trace, s.horizontalMoveZ, lifted))
    decreases |ps|
  {
    var r := SweepPoints(s, st, calcZ, probe, ps, maxDeviation);
    if |ps| > 0 {
      var step := ValidateAt(s, st, calcZ, probe, ps[0]);
      var rest := SweepPoints(s, step.status, calcZ, probe, ps[1..], maxDeviation);
      ValidateAtSafe(s, st, calcZ, probe, ps[0], lifted);
      SweepUnfold(s, st, calcZ, probe, ps, maxDeviation);
      if !(r.Attempted() == 1 && r.trace == step.trace) {
        SweepSafe(s, step.status, calcZ, probe, ps[1..], maxDeviation, false);
        SafeAppend(step.trace, rest.trace, s.horizontalMoveZ, lifted);
      }
    }
  }

  /** The arguments of one VALIDATE_BED_MESH command, already parsed. */
  datatype Args = Args(maxDeviation: Option<real>, saveConfig: Option<string>)

  /** A whole run: its sampling loop and its complete trace. */
  datatype Run = Run(sweep: Sweep, trace: seq<Action>)

  /** The actions after a completed sampling loop: recalibrate (and maybe save), or go to the centre. */
  function Finish(s: Setup, meshMax: Point, breached: bool, save: bool): seq<Action> {
    if breached then
      [RunScript(CalibrateScript)] + (if save then [RunScript(SaveConfigScript)] else [])
    else
      var c := Centre(meshMax);
      TravelTo(s, c.x, c.y)
  }

  function ValidateBedMesh(s: Setup, st: Status, calcZ: MeshQuery, probe: ProbeQuery,
                           meshMin: Point, meshMax: Point, args: Args): (r: Run)
    ensures r.sweep == SweepPoints(s, st, calcZ, probe, SamplePoints(meshMin, meshMax),
                                   MaxDeviation(args.maxDeviation))
    ensures |r.sweep.trace| <= |r.trace| && r.trace[..|r.sweep.trace|] == r.sweep.trace
    ensures r.sweep.verdict == ProbeFailed ==> r.trace == r.sweep.trace
  {
    var sw := SweepPoints(s, st, calcZ, probe, SamplePoints(meshMin, meshMax),
                          MaxDeviation(args.maxDeviation));
    if sw.verdict == ProbeFailed then Run(sw, sw.trace)
    else
      var tail := Lift(s) + Finish(s, meshMax, sw.verdict == Breached, SaveConfig(args.saveConfig));
      assert (sw.trace + tail)[..|sw.trace|] == sw.trace;
      Run(sw, sw.trace + tail)
  }

  /** The actions after the sampling loop, when it did not fail. */
  lemma FinishShape(s: Setup, st: Status, calcZ: MeshQuery, probe: ProbeQuery,
                    meshMin: Point, meshMax: Point, args: Args)
    ensures var r := ValidateBedMesh(s, st, calcZ, probe, meshMin, meshMax, args);
      r.sweep.verdict != ProbeFailed ==>
        r.trace == r.sweep.trace + Lift(s)
                   + Finish(s, meshMax, r.sweep.verdict == Breached, SaveConfig(args.saveConfig))
  {
  }

  /** Every XY travel of a run, the return to the centre included, is preceded by a lift to travel height. */
  lemma LiftBeforeEveryTravel(s: Setup, st: Status, calcZ: MeshQuery, probe: ProbeQuery,
                              meshMin: Point, meshMax: Point, args: Args)
    ensures var r := ValidateBedMesh(s, st, calcZ, probe, meshMin, meshMax, args);
      && SafeFrom(r.trace, s.horizontalMoveZ, false)
      && forall j :: 0 <= j < |r.trace| && IsTravel(r.trace[j]) ==>
           exists i :: 0 <= i < j && RaisesTo(r.trace[i], s.horizontalMoveZ)
  {
    var r := ValidateBedMesh(s, st, calcZ, probe, meshMin, meshMax, args);
    RunSafe(s, st, calcZ, probe, meshMin, meshMax, args);
    SafeMeansRaisedBefore(r.trace, s.horizontalMoveZ, false);
  }

  lemma RunSafe(s: Setup, st: Status, calcZ: MeshQuery, probe: ProbeQuery,
                meshMin: Point, meshMax: Point, args: Args)
    ensures var r := ValidateBedMesh(s, st, calcZ, probe, meshMin, meshMax, args);
      SafeFrom(r.trace, s.horizontalMoveZ, false)
  {
    var r := ValidateBedMesh(s, st, calcZ, probe, meshMin, meshMax, args);
    var hz := s.horizontalMoveZ;
    var sw := r.sweep;
    SweepSafe(s, st, calcZ, probe, SamplePoints(meshMin, meshMax), MaxDeviation(args.maxDeviation), false);
    if sw.verdict != ProbeFailed {
      FinishShape(s, st, calcZ, probe, meshMin, meshMax, args);
      var fin := Finish(s, meshMax, sw.verdict == Breached, SaveConfig(args.saveConfig));
      var after := LiftedAfterAll(sw.trace, hz, false);
      HelperSafe(s, Triple(None, None, Some(hz)), hz, after);
      FinishSafe(s, meshMax, sw.verdict == Breached, SaveConfig(args.saveConfig));
      SafeAppend(Lift(s), fin, hz, after);
      SafeAppend(sw.trace, Lift(s) + fin, hz, false);
      assert r.trace == sw.trace + (Lift(s) + fin);
    }
  }

  /** After a lift, either ending is safe. */
  lemma FinishSafe(s: Setup, meshMax: Point, breached: bool, save: bool)
    ensures SafeFrom(Finish(s, meshMax, breached, save), s.horizontalMoveZ, true)
  {
    var c := Centre(meshMax);
    if breached {
      var tail: seq<Action> := if save then [RunScript(SaveConfigScript)] else [];
      SafeAppend([RunScript(CalibrateScript)], tail, s.horizontalMoveZ, true);
      SafeOne(RunScript(CalibrateScript), s.horizontalMoveZ, true);
      if save {
        SafeOne(RunScript(SaveConfigScript), s.horizontalMoveZ, false);
      }
    } else {
      HelperSafe(s, Triple(Some(c.x), Some(c.y), None), s.horizontalMoveZ, true);
    }
  }

  lemma FinishScripts(s: Setup, meshMax: Point, breached: bool, save: bool)
    ensures Scripts(Finish(s, meshMax, breached, save))
         == (if breached then [CalibrateScript] + (if save then [SaveConfigScript] else []) else [])
  {
    var c := Centre(meshMax);
    if breached {
      var tail: seq<Action> := if save then [RunScript(SaveConfigScript)] else [];
      SelectAppend([RunScript(CalibrateScript)], tail, ScriptOf);
      SelectOne(RunScript(CalibrateScript), ScriptOf);
      if save {
        SelectOne(RunScript(SaveConfigScript), ScriptOf);
      }
    } else {
      HelperQuiet(s, Triple(Some(c.x), Some(c.y), None));
    }
  }

  lemma FinishTravels(s: Setup, meshMax: Point, breached: bool, save: bool)
    ensures Travels(Finish(s, meshMax, breached, save)) == (if breached then [] else [XYTarget(Centre(meshMax))])
  {
    var c := Centre(meshMax);
    if breached {
      SelectNothing(Finish(s, meshMax, breached, save), TravelOf);
    } else {
      HelperTravels(s, Triple(Some(c.x), Some(c.y), None));
    }
  }

  /** Neither ending sets a height or probes. */
  lemma FinishLevel(s: Setup, meshMax: Point, breached: bool, save: bool)
    ensures ZMoves(Finish(s, meshMax, breached, save)) == []
    ensures ProbeRuns(Finish(s, meshMax, breached, save)) == 0
  {
    var c := Centre(meshMax);
    if breached {
      SelectNothing(Finish(s, meshMax, breached, save), ZOf);
      SelectNothing(Finish(s, meshMax, breached, save), RunOf);
    } else {
      HelperZMoves(s, Triple(Some(c.x), Some(c.y), None));
      HelperQuiet(s, Triple(Some(c.x), Some(c.y), None));
    }
  }

  /**
   * A run either recalibrates or returns to the centre, never both: after a
   * breach it runs BED_MESH_CALIBRATE, then SAVE_CONFIG exactly when asked,
   * and travels to no further point; after a clean sweep it runs no script
   * and its one travel after the sampled points is to the centre. A failed
   * probe ends the run with neither.
   */
  lemma RemeshOrRecentre(s: Setup, st: Status, calcZ: MeshQuery, probe: ProbeQuery,
                         meshMin: Point, meshMax: Point, args: Args)
    ensures var r := ValidateBedMesh(s, st, calcZ, probe, meshMin, meshMax, args);
      var v := r.sweep.verdict;
      && Scripts(r.trace)
         == (if v == Breached
             then [CalibrateScript] + (if SaveConfig(args.saveConfig) then [SaveConfigScript] else [])
             else [])
      && Travels(r.trace)
         == Targets(SamplePoints(meshMin, meshMax)[..r.sweep.Attempted()])
            + (if v == AllWithin then [XYTarget(Centre(meshMax))] else [])
  {
    RunScripts(s, st, calcZ, probe, meshMin, meshMax, args);
    RunTravels(s, st, calcZ, probe, meshMin, meshMax, args);
  }

  lemma RunScripts(s: Setup, st: Status, calcZ: MeshQuery, probe: ProbeQuery,
                   meshMin: Point, meshMax: Point, args: Args)
    ensures var r := ValidateBedMesh(s, st, calcZ, probe, meshMin, meshMax, args);
      Scripts(r.trace)
      == (if r.sweep.verdict == Breached
          then [CalibrateScript] + (if SaveConfig(args.saveConfig) then [SaveConfigScript] else [])
          else [])
  {
    var r := ValidateBedMesh(s, st, calcZ, probe, meshMin, meshMax, args);
    var sw := r.sweep;
    SweepHeights(s, st, calcZ, probe, SamplePoints(meshMin, meshMax), MaxDeviation(args.maxDeviation));
    if sw.verdict != ProbeFailed {
      FinishShape(s, st, calcZ, probe, meshMin, meshMax, args);
      var fin := Finish(s, meshMax, sw.verdict == Breached, SaveConfig(args.saveConfig));
      HelperQuiet(s, Triple(None, None, Some(s.horizontalMoveZ)));
      FinishScripts(s, meshMax, sw.verdict == Breached, SaveConfig(args.saveConfig));
      Select3(sw.trace, Lift(s), fin, ScriptOf);
    }
  }

  lemma RunTravels(s: Setup, st: Status, calcZ: MeshQuery, probe: ProbeQuery,
                   meshMin: Point, meshMax: Point, args: Args)
    ensures var r := ValidateBedMesh(s, st, calcZ, probe, meshMin, meshMax, args);
      Travels(r.trace)
      == Targets(SamplePoints(meshMin, meshMax)[..r.sweep.Attempted()])
         + (if r.sweep.verdict == AllWithin then [XYTarget(Centre(meshMax))] else [])
  {
    var r := ValidateBedMesh(s, st, calcZ, probe, meshMin, meshMax, args);
    var sw := r.sweep;
    SweepTravels(s, st, calcZ, probe, SamplePoints(meshMin, meshMax), MaxDeviation(args.maxDeviation));
    if sw.verdict != ProbeFailed {
      FinishShape(s, st, calcZ, probe, meshMin, meshMax, args);
      var fin := Finish(s, meshMax, sw.verdict == Breached, SaveConfig(args.saveConfig));
      HelperTravels(s, Triple(None, None, Some(s.horizontalMoveZ)));
      FinishTravels(s, meshMax, sw.verdict == Breached, SaveConfig(args.saveConfig));
      Select3(sw.trace, Lift(s), fin, TravelOf);
    }
  }

  /**
   * After the sampling loop there is exactly one lift to travel height, and
   * it comes first; nothing is probed after the loop. A failed probe ends the
   * run at once, with no lift.
   */
  lemma OneFinalLift(s: Setup, st: Status, calcZ: MeshQuery, probe: ProbeQuery,
                     meshMin: Point, meshMax: Point, args: Args)
    ensures var r := ValidateBedMesh(s, st, calcZ, probe, meshMin, meshMax, args);
      var n := |r.sweep.trace|;
      && ProbeRuns(r.trace) == r.sweep.Attempted()
      && (r.sweep.verdict == ProbeFailed ==> r.trace == r.sweep.trace)
      && (r.sweep.verdict != ProbeFailed ==>
            && n < |r.trace|
            && r.trace[n] == Move(Coord(None, None, Some(s.horizontalMoveZ)), s.liftSpeed)
            && ZMoves(r.trace) == ZMoves(r.sweep.trace) + [s.horizontalMoveZ])
  {
    RunProbes(s, st, calcZ, probe, meshMin, meshMax, args);
    RunHeights(s, st, calcZ, probe, meshMin, meshMax, args);
  }

  lemma RunProbes(s: Setup, st: Status, calcZ: MeshQuery, probe: ProbeQuery,
                  meshMin: Point, meshMax: Point, args: Args)
    ensures var r := ValidateBedMesh(s, st, calcZ, probe, meshMin, meshMax, args);
      ProbeRuns(r.trace) == r.sweep.Attempted()
  {
    var r := ValidateBedMesh(s, st, calcZ, probe, meshMin, meshMax, args);
    var sw := r.sweep;
    SweepTravels(s, st, calcZ, probe, SamplePoints(meshMin, meshMax), MaxDeviation(args.maxDeviation));
    if sw.verdict != ProbeFailed {
      FinishShape(s, st, calcZ, probe, meshMin, meshMax, args);
      var fin := Finish(s, meshMax, sw.verdict == Breached, SaveConfig(args.saveConfig));
      HelperQuiet(s, Triple(None, None, Some(s.horizontalMoveZ)));
      FinishLevel(s, meshMax, sw.verdict == Breached, SaveConfig(args.saveConfig));
      Select3(sw.trace, Lift(s), fin, RunOf);
    }
  }

  lemma RunHeights(s: Setup, st: Status, calcZ: MeshQuery, probe: ProbeQuery,
                   meshMin: Point, meshMax: Point, args: Args)
    ensures var r := ValidateBedMesh(s, st, calcZ, probe, meshMin, meshMax, args);
      var n := |r.sweep.trace|;
      r.sweep.verdict != ProbeFailed ==>
        && n < |r.trace|
        && r.trace[n] == Move(Coord(None, None, Some(s.horizontalMoveZ)), s.liftSpeed)
        && ZMoves(r.trace) == ZMoves(r.sweep.trace) + [s.horizontalMoveZ]
  {
    var r := ValidateBedMesh(s, st, calcZ, probe, meshMin, meshMax, args);
    var sw := r.sweep;
    if sw.verdict != ProbeFailed {
      FinishShape(s, st, calcZ, probe, meshMin, meshMax, args);
      var fin := Finish(s, meshMax, sw.verdict == Breached, SaveConfig(args.saveConfig));
      HelperZMoves(s, Triple(None, None, Some(s.horizontalMoveZ)));
      FinishLevel(s, meshMax, sw.verdict == Breached, SaveConfig(args.saveConfig));
      Select3(sw.trace, Lift(s), fin, ZOf);
      assert r.trace[|sw.trace|] == Lift(s)[0];
    }
  }

  /** SAVE_CONFIG only ever runs immediately after BED_MESH_CALIBRATE. */
  lemma SaveOnlyAfterCalibrate(s: Setup, st: Status, calcZ: MeshQuery, probe: ProbeQuery,
                               meshMin: Point, meshMax: Point, args: Args)
    ensures var r := ValidateBedMesh(s, st, calcZ, probe, meshMin, meshMax, args);
      forall j :: 0 <= j < |r.trace| && r.trace[j] == RunScript(SaveConfigScript) ==>
        0 < j && r.trace[j - 1] == RunScript(CalibrateScript)
  {
    var r := ValidateBedMesh(s, st, calcZ, probe, meshMin, meshMax, args);
    var sw := r.sweep;
    SweepHeights(s, st, calcZ, probe, SamplePoints(meshMin, meshMax), MaxDeviation(args.maxDeviation));
    if sw.verdict == ProbeFailed {
      assert r.trace == sw.trace + [];
      SaveFollowsCalibrate(sw.trace, []);
    } else {
      FinishShape(s, st, calcZ, probe, meshMin, meshMax, args);
      var fin := Finish(s, meshMax, sw.verdict == Breached, SaveConfig(args.saveConfig));
      HelperQuiet(s, Triple(None, None, Some(s.horizontalMoveZ)));
      SelectAppend(sw.trace, Lift(s), ScriptOf);
      FinishScripts(s, meshMax, sw.verdict == Breached, SaveConfig(args.saveConfig));
      SaveFollowsCalibrate(sw.trace + Lift(s), fin);
    }
  }

  /**
   * When nothing before `fin` runs a script and `fin` is a calibration,
   * possibly followed by a save, or runs no script, SAVE_CONFIG directly
   * follows the calibration.
   */
  lemma SaveFollowsCalibrate(pre: seq<Action>, fin: seq<Action>)
    requires Scripts(pre) == []
    requires || Scripts(fin) == []
             || fin == [RunScript(CalibrateScript)]
             || fin == [RunScript(CalibrateScript), RunScript(SaveConfigScript)]
    ensures forall j :: 0 <= j < |pre + fin| && (pre + fin)[j] == RunScript(SaveConfigScript) ==>
              0 < j && (pre + fin)[j - 1] == RunScript(CalibrateScript)
  {
    SelectEmpty(pre, ScriptOf);
    if Scripts(fin) == [] {
      SelectEmpty(fin, ScriptOf);
    }
    forall j | 0 <= j < |pre + fin| && (pre + fin)[j] == RunScript(SaveConfigScript)
      ensures 0 < j && (pre + fin)[j - 1] == RunScript(CalibrateScript)
    {
      if j < |pre| {
        assert false;
      } else {
        assert fin[j - |pre|] == RunScript(SaveConfigScript);
        assert ScriptOf(fin[j - |pre|]).Some?;
      }
    }
  }

  /**
   * Sampling stops at the first breach: when the probe succeeds at the first
   * i+1 sample points, none of the first i breaches and point i does, exactly
   * i+1 points are probed and travelled to, no later point is visited, and
   * the run recalibrates instead of returning to the centre.
   */
  lemma FirstBreachStops(s: Setup, st: Status, calcZ: MeshQuery, probe: ProbeQuery,
                         meshMin: Point, meshMax: Point, args: Args, i: nat)
    requires i < 5
    requires forall j :: 0 <= j <= i ==>
               probe(SamplePoints(meshMin, meshMax)[j].x, SamplePoints(meshMin, meshMax)[j].y).Some?
    requires forall j :: 0 <= j < i ==>
               !BreachAt(s, calcZ, probe, SamplePoints(meshMin, meshMax)[j], MaxDeviation(args.maxDeviation))
    requires BreachAt(s, calcZ, probe, SamplePoints(meshMin, meshMax)[i], MaxDeviation(args.maxDeviation))
    ensures var r := ValidateBedMesh(s, st, calcZ, probe, meshMin, meshMax, args);
      && r.sweep.verdict == Breached
      && |r.sweep.records| == i + 1
      && ProbeRuns(r.trace) == i + 1
      && Travels(r.trace) == Targets(SamplePoints(meshMin, meshMax)[..i + 1])
      && Scripts(r.trace)
         == [CalibrateScript] + (if SaveConfig(args.saveConfig) then [SaveConfigScript] else [])
  {
    var r := ValidateBedMesh(s, st, calcZ, probe, meshMin, meshMax, args);
    var ps := SamplePoints(meshMin, meshMax);
    SweepStopsAt(s, st, calcZ, probe, ps, MaxDeviation(args.maxDeviation), i);
    RunProbes(s, st, calcZ, probe, meshMin, meshMax, args);
    RunTravels(s, st, calcZ, probe, meshMin, meshMax, args);
    RunScripts(s, st, calcZ, probe, meshMin, meshMax, args);
  }

  /** The sampling loop over any points ends right after the first breach. */
  lemma SweepStopsAt(s: Setup, st: Status, calcZ: MeshQuery, probe: ProbeQuery,
                     ps: seq<Point>, maxDeviation: real, i: nat)
    requires i < |ps|
    requires forall j :: 0 <= j <= i ==> probe(ps[j].x, ps[j].y).Some?
    requires forall j :: 0 <= j < i ==> !BreachAt(s, calcZ, probe, ps[j], maxDeviation)
    requires BreachAt(s, calcZ, probe, ps[i], maxDeviation)
    ensures var r := SweepPoints(s, st, calcZ, probe, ps, maxDeviation);
      r.verdict == Breached && |r.records| == i + 1
  {
    var r := SweepPoints(s, st, calcZ, probe, ps, maxDeviation);
    SweepRecords(s, st, calcZ, probe, ps, maxDeviation);
    var n := |r.records|;
    if n > i {
      assert r.records[i].at == ps[i] && Agrees(s, calcZ, probe, r.records[i]);
      assert Exceeds(r.records[i].values.deviation, maxDeviation);
    } else {
      assert false;
    }
  }

  /**
   * A clean run: when the probe succeeds at all five points and none
   * breaches, all five are probed in order, no script runs, the last travel
   * is to the centre, and the published status is that of the fifth point.
   */
  lemma CleanRunRecentres(s: Setup, st: Status, calcZ: MeshQuery, probe: ProbeQuery,
                          meshMin: Point, meshMax: Point, args: Args)
    requires forall j :: 0 <= j < 5 ==>
               probe(SamplePoints(meshMin, meshMax)[j].x, SamplePoints(meshMin, meshMax)[j].y).Some?
    requires forall j :: 0 <= j < 5 ==>
               !BreachAt(s, calcZ, probe, SamplePoints(meshMin, meshMax)[j], MaxDeviation(args.maxDeviation))
    ensures var r := ValidateBedMesh(s, st, calcZ, probe, meshMin, meshMax, args);
      && r.sweep.verdict == AllWithin
      && |r.sweep.records| == 5
      && ProbeRuns(r.trace) == 5
      && Scripts(r.trace) == []
      && Travels(r.trace) == Targets(SamplePoints(meshMin, meshMax)) + [XYTarget(Centre(meshMax))]
      && r.sweep.status == r.sweep.records[4].values
  {
    var r := ValidateBedMesh(s, st, calcZ, probe, meshMin, meshMax, args);
    var ps := SamplePoints(meshMin, meshMax);
    var m := MaxDeviation(args.maxDeviation);
    var sw := r.sweep;
    SweepRecords(s, st, calcZ, probe, ps, m);
    var n := |sw.records|;
    if sw.verdict != AllWithin {
      assert false;
    }
    assert ps[..5] == ps;
    RunProbes(s, st, calcZ, probe, meshMin, meshMax, args);
    RunTravels(s, st, calcZ, probe, meshMin, meshMax, args);
    RunScripts(s, st, calcZ, probe, meshMin, meshMax, args);
  }
}
