/**
 * Single-point evaluation: look up the height the mesh predicts at (x, y),
 * lift to travel height, travel to (x, y), run one probe session, and publish
 * the predicted height, the offset-corrected probed height and their
 * difference as the plug-in's status.
 */
module Evaluator {
  import opened Wrappers
  import opened Trace
  import opened Motion

  datatype Point = Point(x: real, y: real)

  /** The bed mesh's height lookup (calc_z), opaque to the plug-in. */
  type MeshQuery = (real, real) -> real

  /**
   * The Z of the first result of a probe session run at (x, y), or `None`
   * when the session's run raises an error.
   */
  type ProbeQuery = (real, real) -> Option<real>

  /** The published values of the last evaluation. */
  datatype Status = Status(meshZ: real, probedZ: real, deviation: real)

  /** The published values before any evaluation. */
  const InitialStatus: Status := Status(0.0, 0.0, 0.0)

  /** The status snapshot macros read: the three published values under their keys. */
  function GetStatus(st: Status): (m: map<string, real>)
    ensures m.Keys == {"last_mesh_z", "last_probed_z", "last_deviation"}
  {
    map["last_mesh_z" := st.meshZ, "last_probed_z" := st.probedZ, "last_deviation" := st.deviation]
  }

  /** Before any evaluation every published value is zero. */
  lemma StatusBeforeEvaluation()
    ensures forall k :: k in GetStatus(InitialStatus) ==> GetStatus(InitialStatus)[k] == 0.0
  {
  }

  /** The trace of one evaluation, the status it leaves, and whether the probe produced a result. */
  datatype Step = Step(trace: seq<Action>, status: Status, probed: bool)

  function ValidateAt(s: Setup, st: Status, calcZ: MeshQuery, probe: ProbeQuery, p: Point): (r: Step)
    ensures r.probed <==> probe(p.x, p.y).Some?
    ensures r.status.meshZ == calcZ(p.x, p.y)
    ensures r.probed ==> r.status.probedZ == probe(p.x, p.y).value - s.probeZOffset
    ensures r.probed ==> r.status.deviation == r.status.probedZ - r.status.meshZ
    ensures !r.probed ==> r.status == st.(meshZ := calcZ(p.x, p.y))
  {
    var meshZ := calcZ(p.x, p.y);
    var travel := Lift(s) + TravelTo(s, p.x, p.y);
    match probe(p.x, p.y)
    case None =>
      Step(travel + SessionOf(false), st.(meshZ := meshZ), false)
    case Some(raw) =>
      var probedZ := raw - s.probeZOffset;
      Step(travel + SessionOf(true),
           Status(meshZ, probedZ, probedZ - meshZ), true)
  }

  /** The XY travel target for a sample point. */
  function XYTarget(p: Point): Coord {
    Coord(Some(p.x), Some(p.y), None)
  }

  /** The probe-session calls of one evaluation: the session stays open when the probe run fails. */
  function SessionOf(probed: bool): seq<Action> {
    [ProbeStart, ProbeRun] + (if probed then [ProbePull, ProbeEnd] else [])
  }

  /**
   * The order of one evaluation: it starts with a Z-only lift to travel
   * height, makes exactly one XY travel (to the point, Z unchanged), which
   * the lift makes safe, and ends with the probe session: start, run, and,
   * when the probe produced a result, pull and end. No script runs.
   */
  lemma ValidateAtOrder(s: Setup, st: Status, calcZ: MeshQuery, probe: ProbeQuery, p: Point, lifted: bool)
    ensures var r := ValidateAt(s, st, calcZ, probe, p);
      && r.trace[0] == Move(Coord(None, None, Some(s.horizontalMoveZ)), s.liftSpeed)
      && Travels(r.trace) == [XYTarget(p)]
      && ZMoves(r.trace) == [s.horizontalMoveZ]
      && Scripts(r.trace) == []
      && ProbeRuns(r.trace) == 1
      && ProbeCalls(r.trace)
         == (if r.probed then [ProbeStart, ProbeRun, ProbePull, ProbeEnd] else [ProbeStart, ProbeRun])
      && |ProbeCalls(r.trace)| <= |r.trace|
      && r.trace[|r.trace| - |ProbeCalls(r.trace)|..] == ProbeCalls(r.trace)
      && SafeFrom(r.trace, s.horizontalMoveZ, lifted)
      && !LiftedAfterAll(r.trace, s.horizontalMoveZ, lifted)
  {
    ValidateAtQueries(s, st, calcZ, probe, p);
    ValidateAtSession(s, st, calcZ, probe, p);
    ValidateAtSafe(s, st, calcZ, probe, p, lifted);
  }

  /** The trace of one evaluation is the lift, the travel, then the probe session. */
  lemma ValidateAtShape(s: Setup, st: Status, calcZ: MeshQuery, probe: ProbeQuery, p: Point)
    ensures var r := ValidateAt(s, st, calcZ, probe, p);
      r.trace == EvalTrace(s, p, r.probed)
  {
  }

  function EvalTrace(s: Setup, p: Point, probed: bool): seq<Action> {
    Lift(s) + TravelTo(s, p.x, p.y) + SessionOf(probed)
  }

  /** A query that ignores waits, dwells and arming sees the lift, the travel and the session. */
  lemma EvalSelect<X>(s: Setup, p: Point, probed: bool, f: Action -> Option<X>)
    requires f(WaitMoves).None? && f(Dwell(ArmingDwell)).None? && f(HomeZero).None?
    ensures Select(EvalTrace(s, p, probed), f)
         == Select([Lift(s)[0]], f) + Select([TravelTo(s, p.x, p.y)[0]], f) + Select(SessionOf(probed), f)
  {
    var lift := Lift(s);
    var go := TravelTo(s, p.x, p.y);
    SelectAppend(lift + go, SessionOf(probed), f);
    SelectAppend(lift, go, f);
    HelperSelect(s, Triple(None, None, Some(s.horizontalMoveZ)), f);
    HelperSelect(s, Triple(Some(p.x), Some(p.y), None), f);
  }

  /** The probe session is followed by no query except the run counter and the session calls. */
  lemma SessionSilent<X>(probed: bool, f: Action -> Option<X>)
    requires f(ProbeStart).None? && f(ProbeRun).None? && f(ProbePull).None? && f(ProbeEnd).None?
    ensures Select(SessionOf(probed), f) == []
  {
    SelectNothing(SessionOf(probed), f);
  }

  lemma SessionRuns(probed: bool)
    ensures Select(SessionOf(probed), RunOf) == [ProbeRun]
  {
    var tail: seq<Action> := if probed then [ProbePull, ProbeEnd] else [];
    assert SessionOf(probed) == [ProbeStart, ProbeRun] + tail;
    SelectNothing(tail, RunOf);
    SelectAppend([ProbeStart, ProbeRun], tail, RunOf);
    assert [ProbeStart, ProbeRun][1..] == [ProbeRun];
    SelectOne(ProbeRun, RunOf);
  }

  lemma SessionCalls(probed: bool)
    ensures Select(SessionOf(probed), ProbeOf) == SessionOf(probed)
  {
    SelectKeeps(SessionOf(probed), ProbeOf);
  }

  lemma EvalTravels(s: Setup, p: Point, probed: bool)
    ensures Travels(EvalTrace(s, p, probed)) == [XYTarget(p)]
  {
    EvalSelect(s, p, probed, TravelOf);
    SessionSilent(probed, TravelOf);
    SelectOne(Lift(s)[0], TravelOf);
    SelectOne(TravelTo(s, p.x, p.y)[0], TravelOf);
  }

  lemma EvalZMoves(s: Setup, p: Point, probed: bool)
    ensures ZMoves(EvalTrace(s, p, probed)) == [s.horizontalMoveZ]
  {
    EvalSelect(s, p, probed, ZOf);
    SessionSilent(probed, ZOf);
    SelectOne(Lift(s)[0], ZOf);
    SelectOne(TravelTo(s, p.x, p.y)[0], ZOf);
  }

  lemma EvalScripts(s: Setup, p: Point, probed: bool)
    ensures Scripts(EvalTrace(s, p, probed)) == []
  {
    EvalSelect(s, p, probed, ScriptOf);
    SessionSilent(probed, ScriptOf);
    SelectOne(Lift(s)[0], ScriptOf);
    SelectOne(TravelTo(s, p.x, p.y)[0], ScriptOf);
  }

  lemma EvalRuns(s: Setup, p: Point, probed: bool)
    ensures ProbeRuns(EvalTrace(s, p, probed)) == 1
  {
    EvalSelect(s, p, probed, RunOf);
    SessionRuns(probed);
    SelectOne(Lift(s)[0], RunOf);
    SelectOne(TravelTo(s, p.x, p.y)[0], RunOf);
  }

  lemma EvalCalls(s: Setup, p: Point, probed: bool)
    ensures ProbeCalls(EvalTrace(s, p, probed)) == SessionOf(probed)
  {
    EvalSelect(s, p, probed, ProbeOf);
    SessionCalls(probed);
    SelectOne(Lift(s)[0], ProbeOf);
    SelectOne(TravelTo(s, p.x, p.y)[0], ProbeOf);
  }

  lemma ValidateAtQueries(s: Setup, st: Status, calcZ: MeshQuery, probe: ProbeQuery, p: Point)
    ensures var r := ValidateAt(s, st, calcZ, probe, p);
      && r.trace[0] == Move(Coord(None, None, Some(s.horizontalMoveZ)), s.liftSpeed)
      && Travels(r.trace) == [XYTarget(p)]
      && ZMoves(r.trace) == [s.horizontalMoveZ]
      && Scripts(r.trace) == []
      && ProbeRuns(r.trace) == 1
  {
    var r := ValidateAt(s, st, calcZ, probe, p);
    ValidateAtShape(s, st, calcZ, probe, p);
    EvalTravels(s, p, r.probed);
    EvalZMoves(s, p, r.probed);
    EvalScripts(s, p, r.probed);
    EvalRuns(s, p, r.probed);
  }

  lemma ValidateAtSession(s: Setup, st: Status, calcZ: MeshQuery, probe: ProbeQuery, p: Point)
    ensures var r := ValidateAt(s, st, calcZ, probe, p);
      && ProbeCalls(r.trace) == SessionOf(r.probed)
      && |ProbeCalls(r.trace)| <= |r.trace|
      && r.trace[|r.trace| - |ProbeCalls(r.trace)|..] == ProbeCalls(r.trace)
  {
    var r := ValidateAt(s, st, calcZ, probe, p);
    ValidateAtShape(s, st, calcZ, probe, p);
    EvalCalls(s, p, r.probed);
    SuffixOfAppend(Lift(s) + TravelTo(s, p.x, p.y), SessionOf(r.probed));
  }

  lemma SuffixOfAppend<T>(a: seq<T>, b: seq<T>)
    ensures (a + b)[|a + b| - |b|..] == b
  {
  }

  lemma ValidateAtSafe(s: Setup, st: Status, calcZ: MeshQuery, probe: ProbeQuery, p: Point, lifted: bool)
    ensures var r := ValidateAt(s, st, calcZ, probe, p);
      && SafeFrom(r.trace, s.horizontalMoveZ, lifted)
      && !LiftedAfterAll(r.trace, s.horizontalMoveZ, lifted)
  {
    var r := ValidateAt(s, st, calcZ, probe, p);
    var hz := s.horizontalMoveZ;
    var lift := Lift(s);
    var go := TravelTo(s, p.x, p.y);
    var session := SessionOf(r.probed);
    ValidateAtShape(s, st, calcZ, probe, p);
    HelperSafe(s, Triple(None, None, Some(hz)), hz, lifted);
    HelperSafe(s, Triple(Some(p.x), Some(p.y), None), hz, true);
    SessionSafe(r.probed, hz);
    SafeAppend(lift, go, hz, lifted);
    SafeAppend(lift + go, session, hz, lifted);
  }

  /** A probe session travels nowhere and leaves the nozzle low. */
  lemma SessionSafe(probed: bool, safeZ: real)
    ensures SafeFrom(SessionOf(probed), safeZ, true)
    ensures !LiftedAfterAll(SessionOf(probed), safeZ, true)
  {
    var tail: seq<Action> := if probed then [ProbePull, ProbeEnd] else [];
    assert SessionOf(probed) == [ProbeStart] + ([ProbeRun] + tail);
    SafeAppend([ProbeStart], [ProbeRun] + tail, safeZ, true);
    SafeAppend([ProbeRun], tail, safeZ, true);
    SafeOne(ProbeStart, safeZ, true);
    SafeOne(ProbeRun, safeZ, true);
    if probed {
      assert tail == [ProbePull] + [ProbeEnd];
      SafeAppend([ProbePull], [ProbeEnd], safeZ, false);
      SafeOne(ProbePull, safeZ, false);
      SafeOne(ProbeEnd, safeZ, false);
    }
  }

  /** After an evaluation whose probe produced raw height `raw`, the status snapshot reports exactly its three values. */
  lemma StatusAfterValidate(s: Setup, st: Status, calcZ: MeshQuery, probe: ProbeQuery, p: Point, raw: real)
    requires probe(p.x, p.y) == Some(raw)
    ensures var m := GetStatus(ValidateAt(s, st, calcZ, probe, p).status);
      && m["last_mesh_z"] == calcZ(p.x, p.y)
      && m["last_probed_z"] == raw - s.probeZOffset
      && m["last_deviation"] == m["last_probed_z"] - m["last_mesh_z"]
  {
  }
}
