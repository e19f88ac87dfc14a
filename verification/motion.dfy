/**
 * The plug-in's move helper: one absolute move, a wait for it to finish and,
 * for a probe that must be re-zeroed before each trigger, the arming sequence.
 */
module Motion {
  import opened Wrappers
  import opened Trace

  /**
   * What the plug-in holds once the printer has connected: the configured
   * travel speed and travel height, the probe's lift speed and Z offset, and
   * whether an MCU probe that needs arming is bound (a probe whose name
   * starts with "probe_air").
   */
  datatype Setup = Setup(
    speed: real,
    horizontalMoveZ: real,
    liftSpeed: real,
    probeZOffset: real,
    armsProbe: bool)

  /** The pause, in seconds, on either side of the arming step. */
  const ArmingDwell: real := 0.05

  /** A move target as the plug-in passes it: a pair (x, y) or a triple (x, y, z). */
  datatype Target =
    | Pair(x: Option<real>, y: Option<real>)
    | Triple(x: Option<real>, y: Option<real>, z: Option<real>)

  /** The target padded to three coordinates. */
  function Pad(t: Target): Coord {
    match t
    case Pair(x, y) => Coord(x, y, None)
    case Triple(x, y, z) => Coord(x, y, z)
  }

  const Arming: seq<Action> := [Dwell(ArmingDwell), HomeZero, Dwell(ArmingDwell)]

  function MoveHelper(s: Setup, t: Target): (r: seq<Action>)
    ensures |r| >= 2 && r[0].Move? && r[1] == WaitMoves
    ensures forall i :: 1 <= i < |r| ==> !r[i].Move?
    ensures r[0].target.x == t.x && r[0].target.y == t.y
    ensures t.Pair? ==> r[0].target.z.None?
    ensures t.Triple? ==> r[0].target.z == t.z
    ensures r[0].target.z.None? ==> r[0].speed == s.speed
    ensures r[0].target.z.Some? ==> r[0].speed == s.liftSpeed
    ensures HomeZero in r <==> s.armsProbe
    ensures s.armsProbe ==> r[2..] == Arming
    ensures !s.armsProbe ==> |r| == 2
  {
    var c := Pad(t);
    var speed := if c.z.None? then s.speed else s.liftSpeed;
    [Move(c, speed), WaitMoves] + (if s.armsProbe then Arming else [])
  }

  /** The move to travel height that precedes every XY travel. */
  function Lift(s: Setup): seq<Action> {
    MoveHelper(s, Triple(None, None, Some(s.horizontalMoveZ)))
  }

  /** An XY travel at unchanged height. */
  function TravelTo(s: Setup, x: real, y: real): seq<Action> {
    MoveHelper(s, Triple(Some(x), Some(y), None))
  }

  /** A query that ignores waits, dwells and arming sees only the helper's move. */
  lemma HelperSelect<X>(s: Setup, t: Target, f: Action -> Option<X>)
    requires f(WaitMoves).None? && f(Dwell(ArmingDwell)).None? && f(HomeZero).None?
    ensures Select(MoveHelper(s, t), f) == Select([MoveHelper(s, t)[0]], f)
  {
    var r := MoveHelper(s, t);
    var tail := [WaitMoves] + (if s.armsProbe then Arming else []);
    assert r == [r[0]] + tail;
    SelectNothing(tail, f);
    SelectAppend([r[0]], tail, f);
  }

  lemma HelperTravels(s: Setup, t: Target)
    ensures Travels(MoveHelper(s, t)) == (if t.x.Some? || t.y.Some? then [Pad(t)] else [])
  {
    HelperSelect(s, t, TravelOf);
    SelectOne(MoveHelper(s, t)[0], TravelOf);
  }

  lemma HelperZMoves(s: Setup, t: Target)
    ensures ZMoves(MoveHelper(s, t)) == (if Pad(t).z.Some? then [Pad(t).z.value] else [])
  {
    HelperSelect(s, t, ZOf);
    SelectOne(MoveHelper(s, t)[0], ZOf);
  }

  /** A helper call runs no script and does not probe. */
  lemma HelperQuiet(s: Setup, t: Target)
    ensures Scripts(MoveHelper(s, t)) == []
    ensures ProbeRuns(MoveHelper(s, t)) == 0
  {
    HelperSelect(s, t, ScriptOf);
    SelectOne(MoveHelper(s, t)[0], ScriptOf);
    HelperSelect(s, t, RunOf);
    SelectOne(MoveHelper(s, t)[0], RunOf);
  }

  lemma HelperSafe(s: Setup, t: Target, safeZ: real, lifted: bool)
    ensures var r := MoveHelper(s, t);
      && (SafeFrom(r, safeZ, lifted) <==> (t.x.Some? || t.y.Some? ==> lifted))
      && LiftedAfterAll(r, safeZ, lifted) == LiftedAfter(r[0], safeZ, lifted)
  {
    var r := MoveHelper(s, t);
    var tail := [WaitMoves] + (if s.armsProbe then Arming else []);
    assert r == [r[0]] + tail;
    SafeAppend([r[0]], tail, safeZ, lifted);
    QuietTail(tail, safeZ, LiftedAfter(r[0], safeZ, lifted));
  }

  /** Waits, dwells and arming neither travel nor change the known height. */
  lemma {:induction false} QuietTail(t: seq<Action>, safeZ: real, lifted: bool)
    requires forall i :: 0 <= i < |t| ==> t[i] in {WaitMoves, Dwell(ArmingDwell), HomeZero}
    ensures SafeFrom(t, safeZ, lifted)
    ensures LiftedAfterAll(t, safeZ, lifted) == lifted
  {
    if |t| > 0 {
      assert forall i :: 0 <= i < |t[1..]| ==> t[1..][i] == t[i + 1];
      QuietTail(t[1..], safeZ, lifted);
    }
  }
}
