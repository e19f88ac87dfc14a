/**
 * The observable actions of a bed-mesh validation, in the order the plug-in
 * issues them to the toolhead, the probe and the G-code dispatcher, and the
 * queries the properties of the model are stated with.
 */
module Trace {
  import opened Wrappers

  /** A target for an absolute move; an axis left as `None` stays where it is. */
  datatype Coord = Coord(x: Option<real>, y: Option<real>, z: Option<real>)

  datatype Action =
    | Move(target: Coord, speed: real)  // toolhead.manual_move
    | WaitMoves                         // toolhead.wait_moves
    | Dwell(seconds: real)              // toolhead.dwell
    | HomeZero                          // arming step of the MCU probe
    | ProbeStart                        // probe.start_probe_session
    | ProbeRun                          // probe_session.run_probe
    | ProbePull                         // probe_session.pull_probed_results
    | ProbeEnd                          // probe_session.end_probe_session
    | RunScript(script: string)         // gcode.run_script_from_command

  /** A move that translates in X or Y. */
  predicate IsTravel(a: Action) {
    a.Move? && (a.target.x.Some? || a.target.y.Some?)
  }

  /** A move that sets Z to `z` or higher. */
  predicate RaisesTo(a: Action, z: real) {
    a.Move? && a.target.z.Some? && a.target.z.value >= z
  }

  /** The items `f` picks out of a trace, in trace order. */
  function Select<X>(t: seq<Action>, f: Action -> Option<X>): (r: seq<X>)
    ensures |r| <= |t|
  {
    if |t| == 0 then []
    else
      (match f(t[0]) case Some(x) => [x] case None => []) + Select(t[1..], f)
  }

  lemma {:induction false} SelectAppend<X>(a: seq<Action>, b: seq<Action>, f: Action -> Option<X>)
    ensures Select(a + b, f) == Select(a, f) + Select(b, f)
  {
    if |a| == 0 {
      assert a + b == b;
    } else {
      assert (a + b)[1..] == a[1..] + b;
      SelectAppend(a[1..], b, f);
    }
  }

  lemma Select3<X>(a: seq<Action>, b: seq<Action>, c: seq<Action>, f: Action -> Option<X>)
    ensures Select(a + b + c, f) == Select(a, f) + Select(b, f) + Select(c, f)
  {
    SelectAppend(a + b, c, f);
    SelectAppend(a, b, f);
  }

  lemma SelectOne<X>(a: Action, f: Action -> Option<X>)
    ensures Select([a], f) == (match f(a) case Some(x) => [x] case None => [])
  {
    assert [a][1..] == [];
  }

  lemma {:induction false} SelectNothing<X>(t: seq<Action>, f: Action -> Option<X>)
    requires forall i :: 0 <= i < |t| ==> f(t[i]).None?
    ensures Select(t, f) == []
  {
    if |t| > 0 {
      assert forall i :: 0 <= i < |t[1..]| ==> t[1..][i] == t[i + 1];
      SelectNothing(t[1..], f);
    }
  }

  lemma {:induction false} SelectEmpty<X>(t: seq<Action>, f: Action -> Option<X>)
    requires Select(t, f) == []
    ensures forall i :: 0 <= i < |t| ==> f(t[i]).None?
  {
    if |t| > 0 {
      SelectEmpty(t[1..], f);
      assert forall i :: 1 <= i < |t| ==> t[i] == t[1..][i - 1];
    }
  }

  lemma {:induction false} SelectKeeps(t: seq<Action>, f: Action -> Option<Action>)
    requires forall i :: 0 <= i < |t| ==> f(t[i]) == Some(t[i])
    ensures Select(t, f) == t
  {
    if |t| > 0 {
      assert forall i :: 0 <= i < |t[1..]| ==> t[1..][i] == t[i + 1];
      SelectKeeps(t[1..], f);
      assert t == [t[0]] + t[1..];
    }
  }

  function TravelOf(a: Action): Option<Coord> {
    if IsTravel(a) then Some(a.target) else None
  }

  function ZOf(a: Action): Option<real> {
    if a.Move? && a.target.z.Some? then Some(a.target.z.value) else None
  }

  function ScriptOf(a: Action): Option<string> {
    if a.RunScript? then Some(a.script) else None
  }

  function ProbeOf(a: Action): Option<Action> {
    if a.ProbeStart? || a.ProbeRun? || a.ProbePull? || a.ProbeEnd? then Some(a) else None
  }

  /** The targets of the XY travels of `t`. */
  function Travels(t: seq<Action>): seq<Coord> {
    Select(t, TravelOf)
  }

  /** The Z heights set by the moves of `t`. */
  function ZMoves(t: seq<Action>): seq<real> {
    Select(t, ZOf)
  }

  /** The scripts `t` hands to the G-code dispatcher. */
  function Scripts(t: seq<Action>): seq<string> {
    Select(t, ScriptOf)
  }

  /** The probe-session calls of `t`. */
  function ProbeCalls(t: seq<Action>): seq<Action> {
    Select(t, ProbeOf)
  }

  /** The number of probe runs (physical probe triggers) in `t`. */
  function ProbeRuns(t: seq<Action>): nat {
    |Select(t, RunOf)|
  }

  function RunOf(a: Action): Option<Action> {
    if a.ProbeRun? then Some(a) else None
  }

  /*
   * Travel safety. The nozzle is known to be at or above the travel height
   * `safeZ` once a move has set Z to at least `safeZ`; a move setting a lower
   * Z, a probe run (which lowers the probe onto the bed) and an external
   * script (which may move anywhere) make the height unknown again.
   */

  function LiftedAfter(a: Action, safeZ: real, lifted: bool): bool {
    match a
    case Move(c, _) => if c.z.Some? then c.z.value >= safeZ else lifted
    case ProbeRun => false
    case RunScript(_) => false
    case _ => lifted
  }

  function LiftedAfterAll(t: seq<Action>, safeZ: real, lifted: bool): bool
    decreases |t|
  {
    if |t| == 0 then lifted
    else LiftedAfterAll(t[1..], safeZ, LiftedAfter(t[0], safeZ, lifted))
  }

  /** No XY travel of `t` starts while the nozzle may be below `safeZ`. */
  predicate SafeFrom(t: seq<Action>, safeZ: real, lifted: bool)
    decreases |t|
  {
    |t| == 0 ||
    ((IsTravel(t[0]) ==> lifted) && SafeFrom(t[1..], safeZ, LiftedAfter(t[0], safeZ, lifted)))
  }

  lemma {:induction false} SafeAppend(a: seq<Action>, b: seq<Action>, safeZ: real, lifted: bool)
    ensures SafeFrom(a + b, safeZ, lifted)
        <==> SafeFrom(a, safeZ, lifted) && SafeFrom(b, safeZ, LiftedAfterAll(a, safeZ, lifted))
    ensures LiftedAfterAll(a + b, safeZ, lifted)
         == LiftedAfterAll(b, safeZ, LiftedAfterAll(a, safeZ, lifted))
  {
    if |a| == 0 {
      assert a + b == b;
    } else {
      assert (a + b)[1..] == a[1..] + b;
      SafeAppend(a[1..], b, safeZ, LiftedAfter(a[0], safeZ, lifted));
    }
  }

  lemma SafeOne(a: Action, safeZ: real, lifted: bool)
    ensures SafeFrom([a], safeZ, lifted) <==> (IsTravel(a) ==> lifted)
    ensures LiftedAfterAll([a], safeZ, lifted) == LiftedAfter(a, safeZ, lifted)
  {
    assert [a][1..] == [];
  }

  /** A safe trace raises the nozzle to `safeZ` before each XY travel, unless it started raised. */
  lemma {:induction false} SafeMeansRaisedBefore(t: seq<Action>, safeZ: real, lifted: bool)
    requires SafeFrom(t, safeZ, lifted)
    ensures forall j :: 0 <= j < |t| && IsTravel(t[j]) ==>
              lifted || exists i :: 0 <= i < j && RaisesTo(t[i], safeZ)
  {
    if |t| > 0 {
      var next := LiftedAfter(t[0], safeZ, lifted);
      SafeMeansRaisedBefore(t[1..], safeZ, next);
      forall j | 0 <= j < |t| && IsTravel(t[j])
        ensures lifted || exists i :: 0 <= i < j && RaisesTo(t[i], safeZ)
      {
        if j > 0 && !lifted {
          assert t[1..][j - 1] == t[j];
          if next {
            assert RaisesTo(t[0], safeZ);
          } else {
            var i :| 0 <= i < j - 1 && RaisesTo(t[1..][i], safeZ);
            assert t[i + 1] == t[1..][i];
          }
        }
      }
    }
  }
}
