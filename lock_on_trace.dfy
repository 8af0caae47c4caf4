/** Sequences of calls on one `ViewController` in the single-threaded mode: the two
    setters and passes of `main(is_threading=False)`, in any order. A pass that raises
    `ZeroDivisionError` leaves the fields as the model of that pass says, and the
    sequence goes on from there. */
module LockOnTrace {
  import opened Numerics
  import opened Geodesy
  import opened ControllerState

  datatype Event =
    | AimRequest(theta: real, phi: real, lockOn: bool, zoom: real)
    | AttitudeSample(roll: real, yaw: real, pitch: real, height: real, lon: real, lat: real)
    | ControlCycle

  /** The fields after a sequence, how many passes captured a target, and how many
      accepted aim requests were rising edges of the lock-on flag. */
  datatype Trace = Trace(final: State, captures: nat, risingEdges: nat)

  /** An aim request that the setter takes and that switches lock-on from off to on. */
  predicate RisingEdge(s: State, e: Event)
  {
    e.AimRequest? && !s.serverWrite && e.lockOn && !s.aimIn.lockOn
  }

  function Perform(lib: MathLib, s: State, e: Event): State
  {
    match e
    case AimRequest(theta, phi, lockOn, zoom) => PublishAim(s, theta, phi, lockOn, zoom)
    case AttitudeSample(roll, yaw, pitch, height, lon, lat) => PublishAttitude(s, roll, yaw, pitch, height, lon, lat)
    case ControlCycle => Cycle(lib, s).after
  }

  function Run(lib: MathLib, s: State, evs: seq<Event>): (t: Trace)
    decreases |evs|
  {
    if |evs| == 0 then Trace(s, 0, 0)
    else
      var e := evs[0];
      var captured := e.ControlCycle? && Cycle(lib, s).captured;
      var rest := Run(lib, Perform(lib, s, e), evs[1..]);
      Trace(rest.final,
            rest.captures + (if captured then 1 else 0),
            rest.risingEdges + (if RisingEdge(s, e) then 1 else 0))
  }

  function B2N(b: bool): nat
  {
    if b then 1 else 0
  }

  /** Every capture consumes one arming of `init_lock_on`, and only a rising edge of the
      lock-on flag arms it: captures never outnumber rising edges (plus an arming
      already pending at the start), and a capture still pending at the end is one of
      them. */
  lemma {:induction false} CaptureBound(lib: MathLib, s: State, evs: seq<Event>)
    ensures var t := Run(lib, s, evs);
      t.captures + B2N(t.final.initLockOn) <= t.risingEdges + B2N(s.initLockOn)
    decreases |evs|
  {
    if |evs| > 0 {
      var e := evs[0];
      var s1 := Perform(lib, s, e);
      CaptureBound(lib, s1, evs[1..]);
      if e.ControlCycle? {
        assert Cycle(lib, s).captured ==> s.initLockOn && !s1.initLockOn;
      }
    }
  }

  /** From the initial fields, a sequence with no rising edge never captures. */
  lemma NoLockNoCapture(lib: MathLib, evs: seq<Event>)
    requires Run(lib, Initial(), evs).risingEdges == 0
    ensures Run(lib, Initial(), evs).captures == 0
  {
    CaptureBound(lib, Initial(), evs);
  }

  /** A sequence in which no pass captures leaves the saved target where it was: the
      target of a locked session stays fixed until the next capture. */
  lemma {:induction false} NoCaptureKeepsTarget(lib: MathLib, s: State, evs: seq<Event>)
    ensures Run(lib, s, evs).captures == 0 ==> Run(lib, s, evs).final.aimCoordinate == s.aimCoordinate
    decreases |evs|
  {
    if |evs| > 0 {
      NoCaptureKeepsTarget(lib, Perform(lib, s, evs[0]), evs[1..]);
    }
  }

  /** The sanitised ranges hold after every sequence of calls. */
  lemma {:induction false} RunKeepsInv(lib: MathLib, s: State, evs: seq<Event>)
    requires Inv(s)
    ensures Inv(Run(lib, s, evs).final)
    decreases |evs|
  {
    if |evs| > 0 {
      if evs[0].ControlCycle? {
        CycleKeepsInv(lib, s);
      }
      RunKeepsInv(lib, Perform(lib, s, evs[0]), evs[1..]);
    }
  }

  /** In the single-threaded mode every call clears the flag it set, so no call is
      ever dropped. */
  predicate Idle(s: State)
  {
    !s.serverWrite && !s.autopilotWrite
  }

  lemma {:induction false} RunKeepsIdle(lib: MathLib, s: State, evs: seq<Event>)
    requires Idle(s)
    ensures Idle(Run(lib, s, evs).final)
    decreases |evs|
  {
    if |evs| > 0 {
      RunKeepsIdle(lib, Perform(lib, s, evs[0]), evs[1..]);
    }
  }

  /** The height the autopilot last reported that was not negative. */
  function LastHeight(h: real, evs: seq<Event>): real
    decreases |evs|
  {
    if |evs| == 0 then h
    else if evs[0].AttitudeSample? && evs[0].height >= 0.0 then LastHeight(evs[0].height, evs[1..])
    else LastHeight(h, evs[1..])
  }

  /** The zoom the operator last requested that was inside [2, 50]. */
  function LastZoom(z: real, evs: seq<Event>): real
    decreases |evs|
  {
    if |evs| == 0 then z
    else if evs[0].AimRequest? && ZoomAccepted(evs[0].zoom) then LastZoom(evs[0].zoom, evs[1..])
    else LastZoom(z, evs[1..])
  }

  /** With no call dropped, the published height is the last non-negative report and
      the zoom is the last request inside its range. */
  lemma {:induction false} RunTracksLastAccepted(lib: MathLib, s: State, evs: seq<Event>)
    requires Idle(s)
    ensures Run(lib, s, evs).final.attitudeIn.height == LastHeight(s.attitudeIn.height, evs)
    ensures Run(lib, s, evs).final.cameraZoom == LastZoom(s.cameraZoom, evs)
    decreases |evs|
  {
    if |evs| > 0 {
      var s1 := Perform(lib, s, evs[0]);
      assert Idle(s1);
      RunTracksLastAccepted(lib, s1, evs[1..]);
    }
  }

  /** One call and then the rest of a sequence. */
  lemma RunCons(lib: MathLib, s: State, e: Event, evs: seq<Event>)
    ensures Run(lib, s, [e] + evs).captures
         == Run(lib, Perform(lib, s, e), evs).captures + B2N(e.ControlCycle? && Cycle(lib, s).captured)
    ensures Run(lib, s, [e] + evs).final == Run(lib, Perform(lib, s, e), evs).final
  {
    assert ([e] + evs)[1..] == evs;
  }

  /** Running two sequences one after the other: captures add up. */
  lemma {:induction false} RunAppend(lib: MathLib, s: State, a: seq<Event>, b: seq<Event>)
    ensures Run(lib, s, a + b).final == Run(lib, Run(lib, s, a).final, b).final
    ensures Run(lib, s, a + b).captures == Run(lib, s, a).captures + Run(lib, Run(lib, s, a).final, b).captures
    decreases |a|
  {
    if |a| == 0 {
      assert a + b == b;
    } else {
      assert (a + b)[0] == a[0];
      assert (a + b)[1..] == a[1..] + b;
      RunAppend(lib, Perform(lib, s, a[0]), a[1..], b);
    }
  }

  /** The operator locks on, then a pass runs. */
  function LockAndPass(theta: real, phi: real): seq<Event>
  {
    [AimRequest(theta, phi, true, MIN_ZOOM), ControlCycle]
  }

  /** The operator releases the lock, then a pass runs. */
  function ReleaseAndPass(theta: real, phi: real): seq<Event>
  {
    [AimRequest(theta, phi, false, MIN_ZOOM), ControlCycle]
  }

  /** From an idle, unlocked state over a non-degenerate latitude, locking on and
      running a pass captures once and leaves the state idle, locked, disarmed and
      over the same point. */
  lemma LockAndPassCaptures(lib: MathLib, s: State, theta: real, phi: real)
    requires Idle(s) && !s.aimIn.lockOn && s.attitudeIn.coordinate.lat != DEGENERATE_LAT
    ensures var t := Run(lib, s, LockAndPass(theta, phi));
      t.captures == 1 && Idle(t.final) && t.final.aimIn.lockOn && !t.final.initLockOn &&
      t.final.attitudeIn.coordinate == s.attitudeIn.coordinate
  {
    var s1 := PublishAim(s, theta, phi, true, MIN_ZOOM);
    assert s1.initLockOn && s1.aimIn.lockOn && s1.attitudeIn == s.attitudeIn;
    RunCons(lib, s1, ControlCycle, []);
    RunCons(lib, s, AimRequest(theta, phi, true, MIN_ZOOM), [ControlCycle]);
  }

  /** A lock request while the published lock-on flag is already set is not a rising
      edge: if no capture is pending, the pass after it captures nothing. */
  lemma RepeatedLockRequestNoCapture(lib: MathLib, s: State, theta: real, phi: real)
    requires Idle(s) && s.aimIn.lockOn && !s.initLockOn
    ensures Run(lib, s, LockAndPass(theta, phi)).captures == 0
  {
    var s1 := PublishAim(s, theta, phi, true, MIN_ZOOM);
    assert !s1.initLockOn;
    RunCons(lib, s1, ControlCycle, []);
    RunCons(lib, s, AimRequest(theta, phi, true, MIN_ZOOM), [ControlCycle]);
  }

  /** From an idle state, releasing the lock and running a pass captures nothing and
      leaves the state idle, unlocked and over the same point. */
  lemma ReleaseAndPassKeeps(lib: MathLib, s: State, theta: real, phi: real)
    requires Idle(s)
    ensures var t := Run(lib, s, ReleaseAndPass(theta, phi));
      t.captures == 0 && Idle(t.final) && !t.final.aimIn.lockOn &&
      t.final.attitudeIn.coordinate == s.attitudeIn.coordinate
  {
    var s1 := PublishAim(s, theta, phi, false, MIN_ZOOM);
    assert !s1.aimIn.lockOn && s1.attitudeIn == s.attitudeIn;
    RunCons(lib, s1, ControlCycle, []);
    RunCons(lib, s, AimRequest(theta, phi, false, MIN_ZOOM), [ControlCycle]);
  }

  /** From the initial fields, locking on and then running two passes captures once:
      the second pass keeps following the coordinate the first one saved. */
  lemma LockedTwiceCapturesOnce(lib: MathLib, theta: real, phi: real)
    ensures Run(lib, Initial(), LockAndPass(theta, phi) + [ControlCycle]).captures == 1
  {
    LockAndPassCaptures(lib, Initial(), theta, phi);
    var t := Run(lib, Initial(), LockAndPass(theta, phi));
    assert !Cycle(lib, t.final).captured;
    RunCons(lib, t.final, ControlCycle, []);
    RunAppend(lib, Initial(), LockAndPass(theta, phi), [ControlCycle]);
  }

  /** From the initial fields, locking on, releasing and locking on again captures a
      second time: the release clears the published lock-on flag, so the next lock
      request is a rising edge, which arms the capture again. */
  lemma RelockCapturesAgain(lib: MathLib, theta: real, phi: real)
    ensures Run(lib, Initial(),
      LockAndPass(theta, phi) + ReleaseAndPass(theta, phi) + LockAndPass(theta, phi)).captures == 2
  {
    var lock, release := LockAndPass(theta, phi), ReleaseAndPass(theta, phi);
    LockAndPassCaptures(lib, Initial(), theta, phi);
    var t1 := Run(lib, Initial(), lock);
    ReleaseAndPassKeeps(lib, t1.final, theta, phi);
    var t2 := Run(lib, t1.final, release);
    LockAndPassCaptures(lib, t2.final, theta, phi);
    RunAppend(lib, Initial(), lock, release);
    RunAppend(lib, Initial(), lock + release, lock);
  }
}
