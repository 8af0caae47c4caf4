/** The fields of `ViewController` as one value, and the three ways they change:
    the operator setter `update_server_input`, the autopilot setter
    `update_autopilot_input`, and one pass of the control loop `main`. */
module ControllerState {
  import opened Numerics
  import opened Angles
  import opened Geodesy
  import opened Rotation

  const MIN_ZOOM: real := 2.0
  const MAX_ZOOM: real := 50.0

  /** Roll, pitch and yaw in degrees, height in metres, the drone's (lon, lat). */
  datatype Attitude = Attitude(roll: real, pitch: real, yaw: real, height: real, coordinate: Coordinate)

  /** The operator's request: lock-on flag and aim (theta, phi) in degrees. */
  datatype AimInput = AimInput(lockOn: bool, theta: real, phi: real)

  /** `attitudeIn` and `aimIn` are the published `*_in` fields; `attitude` and `aim`
      are the loop's working copies. */
  datatype State = State(
    attitudeIn: Attitude,
    attitude: Attitude,
    aimIn: AimInput,
    aim: AimInput,
    initLockOn: bool,
    autopilotWrite: bool,
    serverWrite: bool,
    aimCoordinate: Coordinate,
    camera: Camera,
    cameraZoom: real)

  /** The outputs of a pass: the attitude-compensated aim (`theta_final`, `phi_final`)
      and the gimbal commands `camera_roll`, `camera_yaw`, `camera_pitch`. */
  datatype Camera = Camera(thetaFinal: real, phiFinal: real, roll: real, yaw: real, pitch: real)

  const DEFAULT_ATTITUDE: Attitude := Attitude(0.0, 0.0, 0.0, 1.0, Coordinate(0.0, 0.0))
  const DEFAULT_AIM: AimInput := AimInput(false, 0.0, 0.0)

  /** The fields as `__init__` sets them. */
  function Initial(): (s: State)
    ensures Inv(s)
  {
    State(DEFAULT_ATTITUDE, DEFAULT_ATTITUDE, DEFAULT_AIM, DEFAULT_AIM, false, false, false,
          Coordinate(0.0, 0.0), Camera(0.0, 0.0, 0.0, 0.0, 0.0), MIN_ZOOM)
  }

  /** What sanitising the inputs guarantees: theta in [0, 90), zoom in [2, 50] and a
      non-negative height, both as published and as copied by the loop. */
  predicate Inv(s: State)
  {
    0.0 <= s.aimIn.theta < 90.0 && 0.0 <= s.aim.theta < 90.0 &&
    MIN_ZOOM <= s.cameraZoom <= MAX_ZOOM &&
    s.attitudeIn.height >= 0.0 && s.attitude.height >= 0.0
  }

  /** Theta as `update_server_input` stores it: 89 at or above 90, 0 below 0. */
  function ClampTheta(theta: real): (r: real)
    ensures 0.0 <= r < 90.0
    ensures r == theta <==> 0.0 <= theta < 90.0
    ensures theta >= 90.0 ==> r == 89.0
    ensures theta < 0.0 ==> r == 0.0
  {
    if theta >= 90.0 then 89.0
    else if theta < 0.0 then 0.0
    else theta
  }

  predicate ZoomAccepted(zoom: real)
  {
    MIN_ZOOM <= zoom <= MAX_ZOOM
  }

  /** `update_server_input(theta, phi, lock_on, zoom_in)`. */
  function PublishAim(s: State, theta: real, phi: real, lockOn: bool, zoom: real): (r: State)
    // a call made while the channel is busy is dropped
    ensures s.serverWrite ==> r == s
    ensures r.serverWrite == s.serverWrite
    // the aim is clamped, and left alone while a lock is requested
    ensures !s.serverWrite && !lockOn ==> r.aimIn.theta == ClampTheta(theta) && r.aimIn.phi == phi
    ensures lockOn ==> r.aimIn.theta == s.aimIn.theta && r.aimIn.phi == s.aimIn.phi
    // the lock flag is always taken; a rising edge arms the capture
    ensures !s.serverWrite ==> r.aimIn.lockOn == lockOn
    ensures r.initLockOn <==> s.initLockOn || (!s.serverWrite && lockOn && !s.aimIn.lockOn)
    // zoom is taken only inside its range
    ensures r.cameraZoom == if !s.serverWrite && ZoomAccepted(zoom) then zoom else s.cameraZoom
    // nothing else changes
    ensures r == s.(aimIn := r.aimIn, initLockOn := r.initLockOn, cameraZoom := r.cameraZoom)
    ensures Inv(s) ==> Inv(r)
  {
    if s.serverWrite then s
    else
      var aimIn :=
        if lockOn then s.aimIn.(lockOn := true)
        else AimInput(false, ClampTheta(theta), phi);
      var initLockOn := if lockOn && !s.aimIn.lockOn then true else s.initLockOn;
      var zoomOut := if ZoomAccepted(zoom) then zoom else s.cameraZoom;
      s.(aimIn := aimIn, initLockOn := initLockOn, cameraZoom := zoomOut)
  }

  /** `update_autopilot_input(roll, yaw, pitch, height, lon, lat)`: angles arrive in radians. */
  function PublishAttitude(s: State, roll: real, yaw: real, pitch: real, height: real, lon: real, lat: real): (r: State)
    ensures s.autopilotWrite ==> r == s
    ensures r.autopilotWrite == s.autopilotWrite
    // the angles are stored in degrees
    ensures !s.autopilotWrite ==>
      Deg2Rad(r.attitudeIn.roll) == roll && Deg2Rad(r.attitudeIn.yaw) == yaw && Deg2Rad(r.attitudeIn.pitch) == pitch
    ensures !s.autopilotWrite ==> r.attitudeIn.coordinate == Coordinate(lon, lat)
    // a negative height is ignored
    ensures r.attitudeIn.height == if !s.autopilotWrite && height >= 0.0 then height else s.attitudeIn.height
    ensures r == s.(attitudeIn := r.attitudeIn)
    ensures Inv(s) ==> Inv(r)
  {
    if s.autopilotWrite then s
    else
      var h := if height >= 0.0 then height else s.attitudeIn.height;
      s.(attitudeIn := Attitude(Rad2Deg(roll), Rad2Deg(pitch), Rad2Deg(yaw), h, Coordinate(lon, lat)))
  }

  /** The loop's copy of each channel that is not being written. */
  function Snapshot(s: State): (r: State)
    ensures r.aim == if s.serverWrite then s.aim else s.aimIn
    ensures r.attitude == if s.autopilotWrite then s.attitude else s.attitudeIn
    ensures r == s.(aim := r.aim, attitude := r.attitude)
  {
    var s1 := if s.serverWrite then s else s.(aim := s.aimIn);
    if s1.autopilotWrite then s1 else s1.(attitude := s1.attitudeIn)
  }

  /** The outcome of one pass: the fields afterwards, whether a target was captured,
      and whether the pass ran to its end (false: it raised `ZeroDivisionError`). */
  datatype Step = Step(after: State, captured: bool, completed: bool)

  /** The world-frame aim of a pass: the operator's aim, or while locked the aim
      toward the captured target. */
  function WorldAim(lib: MathLib, s: State): Outcome<Angular>
  {
    if s.aim.lockOn then CoordinateToPoint(lib, s.attitude.coordinate, s.aimCoordinate, s.attitude.height)
    else Value(Angular(s.aim.theta, s.aim.phi))
  }

  /** The camera outputs for a world-frame aim under an attitude: the compensated aim,
      yaw equal to the compensated phi, pitch the sine of the compensated theta, and
      roll mixing the drone's roll and pitch by the compensated bearing. */
  function CameraFor(lib: MathLib, att: Attitude, target: Angular): (c: Camera)
    ensures Angular(c.thetaFinal, c.phiFinal) == AdjustAim(lib, att.roll, att.yaw, att.pitch, target.theta, target.phi)
    ensures c.yaw == c.phiFinal && 0.0 <= c.yaw < 360.0
    ensures c.pitch == lib.sin(Deg2Rad(c.thetaFinal))
    ensures c.roll == -att.roll * lib.cos(Deg2Rad(c.phiFinal)) - att.pitch * lib.sin(Deg2Rad(c.phiFinal))
  {
    var adjusted := AdjustAim(lib, att.roll, att.yaw, att.pitch, target.theta, target.phi);
    var phiRad := Deg2Rad(adjusted.phi);
    Camera(adjusted.theta, adjusted.phi,
           -att.roll * lib.cos(phiRad) - att.pitch * lib.sin(phiRad),
           adjusted.phi,
           lib.sin(Deg2Rad(adjusted.theta)))
  }

  /** A level drone does not roll the camera, whatever it looks at. */
  lemma LevelRollZero(lib: MathLib, att: Attitude, target: Angular)
    requires att.roll == 0.0 && att.pitch == 0.0
    ensures CameraFor(lib, att, target).roll == 0.0
  {
  }

  /** A level drone points the camera where the operator asks, wherever `arccos` and
      `arctan2` invert the trigonometric values (`arctan2` up to `k` whole turns, as in
      `SphericalRoundTrip`): the compensated aim is the requested
      one, the yaw is the bearing, the roll is zero and the pitch the sine of theta. */
  lemma LevelCamera(lib: MathLib, height: real, coordinate: Coordinate, theta: real, phi: real, k: int)
    requires lib.sin(0.0) == 0.0 && lib.cos(0.0) == 1.0
    requires 0.0 <= phi < 360.0
    requires lib.arccos(lib.cos(Deg2Rad(theta))) == Deg2Rad(theta)
    requires lib.arctan2(lib.sin(Deg2Rad(theta)) * lib.sin(Deg2Rad(phi)),
                         lib.sin(Deg2Rad(theta)) * lib.cos(Deg2Rad(phi))) == Deg2Rad(phi - 360.0 * k as real)
    ensures CameraFor(lib, Attitude(0.0, 0.0, 0.0, height, coordinate), Angular(theta, phi))
         == Camera(theta, phi, 0.0, phi, lib.sin(Deg2Rad(theta)))
  {
    LevelAimUnchanged(lib, theta, phi, k);
    CameraForUnchangedAim(lib, Attitude(0.0, 0.0, 0.0, height, coordinate), Angular(theta, phi));
  }

  /** The outputs under a level attitude that leaves the aim unchanged. */
  lemma CameraForUnchangedAim(lib: MathLib, att: Attitude, target: Angular)
    requires att.roll == 0.0 && att.pitch == 0.0
    requires AdjustAim(lib, att.roll, att.yaw, att.pitch, target.theta, target.phi) == target
    ensures CameraFor(lib, att, target) == Camera(target.theta, target.phi, 0.0, target.phi, lib.sin(Deg2Rad(target.theta)))
  {
    var c := CameraFor(lib, att, target);
    assert c.thetaFinal == target.theta && c.phiFinal == target.phi;
    assert c.roll == 0.0;
  }

  function Outputs(lib: MathLib, s: State, target: Angular): State
  {
    s.(camera := CameraFor(lib, s.attitude, target))
  }

  /** One pass of `main(is_threading=False, debug=True)`. */
  function Cycle(lib: MathLib, s: State): (r: Step)
    // the loop copies the channels that are not being written, and touches no published field
    ensures r.after.aim == if s.serverWrite then s.aim else s.aimIn
    ensures r.after.attitude == if s.autopilotWrite then s.attitude else s.attitudeIn
    ensures r.after.aimIn == s.aimIn && r.after.attitudeIn == s.attitudeIn && r.after.cameraZoom == s.cameraZoom
    ensures r.after.serverWrite == s.serverWrite && r.after.autopilotWrite == s.autopilotWrite
    // capture happens exactly on a locked pass with the capture armed (unless it raises)
    ensures r.captured <==> r.after.aim.lockOn && s.initLockOn && r.after.attitude.coordinate.lat != DEGENERATE_LAT
    ensures r.captured ==>
      !r.after.initLockOn &&
      PointToCoordinate(lib, r.after.aim.theta, r.after.aim.phi, r.after.attitude.height, r.after.attitude.coordinate)
        == Value(r.after.aimCoordinate)
    ensures !r.captured ==> r.after.aimCoordinate == s.aimCoordinate && r.after.initLockOn == s.initLockOn
  {
    var s1 := Snapshot(s);
    var att := s1.attitude;
    if !s1.aim.lockOn then
      Step(Outputs(lib, s1, Angular(s1.aim.theta, s1.aim.phi)), false, true)
    else
      var capture :=
        if s1.initLockOn then PointToCoordinate(lib, s1.aim.theta, s1.aim.phi, att.height, att.coordinate)
        else Value(s1.aimCoordinate);
      if capture.ZeroDivision? then Step(s1, false, false)
      else
        var s2 := s1.(aimCoordinate := capture.value, initLockOn := false);
        var target := CoordinateToPoint(lib, att.coordinate, s2.aimCoordinate, att.height);
        if target.ZeroDivision? then Step(s2, s1.initLockOn, false)
        else Step(Outputs(lib, s2, target.value), s1.initLockOn, true)
  }

  /** A pass raises only when it reaches a division by a zero height or a zero radius;
      a pass that runs to its end sets the camera outputs for the world-frame aim, one
      that raises leaves them as they were. */
  lemma CycleOutputs(lib: MathLib, s: State)
    ensures var r := Cycle(lib, s);
      r.completed <==>
        !(r.after.aim.lockOn &&
          (r.after.attitude.height == 0.0 || (s.initLockOn && r.after.attitude.coordinate.lat == DEGENERATE_LAT)))
    ensures var r := Cycle(lib, s);
      r.completed ==>
        WorldAim(lib, r.after).Value? &&
        r.after.camera == CameraFor(lib, r.after.attitude, WorldAim(lib, r.after).value)
    ensures var r := Cycle(lib, s); !r.completed ==> r.after.camera == s.camera
  {
  }

  /** A pass keeps the sanitised ranges. */
  lemma CycleKeepsInv(lib: MathLib, s: State)
    requires Inv(s)
    ensures Inv(Cycle(lib, s).after)
  {
  }

  /** Two locked passes in a row capture at most once: after a locked pass the capture
      is disarmed, or it raised at the degenerate latitude, which the next pass sees
      again; either way the next pass keeps the target. */
  lemma LockedPassesKeepTarget(lib: MathLib, s: State)
    requires Cycle(lib, s).after.aim.lockOn
    ensures var s2 := Cycle(lib, s).after;
      !Cycle(lib, s2).captured && Cycle(lib, s2).after.aimCoordinate == s2.aimCoordinate
  {
  }

  /** An unlocked pass never touches the target. */
  lemma UnlockedPassKeepsTarget(lib: MathLib, s: State)
    requires !Snapshot(s).aim.lockOn
    ensures Cycle(lib, s).after.aimCoordinate == s.aimCoordinate && !Cycle(lib, s).captured
  {
  }
}
