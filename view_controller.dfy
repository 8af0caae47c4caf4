/** `ViewController` as an object: the fields `__init__` creates, updated in place by
    the two setters and by one pass of `main`. Each method is proved to change the
    fields exactly as the value-level model in `ControllerState` says.

    The fields a channel publishes together are kept as one value: `attitudeIn` holds
    `d_roll_in`, `d_pitch_in`, `d_yaw_in`, `d_height_in` and `d_coordinate_in`,
    `attitude` the loop's copies `d_roll` … `d_coordinate`, `aimIn` holds
    `lock_on_in`, `theta_in` and `phi_in`, and `aim` the copies `lock_on`, `theta`,
    `phi`. The outputs are separate fields. */
module ViewControllerObject {
  import opened Numerics
  import opened Angles
  import opened Geodesy
  import opened ControllerState

  class ViewController {
    /** The trigonometric and square-root routines the controller calls. */
    const lib: MathLib

    var attitudeIn: Attitude
    var attitude: Attitude
    var aimIn: AimInput
    var aim: AimInput
    var initLockOn: bool
    // busy flags of the two channels
    var autopilotWrite: bool
    var serverWrite: bool
    // the saved target and the outputs
    var aimCoordinate: Coordinate
    var phiFinal: real
    var thetaFinal: real
    var cameraRoll: real
    var cameraYaw: real
    var cameraPitch: real
    var cameraZoom: real

    /** The fields as one value. */
    ghost function Model(): State
      reads this
    {
      State(attitudeIn, attitude, aimIn, aim,
            initLockOn, autopilotWrite, serverWrite, aimCoordinate,
            Camera(thetaFinal, phiFinal, cameraRoll, cameraYaw, cameraPitch),
            cameraZoom)
    }

    ghost predicate Valid()
      reads this
    {
      Inv(Model())
    }

    constructor(lib: MathLib)
      ensures this.lib == lib
      ensures Model() == Initial() && Valid()
    {
      this.lib := lib;
      attitudeIn := Attitude(0.0, 0.0, 0.0, 1.0, Coordinate(0.0, 0.0));
      attitude := Attitude(0.0, 0.0, 0.0, 1.0, Coordinate(0.0, 0.0));
      aimIn := AimInput(false, 0.0, 0.0);
      aim := AimInput(false, 0.0, 0.0);
      initLockOn := false;
      autopilotWrite, serverWrite := false, false;
      aimCoordinate := Coordinate(0.0, 0.0);
      phiFinal, thetaFinal := 0.0, 0.0;
      cameraRoll, cameraYaw, cameraPitch, cameraZoom := 0.0, 0.0, 0.0, MIN_ZOOM;
    }

    /** `update_autopilot_input`: angles in radians, stored in degrees. */
    method UpdateAutopilotInput(roll: real, yaw: real, pitch: real, height: real, lon: real, lat: real)
      modifies this
      ensures Model() == PublishAttitude(old(Model()), roll, yaw, pitch, height, lon, lat)
      ensures old(Valid()) ==> Valid()
    {
      if !autopilotWrite {
        autopilotWrite := true;
        var a := attitudeIn.(roll := Rad2Deg(roll), pitch := Rad2Deg(pitch), yaw := Rad2Deg(yaw));
        if height >= 0.0 {
          a := a.(height := height);
        }
        attitudeIn := a.(coordinate := Coordinate(lon, lat));
        autopilotWrite := false;
      }
    }

    /** `update_server_input`, with the same defaults: a lock request keeps the stored aim. */
    method UpdateServerInput(theta: real := 0.0, phi: real := 0.0, lockOn: bool := false, zoom: real := 2.0)
      modifies this
      ensures Model() == PublishAim(old(Model()), theta, phi, lockOn, zoom)
      ensures old(Valid()) ==> Valid()
    {
      if !serverWrite {
        serverWrite := true;
        var a := aimIn;
        if !lockOn {
          if theta >= 90.0 {
            a := a.(theta := 89.0, phi := phi);
          } else if theta < 0.0 {
            a := a.(theta := 0.0, phi := phi);
          } else {
            a := a.(theta := theta, phi := phi);
          }
        }
        if lockOn && !aimIn.lockOn {
          initLockOn := true;
        }
        aimIn := a.(lockOn := lockOn);
        if zoom >= 2.0 && zoom <= 50.0 {
          cameraZoom := zoom;
        }
        serverWrite := false;
      }
    }

    /** One pass of `main(is_threading=False, debug=True)`. It returns false where the
        pass raises `ZeroDivisionError`, with the fields as they are at that point. */
    method MainPass() returns (completed: bool)
      modifies this
      ensures Model() == Cycle(lib, old(Model())).after
      ensures completed == Cycle(lib, old(Model())).completed
      ensures old(Valid()) ==> Valid()
    {
      ghost var s := Model();
      if Inv(s) {
        CycleKeepsInv(lib, s);
      }
      TakeSnapshot();
      ghost var s1 := Model();

      if aim.lockOn {
        if initLockOn {
          var saved := PointToCoordinate(lib, aim.theta, aim.phi, attitude.height, attitude.coordinate);
          if saved.ZeroDivision? {
            assert Cycle(lib, s) == Step(s1, false, false);
            return false;
          }
          aimCoordinate := saved.value;
          initLockOn := false;
        }
        ghost var s2 := Model();
        assert s2 == s1.(aimCoordinate := s2.aimCoordinate, initLockOn := false);
        var target := CoordinateToPoint(lib, attitude.coordinate, aimCoordinate, attitude.height);
        if target.ZeroDivision? {
          assert Cycle(lib, s).after == s2;
          return false;
        }
        AimCamera(target.value);
        assert Cycle(lib, s).after == Outputs(lib, s2, target.value);
      } else {
        AimCamera(Angular(aim.theta, aim.phi));
        assert Cycle(lib, s).after == Outputs(lib, s1, Angular(s1.aim.theta, s1.aim.phi));
      }
      completed := true;
    }

    /** The head of a pass: copy each channel that is not being written. */
    method TakeSnapshot()
      modifies this
      ensures Model() == Snapshot(old(Model()))
    {
      if !serverWrite {
        serverWrite := true;
        aim := aimIn;
        serverWrite := false;
      }
      if !autopilotWrite {
        autopilotWrite := true;
        attitude := attitudeIn;
        autopilotWrite := false;
      }
    }

    /** The tail of a pass: compensate the world-frame aim for the attitude and set
        the camera outputs from the result. */
    method AimCamera(target: Angular)
      modifies this
      ensures Model() == Outputs(lib, old(Model()), target)
    {
      var c := CameraFor(lib, attitude, target);
      thetaFinal, phiFinal := c.thetaFinal, c.phiFinal;
      cameraPitch := c.pitch;
      cameraYaw := c.yaw;
      cameraRoll := c.roll;
    }
  }
}
