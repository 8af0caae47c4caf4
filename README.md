# View controller of the camera gimbal

This project models `ViewController` from `vgc/view_controller_fast.py` in Dafny and
proves properties of the model. `ViewController` decides where a drone's camera looks.
An operator publishes an aim: theta (degrees from straight down), phi (bearing from
north), a lock-on flag and a zoom. The autopilot publishes an attitude: roll, yaw and
pitch in radians, a height and a (longitude, latitude) coordinate. Each pass of the
control loop `main` does four things:

- it copies each channel that is not being written;
- on the first locked pass after the lock-on flag switches from false to true, it
  saves the ground coordinate under the aim (a lock request while the flag is already
  true arms nothing);
- while locked, it re-aims at that coordinate from the drone's current position;
- it compensates the aim for the attitude with the transposed rotation matrix and sets
  the gimbal outputs `camera_pitch`, `camera_yaw` and `camera_roll`.

The modules follow the structure of the class:

- `Numerics` (numerics.dfy): the floating-point routines the class calls but that are
  not modelled, passed in as a record `MathLib` of function values. Also `Outcome`, the
  result of an expression that can raise `ZeroDivisionError`.
- `Angles` (angles.dfy): `deg2rad`, `rad2deg` and Python's float remainder `% 360`.
- `Geodesy` (geodesy.dfy): `earth_radius_at_lat`, `coordinate_to_point` and
  `point_to_coordinate`.
- `Rotation` (rotation.dfy): 3×3 matrices, `rotation_matrix`, `angular_to_spherical`,
  `spherical_to_angular` and `adjust_aim`.
- `ControllerState` (controller_state.dfy): all fields of the object as one value
  `State`. The two setters and one pass of `main` are functions on it.
- `LockOnTrace` (lock_on_trace.dfy): sequences of setter calls and passes, with the
  capture count and the rising edges of the lock-on flag.
- `ViewControllerObject` (view_controller.dfy): the class itself. Its fields are
  updated in place. Each method is proved to leave `Model()` equal to the matching
  `ControllerState` function of the old `Model()`.

With Python `int` and `float` operands, a pass that divides by zero raises
`ZeroDivisionError` and stops part-way (numpy scalars would give inf or NaN instead;
see the floating-point line under "## Left out"). The model returns
`ZeroDivision` from the dividing function, and `MainPass` returns `completed == false`
with the fields as they are at that point. This happens in two places:

- `coordinate_to_point` divides by the height. The setter accepts a height of 0
  because its test is `height >= 0`.
- `point_to_coordinate` divides by the earth radius. That radius is zero only at
  latitude 90 · 6378137 / 21385.

Unlike a negative height, a zero height is stored, because line 145 tests
`height >= 0`. A later locked pass then divides by it: `PublishAttitude` stores the
zero height, and `Cycle` reports that locked pass as not completed.

The capture is made with the operator's stored theta and phi. A lock request
(`lock_on == True`) does not update `theta_in` and `phi_in`, so the capture uses the
last aim sent without a lock.

## Model

| member | source | states |
|---|---|---|
| Angles.Deg2Rad | vgc/view_controller_fast.py:178-182 | the conversion keeps the sign of the angle: positive, negative and zero map to positive, negative and zero |
| Angles.Rad2Deg | vgc/view_controller_fast.py:184-188 | `rad2deg` is an exact inverse of `deg2rad`: converting its result back gives the input |
| Angles.RadDegRoundTrip | vgc/view_controller_fast.py:178-188 | degrees → radians → degrees is the identity |
| Angles.Rad2DegAdditive | vgc/view_controller_fast.py:220-226 | converting a sum of radians is the sum of the conversions, so the offsets added in radians are offsets in degrees |
| Angles.Mod360 | vgc/view_controller_fast.py:209 | the bearing remainder always lies in [0, 360) and leaves a bearing already in [0, 360) unchanged |
| Angles.Mod360Periodic | vgc/view_controller_fast.py:209 | adding any whole number of turns to the angle does not change the bearing |
| Angles.Mod360WholeTurns | vgc/view_controller_fast.py:209 | the angle and its remainder differ by the floor of angle/360 whole turns |
| Angles.Mod360Idempotent | vgc/view_controller_fast.py:371 | taking the remainder of a remainder changes nothing |
| Geodesy.EarthRadiusAtLat | vgc/view_controller_fast.py:334-342 | for latitudes in [-90, 90] the radius stays within 21385 m of the equatorial radius |
| Geodesy.EarthRadiusEndpoints | vgc/view_controller_fast.py:339-342 | radius 6378137 at the equator and 6378137 − 21385 at latitude 90 |
| Geodesy.EarthRadiusDecreasing | vgc/view_controller_fast.py:341-342 | a higher latitude gives a strictly smaller radius, and conversely |
| Geodesy.EarthRadiusZero | vgc/view_controller_fast.py:341-342 | the radius is zero exactly at the single latitude 90 · 6378137 / 21385 |
| Geodesy.PlanarOffset | vgc/view_controller_fast.py:199-203 | when tan 0 = 0, a target at the same longitude has no east offset and one at the same latitude no north offset |
| Geodesy.CoordinateToPoint | vgc/view_controller_fast.py:190-209 | raises exactly when the height is zero; otherwise the bearing is in [0, 360) and is 0 when both planar offsets are zero |
| Geodesy.DegenerateBearing | vgc/view_controller_fast.py:204-205 | looking from a coordinate at itself gives bearing 0 at any non-zero height |
| Geodesy.GroundOffset | vgc/view_controller_fast.py:220-225 | when tan 0 = 0 and arctan 0 = 0, an aim straight down or a height of zero gives no ground offset |
| Geodesy.PointToCoordinate | vgc/view_controller_fast.py:211-226 | raises exactly at the latitude where the radius is zero; otherwise the result is the drone's coordinate shifted by the two arctan ground offsets converted to degrees |
| Geodesy.StraightDownIsBelow | vgc/view_controller_fast.py:211-226 | an aim straight down (theta 0) saves the drone's own coordinate |
| Geodesy.StraightDownRoundTrip | vgc/view_controller_fast.py:190-226 | when tan 0 = arctan 0 = sqrt 0 = 0, at a non-zero height and a non-degenerate latitude, the coordinate saved for an aim straight down is seen again straight down (theta 0, bearing 0) |
| Rotation.ApplyMul | vgc/view_controller_fast.py:242 | applying a product of matrices is applying the factors in turn |
| Rotation.MulAssoc | vgc/view_controller_fast.py:332 | the three-factor product does not depend on how it is grouped |
| Rotation.TransposeMul | vgc/view_controller_fast.py:239-240 | the transpose of a product is the product of the transposes in reverse order |
| Rotation.DotTranspose | vgc/view_controller_fast.py:239-242 | the transpose is the adjoint of the matrix for the dot product |
| Rotation.OrthogonalMul | vgc/view_controller_fast.py:332 | the product of two orthogonal matrices is orthogonal |
| Rotation.RollOrthogonal | vgc/view_controller_fast.py:315-320 | the roll matrix is orthogonal when its cosine and sine lie on the unit circle |
| Rotation.YawOrthogonal | vgc/view_controller_fast.py:321-325 | the yaw matrix is orthogonal when its cosine and sine lie on the unit circle |
| Rotation.PitchOrthogonal | vgc/view_controller_fast.py:326-331 | the pitch matrix is orthogonal when its cosine and sine lie on the unit circle |
| Rotation.ComposedOrthogonal | vgc/view_controller_fast.py:332 | yaw · (pitch · roll) is orthogonal when each (cosine, sine) pair lies on the unit circle |
| Rotation.RotationMatrixOrthogonal | vgc/view_controller_fast.py:300-332 | when sine and cosine satisfy the Pythagorean identity at the three angles, the attitude matrix's transpose is its inverse on both sides |
| Rotation.LevelAttitudeIsIdentity | vgc/view_controller_fast.py:315-332 | with sin 0 = 0 and cos 0 = 1, zero roll, yaw and pitch give the identity matrix |
| Rotation.RotationMatrix | vgc/view_controller_fast.py:300-332 | the vertical row of the attitude matrix depends on roll and pitch only, as yaw turns about the vertical axis |
| Rotation.AngularToSpherical | vgc/view_controller_fast.py:344-357 | the horizontal part of the aim vector lies on the line of bearing phi; under the Pythagorean identity at phi its component along that bearing is the sine of theta, and its length the absolute value of that sine |
| Rotation.SphericalIsUnit | vgc/view_controller_fast.py:344-357 | the aim vector of any (theta, phi) has length 1 under the Pythagorean identity |
| Rotation.SphericalToAngular | vgc/view_controller_fast.py:359-371 | the bearing returned is always in [0, 360) |
| Rotation.SphericalRoundTrip | vgc/view_controller_fast.py:344-371 | `spherical_to_angular` inverts `angular_to_spherical` for every bearing in [0, 360), wherever `arccos` inverts the cosine at theta and `arctan2` recovers the bearing up to whole turns (as an `arctan2` with values in [-π, π] does past half a turn); the `% 360` of line 371 removes those turns |
| Rotation.AdjustAim | vgc/view_controller_fast.py:228-243 | the compensated bearing is always in [0, 360) |
| Rotation.CompensatedVectorIsUnit | vgc/view_controller_fast.py:239-243 | the rotated aim vector still has length 1, so the argument handed to `arccos` lies in [-1, 1] |
| Rotation.CompensationUndoesRotation | vgc/view_controller_fast.py:239-242 | applying the transpose undoes the attitude rotation of any vector |
| Rotation.LevelAdjustAim | vgc/view_controller_fast.py:228-243 | for a level drone, compensation is the plain round trip through the aim vector |
| Rotation.LevelAimUnchanged | vgc/view_controller_fast.py:228-243 | a level drone keeps the operator's aim unchanged, for every bearing in [0, 360), under the round-trip conditions |
| ControllerState.Initial | vgc/view_controller_fast.py:88-127 | the initial fields satisfy the sanitising invariant (theta in [0, 90), zoom in [2, 50], height ≥ 0) |
| ControllerState.ClampTheta | vgc/view_controller_fast.py:160-169 | the stored theta is in [0, 90); it equals the request exactly when the request is in [0, 90); 89 at or above 90; 0 below 0 |
| ControllerState.PublishAim | vgc/view_controller_fast.py:151-175 | a call while the server flag is set changes nothing; the flag is left as found; without lock the aim is clamped and phi stored verbatim; with lock the stored aim is kept; the lock flag is always taken; `init_lock_on` becomes set exactly on a false→true edge, else is kept; zoom is taken only within [2, 50]; no other field changes; the invariant is preserved |
| ControllerState.PublishAttitude | vgc/view_controller_fast.py:135-148 | a call while the autopilot flag is set changes nothing; the flag is left as found; converting the stored angles back gives the inputs in radians; the coordinate is always overwritten; the height only when ≥ 0; no other field changes; the invariant is preserved |
| ControllerState.Snapshot | vgc/view_controller_fast.py:254-267 | the working aim is the published one unless the operator channel is busy, the working attitude likewise for the autopilot channel, and no other field changes |
| ControllerState.LevelRollZero | vgc/view_controller_fast.py:286-288 | a drone with zero roll and pitch commands zero camera roll, whatever the aim |
| ControllerState.LevelCamera | vgc/view_controller_fast.py:277-288 | for a level drone the outputs are the requested aim itself, yaw equal to the requested bearing, zero roll and pitch the sine of the requested theta, for every bearing in [0, 360), under the round-trip conditions |
| ControllerState.Cycle | vgc/view_controller_fast.py:245-297 | the pass copies exactly the channels not being written and leaves published fields, flags and zoom alone; it captures exactly on a locked pass with the capture armed at a non-degenerate latitude; a capture saves the coordinate under the aim and disarms; without capture the target and the arming are unchanged |
| ControllerState.CycleOutputs | vgc/view_controller_fast.py:268-288 | a pass completes unless it is locked and meets a zero height or, while capturing, the degenerate latitude; a completed pass sets the outputs for the world-frame aim (the operator's, or the one toward the saved target); a raising pass leaves the outputs unchanged |
| ControllerState.CycleKeepsInv | vgc/view_controller_fast.py:254-288 | a pass preserves the sanitising invariant |
| ControllerState.LockedPassesKeepTarget | vgc/view_controller_fast.py:269-276 | after a locked pass, whether it completed or raised, the next pass does not capture and keeps the saved target |
| ControllerState.UnlockedPassKeepsTarget | vgc/view_controller_fast.py:281-285 | an unlocked pass never captures and never touches the saved target |
| LockOnTrace.CaptureBound | vgc/view_controller_fast.py:170-172 | over any sequence of calls, captures plus a still-pending arming never exceed the lock-on rising edges plus an arming pending at the start |
| LockOnTrace.NoLockNoCapture | vgc/view_controller_fast.py:269-274 | from the initial fields, a sequence with no lock-on rising edge never captures |
| LockOnTrace.NoCaptureKeepsTarget | vgc/view_controller_fast.py:269-276 | over any sequence of calls in which no pass captures, the saved target is unchanged, so a locked session keeps one target |
| LockOnTrace.RunKeepsInv | vgc/view_controller_fast.py:145-174 | theta, zoom and height stay in their sanitised ranges after every sequence of calls |
| LockOnTrace.RunKeepsIdle | vgc/view_controller_fast.py:140-267 | in the single-threaded mode both busy flags are clear after every call: each setter (lines 140-148, 157-175) and each pass (lines 254-267) clears the flag it sets |
| LockOnTrace.RunTracksLastAccepted | vgc/view_controller_fast.py:145-174 | with no call dropped, the height is the last non-negative report (lines 145-146) and the zoom the last request within [2, 50] (lines 173-174) |
| LockOnTrace.LockAndPassCaptures | vgc/view_controller_fast.py:170-172 | from an idle unlocked state whose published latitude is not the one where the earth radius is zero, a lock request and a pass capture once and leave the state locked and disarmed over the same coordinate |
| LockOnTrace.RepeatedLockRequestNoCapture | vgc/view_controller_fast.py:170-172 | from an idle state already locked with no capture pending, another lock request and a pass capture nothing: only a false-to-true switch of the flag arms a capture |
| LockOnTrace.ReleaseAndPassKeeps | vgc/view_controller_fast.py:160-172 | from an idle state, a release and a pass capture nothing and leave the state unlocked |
| LockOnTrace.LockedTwiceCapturesOnce | vgc/view_controller_fast.py:269-276 | from the initial fields, a lock request followed by two passes captures exactly once |
| LockOnTrace.RelockCapturesAgain | vgc/view_controller_fast.py:170-172 | from the initial fields, lock, pass, release, pass, lock, pass captures exactly twice |
| ViewControllerObject.ViewController.constructor | vgc/view_controller_fast.py:88-127 | the new object's fields are the initial fields and satisfy the invariant |
| ViewControllerObject.ViewController.UpdateAutopilotInput | vgc/view_controller_fast.py:135-148 | the fields afterwards are `PublishAttitude` of the fields before; the invariant is preserved |
| ViewControllerObject.ViewController.UpdateServerInput | vgc/view_controller_fast.py:151-175 | the fields afterwards are `PublishAim` of the fields before; the invariant is preserved |
| ViewControllerObject.ViewController.MainPass | vgc/view_controller_fast.py:245-297 | the fields afterwards are those of `Cycle` on the fields before, the result says whether the pass ran to its end, and the invariant is preserved |
| ViewControllerObject.ViewController.TakeSnapshot | vgc/view_controller_fast.py:254-267 | the fields afterwards are `Snapshot` of the fields before: each channel not being written is copied into the loop's working fields |
| ViewControllerObject.ViewController.AimCamera | vgc/view_controller_fast.py:277-288 | the fields afterwards differ from those before only in the camera outputs, which are `CameraFor` of the working attitude and the given world-frame aim |

## Left out

- Threading: the thread created in `__init__`, `start`, and the `while True` loop of
  `main` with `is_threading=True` (lines 83-84, 129-133, 253, 296-297). A single pass is
  modelled, and a sequence of calls stands for the calls a single thread makes. The busy
  flags are modelled, and a call made while one is set is dropped, but interleavings
  inside a call are not.
- `pipeline.set_cropping` (lines 290-295): `debug` is fixed to true, so no output is
  sent to the pipeline.
- `vgc.taylor_math_functions` (`tf.sin`, `tf.cos`, `tf.tan`, `tf.arctan`, `tf.arccos`),
  `np.arctan2` and `** 0.5` are not part of this model. They are the fields of
  `MathLib`. Facts that depend on their values, such as the Pythagorean identity,
  `sin 0 = 0` and `arccos(cos x) = x`, are preconditions of the lemmas that need them.
- Floating point: all quantities are exact reals. Rounding, infinities and NaN are not
  modelled; a zero divisor is modelled as `ZeroDivision`, as Python floats raise. With
  numpy scalar operands the division would give inf or NaN with a warning instead.
- `numpy.matrix`: matrices are the `Mat3` datatype and column vectors are `Vec3`.
- `is True` / `is False` in `update_server_input` (line 170) compare identities in
  Python. The model's lock-on flag is a `bool`, so truthy values that are not `True`
  are not modelled.
- The approximate round trip `coordinate_to_point(origin, point_to_coordinate(…))` for
  small offsets: it holds only within a floating-point tolerance for the approximated
  `tan` and `arctan`, and it is not stated. Only its exact straight-down case is
  stated, as `Geodesy.StraightDownRoundTrip`.
- ViewControllerObject.ViewController: the fields a channel publishes together are
  grouped into record values (`attitudeIn`, `attitude`, `aimIn`, `aim`). Each setter
  writes its record once instead of field by field. Nothing reads the fields between
  those writes, so the effect is the same.
- ViewControllerObject.ViewController.MainPass: the flags `is_threading` and `debug` are not
  parameters; the pass is the one `main(is_threading=False, debug=True)` makes.
- Rotation.RotationMatrixOrthogonal: holds only where sine and cosine satisfy the Pythagorean identity at the three attitude angles, because the routines are not modelled.
- Rotation.SphericalIsUnit: holds only where sine and cosine satisfy the Pythagorean identity at theta and phi, because the routines are not modelled.
- Rotation.CompensatedVectorIsUnit: holds only where sine and cosine satisfy the Pythagorean identity at all five angles, because the routines are not modelled.
- Rotation.CompensationUndoesRotation: holds only where sine and cosine satisfy the Pythagorean identity at the three attitude angles, because the routines are not modelled.
- Rotation.SphericalRoundTrip: holds only where `arccos` inverts the cosine at theta and `arctan2` recovers the bearing up to whole turns, because the routines are not modelled.
- Rotation.LevelAimUnchanged: holds only where sin 0 = 0, cos 0 = 1, `arccos` inverts the cosine at theta and `arctan2` recovers the bearing up to whole turns, because the routines are not modelled.
- Rotation.LevelAttitudeIsIdentity: holds only where sin 0 = 0 and cos 0 = 1, because the routines are not modelled.
- ControllerState.LevelCamera: holds only where sin 0 = 0, cos 0 = 1, `arccos` inverts the cosine at theta and `arctan2` recovers the bearing up to whole turns, because the routines are not modelled.
