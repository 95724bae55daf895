/**
 * The free-fly camera controller (`Input`): a table of 256 key states and ten
 * axis speeds that ramp up while the axis key is held and decay while it is
 * released; the speeds are integrated into the camera position and rotation.
 *
 * Speeds and pose are real numbers; `sinf`/`cosf` are passed in as a `Trig`
 * record and left uninterpreted.
 */
module CameraInput {

  /** Size of the key table `m_keys`. */
  const KeyCount: nat := 256

  /** Per unit of frame time, a held axis speeds up by this much... */
  const Accel: real := 0.01
  /** ...up to this much times the frame time... */
  const Cap: real := 0.3
  /** ...and a released axis slows down by this much per unit of frame time, down to zero. */
  const Decel: real := 0.006
  /** Every speed is multiplied by this constant before it moves the camera. */
  const Gain: real := 3.141

  /** The ten movement axes, named after the `*Move` method that drives each. */
  datatype Axis =
    | Forward | Backward | HorizontalLeft | HorizontalRight | Up | Down
    | RotateLeft | RotateRight | RotateUp | RotateDown

  /** The key code (an upper-case ASCII letter) that drives each axis. */
  function Key(a: Axis): (k: nat)
    ensures k < KeyCount
  {
    match a
    case Forward => 'W' as nat
    case Backward => 'S' as nat
    case HorizontalLeft => 'A' as nat
    case HorizontalRight => 'D' as nat
    case Up => 'Q' as nat
    case Down => 'Y' as nat
    case RotateLeft => 'O' as nat
    case RotateRight => 'P' as nat
    case RotateUp => 'I' as nat
    case RotateDown => 'K' as nat
  }

  predicate IsRotation(a: Axis)
  {
    a.RotateLeft? || a.RotateRight? || a.RotateUp? || a.RotateDown?
  }

  /** `sinf` and `cosf`, whose values the model does not interpret. */
  datatype Trig = Trig(sin: real -> real, cos: real -> real)

  /** The ten speed fields. */
  datatype Speeds = Speeds(
    forward: real, backward: real, horizontalLeft: real, horizontalRight: real,
    up: real, down: real,
    rotateLeft: real, rotateRight: real, rotateUp: real, rotateDown: real)

  /** Camera position and rotation. */
  datatype Pose = Pose(posX: real, posY: real, posZ: real, rotX: real, rotY: real, rotZ: real)

  datatype Camera = Camera(pose: Pose, speeds: Speeds)

  /** Mouse state fields; no operation of the controller changes them. */
  datatype Mouse = Mouse(
    rightClicked: bool, lastX: int, lastY: int,
    moveRight: bool, moveLeft: bool, moveUp: bool, moveDown: bool)

  const ZeroSpeeds: Speeds := Speeds(0.0, 0.0, 0.0, 0.0, 0.0, 0.0, 0.0, 0.0, 0.0, 0.0)

  /** The field initialisers of the controller. */
  const InitialCamera: Camera := Camera(Pose(1.0, 0.0, -2.0, 0.0, 0.0, 0.0), ZeroSpeeds)
  const InitialMouse: Mouse := Mouse(false, 0, 0, false, false, false, false)

  function Min(x: real, y: real): real { if x <= y then x else y }
  function Max(x: real, y: real): real { if x >= y then x else y }

  function Speed(s: Speeds, a: Axis): real
  {
    match a
    case Forward => s.forward
    case Backward => s.backward
    case HorizontalLeft => s.horizontalLeft
    case HorizontalRight => s.horizontalRight
    case Up => s.up
    case Down => s.down
    case RotateLeft => s.rotateLeft
    case RotateRight => s.rotateRight
    case RotateUp => s.rotateUp
    case RotateDown => s.rotateDown
  }

  function WithSpeed(s: Speeds, a: Axis, v: real): (t: Speeds)
    ensures Speed(t, a) == v
    ensures forall b :: b != a ==> Speed(t, b) == Speed(s, b)
  {
    match a
    case Forward => s.(forward := v)
    case Backward => s.(backward := v)
    case HorizontalLeft => s.(horizontalLeft := v)
    case HorizontalRight => s.(horizontalRight := v)
    case Up => s.(up := v)
    case Down => s.(down := v)
    case RotateLeft => s.(rotateLeft := v)
    case RotateRight => s.(rotateRight := v)
    case RotateUp => s.(rotateUp := v)
    case RotateDown => s.(rotateDown := v)
  }

  /**
   * One axis speed after one step of frame time `time`: a held axis gains
   * `Accel * time` but is capped at `Cap * time`; a released one loses
   * `Decel * time` but never drops below zero.
   */
  function Ramp(speed: real, time: real, held: bool): real
  {
    if held then
      var s := speed + time * Accel;
      if s > time * Cap then time * Cap else s
    else
      var s := speed - time * Decel;
      if s < 0.0 then 0.0 else s
  }

  /**
   * The ramp rule: a held axis gains `Accel * time` up to `Cap * time`; a released
   * one loses `Decel * time` down to zero, so with non-negative time it never speeds up
   * and never goes negative.
   */
  lemma RampRule(speed: real, time: real, held: bool)
    ensures held ==> Ramp(speed, time, held) == Min(speed + Accel * time, Cap * time)
    ensures !held ==> Ramp(speed, time, held) == Max(speed - Decel * time, 0.0)
    ensures held ==> Ramp(speed, time, held) <= Cap * time
    ensures !held ==> 0.0 <= Ramp(speed, time, held)
    ensures 0.0 <= time && 0.0 <= speed ==> 0.0 <= Ramp(speed, time, held)
    ensures !held && 0.0 <= time && 0.0 <= speed ==> Ramp(speed, time, held) <= speed
  {
  }

  /** How the new speed `v` of axis `a` moves the camera. */
  function Integrate(p: Pose, a: Axis, v: real, trig: Trig): Pose
  {
    var c, s := trig.cos(p.rotY), trig.sin(p.rotY);
    match a
    case Forward => p.(posZ := p.posZ + c * Gain * v, posX := p.posX + s * Gain * v)
    case Backward => p.(posZ := p.posZ - c * Gain * v, posX := p.posX - s * Gain * v)
    case HorizontalLeft => p.(posZ := p.posZ + s * Gain * v, posX := p.posX - c * Gain * v)
    case HorizontalRight => p.(posZ := p.posZ - s * Gain * v, posX := p.posX + c * Gain * v)
    case Up => p.(posY := p.posY + Gain * v)
    case Down => p.(posY := p.posY - Gain * v)
    case RotateLeft => p.(rotY := p.rotY - Gain * v)
    case RotateRight => p.(rotY := p.rotY + Gain * v)
    case RotateUp => p.(rotX := p.rotX - Gain * v)
    case RotateDown => p.(rotX := p.rotX + Gain * v)
  }

  /**
   * A translation axis moves the position only, a rotation axis turns the camera
   * only, nothing ever changes the roll, and a zero speed does not move the camera.
   */
  lemma IntegrateSeparatesAxes(p: Pose, a: Axis, v: real, trig: Trig)
    ensures v == 0.0 ==> Integrate(p, a, v, trig) == p
    ensures Integrate(p, a, v, trig).rotZ == p.rotZ
    ensures IsRotation(a) ==> Integrate(p, a, v, trig).(rotX := p.rotX, rotY := p.rotY) == p
    ensures !IsRotation(a) ==> Integrate(p, a, v, trig).(posX := p.posX, posY := p.posY, posZ := p.posZ) == p
  {
  }

  /** One `*Move` step: ramp the axis speed, then move the camera by the new speed. */
  function AxisMove(c: Camera, a: Axis, held: bool, time: real, trig: Trig): Camera
  {
    var v := Ramp(Speed(c.speeds, a), time, held);
    Camera(Integrate(c.pose, a, v, trig), WithSpeed(c.speeds, a, v))
  }

  /** One `*Move` step of axis `a`, driven by its own key in `keys`. */
  function Drive(c: Camera, keys: seq<bool>, time: real, trig: Trig, a: Axis): Camera
    requires |keys| == KeyCount
  {
    AxisMove(c, a, keys[Key(a)], time, trig)
  }

  /** The order in which `Update` drives the axes. */
  const UpdateOrder: seq<Axis> :=
    [Forward, Backward, HorizontalLeft, HorizontalRight, Up, Down,
     RotateLeft, RotateRight, RotateUp, RotateDown]

  /** The axes of `axes` driven one after the other. */
  function ApplyAxes(c: Camera, keys: seq<bool>, time: real, trig: Trig, axes: seq<Axis>): Camera
    requires |keys| == KeyCount
    decreases |axes|
  {
    if axes == [] then c
    else Drive(ApplyAxes(c, keys, time, trig, axes[..|axes| - 1]), keys, time, trig, axes[|axes| - 1])
  }

  /** One `Update`: the ten `*Move` steps in source order. */
  function UpdateCamera(c: Camera, keys: seq<bool>, time: real, trig: Trig): Camera
    requires |keys| == KeyCount
  {
    ApplyAxes(c, keys, time, trig, UpdateOrder)
  }

  /** `n` calls of `Update` with the same keys and frame time. */
  function Frames(c: Camera, keys: seq<bool>, time: real, trig: Trig, n: nat): Camera
    requires |keys| == KeyCount
  {
    if n == 0 then c else UpdateCamera(Frames(c, keys, time, trig, n - 1), keys, time, trig)
  }

  predicate Distinct(axes: seq<Axis>)
  {
    forall i, j | 0 <= i < j < |axes| :: axes[i] != axes[j]
  }

  predicate NonNegative(s: Speeds)
  {
    forall a :: 0.0 <= Speed(s, a)
  }

  /** All speeds zero. */
  predicate AtRest(c: Camera)
  {
    forall a :: Speed(c.speeds, a) == 0.0
  }

  /** None of the ten axis keys is pressed. */
  predicate NoAxisHeld(keys: seq<bool>)
    requires |keys| == KeyCount
  {
    forall a :: !keys[Key(a)]
  }

  /** Driving the first `k + 1` axes is driving the first `k`, then axis number `k`. */
  lemma ApplyAxesPrefix(c: Camera, keys: seq<bool>, time: real, trig: Trig, axes: seq<Axis>, k: nat)
    requires |keys| == KeyCount && k < |axes|
    ensures ApplyAxes(c, keys, time, trig, axes[..k + 1]) ==
      Drive(ApplyAxes(c, keys, time, trig, axes[..k]), keys, time, trig, axes[k])
  {
    assert axes[..k + 1][..k] == axes[..k];
  }

  /** A step of axis `b` changes the speed of `b` only, by the ramp rule. */
  lemma DriveSpeed(c: Camera, keys: seq<bool>, time: real, trig: Trig, b: Axis, a: Axis)
    requires |keys| == KeyCount
    ensures Speed(Drive(c, keys, time, trig, b).speeds, a) ==
      if a == b then Ramp(Speed(c.speeds, a), time, keys[Key(a)]) else Speed(c.speeds, a)
  {
  }

  /** A step of axis `a` moves the camera by the speed it has just given `a`. */
  lemma DrivePose(c: Camera, keys: seq<bool>, time: real, trig: Trig, a: Axis)
    requires |keys| == KeyCount
    ensures Drive(c, keys, time, trig, a).pose == Integrate(c.pose, a, Speed(Drive(c, keys, time, trig, a).speeds, a), trig)
  {
  }

  /** Driving a list of distinct axes changes each axis speed by its own rule only, once. */
  lemma {:induction false} ApplyAxesSpeed(c: Camera, keys: seq<bool>, time: real, trig: Trig, axes: seq<Axis>, a: Axis)
    requires |keys| == KeyCount
    requires Distinct(axes)
    ensures Speed(ApplyAxes(c, keys, time, trig, axes).speeds, a) ==
      if a in axes then Ramp(Speed(c.speeds, a), time, keys[Key(a)]) else Speed(c.speeds, a)
  {
    if axes != [] {
      var pre, last := axes[..|axes| - 1], axes[|axes| - 1];
      assert Distinct(pre);
      ApplyAxesSpeed(c, keys, time, trig, pre, a);
      DriveSpeed(ApplyAxes(c, keys, time, trig, pre), keys, time, trig, last, a);
      assert axes == pre + [last];
      if a == last {
        assert a !in pre by {
          forall i | 0 <= i < |pre| ensures pre[i] != a {
            assert axes[i] != axes[|axes| - 1];
          }
        }
      }
    }
  }

  lemma UpdateOrderIsComplete(a: Axis)
    ensures Distinct(UpdateOrder) && a in UpdateOrder
  {
    assert UpdateOrder[0] == Forward && UpdateOrder[1] == Backward;
    assert UpdateOrder[2] == HorizontalLeft && UpdateOrder[3] == HorizontalRight;
    assert UpdateOrder[4] == Up && UpdateOrder[5] == Down;
    assert UpdateOrder[6] == RotateLeft && UpdateOrder[7] == RotateRight;
    assert UpdateOrder[8] == RotateUp && UpdateOrder[9] == RotateDown;
  }

  /** In one `Update`, every axis speed follows its own ramp rule and no other axis touches it. */
  lemma UpdateSpeed(c: Camera, keys: seq<bool>, time: real, trig: Trig, a: Axis)
    requires |keys| == KeyCount
    ensures Speed(UpdateCamera(c, keys, time, trig).speeds, a) == Ramp(Speed(c.speeds, a), time, keys[Key(a)])
  {
    UpdateOrderIsComplete(a);
    ApplyAxesSpeed(c, keys, time, trig, UpdateOrder, a);
  }

  /**
   * For a non-negative frame time, `Update` keeps every speed non-negative, and
   * every axis whose key is held ends the update at most `Cap * time`.
   */
  lemma UpdateSpeedBounds(c: Camera, keys: seq<bool>, time: real, trig: Trig)
    requires |keys| == KeyCount
    requires 0.0 <= time && NonNegative(c.speeds)
    ensures NonNegative(UpdateCamera(c, keys, time, trig).speeds)
    ensures forall a :: keys[Key(a)] ==> Speed(UpdateCamera(c, keys, time, trig).speeds, a) <= Cap * time
  {
    forall a ensures 0.0 <= Speed(UpdateCamera(c, keys, time, trig).speeds, a) <= if keys[Key(a)] then Cap * time else Speed(c.speeds, a) {
      UpdateSpeed(c, keys, time, trig, a);
      RampRule(Speed(c.speeds, a), time, keys[Key(a)]);
    }
  }

  /** A step of a released axis of a camera at rest, with non-negative time, changes nothing. */
  lemma DriveAtRest(c: Camera, keys: seq<bool>, time: real, trig: Trig, a: Axis)
    requires |keys| == KeyCount
    requires AtRest(c) && !keys[Key(a)] && 0.0 <= time
    ensures Drive(c, keys, time, trig, a) == c
  {
    assert Ramp(Speed(c.speeds, a), time, keys[Key(a)]) == 0.0;
    IntegrateSeparatesAxes(c.pose, a, 0.0, trig);
    var s := WithSpeed(c.speeds, a, 0.0);
    assert s == c.speeds by {
      assert Speed(s, Forward) == Speed(c.speeds, Forward);
      assert Speed(s, Backward) == Speed(c.speeds, Backward);
      assert Speed(s, HorizontalLeft) == Speed(c.speeds, HorizontalLeft);
      assert Speed(s, HorizontalRight) == Speed(c.speeds, HorizontalRight);
      assert Speed(s, Up) == Speed(c.speeds, Up);
      assert Speed(s, Down) == Speed(c.speeds, Down);
      assert Speed(s, RotateLeft) == Speed(c.speeds, RotateLeft);
      assert Speed(s, RotateRight) == Speed(c.speeds, RotateRight);
      assert Speed(s, RotateUp) == Speed(c.speeds, RotateUp);
      assert Speed(s, RotateDown) == Speed(c.speeds, RotateDown);
    }
  }

  /** Driving any axes of a camera at rest, with no axis key held and non-negative time, changes nothing. */
  lemma {:induction false} ApplyAxesAtRest(c: Camera, keys: seq<bool>, time: real, trig: Trig, axes: seq<Axis>)
    requires |keys| == KeyCount
    requires AtRest(c) && NoAxisHeld(keys) && 0.0 <= time
    ensures ApplyAxes(c, keys, time, trig, axes) == c
  {
    if axes != [] {
      ApplyAxesAtRest(c, keys, time, trig, axes[..|axes| - 1]);
      DriveAtRest(c, keys, time, trig, axes[|axes| - 1]);
    }
  }

  /** Any number of frames with every speed zero and no axis key held leave the camera where it is. */
  lemma {:induction false} FramesAtRest(c: Camera, keys: seq<bool>, time: real, trig: Trig, n: nat)
    requires |keys| == KeyCount
    requires AtRest(c) && NoAxisHeld(keys) && 0.0 <= time
    ensures Frames(c, keys, time, trig, n) == c
  {
    if n > 0 {
      FramesAtRest(c, keys, time, trig, n - 1);
      ApplyAxesAtRest(c, keys, time, trig, UpdateOrder);
    }
  }

  /** From the initial state, ten frames without input leave the camera at (1, 0, -2) with no rotation. */
  lemma InitialCameraStaysWithoutInput(keys: seq<bool>, time: real, trig: Trig)
    requires |keys| == KeyCount && NoAxisHeld(keys) && 0.0 <= time
    ensures Frames(InitialCamera, keys, time, trig, 10).pose == Pose(1.0, 0.0, -2.0, 0.0, 0.0, 0.0)
  {
    FramesAtRest(InitialCamera, keys, time, trig, 10);
  }

  /** One more held frame on top of `n - 1` held frames from rest. */
  lemma HeldStep(s: real, n: nat, time: real)
    requires n > 0 && 0.0 <= time
    requires s == Min(((n - 1) as real) * Accel * time, Cap * time)
    ensures Ramp(s, time, true) == Min((n as real) * Accel * time, Cap * time)
  {
    var k := (n - 1) as real;
    assert (n as real) * Accel * time == k * Accel * time + Accel * time by {
      assert n as real == k + 1.0;
    }
  }

  /** One more released frame on top of `n - 1` released frames from speed `s0`. */
  lemma ReleasedStep(s0: real, s: real, n: nat, time: real)
    requires n > 0 && 0.0 <= time
    requires s == Max(s0 - ((n - 1) as real) * Decel * time, 0.0)
    ensures Ramp(s, time, false) == Max(s0 - (n as real) * Decel * time, 0.0)
  {
    var k := (n - 1) as real;
    assert (n as real) * Decel * time == k * Decel * time + Decel * time by {
      assert n as real == k + 1.0;
    }
  }

  /** The speed of one axis after `n` frames with its key `held` throughout. */
  function RampFrames(speed: real, time: real, held: bool, n: nat): real
  {
    if n == 0 then speed else Ramp(RampFrames(speed, time, held, n - 1), time, held)
  }

  /** Over many frames, each axis speed follows its own ramp rule, whatever the other axes do. */
  lemma {:induction false} FramesSpeed(c: Camera, keys: seq<bool>, time: real, trig: Trig, a: Axis, n: nat)
    requires |keys| == KeyCount
    ensures Speed(Frames(c, keys, time, trig, n).speeds, a) == RampFrames(Speed(c.speeds, a), time, keys[Key(a)], n)
  {
    if n > 0 {
      var prev := Frames(c, keys, time, trig, n - 1);
      FramesSpeed(c, keys, time, trig, a, n - 1);
      UpdateSpeed(prev, keys, time, trig, a);
      assert Frames(c, keys, time, trig, n) == UpdateCamera(prev, keys, time, trig);
    }
  }

  /**
   * Holding an axis key for `n` frames of time `time`, starting from rest, gives
   * that axis the speed `min(n * Accel * time, Cap * time)`.
   */
  lemma {:induction false} HeldForFrames(time: real, n: nat)
    requires 0.0 <= time
    ensures RampFrames(0.0, time, true, n) == Min((n as real) * Accel * time, Cap * time)
  {
    if n > 0 {
      HeldForFrames(time, n - 1);
      HeldStep(RampFrames(0.0, time, true, n - 1), n, time);
    }
  }

  /**
   * Releasing an axis key for `n` frames of time `time` takes its speed `s`
   * down to `max(s - n * Decel * time, 0)`.
   */
  lemma {:induction false} ReleasedForFrames(s: real, time: real, n: nat)
    requires 0.0 <= s && 0.0 <= time
    ensures RampFrames(s, time, false, n) == Max(s - (n as real) * Decel * time, 0.0)
  {
    if n > 0 {
      ReleasedForFrames(s, time, n - 1);
      ReleasedStep(s, RampFrames(s, time, false, n - 1), n, time);
    }
  }

  /** Holding an axis key for `n` frames from rest, in the camera. */
  lemma CameraHeldForFrames(c: Camera, keys: seq<bool>, time: real, trig: Trig, a: Axis, n: nat)
    requires |keys| == KeyCount
    requires keys[Key(a)] && Speed(c.speeds, a) == 0.0 && 0.0 <= time
    ensures Speed(Frames(c, keys, time, trig, n).speeds, a) == Min((n as real) * Accel * time, Cap * time)
  {
    FramesSpeed(c, keys, time, trig, a, n);
    HeldForFrames(time, n);
  }

  /** Releasing an axis key for `n` frames, in the camera. */
  lemma CameraReleasedForFrames(c: Camera, keys: seq<bool>, time: real, trig: Trig, a: Axis, n: nat)
    requires |keys| == KeyCount
    requires !keys[Key(a)] && 0.0 <= Speed(c.speeds, a) && 0.0 <= time
    ensures Speed(Frames(c, keys, time, trig, n).speeds, a) == Max(Speed(c.speeds, a) - (n as real) * Decel * time, 0.0)
  {
    FramesSpeed(c, keys, time, trig, a, n);
    ReleasedForFrames(Speed(c.speeds, a), time, n);
  }

  /**
   * The cameras between the `*Move` steps of one `Update`: each follows from the one
   * before by driving the next axis of `UpdateOrder`, and the speed an axis gets at its
   * own step is the speed it still has at the end.
   */
  lemma UpdateSteps(c: Camera, keys: seq<bool>, time: real, trig: Trig) returns (cs: seq<Camera>)
    requires |keys| == KeyCount
    ensures |cs| == 11 && cs[0] == c && cs[10] == UpdateCamera(c, keys, time, trig)
    ensures forall k | 0 <= k < 10 :: cs[k + 1] == Drive(cs[k], keys, time, trig, UpdateOrder[k])
    ensures forall k | 0 <= k < 10 :: Speed(cs[k + 1].speeds, UpdateOrder[k]) == Speed(cs[10].speeds, UpdateOrder[k])
  {
    cs := seq(11, k requires 0 <= k <= 10 => ApplyAxes(c, keys, time, trig, UpdateOrder[..k]));
    assert UpdateOrder[..0] == [];
    assert UpdateOrder[..10] == UpdateOrder;
    forall k | 0 <= k < 10
      ensures cs[k + 1] == Drive(cs[k], keys, time, trig, UpdateOrder[k])
      ensures Speed(cs[k + 1].speeds, UpdateOrder[k]) == Speed(cs[10].speeds, UpdateOrder[k])
    {
      ApplyAxesPrefix(c, keys, time, trig, UpdateOrder, k);
      UpdateOrderIsComplete(UpdateOrder[k]);
      var pre := UpdateOrder[..k + 1];
      assert Distinct(pre) by {
        forall i, j | 0 <= i < j < |pre| ensures pre[i] != pre[j] {
          assert pre[i] == UpdateOrder[i] && pre[j] == UpdateOrder[j];
        }
      }
      assert pre[k] == UpdateOrder[k];
      ApplyAxesSpeed(c, keys, time, trig, pre, UpdateOrder[k]);
      ApplyAxesSpeed(c, keys, time, trig, UpdateOrder, UpdateOrder[k]);
    }
  }

  /**
   * How one `Update` turns the camera, in terms of the new speeds `v`: yaw and
   * pitch integrate linearly, roll never changes.
   */
  lemma UpdateRotation(c: Camera, keys: seq<bool>, time: real, trig: Trig)
    requires |keys| == KeyCount
    ensures
      var u := UpdateCamera(c, keys, time, trig);
      var v := u.speeds;
      && u.pose.rotY == c.pose.rotY - Gain * v.rotateLeft + Gain * v.rotateRight
      && u.pose.rotX == c.pose.rotX - Gain * v.rotateUp + Gain * v.rotateDown
      && u.pose.rotZ == c.pose.rotZ
  {
    var cs := UpdateSteps(c, keys, time, trig);
    assert UpdateOrder[6] == RotateLeft && UpdateOrder[7] == RotateRight;
    assert UpdateOrder[8] == RotateUp && UpdateOrder[9] == RotateDown;
    forall k | 0 <= k < 6
      ensures cs[k + 1].pose.(posX := 0.0, posY := 0.0, posZ := 0.0) == cs[k].pose.(posX := 0.0, posY := 0.0, posZ := 0.0)
    {
      assert !IsRotation(UpdateOrder[k]);
      IntegrateSeparatesAxes(cs[k].pose, UpdateOrder[k], Speed(cs[k + 1].speeds, UpdateOrder[k]), trig);
    }
    assert cs[6].pose.rotX == c.pose.rotX && cs[6].pose.rotY == c.pose.rotY && cs[6].pose.rotZ == c.pose.rotZ by {
      var k := 0;
      while k < 6
        invariant 0 <= k <= 6
        invariant cs[k].pose.rotX == c.pose.rotX && cs[k].pose.rotY == c.pose.rotY && cs[k].pose.rotZ == c.pose.rotZ
      {
        assert cs[k + 1].pose.(posX := 0.0, posY := 0.0, posZ := 0.0) == cs[k].pose.(posX := 0.0, posY := 0.0, posZ := 0.0);
        k := k + 1;
      }
    }
    assert cs[7] == Drive(cs[6], keys, time, trig, RotateLeft);
    assert cs[8] == Drive(cs[7], keys, time, trig, RotateRight);
    assert cs[9] == Drive(cs[8], keys, time, trig, RotateUp);
    assert cs[10] == Drive(cs[9], keys, time, trig, RotateDown);
  }

  /** The six translation steps of `Update`, which run before any rotation step, added up. */
  lemma TranslationSteps(p0: Pose, p1: Pose, p2: Pose, p3: Pose, p4: Pose, p5: Pose, p6: Pose, v: Speeds, trig: Trig)
    requires p1 == Integrate(p0, Forward, v.forward, trig) && p2 == Integrate(p1, Backward, v.backward, trig)
    requires p3 == Integrate(p2, HorizontalLeft, v.horizontalLeft, trig)
    requires p4 == Integrate(p3, HorizontalRight, v.horizontalRight, trig)
    requires p5 == Integrate(p4, Up, v.up, trig) && p6 == Integrate(p5, Down, v.down, trig)
    ensures
      var co, sn := trig.cos(p0.rotY), trig.sin(p0.rotY);
      && p6.posY == p0.posY + Gain * v.up - Gain * v.down
      && p6.posZ == p0.posZ + co * Gain * v.forward - co * Gain * v.backward
                            + sn * Gain * v.horizontalLeft - sn * Gain * v.horizontalRight
      && p6.posX == p0.posX + sn * Gain * v.forward - sn * Gain * v.backward
                            - co * Gain * v.horizontalLeft + co * Gain * v.horizontalRight
  {
  }

  /** The four rotation steps of one `Update`, which come after the translations, leave the position where the translations left it. */
  lemma RotationsKeepPosition(cs: seq<Camera>, keys: seq<bool>, time: real, trig: Trig)
    requires |keys| == KeyCount && |cs| == 11
    requires forall k | 0 <= k < 10 :: cs[k + 1] == Drive(cs[k], keys, time, trig, UpdateOrder[k])
    ensures cs[10].pose.posX == cs[6].pose.posX && cs[10].pose.posY == cs[6].pose.posY && cs[10].pose.posZ == cs[6].pose.posZ
  {
    forall k | 6 <= k < 10
      ensures cs[k + 1].pose.(rotX := 0.0, rotY := 0.0) == cs[k].pose.(rotX := 0.0, rotY := 0.0)
    {
      assert IsRotation(UpdateOrder[k]);
      IntegrateSeparatesAxes(cs[k].pose, UpdateOrder[k], Speed(cs[k + 1].speeds, UpdateOrder[k]), trig);
    }
    var k := 6;
    while k < 10
      invariant 6 <= k <= 10
      invariant cs[k].pose.posX == cs[6].pose.posX && cs[k].pose.posY == cs[6].pose.posY && cs[k].pose.posZ == cs[6].pose.posZ
    {
      assert cs[k + 1].pose.(rotX := 0.0, rotY := 0.0) == cs[k].pose.(rotX := 0.0, rotY := 0.0);
      k := k + 1;
    }
  }

  /**
   * The poses after each translation step of one `Update`; the rotation steps
   * after them leave the position as the translations left it.
   */
  lemma TranslationPoses(c: Camera, keys: seq<bool>, time: real, trig: Trig) returns (ps: seq<Pose>)
    requires |keys| == KeyCount
    ensures
      var u := UpdateCamera(c, keys, time, trig);
      var v := u.speeds;
      && |ps| == 7 && ps[0] == c.pose
      && ps[1] == Integrate(ps[0], Forward, v.forward, trig)
      && ps[2] == Integrate(ps[1], Backward, v.backward, trig)
      && ps[3] == Integrate(ps[2], HorizontalLeft, v.horizontalLeft, trig)
      && ps[4] == Integrate(ps[3], HorizontalRight, v.horizontalRight, trig)
      && ps[5] == Integrate(ps[4], Up, v.up, trig)
      && ps[6] == Integrate(ps[5], Down, v.down, trig)
      && u.pose.posX == ps[6].posX && u.pose.posY == ps[6].posY && u.pose.posZ == ps[6].posZ
  {
    var cs := UpdateSteps(c, keys, time, trig);
    RotationsKeepPosition(cs, keys, time, trig);
    var v := cs[10].speeds;
    assert cs[1].pose == Integrate(cs[0].pose, Forward, v.forward, trig) by {
      assert UpdateOrder[0] == Forward;
      DrivePose(cs[0], keys, time, trig, Forward);
    }
    assert cs[2].pose == Integrate(cs[1].pose, Backward, v.backward, trig) by {
      assert UpdateOrder[1] == Backward;
      DrivePose(cs[1], keys, time, trig, Backward);
    }
    assert cs[3].pose == Integrate(cs[2].pose, HorizontalLeft, v.horizontalLeft, trig) by {
      assert UpdateOrder[2] == HorizontalLeft;
      DrivePose(cs[2], keys, time, trig, HorizontalLeft);
    }
    assert cs[4].pose == Integrate(cs[3].pose, HorizontalRight, v.horizontalRight, trig) by {
      assert UpdateOrder[3] == HorizontalRight;
      DrivePose(cs[3], keys, time, trig, HorizontalRight);
    }
    assert cs[5].pose == Integrate(cs[4].pose, Up, v.up, trig) by {
      assert UpdateOrder[4] == Up;
      DrivePose(cs[4], keys, time, trig, Up);
    }
    assert cs[6].pose == Integrate(cs[5].pose, Down, v.down, trig) by {
      assert UpdateOrder[5] == Down;
      DrivePose(cs[5], keys, time, trig, Down);
    }
    ps := [cs[0].pose, cs[1].pose, cs[2].pose, cs[3].pose, cs[4].pose, cs[5].pose, cs[6].pose];
  }

  /**
   * How one `Update` moves the camera, in terms of the new speeds `v`: height
   * integrates linearly; the four horizontal translations all use the yaw from
   * before this update, because the rotation steps come after them.
   */
  lemma UpdateTranslation(c: Camera, keys: seq<bool>, time: real, trig: Trig)
    requires |keys| == KeyCount
    ensures
      var u := UpdateCamera(c, keys, time, trig);
      var v := u.speeds;
      var p := c.pose;
      var co, sn := trig.cos(p.rotY), trig.sin(p.rotY);
      && u.pose.posY == p.posY + Gain * v.up - Gain * v.down
      && u.pose.posZ == p.posZ + co * Gain * v.forward - co * Gain * v.backward
                               + sn * Gain * v.horizontalLeft - sn * Gain * v.horizontalRight
      && u.pose.posX == p.posX + sn * Gain * v.forward - sn * Gain * v.backward
                               - co * Gain * v.horizontalLeft + co * Gain * v.horizontalRight
  {
    var ps := TranslationPoses(c, keys, time, trig);
    TranslationSteps(ps[0], ps[1], ps[2], ps[3], ps[4], ps[5], ps[6], UpdateCamera(c, keys, time, trig).speeds, trig);
  }

  class Input {
    /** `m_keys`: true while the key with that code is pressed. */
    var keys: array<bool>

    var rightClicked: bool
    var lastMouseX: int
    var lastMouseY: int
    var moveMouseRight: bool
    var moveMouseLeft: bool
    var moveMouseUp: bool
    var moveMouseDown: bool

    var posX: real
    var posY: real
    var posZ: real
    var rotX: real
    var rotY: real
    var rotZ: real

    var rotLeftSpeed: real
    var rotRightSpeed: real
    var rotUpSpeed: real
    var rotDownSpeed: real

    var forwardSpeed: real
    var backwardSpeed: real
    var horizontalLeftSpeed: real
    var horizontalRightSpeed: real
    var upSpeed: real
    var downSpeed: real

    ghost predicate Valid()
      reads this
    {
      keys.Length == KeyCount
    }

    /** The pose and speed fields as one value. */
    function CameraState(): Camera
      reads this
    {
      Camera(Pose(posX, posY, posZ, rotX, rotY, rotZ),
             Speeds(forwardSpeed, backwardSpeed, horizontalLeftSpeed, horizontalRightSpeed, upSpeed, downSpeed,
                    rotLeftSpeed, rotRightSpeed, rotUpSpeed, rotDownSpeed))
    }

    function MouseState(): Mouse
      reads this
    {
      Mouse(rightClicked, lastMouseX, lastMouseY, moveMouseRight, moveMouseLeft, moveMouseUp, moveMouseDown)
    }

    /** The field initialisers, then every key released. */
    constructor ()
      ensures Valid() && fresh(keys)
      ensures forall i | 0 <= i < KeyCount :: !keys[i]
      ensures CameraState() == InitialCamera && MouseState() == InitialMouse
    {
      rightClicked, lastMouseX, lastMouseY := false, 0, 0;
      moveMouseRight, moveMouseLeft, moveMouseUp, moveMouseDown := false, false, false, false;
      posX, posY, posZ := 1.0, 0.0, -2.0;
      rotX, rotY, rotZ := 0.0, 0.0, 0.0;
      rotLeftSpeed, rotRightSpeed, rotUpSpeed, rotDownSpeed := 0.0, 0.0, 0.0, 0.0;
      forwardSpeed, backwardSpeed, horizontalLeftSpeed, horizontalRightSpeed := 0.0, 0.0, 0.0, 0.0;
      upSpeed, downSpeed := 0.0, 0.0;
      var table := new bool[KeyCount];
      for i := 0 to KeyCount
        invariant forall j | 0 <= j < i :: !table[j]
      {
        table[i] := false;
      }
      keys := table;
    }

    method KeyDown(value: nat)
      requires Valid() && value < KeyCount
      modifies keys
      ensures keys[value]
      ensures forall i | 0 <= i < KeyCount && i != value :: keys[i] == old(keys[i])
    {
      keys[value] := true;
    }

    method KeyUp(value: nat)
      requires Valid() && value < KeyCount
      modifies keys
      ensures !keys[value]
      ensures forall i | 0 <= i < KeyCount && i != value :: keys[i] == old(keys[i])
    {
      keys[value] := false;
    }

    method Update(time: real, trig: Trig)
      requires Valid()
      modifies this
      ensures Valid() && keys == old(keys) && MouseState() == old(MouseState())
      ensures CameraState() == UpdateCamera(old(CameraState()), keys[..], time, trig)
    {
      ghost var c0 := CameraState();
      TranslationMoves(time, trig);
      RotationMoves(time, trig, c0);
      assert UpdateOrder[..10] == UpdateOrder;
    }

    /** The first six steps of `Update`: the four horizontal translations, then up and down. */
    method TranslationMoves(time: real, trig: Trig)
      requires Valid()
      modifies this
      ensures Valid() && keys == old(keys) && MouseState() == old(MouseState())
      ensures CameraState() == ApplyAxes(old(CameraState()), keys[..], time, trig, UpdateOrder[..6])
    {
      ghost var c0, ks := CameraState(), keys[..];
      assert UpdateOrder[..0] == [];
      ForwardMove(time, trig);
      ApplyAxesPrefix(c0, ks, time, trig, UpdateOrder, 0);
      BackwardMove(time, trig);
      ApplyAxesPrefix(c0, ks, time, trig, UpdateOrder, 1);
      HorizontalLeftMove(time, trig);
      ApplyAxesPrefix(c0, ks, time, trig, UpdateOrder, 2);
      HorizontalRightMove(time, trig);
      ApplyAxesPrefix(c0, ks, time, trig, UpdateOrder, 3);
      UpMove(time, trig);
      ApplyAxesPrefix(c0, ks, time, trig, UpdateOrder, 4);
      DownMove(time, trig);
      ApplyAxesPrefix(c0, ks, time, trig, UpdateOrder, 5);
    }

    /** The last four steps of `Update`, the rotations, continuing from the camera `c0` the update started with. */
    method RotationMoves(time: real, trig: Trig, ghost c0: Camera)
      requires Valid() && CameraState() == ApplyAxes(c0, keys[..], time, trig, UpdateOrder[..6])
      modifies this
      ensures Valid() && keys == old(keys) && MouseState() == old(MouseState())
      ensures CameraState() == ApplyAxes(c0, keys[..], time, trig, UpdateOrder[..10])
    {
      ghost var ks := keys[..];
      LeftRotateMove(time, trig);
      ApplyAxesPrefix(c0, ks, time, trig, UpdateOrder, 6);
      RightRotateMove(time, trig);
      ApplyAxesPrefix(c0, ks, time, trig, UpdateOrder, 7);
      UpRotateMove(time, trig);
      ApplyAxesPrefix(c0, ks, time, trig, UpdateOrder, 8);
      DownRotateMove(time, trig);
      ApplyAxesPrefix(c0, ks, time, trig, UpdateOrder, 9);
    }

    method ForwardMove(time: real, trig: Trig)
      requires Valid()
      modifies this
      ensures Valid() && keys == old(keys) && MouseState() == old(MouseState())
      ensures CameraState() == Drive(old(CameraState()), keys[..], time, trig, Forward)
    {
      forwardSpeed := Ramp(forwardSpeed, time, keys[Key(Forward)]);
      posZ := posZ + trig.cos(rotY) * Gain * forwardSpeed;
      posX := posX + trig.sin(rotY) * Gain * forwardSpeed;
    }

    method BackwardMove(time: real, trig: Trig)
      requires Valid()
      modifies this
      ensures Valid() && keys == old(keys) && MouseState() == old(MouseState())
      ensures CameraState() == Drive(old(CameraState()), keys[..], time, trig, Backward)
    {
      backwardSpeed := Ramp(backwardSpeed, time, keys[Key(Backward)]);
      posZ := posZ - trig.cos(rotY) * Gain * backwardSpeed;
      posX := posX - trig.sin(rotY) * Gain * backwardSpeed;
    }

    method HorizontalLeftMove(time: real, trig: Trig)
      requires Valid()
      modifies this
      ensures Valid() && keys == old(keys) && MouseState() == old(MouseState())
      ensures CameraState() == Drive(old(CameraState()), keys[..], time, trig, HorizontalLeft)
    {
      horizontalLeftSpeed := Ramp(horizontalLeftSpeed, time, keys[Key(HorizontalLeft)]);
      posZ := posZ + trig.sin(rotY) * Gain * horizontalLeftSpeed;
      posX := posX - trig.cos(rotY) * Gain * horizontalLeftSpeed;
    }

    method HorizontalRightMove(time: real, trig: Trig)
      requires Valid()
      modifies this
      ensures Valid() && keys == old(keys) && MouseState() == old(MouseState())
      ensures CameraState() == Drive(old(CameraState()), keys[..], time, trig, HorizontalRight)
    {
      horizontalRightSpeed := Ramp(horizontalRightSpeed, time, keys[Key(HorizontalRight)]);
      posZ := posZ - trig.sin(rotY) * Gain * horizontalRightSpeed;
      posX := posX + trig.cos(rotY) * Gain * horizontalRightSpeed;
    }

    method UpMove(time: real, trig: Trig)
      requires Valid()
      modifies this
      ensures Valid() && keys == old(keys) && MouseState() == old(MouseState())
      ensures CameraState() == Drive(old(CameraState()), keys[..], time, trig, Up)
    {
      upSpeed := Ramp(upSpeed, time, keys[Key(Up)]);
      posY := posY + Gain * upSpeed;
    }

    method DownMove(time: real, trig: Trig)
      requires Valid()
      modifies this
      ensures Valid() && keys == old(keys) && MouseState() == old(MouseState())
      ensures CameraState() == Drive(old(CameraState()), keys[..], time, trig, Down)
    {
      downSpeed := Ramp(downSpeed, time, keys[Key(Down)]);
      posY := posY - Gain * downSpeed;
    }

    method LeftRotateMove(time: real, trig: Trig)
      requires Valid()
      modifies this
      ensures Valid() && keys == old(keys) && MouseState() == old(MouseState())
      ensures CameraState() == Drive(old(CameraState()), keys[..], time, trig, RotateLeft)
    {
      rotLeftSpeed := Ramp(rotLeftSpeed, time, keys[Key(RotateLeft)]);
      rotY := rotY - Gain * rotLeftSpeed;
    }

    method RightRotateMove(time: real, trig: Trig)
      requires Valid()
      modifies this
      ensures Valid() && keys == old(keys) && MouseState() == old(MouseState())
      ensures CameraState() == Drive(old(CameraState()), keys[..], time, trig, RotateRight)
    {
      rotRightSpeed := Ramp(rotRightSpeed, time, keys[Key(RotateRight)]);
      rotY := rotY + Gain * rotRightSpeed;
    }

    method UpRotateMove(time: real, trig: Trig)
      requires Valid()
      modifies this
      ensures Valid() && keys == old(keys) && MouseState() == old(MouseState())
      ensures CameraState() == Drive(old(CameraState()), keys[..], time, trig, RotateUp)
    {
      rotUpSpeed := Ramp(rotUpSpeed, time, keys[Key(RotateUp)]);
      rotX := rotX - Gain * rotUpSpeed;
    }

    method DownRotateMove(time: real, trig: Trig)
      requires Valid()
      modifies this
      ensures Valid() && keys == old(keys) && MouseState() == old(MouseState())
      ensures CameraState() == Drive(old(CameraState()), keys[..], time, trig, RotateDown)
    {
      rotDownSpeed := Ramp(rotDownSpeed, time, keys[Key(RotateDown)]);
      rotX := rotX + Gain * rotDownSpeed;
    }

    function GetRotX(): real reads this { rotX }
    function GetRotY(): real reads this { rotY }
    function GetPosX(): real reads this { posX }
    function GetPosY(): real reads this { posY }
    function GetPosZ(): real reads this { posZ }
  }
}
