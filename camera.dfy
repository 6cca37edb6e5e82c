/** Scrolling (src/camera.rs): a camera offset moved by a controller that
    remembers the most recent mouse-wheel line delta. */
module Camera {
  import opened Coords

  /** The window events the controller distinguishes. Wheel deltas come in
      lines or in pixels; every other window event is one `Other`. */
  datatype MouseScrollDelta = LineDelta(x: real, y: real) | PixelDelta(px: real, py: real)
  datatype WindowEvent = MouseWheel(delta: MouseScrollDelta) | Other

  predicate IsLineWheel(e: WindowEvent)
  {
    e.MouseWheel? && e.delta.LineDelta?
  }

  /** A value snapshot of the camera's position. */
  datatype Position = Position(x: real, y: real)

  /** A value snapshot of the controller's fields. */
  datatype Controls = Controls(speed: real, deltaX: real, deltaY: real)

  /** What `process_event` does to the controller's fields, and whether it consumed the event. */
  function Process(c: Controls, e: WindowEvent): (r: (Controls, bool))
    ensures r.1 <==> IsLineWheel(e)
    ensures r.0.speed == c.speed
    ensures r.1 ==> r.0.deltaX == e.delta.x && r.0.deltaY == e.delta.y
    ensures !r.1 ==> r.0 == c
  {
    match e
    case MouseWheel(LineDelta(x, y)) => (Controls(c.speed, x, y), true)
    case MouseWheel(PixelDelta(_, _)) => (c, false)
    case Other => (c, false)
  }

  /** The controller after a sequence of events, processed in order. */
  function ProcessAll(c: Controls, es: seq<WindowEvent>): Controls
    decreases es
  {
    if es == [] then c else ProcessAll(Process(c, es[0]).0, es[1..])
  }

  /** The line delta of the last line-wheel event in `es`, if there is one. */
  function LastLineDelta(es: seq<WindowEvent>): (r: Option<(real, real)>)
    ensures r.None? <==> forall k :: 0 <= k < |es| ==> !IsLineWheel(es[k])
  {
    if es == [] then None
    else if IsLineWheel(es[|es| - 1]) then Some((es[|es| - 1].delta.x, es[|es| - 1].delta.y))
    else LastLineDelta(es[..|es| - 1])
  }

  datatype Option<T> = None | Some(value: T)

  /** Deltas are overwritten, never accumulated: after any sequence of events
      the controller holds the last line delta seen (or its old deltas if there
      was none), and the speed never changes. */
  lemma {:induction false} ProcessAllKeepsLast(c: Controls, es: seq<WindowEvent>)
    ensures ProcessAll(c, es).speed == c.speed
    ensures LastLineDelta(es).None? ==> ProcessAll(c, es) == c
    ensures LastLineDelta(es).Some? ==>
      (ProcessAll(c, es).deltaX, ProcessAll(c, es).deltaY) == LastLineDelta(es).value
  {
    if es != [] {
      var n := |es| - 1;
      ProcessAllSplit(c, es[..n], es[n]);
      assert es[..n] + [es[n]] == es;
      ProcessAllKeepsLast(c, es[..n]);
      assert LastLineDelta(es) == if IsLineWheel(es[n]) then Some((es[n].delta.x, es[n].delta.y)) else LastLineDelta(es[..n]);
    }
  }

  /** Processing `es` then `e` is processing `es + [e]`. */
  lemma {:induction false} ProcessAllSplit(c: Controls, es: seq<WindowEvent>, e: WindowEvent)
    ensures ProcessAll(c, es + [e]) == Process(ProcessAll(c, es), e).0
    decreases es
  {
    if es == [] {
      assert es + [e] == [e];
      assert [e][1..] == [];
    } else {
      assert (es + [e])[1..] == es[1..] + [e];
      ProcessAllSplit(Process(c, es[0]).0, es[1..], e);
    }
  }

  /** Of two line-wheel events in a row, only the second one's deltas remain. */
  lemma SecondWheelEventWins(c: Controls, e1: WindowEvent, e2: WindowEvent)
    requires IsLineWheel(e1) && IsLineWheel(e2)
    ensures Process(Process(c, e1).0, e2).0 == Controls(c.speed, e2.delta.x, e2.delta.y)
  {
  }

  /** What one `update_camera` call does to the camera's position. */
  function Step(p: Position, c: Controls): (q: Position)
    ensures q.x - p.x == c.deltaX * c.speed && q.y - p.y == c.deltaY * c.speed
  {
    Position(p.x + c.deltaX * c.speed, p.y + c.deltaY * c.speed)
  }

  /** The position after `n` updates with unchanged controls. */
  function Steps(p: Position, c: Controls, n: nat): Position
  {
    if n == 0 then p else Step(Steps(p, c, n - 1), c)
  }

  /** Updates do not clear the deltas, so `n` updates move the camera by
      `n * delta * speed` on each axis; the motion is linear and unclamped. */
  lemma {:induction false} StepsClosedForm(p: Position, c: Controls, n: nat)
    ensures Steps(p, c, n) == Position(p.x + n as real * (c.deltaX * c.speed), p.y + n as real * (c.deltaY * c.speed))
  {
    if n > 0 {
      StepsClosedForm(p, c, n - 1);
      assert (n - 1) as real * (c.deltaX * c.speed) + c.deltaX * c.speed == n as real * (c.deltaX * c.speed);
      assert (n - 1) as real * (c.deltaY * c.speed) + c.deltaY * c.speed == n as real * (c.deltaY * c.speed);
    }
  }

  /** With zero deltas (or zero speed) any number of updates leaves the camera where it is. */
  lemma {:induction false} StillControlsDoNotMove(p: Position, c: Controls, n: nat)
    requires c.deltaX * c.speed == 0.0 && c.deltaY * c.speed == 0.0
    ensures Steps(p, c, n) == p
  {
    StepsClosedForm(p, c, n);
  }

  /** The uniform handed to the renderer: the camera offset as `[x, y]`. */
  datatype CameraUniform = CameraUniform(offset: Float2)

  /** `From<&Camera> for CameraUniform`, on a position snapshot. */
  function UniformOf(p: Position): (u: CameraUniform)
    ensures ToPair(u.offset) == (p.x, p.y)
  {
    CameraUniform(FromPair((p.x, p.y)))
  }

  /** The camera's offset, updated in place. */
  class Camera {
    var x: real
    var y: real

    function Pos(): Position
      reads this
    {
      Position(x, y)
    }

    /** `Camera::default()`: the origin. */
    constructor ()
      ensures Pos() == Position(0.0, 0.0)
    {
      x, y := 0.0, 0.0;
    }

    /** The uniform reflects the camera's current offset. */
    function ToUniform(): (u: CameraUniform)
      reads this
      ensures u.offset[0] == x && u.offset[1] == y
    {
      UniformOf(Pos())
    }
  }

  /** Scroll input: a speed and the most recent line delta. */
  class CameraController {
    var speed: real
    var deltaX: real
    var deltaY: real

    function State(): Controls
      reads this
    {
      Controls(speed, deltaX, deltaY)
    }

    /** `CameraController::new(speed)`: the given speed, both deltas zero. */
    constructor (speed: real)
      ensures State() == Controls(speed, 0.0, 0.0)
    {
      this.speed := speed;
      deltaX, deltaY := 0.0, 0.0;
    }

    /** `process_event`: a wheel event with a line delta overwrites both deltas
        and is consumed; any other event is not consumed and changes nothing. */
    method ProcessEvent(event: WindowEvent) returns (consumed: bool)
      modifies this
      ensures (State(), consumed) == Process(old(State()), event)
      ensures consumed <==> IsLineWheel(event)
      ensures speed == old(speed)
      ensures !consumed ==> unchanged(this)
    {
      match event {
        case MouseWheel(delta) =>
          match delta {
            case LineDelta(x, y) =>
              deltaX := x;
              deltaY := y;
              consumed := true;
            case PixelDelta(_, _) =>
              consumed := false;
          }
        case Other =>
          consumed := false;
      }
    }

    /** `update_camera`: moves the camera by `delta * speed` on each axis,
        leaving the controller (and so its deltas) as it was. */
    method UpdateCamera(camera: Camera)
      modifies camera
      ensures camera.Pos() == Step(old(camera.Pos()), State())
      ensures camera.x == old(camera.x) + deltaX * speed
      ensures camera.y == old(camera.y) + deltaY * speed
      ensures unchanged(this)
    {
      camera.x := camera.x + deltaX * speed;
      camera.y := camera.y + deltaY * speed;
    }
  }

  /** Two line-wheel events followed by two updates: only the second event's
      delta counts, and it moves the camera twice, because the update does not
      clear it. */
  method ScrollThenUpdateTwice(controller: CameraController, camera: Camera,
                               e1: WindowEvent, e2: WindowEvent)
    requires IsLineWheel(e1) && IsLineWheel(e2)
    modifies controller, camera
    ensures controller.State() == Controls(old(controller.speed), e2.delta.x, e2.delta.y)
    ensures camera.Pos() == Steps(old(camera.Pos()), controller.State(), 2)
    ensures camera.x == old(camera.x) + 2.0 * (e2.delta.x * old(controller.speed))
    ensures camera.y == old(camera.y) + 2.0 * (e2.delta.y * old(controller.speed))
  {
    var consumed := controller.ProcessEvent(e1);
    consumed := controller.ProcessEvent(e2);
    ghost var start := camera.Pos();
    controller.UpdateCamera(camera);
    controller.UpdateCamera(camera);
    StepsClosedForm(start, controller.State(), 2);
  }
}
