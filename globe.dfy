/**
 * Pointer and rotation state of the globe view. Two flags, `mouseDown` and
 * `isAutoRotating`, decide what each animation frame does: spin the globe by a
 * fixed step, or ease its rotation toward the target that dragging sets. Angles
 * are radians, pointer positions integer pixels.
 */
module Globe {

  /** Radians added to the yaw per auto-rotating frame. */
  const AutoRotateStep: real := 0.005
  /** Radians of target rotation per pixel of drag. */
  const DragSensitivity: real := 0.01
  /** Fraction of the remaining distance covered per easing frame. */
  const EaseFactor: real := 0.05

  /** A frame auto-rotates exactly when auto-rotation is on and no button is held. */
  predicate AutoRotates(isAutoRotating: bool, mouseDown: bool)
    ensures mouseDown ==> !AutoRotates(isAutoRotating, mouseDown)
    ensures !isAutoRotating ==> !AutoRotates(isAutoRotating, mouseDown)
    ensures isAutoRotating && !mouseDown ==> AutoRotates(isAutoRotating, mouseDown)
  {
    isAutoRotating && !mouseDown
  }

  /**
   * One easing frame, `rotation += (target - rotation) * 0.05`: the remaining
   * distance shrinks to 95% and the rotation never passes the target.
   */
  function Ease(current: real, target: real): (r: real)
    ensures target - r == (1.0 - EaseFactor) * (target - current)
    ensures current <= target ==> current <= r <= target
    ensures target <= current ==> target <= r <= current
  {
    current + (target - current) * EaseFactor
  }

  function Power(x: real, n: nat): real
  {
    if n == 0 then 1.0 else x * Power(x, n - 1)
  }

  /** The rotation after `frames` easing frames toward a fixed target. */
  function EaseFrames(current: real, target: real, frames: nat): real
    decreases frames
  {
    if frames == 0 then current else EaseFrames(Ease(current, target), target, frames - 1)
  }

  /** After n frames the distance to the target is 0.95^n of the initial distance. */
  lemma {:induction false} EaseFramesGap(current: real, target: real, frames: nat)
    ensures target - EaseFrames(current, target, frames) == Power(1.0 - EaseFactor, frames) * (target - current)
    decreases frames
  {
    if frames > 0 {
      var next := Ease(current, target);
      EaseFramesGap(next, target, frames - 1);
      var p := Power(1.0 - EaseFactor, frames - 1);
      var d := target - current;
      assert target - next == 0.95 * d;
      assert Power(1.0 - EaseFactor, frames) == 0.95 * p;
      calc {
        target - EaseFrames(current, target, frames);
        p * (target - next);
        p * (0.95 * d);
        { MulAssoc(p, 0.95, d); }
        (0.95 * p) * d;
      }
    }
  }

  lemma MulAssoc(a: real, b: real, c: real)
    ensures a * (b * c) == (b * a) * c
  {
  }

  /** Easing toward a fixed target never overshoots it, whatever the number of frames. */
  lemma {:induction false} EaseFramesNoOvershoot(current: real, target: real, frames: nat)
    ensures current <= target ==> current <= EaseFrames(current, target, frames) <= target
    ensures target <= current ==> target <= EaseFrames(current, target, frames) <= current
    decreases frames
  {
    if frames > 0 {
      EaseFramesNoOvershoot(Ease(current, target), target, frames - 1);
    }
  }

  /**
   * The target rotation after a drag: each pointer move at x adds
   * (x - last x) * 0.01 and makes x the last position.
   */
  function DragTarget(target: real, lastX: int, moves: seq<int>): real
    decreases |moves|
  {
    if moves == [] then target
    else DragTarget(target + (moves[0] - lastX) as real * DragSensitivity, moves[0], moves[1..])
  }

  /** The per-move deltas telescope: a drag adds 0.01 times (final x - mousedown x). */
  lemma {:induction false} DragTelescopes(target: real, downX: int, moves: seq<int>)
    requires moves != []
    ensures DragTarget(target, downX, moves) == target + (moves[|moves| - 1] - downX) as real * DragSensitivity
    decreases |moves|
  {
    if |moves| > 1 {
      DragTelescopes(target + (moves[0] - downX) as real * DragSensitivity, moves[0], moves[1..]);
    }
  }

  const PauseLabel: string := "⏸️ Pause Rotation"
  const StartLabel: string := "▶️ Démarrer Rotation"

  class GlobeControls {
    var isAutoRotating: bool
    var mouseDown: bool
    var mouseX: int
    var mouseY: int
    var targetRotationX: real
    var targetRotationY: real
    /** `globe.rotation.x` and `globe.rotation.y`. */
    var rotationX: real
    var rotationY: real
    /** Pointer position and targets when the current drag began (or the view was reset). */
    ghost var originX: int
    ghost var originY: int
    ghost var baseTargetX: real
    ghost var baseTargetY: real

    /**
     * Dragging telescopes: the targets differ from their values at the last
     * mousedown (or reset) by 0.01 times the pointer's displacement since then.
     * Horizontal motion turns the yaw, vertical motion the pitch.
     */
    ghost predicate Valid()
      reads this
    {
      && targetRotationY == baseTargetY + (mouseX - originX) as real * DragSensitivity
      && targetRotationX == baseTargetX + (mouseY - originY) as real * DragSensitivity
    }

    constructor ()
      ensures Valid()
      ensures isAutoRotating && !mouseDown
      ensures mouseX == 0 && mouseY == 0
      ensures targetRotationX == 0.0 && targetRotationY == 0.0
      ensures rotationX == 0.0 && rotationY == 0.0
    {
      isAutoRotating := true;
      mouseDown := false;
      mouseX, mouseY := 0, 0;
      targetRotationX, targetRotationY := 0.0, 0.0;
      rotationX, rotationY := 0.0, 0.0;
      originX, originY := 0, 0;
      baseTargetX, baseTargetY := 0.0, 0.0;
    }

    /** mousedown: a drag starts here and auto-rotation stops. */
    method MouseDown(clientX: int, clientY: int)
      requires Valid()
      modifies this
      ensures Valid()
      ensures mouseDown && !isAutoRotating
      ensures mouseX == clientX && mouseY == clientY
      ensures originX == clientX && originY == clientY
      ensures baseTargetX == targetRotationX && baseTargetY == targetRotationY
      ensures targetRotationX == old(targetRotationX) && targetRotationY == old(targetRotationY)
      ensures rotationX == old(rotationX) && rotationY == old(rotationY)
    {
      mouseDown := true;
      mouseX := clientX;
      mouseY := clientY;
      isAutoRotating := false;
      originX, originY := clientX, clientY;
      baseTargetX, baseTargetY := targetRotationX, targetRotationY;
    }

    /** mouseup: the drag ends; auto-rotation stays as it is. */
    method MouseUp()
      requires Valid()
      modifies this`mouseDown
      ensures Valid() && !mouseDown
    {
      mouseDown := false;
    }

    /** mousemove: while the button is held the pointer delta is added to the targets. */
    method MouseMove(clientX: int, clientY: int)
      requires Valid()
      modifies this`mouseX, this`mouseY, this`targetRotationX, this`targetRotationY
      ensures Valid()
      ensures old(mouseDown) ==>
        && targetRotationY == old(targetRotationY) + (clientX - old(mouseX)) as real * DragSensitivity
        && targetRotationX == old(targetRotationX) + (clientY - old(mouseY)) as real * DragSensitivity
        && mouseX == clientX && mouseY == clientY
      ensures !old(mouseDown) ==> unchanged(this)
    {
      if mouseDown {
        var deltaX := clientX - mouseX;
        var deltaY := clientY - mouseY;
        targetRotationY := targetRotationY + deltaX as real * DragSensitivity;
        targetRotationX := targetRotationX + deltaY as real * DragSensitivity;
        mouseX := clientX;
        mouseY := clientY;
      }
    }

    /** One animation frame: auto-rotate the yaw, or ease both angles toward the targets. */
    method Animate()
      modifies this`rotationX, this`rotationY
      ensures AutoRotates(isAutoRotating, mouseDown) ==>
        rotationY == old(rotationY) + AutoRotateStep && rotationX == old(rotationX)
      ensures !AutoRotates(isAutoRotating, mouseDown) ==>
        && rotationX == Ease(old(rotationX), targetRotationX)
        && rotationY == Ease(old(rotationY), targetRotationY)
    {
      if isAutoRotating && !mouseDown {
        rotationY := rotationY + AutoRotateStep;
      } else {
        rotationX := rotationX + (targetRotationX - rotationX) * EaseFactor;
        rotationY := rotationY + (targetRotationY - rotationY) * EaseFactor;
      }
    }

    /**
     * `resetGlobe`: both targets back to zero, then auto-rotation on.
     * `cameraReady` says whether `initGlobe` has created the camera; without
     * it `camera.position.set` throws after the targets are zeroed, and the
     * flag is never set.
     */
    method ResetGlobe(cameraReady: bool)
      requires Valid()
      modifies this
      ensures Valid()
      ensures targetRotationX == 0.0 && targetRotationY == 0.0
      ensures isAutoRotating == (cameraReady || old(isAutoRotating))
      ensures mouseDown == old(mouseDown) && mouseX == old(mouseX) && mouseY == old(mouseY)
      ensures rotationX == old(rotationX) && rotationY == old(rotationY)
    {
      targetRotationX := 0.0;
      targetRotationY := 0.0;
      if cameraReady {
        isAutoRotating := true;
      }
      originX, originY := mouseX, mouseY;
      baseTargetX, baseTargetY := 0.0, 0.0;
    }

    /** `toggleAutoRotation`: flips the flag and returns the button's new label. */
    method ToggleAutoRotation() returns (caption: string)
      modifies this`isAutoRotating
      ensures isAutoRotating == !old(isAutoRotating)
      ensures caption == if isAutoRotating then PauseLabel else StartLabel
    {
      isAutoRotating := !isAutoRotating;
      caption := if isAutoRotating then PauseLabel else StartLabel;
    }
  }
}
