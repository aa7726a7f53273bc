/**
 * The free-look camera controller of the keyboard-and-mouse demo: the
 * process-wide camera, cursor and timing state, and the event handlers that
 * update it (keyboard polling, scroll wheel, cursor movement, frame timing).
 */
module Control {
  import opened Glm

  /** Movement speed per second: `cameraSpeed = 2.5 * deltaTime`. */
  const BaseSpeed: real := 2.5
  /** Mouse-look sensitivity applied to both cursor deltas. */
  const Sensitivity: real := 0.1
  /** Bounds the scroll handler clamps the field of view to, in degrees. */
  const FovMin: real := 1.0
  const FovMax: real := 45.0

  /** Initial values of the globals. */
  const InitialFov: real := 20.0
  const InitialPos: Vec3 := Vec3(10.0, 1.0, 3.0)
  const InitialUp: Vec3 := Vec3(0.0, 1.0, 0.0)
  const InitialLookAt: Vec3 := Vec3(0.0, 0.0, 0.0)

  /** Which of the polled keys are pressed during one call of the keyboard handler. */
  datatype Keys = Keys(escape: bool, w: bool, s: bool, a: bool, d: bool)

  datatype MoveKey = W | S | A | D

  function Held(keys: Keys, k: MoveKey): bool {
    match k
    case W => keys.w
    case S => keys.s
    case A => keys.a
    case D => keys.d
  }

  /** The key state in which `k` is the only key pressed. */
  function Only(k: MoveKey): (keys: Keys)
    ensures forall j: MoveKey :: Held(keys, j) <==> j == k
    ensures !keys.escape
  {
    Keys(false, k == W, k == S, k == A, k == D)
  }

  // ---------------------------------------------------------------------
  // Scroll wheel

  /** Field of view after one scroll event: decrease by the offset, then clamp. */
  function ScrolledFov(fov: real, yoffset: real): (r: real)
    ensures FovMin <= r <= FovMax
    ensures FovMin <= fov - yoffset <= FovMax ==> r == fov - yoffset
    ensures fov - yoffset < FovMin ==> r == FovMin
    ensures fov - yoffset > FovMax ==> r == FovMax
  {
    var lowered := fov - yoffset;
    var atLeastMin := if lowered < FovMin then FovMin else lowered;
    if atLeastMin > FovMax then FovMax else atLeastMin
  }

  /** Scrolling further forward never gives a wider field of view. */
  lemma ScrollIsMonotone(fov: real, y1: real, y2: real)
    requires y1 <= y2
    ensures ScrolledFov(fov, y2) <= ScrolledFov(fov, y1)
  {
  }

  /** Field of view after a series of scroll events, applied in order. */
  function Scrolls(fov: real, offsets: seq<real>): real
    decreases |offsets|
  {
    if offsets == [] then fov else Scrolls(ScrolledFov(fov, offsets[0]), offsets[1..])
  }

  /** A narrower starting field of view never ends wider after the same event. */
  lemma ScrollIsMonotoneInFov(fov1: real, fov2: real, yoffset: real)
    requires fov1 <= fov2
    ensures ScrolledFov(fov1, yoffset) <= ScrolledFov(fov2, yoffset)
  {
  }

  /**
   * Over a series of events, a narrower start and event-by-event larger
   * offsets never end at a wider field of view.
   */
  lemma {:induction false} ScrollsAreMonotone(fov1: real, fov2: real, a: seq<real>, b: seq<real>)
    requires fov1 <= fov2 && |a| == |b|
    requires forall i :: 0 <= i < |a| ==> b[i] <= a[i]
    ensures Scrolls(fov1, a) <= Scrolls(fov2, b)
    decreases |a|
  {
    if a != [] {
      ScrollIsMonotone(fov1, b[0], a[0]);
      ScrollIsMonotoneInFov(fov1, fov2, b[0]);
      ScrollsAreMonotone(ScrolledFov(fov1, a[0]), ScrolledFov(fov2, b[0]), a[1..], b[1..]);
    }
  }

  /** After at least one scroll event the field of view is within bounds, whatever it was before. */
  lemma {:induction false} ScrollsStayInBounds(fov: real, offsets: seq<real>)
    requires offsets != []
    ensures FovMin <= Scrolls(fov, offsets) <= FovMax
    decreases |offsets|
  {
    if |offsets| > 1 {
      ScrollsStayInBounds(ScrolledFov(fov, offsets[0]), offsets[1..]);
    }
  }

  /**
   * Clamping forgets input: two event series with the same total offset
   * can end at different fields of view.
   */
  lemma ScrollClampForgets()
    ensures Scrolls(FovMin, [10.0, -10.0]) == 11.0
    ensures Scrolls(FovMin, [0.0, 0.0]) == FovMin
  {
    assert Scrolls(FovMin, [10.0, -10.0]) == Scrolls(FovMin, [-10.0]);
    assert Scrolls(FovMin, [0.0, 0.0]) == Scrolls(FovMin, [0.0]);
  }

  // ---------------------------------------------------------------------
  // Cursor movement

  /** The globals the cursor handler reads and writes. */
  datatype Look = Look(firstMouse: bool, lastX: real, lastY: real, lookAt: Vec3)

  /** One cursor-position event at `(xpos, ypos)`. */
  function MouseSample(m: Look, xpos: real, ypos: real): (r: Look)
    ensures !r.firstMouse && r.lastX == xpos && r.lastY == ypos
    ensures m.firstMouse ==> r.lookAt == m.lookAt
    ensures !m.firstMouse ==>
      r.lookAt == Vec3(m.lookAt.x + Sensitivity * (xpos - m.lastX),
                       m.lookAt.y + Sensitivity * (m.lastY - ypos),
                       m.lookAt.z)
  {
    var lastX := if m.firstMouse then xpos else m.lastX;
    var lastY := if m.firstMouse then ypos else m.lastY;
    var xoffset := (xpos - lastX) * Sensitivity;
    var yoffset := (lastY - ypos) * Sensitivity;
    Look(false, xpos, ypos, Vec3(m.lookAt.x + xoffset, m.lookAt.y + yoffset, m.lookAt.z))
  }

  datatype Cursor = Cursor(x: real, y: real)

  /** A series of cursor events, applied in order. */
  function MouseTrace(m: Look, samples: seq<Cursor>): Look
    decreases |samples|
  {
    if samples == [] then m
    else MouseTrace(MouseSample(m, samples[0].x, samples[0].y), samples[1..])
  }

  /** Once any cursor event has arrived the first-sample guard is off for good. */
  lemma {:induction false} GuardNeverReturns(m: Look, samples: seq<Cursor>)
    requires samples != []
    ensures !MouseTrace(m, samples).firstMouse
    decreases |samples|
  {
    if |samples| > 1 {
      GuardNeverReturns(MouseSample(m, samples[0].x, samples[0].y), samples[1..]);
    }
  }

  /**
   * With the guard off, a series of cursor events moves the look-at target by
   * the sensitivity times the cursor's net displacement since the last
   * recorded position (vertical axis inverted); intermediate positions do not matter.
   */
  lemma {:induction false} TraceAfterGuard(m: Look, samples: seq<Cursor>)
    requires !m.firstMouse && samples != []
    ensures var last := samples[|samples| - 1];
      MouseTrace(m, samples) ==
        Look(false, last.x, last.y,
             Vec3(m.lookAt.x + Sensitivity * (last.x - m.lastX),
                  m.lookAt.y + Sensitivity * (m.lastY - last.y),
                  m.lookAt.z))
    decreases |samples|
  {
    if |samples| > 1 {
      TraceAfterGuard(MouseSample(m, samples[0].x, samples[0].y), samples[1..]);
    }
  }

  /**
   * From the initial guard-on state the first event only records the cursor,
   * so the look-at target moves by the displacement from the FIRST event's
   * position to the last, whatever the stale `lastX`/`lastY` were.
   */
  lemma TraceFromFirstSample(m: Look, samples: seq<Cursor>)
    requires m.firstMouse && samples != []
    ensures var first, last := samples[0], samples[|samples| - 1];
      MouseTrace(m, samples).lookAt ==
        Vec3(m.lookAt.x + Sensitivity * (last.x - first.x),
             m.lookAt.y + Sensitivity * (first.y - last.y),
             m.lookAt.z)
  {
    var m1 := MouseSample(m, samples[0].x, samples[0].y);
    if |samples| > 1 {
      TraceAfterGuard(m1, samples[1..]);
    }
  }

  // ---------------------------------------------------------------------
  // Keyboard movement

  /**
   * The strafe direction is defined (the source normalizes the cross product
   * only when A or D is pressed): `invLen` is the reciprocal length of a
   * non-zero `cross(lookAt - pos, up)`.
   */
  predicate StrafeDefined(keys: Keys, pos: Vec3, lookAt: Vec3, up: Vec3, invLen: real) {
    (keys.a || keys.d) ==> IsInverseLength(invLen, Cross(Sub(lookAt, pos), up))
  }

  /** Unit strafe direction `normalize(cross(lookAt - pos, up))` when A or D is pressed, no direction otherwise. */
  function Strafe(keys: Keys, pos: Vec3, lookAt: Vec3, up: Vec3, invLen: real): Vec3
    requires StrafeDefined(keys, pos, lookAt, up, invLen)
  {
    if keys.a || keys.d then Normalize(Cross(Sub(lookAt, pos), up), invLen) else Zero
  }

  /** Net effect of a key pair that moves by `step` and by `-step`: opposite keys cancel. */
  function PairStep(plus: bool, minus: bool, step: Vec3): Vec3 {
    if plus == minus then Zero else if plus then step else Neg(step)
  }

  /** A position moved by the net steps of two balanced key pairs stays where it is. */
  lemma BalancedPairsCancel(pos: Vec3, forwardStep: Vec3, strafeStep: Vec3, keys: Keys)
    ensures keys.w == keys.s && keys.a == keys.d ==>
      Add(pos, Add(PairStep(keys.w, keys.s, forwardStep), PairStep(keys.d, keys.a, strafeStep))) == pos
  {
  }

  /**
   * Reference definition of keyboard movement as one displacement: the
   * forward pair moves along the raw forward vector `lookAt - pos`, the
   * strafe pair along the unit right vector, both scaled by `2.5 * dt`, with
   * the forward vector taken from the position before any key is applied.
   */
  function MovedPosition(pos: Vec3, lookAt: Vec3, up: Vec3, dt: real, keys: Keys, invLen: real): (r: Vec3)
    requires StrafeDefined(keys, pos, lookAt, up, invLen)
    ensures keys.w == keys.s && keys.a == keys.d ==> r == pos
  {
    var speed := BaseSpeed * dt;
    var forwardStep := Scale(speed, Sub(lookAt, pos));
    var strafeStep := Scale(speed, Strafe(keys, pos, lookAt, up, invLen));
    BalancedPairsCancel(pos, forwardStep, strafeStep, keys);
    Add(pos, Add(PairStep(keys.w, keys.s, forwardStep), PairStep(keys.d, keys.a, strafeStep)))
  }

  /**
   * The source's order of updates: W adds and S subtracts the forward step,
   * then A subtracts and D adds the strafe step. The order does not matter:
   * the result is the position plus the net step of each key pair.
   */
  function SequentialSteps(pos: Vec3, forwardStep: Vec3, strafeStep: Vec3, keys: Keys): (r: Vec3)
    ensures r == Add(pos, Add(PairStep(keys.w, keys.s, forwardStep), PairStep(keys.d, keys.a, strafeStep)))
  {
    var afterW := if keys.w then Add(pos, forwardStep) else pos;
    var afterS := if keys.s then Sub(afterW, forwardStep) else afterW;
    var afterA := if keys.a then Sub(afterS, strafeStep) else afterS;
    if keys.d then Add(afterA, strafeStep) else afterA
  }

  /**
   * Applying the keys one after another in the order W, S, A, D, with the
   * forward vector taken once beforehand, gives the one-shot displacement.
   */
  lemma SequentialKeys(pos: Vec3, lookAt: Vec3, up: Vec3, dt: real, keys: Keys, invLen: real)
    requires StrafeDefined(keys, pos, lookAt, up, invLen)
    ensures var speed := BaseSpeed * dt;
      SequentialSteps(pos, Scale(speed, Sub(lookAt, pos)), Scale(speed, Strafe(keys, pos, lookAt, up, invLen)), keys) ==
      MovedPosition(pos, lookAt, up, dt, keys, invLen)
  {
  }

  /** The displacement that pressing `k` alone would cause. */
  function KeyStep(pos: Vec3, lookAt: Vec3, up: Vec3, dt: real, k: MoveKey, invLen: real): Vec3
    requires StrafeDefined(Only(k), pos, lookAt, up, invLen)
  {
    Sub(MovedPosition(pos, lookAt, up, dt, Only(k), invLen), pos)
  }

  /** The displacement key `k` contributes to a key state: its own step if it is pressed, nothing otherwise. */
  function HeldStep(pos: Vec3, lookAt: Vec3, up: Vec3, dt: real, keys: Keys, k: MoveKey, invLen: real): Vec3
    requires StrafeDefined(keys, pos, lookAt, up, invLen)
  {
    if Held(keys, k) then KeyStep(pos, lookAt, up, dt, k, invLen) else Zero
  }

  /** With no movement key pressed the camera stays where it is. */
  lemma StillWithoutMovementKeys(pos: Vec3, lookAt: Vec3, up: Vec3, dt: real, keys: Keys, invLen: real)
    requires !keys.w && !keys.s && !keys.a && !keys.d
    ensures MovedPosition(pos, lookAt, up, dt, keys, invLen) == pos
  {
  }

  /** W alone moves by `2.5 * dt` times the un-normalized forward vector. */
  lemma ForwardStep(pos: Vec3, lookAt: Vec3, up: Vec3, dt: real, invLen: real)
    ensures MovedPosition(pos, lookAt, up, dt, Only(W), invLen) ==
      Add(pos, Scale(BaseSpeed * dt, Sub(lookAt, pos)))
  {
  }

  /** Opposing keys cancel exactly: W with S, and A with D. */
  lemma OpposingKeysCancel(pos: Vec3, lookAt: Vec3, up: Vec3, dt: real, keys: Keys, invLen: real)
    requires StrafeDefined(keys, pos, lookAt, up, invLen)
    ensures keys.w && keys.s ==>
      MovedPosition(pos, lookAt, up, dt, keys, invLen) ==
      MovedPosition(pos, lookAt, up, dt, keys.(w := false, s := false), invLen)
    ensures keys.a && keys.d ==>
      MovedPosition(pos, lookAt, up, dt, keys, invLen) ==
      MovedPosition(pos, lookAt, up, dt, keys.(a := false, d := false), invLen)
  {
  }

  /** What each key contributes on its own: a step along or against the forward or strafe direction. */
  lemma KeyStepIs(pos: Vec3, lookAt: Vec3, up: Vec3, dt: real, k: MoveKey, invLen: real)
    requires StrafeDefined(Only(k), pos, lookAt, up, invLen)
    ensures var forwardStep := Scale(BaseSpeed * dt, Sub(lookAt, pos));
      var strafeStep := Scale(BaseSpeed * dt, Strafe(Only(k), pos, lookAt, up, invLen));
      KeyStep(pos, lookAt, up, dt, k, invLen) ==
        match k
        case W => forwardStep
        case S => Neg(forwardStep)
        case A => Neg(strafeStep)
        case D => strafeStep
  {
  }

  /** The combined displacement is the sum of the displacements of the keys pressed. */
  lemma Superposition(pos: Vec3, lookAt: Vec3, up: Vec3, dt: real, keys: Keys, invLen: real)
    requires StrafeDefined(keys, pos, lookAt, up, invLen)
    ensures Sub(MovedPosition(pos, lookAt, up, dt, keys, invLen), pos) ==
      Add(Add(HeldStep(pos, lookAt, up, dt, keys, W, invLen), HeldStep(pos, lookAt, up, dt, keys, S, invLen)),
          Add(HeldStep(pos, lookAt, up, dt, keys, A, invLen), HeldStep(pos, lookAt, up, dt, keys, D, invLen)))
  {
    if keys.w { KeyStepIs(pos, lookAt, up, dt, W, invLen); }
    if keys.s { KeyStepIs(pos, lookAt, up, dt, S, invLen); }
    if keys.a { KeyStepIs(pos, lookAt, up, dt, A, invLen); }
    if keys.d { KeyStepIs(pos, lookAt, up, dt, D, invLen); }
  }

  /**
   * Forward movement is proportional to the distance from the target:
   * its squared length is `(2.5 dt)^2 |lookAt - pos|^2`.
   */
  lemma ForwardStepLength(pos: Vec3, lookAt: Vec3, up: Vec3, dt: real, invLen: real)
    ensures var step := KeyStep(pos, lookAt, up, dt, W, invLen);
      Dot(step, step) == (BaseSpeed * dt) * (BaseSpeed * dt) * Dot(Sub(lookAt, pos), Sub(lookAt, pos))
  {
    KeyStepIs(pos, lookAt, up, dt, W, invLen);
    DotOfScale(BaseSpeed * dt, Sub(lookAt, pos));
  }

  /** Strafing moves exactly `2.5 * dt`, whatever the distance from the target. */
  lemma StrafeStepLength(pos: Vec3, lookAt: Vec3, up: Vec3, dt: real, k: MoveKey, invLen: real)
    requires k == A || k == D
    requires IsInverseLength(invLen, Cross(Sub(lookAt, pos), up))
    ensures var step := KeyStep(pos, lookAt, up, dt, k, invLen);
      Dot(step, step) == (BaseSpeed * dt) * (BaseSpeed * dt)
  {
    var n := Normalize(Cross(Sub(lookAt, pos), up), invLen);
    KeyStepIs(pos, lookAt, up, dt, k, invLen);
    DotOfScale(BaseSpeed * dt, n);
    DotOfNeg(Scale(BaseSpeed * dt, n));
  }

  /** Strafing moves at right angles to both the forward vector and the up vector. */
  lemma StrafeIsPerpendicular(pos: Vec3, lookAt: Vec3, up: Vec3, keys: Keys, invLen: real)
    requires StrafeDefined(keys, pos, lookAt, up, invLen)
    ensures var r := Strafe(keys, pos, lookAt, up, invLen);
      Dot(r, Sub(lookAt, pos)) == 0.0 && Dot(r, up) == 0.0
  {
    var f, c := Sub(lookAt, pos), Cross(Sub(lookAt, pos), up);
    assert Dot(Scale(invLen, c), f) == invLen * Dot(c, f);
    assert Dot(Scale(invLen, c), up) == invLen * Dot(c, up);
  }

  /**
   * The strafe direction is perpendicular to the up vector, so with the
   * controller's up vector (0, 1, 0) strafing never changes the height.
   */
  lemma StrafeKeepsHeight(pos: Vec3, lookAt: Vec3, dt: real, keys: Keys, invLen: real)
    requires !keys.w && !keys.s
    requires StrafeDefined(keys, pos, lookAt, InitialUp, invLen)
    ensures MovedPosition(pos, lookAt, InitialUp, dt, keys, invLen).y == pos.y
  {
  }

  // ---------------------------------------------------------------------
  // Frame timing

  /** The `deltaTime` each frame sees, for successive clock readings, starting from `lastFrame`. */
  function Deltas(lastFrame: real, clock: seq<real>): (r: seq<real>)
    ensures |r| == |clock|
    ensures clock != [] ==> r[0] == clock[0] - lastFrame
    ensures forall i :: 0 < i < |clock| ==> r[i] == clock[i] - clock[i - 1]
    decreases |clock|
  {
    if clock == [] then [] else
      var rest := Deltas(clock[0], clock[1..]);
      assert forall i :: 0 < i < |clock| ==> rest[i - 1] == clock[i] - clock[i - 1];
      [clock[0] - lastFrame] + rest
  }

  function Sum(s: seq<real>): real
    decreases |s|
  {
    if s == [] then 0.0 else s[0] + Sum(s[1..])
  }

  predicate NonDecreasing(lastFrame: real, clock: seq<real>) {
    (clock != [] ==> lastFrame <= clock[0]) &&
    forall i, j :: 0 <= i < j < |clock| ==> clock[i] <= clock[j]
  }

  /** A non-decreasing clock gives every frame a non-negative `deltaTime`. */
  lemma {:induction false} DeltasNonNegative(lastFrame: real, clock: seq<real>)
    requires NonDecreasing(lastFrame, clock)
    ensures forall i :: 0 <= i < |clock| ==> Deltas(lastFrame, clock)[i] >= 0.0
    decreases |clock|
  {
    if clock != [] {
      DeltasNonNegative(clock[0], clock[1..]);
      forall i | 0 <= i < |clock| ensures Deltas(lastFrame, clock)[i] >= 0.0 {
        if i > 0 {
          assert Deltas(lastFrame, clock)[i] == Deltas(clock[0], clock[1..])[i - 1];
        }
      }
    }
  }

  /** The frame times add up to the time elapsed since the starting `lastFrame`. */
  lemma {:induction false} DeltasSumToElapsed(lastFrame: real, clock: seq<real>)
    requires clock != []
    ensures Sum(Deltas(lastFrame, clock)) == clock[|clock| - 1] - lastFrame
    decreases |clock|
  {
    var r := Deltas(lastFrame, clock);
    assert r[1..] == Deltas(clock[0], clock[1..]);
    if |clock| > 1 {
      DeltasSumToElapsed(clock[0], clock[1..]);
    }
  }

  // ---------------------------------------------------------------------
  // The controller state

  /** The demo's process-wide camera, cursor and timing variables, and the window's close flag. */
  class Controller {
    var fov: real
    var deltaTime: real
    var lastFrame: real
    var cameraPos: Vec3
    var cameraUp: Vec3
    var lookAt: Vec3
    var firstMouse: bool
    var lastX: real
    var lastY: real
    var shouldClose: bool

    /** The field of view stays within the scroll bounds and the up vector is never changed. */
    ghost predicate Valid()
      reads this
    {
      FovMin <= fov <= FovMax && cameraUp == InitialUp
    }

    function Mouse(): Look
      reads this
    {
      Look(firstMouse, lastX, lastY, lookAt)
    }

    constructor ()
      ensures Valid()
      ensures fov == InitialFov && deltaTime == 0.0 && lastFrame == 0.0
      ensures cameraPos == InitialPos && cameraUp == InitialUp && lookAt == InitialLookAt
      ensures firstMouse && lastX == 0.0 && lastY == 0.0 && !shouldClose
    {
      fov := InitialFov;
      deltaTime, lastFrame := 0.0, 0.0;
      cameraPos, cameraUp, lookAt := InitialPos, InitialUp, InitialLookAt;
      firstMouse := true;
      lastX, lastY := 0.0, 0.0;
      shouldClose := false;
    }

    /** Keyboard polling: Escape requests close; W/S/A/D move the camera in that order. */
    method ProcessInput(keys: Keys, invLen: real)
      requires Valid()
      requires StrafeDefined(keys, cameraPos, lookAt, cameraUp, invLen)
      modifies this`cameraPos, this`shouldClose
      ensures Valid()
      ensures shouldClose == (old(shouldClose) || keys.escape)
      ensures cameraPos == MovedPosition(old(cameraPos), lookAt, cameraUp, deltaTime, keys, invLen)
      ensures !keys.w && !keys.s && !keys.a && !keys.d ==> cameraPos == old(cameraPos)
      ensures !keys.w && !keys.s ==> cameraPos.y == old(cameraPos.y)
    {
      if keys.escape {
        shouldClose := true;
      }
      var cameraSpeed := BaseSpeed * deltaTime;
      var aaa := Sub(lookAt, cameraPos);
      ghost var pos0 := cameraPos;
      if keys.w {
        cameraPos := Add(cameraPos, Scale(cameraSpeed, aaa));
      }
      if keys.s {
        cameraPos := Sub(cameraPos, Scale(cameraSpeed, aaa));
      }
      if keys.a {
        cameraPos := Sub(cameraPos, Scale(cameraSpeed, Normalize(Cross(aaa, cameraUp), invLen)));
      }
      if keys.d {
        cameraPos := Add(cameraPos, Scale(cameraSpeed, Normalize(Cross(aaa, cameraUp), invLen)));
      }
      SequentialKeys(pos0, lookAt, cameraUp, deltaTime, keys, invLen);
      if !keys.w && !keys.s {
        StrafeKeepsHeight(pos0, lookAt, deltaTime, keys, invLen);
      }
    }

    /** Scroll wheel: the field of view decreases by the vertical offset and is clamped to [1, 45]. */
    method ScrollCallback(yoffset: real)
      requires Valid()
      modifies this`fov
      ensures Valid()
      ensures fov == ScrolledFov(old(fov), yoffset)
    {
      fov := fov - yoffset;
      if fov < FovMin {
        fov := FovMin;
      }
      if fov > FovMax {
        fov := FovMax;
      }
    }

    /** Cursor movement: mouse-look with a first-sample guard. */
    method MouseCallback(xpos: real, ypos: real)
      requires Valid()
      modifies this`firstMouse, this`lastX, this`lastY, this`lookAt
      ensures Valid()
      ensures Mouse() == MouseSample(old(Mouse()), xpos, ypos)
      ensures !firstMouse && lastX == xpos && lastY == ypos
      ensures old(firstMouse) ==> lookAt == old(lookAt)
    {
      if firstMouse {
        lastX := xpos;
        lastY := ypos;
        firstMouse := false;
      }
      var xoffset := xpos - lastX;
      var yoffset := lastY - ypos;
      lastX := xpos;
      lastY := ypos;
      xoffset := xoffset * Sensitivity;
      yoffset := yoffset * Sensitivity;
      lookAt := lookAt.(x := lookAt.x + xoffset);
      lookAt := lookAt.(y := lookAt.y + yoffset);
    }

    /** Timing at the top of each frame, given the clock reading `currentFrame`. */
    method Tick(currentFrame: real)
      requires Valid()
      modifies this`deltaTime, this`lastFrame
      ensures Valid()
      ensures deltaTime == currentFrame - old(lastFrame) && lastFrame == currentFrame
      ensures old(lastFrame) <= currentFrame ==> deltaTime >= 0.0
    {
      deltaTime := currentFrame - lastFrame;
      lastFrame := currentFrame;
    }

    /** The controller's part of one render-loop iteration: timing, then keyboard polling. */
    method Frame(currentFrame: real, keys: Keys, invLen: real)
      requires Valid()
      requires StrafeDefined(keys, cameraPos, lookAt, cameraUp, invLen)
      modifies this`deltaTime, this`lastFrame, this`cameraPos, this`shouldClose
      ensures Valid()
      ensures deltaTime == currentFrame - old(lastFrame) && lastFrame == currentFrame
      ensures shouldClose == (old(shouldClose) || keys.escape)
      ensures cameraPos == MovedPosition(old(cameraPos), lookAt, cameraUp, deltaTime, keys, invLen)
    {
      Tick(currentFrame);
      ProcessInput(keys, invLen);
    }
  }

  /**
   * From the initial state, a first frame at clock time 1.0 with only W
   * pressed moves the camera from (10, 1, 3) towards (0, 0, 0) by 2.5 times
   * the forward vector (-10, -1, -3).
   */
  method InitialForwardScenario() returns (pos: Vec3)
    ensures pos == Vec3(-15.0, -1.5, -4.5)
  {
    var c := new Controller();
    var keys := Only(W);
    assert keys == Keys(false, true, false, false, false);
    assert StrafeDefined(keys, c.cameraPos, c.lookAt, c.cameraUp, 0.0);
    c.Frame(1.0, keys, 0.0);
    assert c.deltaTime == 1.0 && c.lookAt == InitialLookAt && c.cameraUp == InitialUp;
    assert c.cameraPos == MovedPosition(InitialPos, InitialLookAt, InitialUp, 1.0, keys, 0.0);
    ForwardStep(InitialPos, InitialLookAt, InitialUp, 1.0, 0.0);
    assert c.cameraPos == Add(InitialPos, Scale(BaseSpeed * 1.0, Sub(InitialLookAt, InitialPos)));
    pos := c.cameraPos;
  }
}
