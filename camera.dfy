/**
 * The first-person camera: three input channels (keyboard translation,
 * mouse look, scroll-wheel zoom) that update an Euler-angle camera in place.
 *
 * The trigonometry and normalisation of updateCameraVectors are not modelled:
 * the camera is given, at construction, the function `orient` from
 * (yaw, pitch, worldUp) to the basis (front, right, up), and recomputing the
 * basis may write only those three fields.
 */
module FlyCamera {
  import opened Geometry

  datatype Movement = Forward | Backward | Left | Right

  const DEFAULT_YAW: real := -90.0
  const DEFAULT_PITCH: real := 0.0
  const DEFAULT_SPEED: real := 2.5
  const DEFAULT_SENSITIVITY: real := 0.1
  const DEFAULT_ZOOM: real := 45.0

  /** The pitch clamp that keeps front away from worldUp. */
  const MAX_PITCH: real := 89.0
  const MIN_ZOOM: real := 1.0
  const MAX_ZOOM: real := 45.0

  datatype Basis = Basis(front: Vec3, right: Vec3, up: Vec3)

  /** updateCameraVectors as a function of the angles (degrees) and worldUp. */
  type Orientation = (real, real, Vec3) -> Basis

  /** Every field of a Camera, as a value. */
  datatype State = State(
    position: Vec3, front: Vec3, up: Vec3, right: Vec3, worldUp: Vec3,
    yaw: real, pitch: real,
    movementSpeed: real, mouseSensitivity: real, zoom: real)

  /** Pins v into [lo, hi]. */
  function Clamp(v: real, lo: real, hi: real): (r: real)
    requires lo <= hi
    ensures lo <= r <= hi
    ensures lo <= v <= hi ==> r == v
    ensures v < lo ==> r == lo
    ensures v > hi ==> r == hi
  {
    if v > hi then hi else if v < lo then lo else v
  }

  /** ProcessKeyboard on a state value. */
  function Keyboard(s: State, direction: Movement, deltaTime: real): (r: State)
    ensures r.(position := s.position) == s
  {
    var velocity := s.movementSpeed * deltaTime;
    match direction
    case Forward => s.(position := s.position.Plus(s.front.Scale(velocity)))
    case Backward => s.(position := s.position.Minus(s.front.Scale(velocity)))
    case Left => s.(position := s.position.Minus(s.right.Scale(velocity)))
    case Right => s.(position := s.position.Plus(s.right.Scale(velocity)))
  }

  /** ProcessMouseMovement on a state value. */
  function MouseMovement(s: State, xOffset: real, yOffset: real, constrainPitch: bool, orient: Orientation): (r: State)
    ensures r.position == s.position && r.zoom == s.zoom && r.worldUp == s.worldUp
    ensures r.movementSpeed == s.movementSpeed && r.mouseSensitivity == s.mouseSensitivity
    ensures Basis(r.front, r.right, r.up) == orient(r.yaw, r.pitch, r.worldUp)
  {
    var yaw := s.yaw + xOffset * s.mouseSensitivity;
    var pitch := s.pitch + yOffset * s.mouseSensitivity;
    var pitch' := if constrainPitch then Clamp(pitch, -MAX_PITCH, MAX_PITCH) else pitch;
    var b := orient(yaw, pitch', s.worldUp);
    s.(yaw := yaw, pitch := pitch', front := b.front, right := b.right, up := b.up)
  }

  /** ProcessMouseScroll on a state value. */
  function MouseScroll(s: State, yOffset: real): (r: State)
    ensures r.(zoom := s.zoom) == s
    ensures MIN_ZOOM <= r.zoom <= MAX_ZOOM
  {
    s.(zoom := Clamp(s.zoom - yOffset, MIN_ZOOM, MAX_ZOOM))
  }

  // ---------------------------------------------------------------- keyboard

  lemma KeyboardMoves(s: State, direction: Movement, deltaTime: real)
    ensures var v := s.movementSpeed * deltaTime;
            var p := Keyboard(s, direction, deltaTime).position;
            match direction
            case Forward => p == s.position.Plus(s.front.Scale(v))
            case Backward => p == s.position.Minus(s.front.Scale(v))
            case Left => p == s.position.Minus(s.right.Scale(v))
            case Right => p == s.position.Plus(s.right.Scale(v))
  {
  }

  /** Forward then backward by the same time returns to the start (exact arithmetic). */
  lemma ForwardBackwardRoundTrip(s: State, deltaTime: real)
    ensures Keyboard(Keyboard(s, Forward, deltaTime), Backward, deltaTime) == s
  {
  }

  lemma LeftRightRoundTrip(s: State, deltaTime: real)
    ensures Keyboard(Keyboard(s, Left, deltaTime), Right, deltaTime) == s
  {
  }

  /** The direction a key moves the eye in: front or right, with its sign. */
  function Heading(s: State, direction: Movement): Vec3
  {
    match direction
    case Forward => s.front
    case Backward => s.front.Scale(-1.0)
    case Left => s.right.Scale(-1.0)
    case Right => s.right
  }

  /** Every key adds velocity times its heading to the position. */
  lemma KeyboardDisplaces(s: State, direction: Movement, deltaTime: real)
    ensures Keyboard(s, direction, deltaTime).position
         == s.position.Plus(Heading(s, direction).Scale(s.movementSpeed * deltaTime))
  {
    var v := s.movementSpeed * deltaTime;
    var f, r := s.front, s.right;
    match direction
    case Forward =>
    case Right =>
    case Backward =>
      assert f.x * -1.0 * v == -(f.x * v) && f.y * -1.0 * v == -(f.y * v) && f.z * -1.0 * v == -(f.z * v);
    case Left =>
      assert r.x * -1.0 * v == -(r.x * v) && r.y * -1.0 * v == -(r.y * v) && r.z * -1.0 * v == -(r.z * v);
  }

  /** A key moves by the same offset from any state with the same basis and speed. */
  lemma KeyboardOffsetFrom(s: State, s': State, direction: Movement, deltaTime: real)
    requires s'.front == s.front && s'.right == s.right && s'.movementSpeed == s.movementSpeed
    ensures Keyboard(s', direction, deltaTime).position
         == s'.position.Plus(Heading(s, direction).Scale(s.movementSpeed * deltaTime))
  {
    KeyboardDisplaces(s', direction, deltaTime);
    assert Heading(s', direction) == Heading(s, direction);
    assert s'.movementSpeed * deltaTime == s.movementSpeed * deltaTime;
  }

  /** Two key presses in a frame add up: their order does not matter. */
  lemma KeyboardCommutes(s: State, d1: Movement, t1: real, d2: Movement, t2: real)
    ensures Keyboard(Keyboard(s, d1, t1), d2, t2) == Keyboard(Keyboard(s, d2, t2), d1, t1)
  {
    var o1 := Heading(s, d1).Scale(s.movementSpeed * t1);
    var o2 := Heading(s, d2).Scale(s.movementSpeed * t2);
    var s1, s2 := Keyboard(s, d1, t1), Keyboard(s, d2, t2);
    KeyboardOffsetFrom(s, s, d1, t1);
    KeyboardOffsetFrom(s, s, d2, t2);
    KeyboardOffsetFrom(s, s1, d2, t2);
    KeyboardOffsetFrom(s, s2, d1, t1);
    assert Keyboard(s1, d2, t2).position == s.position.Plus(o1).Plus(o2);
    assert Keyboard(s2, d1, t1).position == s.position.Plus(o2).Plus(o1);
  }

  /** A key press moving at velocity v is its start state with the position moved by v along the heading. */
  lemma KeyboardAt(s: State, direction: Movement, deltaTime: real, v: real)
    requires v == s.movementSpeed * deltaTime
    ensures Keyboard(s, direction, deltaTime) == s.(position := s.position.Plus(Heading(s, direction).Scale(v)))
  {
    KeyboardDisplaces(s, direction, deltaTime);
  }

  /** Two moves along one heading add up to one move by the summed distance. */
  lemma MoveTwice(p: Vec3, h: Vec3, a: real, b: real)
    ensures p.Plus(h.Scale(a)).Plus(h.Scale(b)) == p.Plus(h.Scale(a + b))
  {
    assert h.x * (a + b) == h.x * a + h.x * b;
    assert h.y * (a + b) == h.y * a + h.y * b;
    assert h.z * (a + b) == h.z * a + h.z * b;
  }

  /** Two presses of one key in a row move as far as one press for the summed time. */
  lemma KeyboardAdditive(s: State, direction: Movement, t1: real, t2: real)
    ensures Keyboard(Keyboard(s, direction, t1), direction, t2) == Keyboard(s, direction, t1 + t2)
  {
    var h := Heading(s, direction);
    var v1, v2 := s.movementSpeed * t1, s.movementSpeed * t2;
    var s1 := s.(position := s.position.Plus(h.Scale(v1)));
    KeyboardAt(s, direction, t1, v1);
    assert Heading(s1, direction) == h;
    KeyboardAt(s1, direction, t2, v2);
    assert s.movementSpeed * (t1 + t2) == v1 + v2;
    KeyboardAt(s, direction, t1 + t2, v1 + v2);
    MoveTwice(s.position, h, v1, v2);
  }

  // ---------------------------------------------------------------- mouse look

  lemma MouseYawAccumulates(s: State, xOffset: real, yOffset: real, constrainPitch: bool, orient: Orientation)
    ensures MouseMovement(s, xOffset, yOffset, constrainPitch, orient).yaw == s.yaw + xOffset * s.mouseSensitivity
  {
  }

  lemma MousePitchConstrained(s: State, xOffset: real, yOffset: real, orient: Orientation)
    ensures var r := MouseMovement(s, xOffset, yOffset, true, orient);
            -MAX_PITCH <= r.pitch <= MAX_PITCH &&
            r.pitch == Clamp(s.pitch + yOffset * s.mouseSensitivity, -MAX_PITCH, MAX_PITCH)
  {
  }

  lemma MousePitchFree(s: State, xOffset: real, yOffset: real, orient: Orientation)
    ensures MouseMovement(s, xOffset, yOffset, false, orient).pitch == s.pitch + yOffset * s.mouseSensitivity
  {
  }

  /** A run of mouse events, one ProcessMouseMovement per (xOffset, yOffset). */
  function MouseMoves(s: State, moves: seq<(real, real)>, constrainPitch: bool, orient: Orientation): State
    decreases |moves|
  {
    if moves == [] then s
    else MouseMoves(MouseMovement(s, moves[0].0, moves[0].1, constrainPitch, orient), moves[1..], constrainPitch, orient)
  }

  function SumX(moves: seq<(real, real)>): real
    decreases |moves|
  {
    if moves == [] then 0.0 else moves[0].0 + SumX(moves[1..])
  }

  /** Yaw is never clamped: after any run it is the start plus the scaled sum of x offsets. */
  lemma {:induction false} MouseMovesYaw(s: State, moves: seq<(real, real)>, constrainPitch: bool, orient: Orientation)
    ensures MouseMoves(s, moves, constrainPitch, orient).yaw == s.yaw + SumX(moves) * s.mouseSensitivity
    decreases |moves|
  {
    if moves != [] {
      var s' := MouseMovement(s, moves[0].0, moves[0].1, constrainPitch, orient);
      MouseMovesYaw(s', moves[1..], constrainPitch, orient);
      assert (moves[0].0 + SumX(moves[1..])) * s.mouseSensitivity
          == moves[0].0 * s.mouseSensitivity + SumX(moves[1..]) * s.mouseSensitivity;
    }
  }

  /** However large or repeated the offsets, a constrained run leaves pitch in [-89, 89]. */
  lemma {:induction false} MouseMovesPitchBounded(s: State, moves: seq<(real, real)>, orient: Orientation)
    requires moves != [] || -MAX_PITCH <= s.pitch <= MAX_PITCH
    ensures -MAX_PITCH <= MouseMoves(s, moves, true, orient).pitch <= MAX_PITCH
    decreases |moves|
  {
    if moves != [] {
      MouseMovesPitchBounded(MouseMovement(s, moves[0].0, moves[0].1, true, orient), moves[1..], orient);
    }
  }

  /** A run of mouse events moves neither the eye nor the zoom. */
  lemma {:induction false} MouseMovesFrame(s: State, moves: seq<(real, real)>, constrainPitch: bool, orient: Orientation)
    ensures var r := MouseMoves(s, moves, constrainPitch, orient);
            r.position == s.position && r.zoom == s.zoom && r.worldUp == s.worldUp &&
            r.movementSpeed == s.movementSpeed && r.mouseSensitivity == s.mouseSensitivity
    decreases |moves|
  {
    if moves != [] {
      MouseMovesFrame(MouseMovement(s, moves[0].0, moves[0].1, constrainPitch, orient), moves[1..], constrainPitch, orient);
    }
  }

  // ---------------------------------------------------------------- scroll

  lemma ScrollClamps(s: State, yOffset: real)
    ensures MouseScroll(s, yOffset).zoom == Clamp(s.zoom - yOffset, MIN_ZOOM, MAX_ZOOM)
  {
  }

  /** Scrolling back by the same amount undoes a scroll that hit no bound. */
  lemma ScrollRoundTrip(s: State, yOffset: real)
    requires MIN_ZOOM <= s.zoom <= MAX_ZOOM && MIN_ZOOM <= s.zoom - yOffset <= MAX_ZOOM
    ensures MouseScroll(MouseScroll(s, yOffset), -yOffset) == s
  {
  }

  /** A run of scroll events, one ProcessMouseScroll per offset. */
  function Scrolls(s: State, offsets: seq<real>): State
    decreases |offsets|
  {
    if offsets == [] then s else Scrolls(MouseScroll(s, offsets[0]), offsets[1..])
  }

  /** After any nonempty run of scrolls (or from a zoom already in range) zoom is in [1, 45]
      and nothing else has changed. */
  lemma {:induction false} ScrollsBounded(s: State, offsets: seq<real>)
    requires offsets != [] || MIN_ZOOM <= s.zoom <= MAX_ZOOM
    ensures var r := Scrolls(s, offsets);
            MIN_ZOOM <= r.zoom <= MAX_ZOOM && r.(zoom := s.zoom) == s
    decreases |offsets|
  {
    if offsets != [] {
      ScrollsBounded(MouseScroll(s, offsets[0]), offsets[1..]);
    }
  }

  // ---------------------------------------------------------------- the object

  class Camera {
    var position: Vec3
    var front: Vec3
    var up: Vec3
    var right: Vec3
    var worldUp: Vec3
    var yaw: real
    var pitch: real
    var movementSpeed: real
    var mouseSensitivity: real
    var zoom: real
    /** Stands for the trigonometry of updateCameraVectors. */
    const orient: Orientation

    function Snapshot(): State
      reads this
    {
      State(position, front, up, right, worldUp, yaw, pitch, movementSpeed, mouseSensitivity, zoom)
    }

    /** Camera(vec3 position, vec3 worldUp, float yaw, float pitch), with the same default
        arguments; `orient` comes first because it has no default. */
    constructor (orient: Orientation, inPosition: Vec3 := Vec3(0.0, 0.0, 0.0), inWorldUp: Vec3 := Vec3(0.0, 1.0, 0.0),
                 inYaw: real := DEFAULT_YAW, inPitch: real := DEFAULT_PITCH)
      ensures position == inPosition && worldUp == inWorldUp && yaw == inYaw && pitch == inPitch
      ensures movementSpeed == DEFAULT_SPEED && mouseSensitivity == DEFAULT_SENSITIVITY && zoom == DEFAULT_ZOOM
      ensures this.orient == orient
      ensures Basis(front, right, up) == orient(inYaw, inPitch, inWorldUp)
    {
      front := Vec3(0.0, 0.0, -1.0);
      movementSpeed, mouseSensitivity, zoom := DEFAULT_SPEED, DEFAULT_SENSITIVITY, DEFAULT_ZOOM;
      position, worldUp, yaw, pitch := inPosition, inWorldUp, inYaw, inPitch;
      this.orient := orient;
      new;
      UpdateCameraVectors();
    }

    /** Camera(float posX, posY, posZ, upX, upY, upZ, yaw, pitch). */
    constructor FromScalars(inPosX: real, inPosY: real, inPosZ: real,
                            inWorldUpX: real, inWorldUpY: real, inWorldUpZ: real,
                            inYaw: real, inPitch: real, orient: Orientation)
      ensures position == Vec3(inPosX, inPosY, inPosZ) && worldUp == Vec3(inWorldUpX, inWorldUpY, inWorldUpZ)
      ensures yaw == inYaw && pitch == inPitch
      ensures movementSpeed == DEFAULT_SPEED && mouseSensitivity == DEFAULT_SENSITIVITY && zoom == DEFAULT_ZOOM
      ensures this.orient == orient
      ensures Basis(front, right, up) == orient(inYaw, inPitch, Vec3(inWorldUpX, inWorldUpY, inWorldUpZ))
    {
      front := Vec3(0.0, 0.0, -1.0);
      movementSpeed, mouseSensitivity, zoom := DEFAULT_SPEED, DEFAULT_SENSITIVITY, DEFAULT_ZOOM;
      position := Vec3(inPosX, inPosY, inPosZ);
      worldUp := Vec3(inWorldUpX, inWorldUpY, inWorldUpZ);
      yaw, pitch := inYaw, inPitch;
      this.orient := orient;
      new;
      UpdateCameraVectors();
    }

    method ProcessKeyboard(direction: Movement, deltaTime: real)
      modifies this`position
      ensures Snapshot() == Keyboard(old(Snapshot()), direction, deltaTime)
    {
      var velocity := movementSpeed * deltaTime;
      if direction == Forward {
        position := position.Plus(front.Scale(velocity));
      }
      if direction == Backward {
        position := position.Minus(front.Scale(velocity));
      }
      if direction == Left {
        position := position.Minus(right.Scale(velocity));
      }
      if direction == Right {
        position := position.Plus(right.Scale(velocity));
      }
    }

    method ProcessMouseMovement(xOffset: real, yOffset: real, constrainPitch: bool := true)
      modifies this`yaw, this`pitch, this`front, this`right, this`up
      ensures Snapshot() == MouseMovement(old(Snapshot()), xOffset, yOffset, constrainPitch, orient)
    {
      var x := xOffset * mouseSensitivity;
      var y := yOffset * mouseSensitivity;
      yaw := yaw + x;
      pitch := pitch + y;
      if constrainPitch {
        if pitch > MAX_PITCH {
          pitch := MAX_PITCH;
        }
        if pitch < -MAX_PITCH {
          pitch := -MAX_PITCH;
        }
      }
      UpdateCameraVectors();
      ghost var r := MouseMovement(old(Snapshot()), xOffset, yOffset, constrainPitch, orient);
      assert r.yaw == yaw && r.pitch == pitch;
    }

    method ProcessMouseScroll(yOffset: real)
      modifies this`zoom
      ensures Snapshot() == MouseScroll(old(Snapshot()), yOffset)
    {
      zoom := zoom - yOffset;
      if zoom < MIN_ZOOM {
        zoom := MIN_ZOOM;
      }
      if zoom > MAX_ZOOM {
        zoom := MAX_ZOOM;
      }
    }

    /** Recomputes the basis from the angles; writes front, right and up only. */
    method UpdateCameraVectors()
      modifies this`front, this`right, this`up
      ensures Basis(front, right, up) == orient(yaw, pitch, worldUp)
    {
      var b := orient(yaw, pitch, worldUp);
      front := b.front;
      right := b.right;
      up := b.up;
    }
  }
}
