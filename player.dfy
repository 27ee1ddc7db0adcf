/** The first-person controller: mouse look with a clamped pitch, and
    movement that is accepted only when the moved player sphere stays clear
    of the level's bounding box. Angles are in degrees. */
module Player {
  import opened Geometry

  /** How far the view turns per pixel of mouse movement, in degrees. */
  const DegreesPerPixel: real := 0.3

  /** The pitch never leaves [-PitchLimit, PitchLimit] degrees. */
  const PitchLimit: real := 80.0

  /** Siv3D's Clamp on the reals. */
  function Clamp(v: real, lo: real, hi: real): (r: real)
    requires lo <= hi
    ensures lo <= r <= hi
    ensures lo <= v <= hi ==> r == v
    ensures v < lo ==> r == lo
    ensures hi < v ==> r == hi
  {
    if v < lo then lo else if hi < v then hi else v
  }

  /** The horizontal angle after a mouse movement of dx pixels. */
  function AngleAfter(angle: real, dx: int): real
  {
    angle + dx as real * DegreesPerPixel
  }

  /** The pitch after a mouse movement of dy pixels: moving the mouse down
      looks down, and the result is kept within the pitch limit. */
  function PitchAfter(pitch: real, dy: int): (r: real)
    ensures -PitchLimit <= r <= PitchLimit
    ensures -PitchLimit <= pitch - dy as real * DegreesPerPixel <= PitchLimit
            ==> r == pitch - dy as real * DegreesPerPixel
    ensures dy == 0 && -PitchLimit <= pitch <= PitchLimit ==> r == pitch
    ensures dy >= 0 ==> r <= pitch || r == -PitchLimit
    ensures dy <= 0 ==> r >= pitch || r == PitchLimit
  {
    Clamp(pitch - dy as real * DegreesPerPixel, -PitchLimit, PitchLimit)
  }

  /** The point the cursor is warped back to: the centre of the window,
      with integer halving of the window size. */
  function WindowCentre(width: nat, height: nat): Point
  {
    Point(width / 2, height / 2)
  }

  /** Where the eye ends up when it tries to move by `step`, given whether
      a player sphere centred at a point intersects the level's bounding
      box: the move is taken whole or not at all. */
  function MovedTo(eye: Vec3, step: Vec3, blocked: Vec3 -> bool): (r: Vec3)
    ensures r == Add(eye, step) || r == eye
    ensures !blocked(Add(eye, step)) ==> r == Add(eye, step)
    ensures blocked(Add(eye, step)) ==> r == eye
    ensures !blocked(eye) ==> !blocked(r)
    ensures r != eye ==> !blocked(r)
  {
    var next := Add(eye, step);
    if !blocked(next) then next else eye
  }

  class PlayerController {
    var eyePosition: Vec3
    var angle: real
    var pitch: real
    var lastMousePos: Point

    /** The controller as the game creates it; the cursor is wherever the
        system reports it at that moment. */
    constructor (cursor: Point)
      ensures eyePosition == PlayerStart
      ensures angle == 0.0 && pitch == 0.0
      ensures lastMousePos == cursor
    {
      eyePosition := PlayerStart;
      angle := 0.0;
      pitch := 0.0;
      lastMousePos := cursor;
    }

    /** Turns the view by the mouse movement since the last call, clamps the
        pitch, and warps the cursor back to the window centre. */
    method HandleMouse(cursor: Point, width: nat, height: nat)
      modifies this`angle, this`pitch, this`lastMousePos
      ensures -PitchLimit <= pitch <= PitchLimit
      ensures angle == AngleAfter(old(angle), Sub(cursor, old(lastMousePos)).x)
      ensures pitch == PitchAfter(old(pitch), Sub(cursor, old(lastMousePos)).y)
      ensures lastMousePos == WindowCentre(width, height)
    {
      var delta := Sub(cursor, lastMousePos);
      angle := angle + delta.x as real * DegreesPerPixel;
      pitch := pitch - delta.y as real * DegreesPerPixel;
      pitch := Clamp(pitch, -PitchLimit, PitchLimit);
      lastMousePos := WindowCentre(width, height);
    }

    /** Tries to move the eye by this frame's displacement `step` and
        returns the eye position, moved or not. */
    method UpdatePosition(step: Vec3, blocked: Vec3 -> bool) returns (eye: Vec3)
      modifies this`eyePosition
      ensures eyePosition == MovedTo(old(eyePosition), step, blocked)
      ensures eye == eyePosition
      ensures !blocked(old(eyePosition)) ==> !blocked(eyePosition)
    {
      var nextPosition := Add(eyePosition, step);
      if !blocked(nextPosition) {
        eyePosition := nextPosition;
      }
      eye := eyePosition;
    }
  }
}
