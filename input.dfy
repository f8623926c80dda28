/** Pointer input: `movePaddle` (script.js:122-140) as a function from the
    paddle, the event and the canvas geometry to the paddle afterwards. */
module Input {
  import opened Entities

  datatype Option<T> = None | Some(value: T)

  /** A pointer event as `movePaddle` reads it: a mouse event with its
      clientX, or a touch event with the clientX of each contact point. */
  datatype PointerEvent = Mouse(clientX: real) | Touch(touches: seq<real>)

  function Min(a: real, b: real): real
  {
    if a <= b then a else b
  }

  function Max(a: real, b: real): real
  {
    if a >= b then a else b
  }

  /** The paddle lies wholly on the canvas. */
  predicate InBounds(p: Paddle, W: real)
  {
    0.0 <= p.x <= W - p.width
  }

  /** The pointer's x inside the canvas: clientX (of the first contact point
      for a touch) minus the canvas's left edge. A touch event without a
      contact point has no first point; reading it throws before the paddle
      is touched, which is None here. */
  function PointerX(e: PointerEvent, canvasLeft: real): Option<real>
  {
    match e
    case Touch(touches) => if |touches| == 0 then None else Some(touches[0] - canvasLeft)
    case Mouse(clientX) => Some(clientX - canvasLeft)
  }

  /** paddle.x for pointer x `t`: centred under the pointer, then moved right
      to 0 if it starts left of the canvas, then moved left to W - width if
      it ends right of it. */
  function ClampedPaddleX(t: real, width: real, W: real): (x: real)
    // on a canvas at least as wide as the paddle, the paddle stays on it ...
    ensures width <= W ==> 0.0 <= x <= W - width
    // ... and the result is the nearest in-bounds position to the centred one
    ensures width <= W ==> x == Max(0.0, Min(t - width / 2.0, W - width))
    // the paddle is centred under the pointer whenever that fits
    ensures width <= W && width / 2.0 <= t <= W - width / 2.0 ==> x + width / 2.0 == t
    // on a narrower canvas the second test wins: the paddle's left edge is off the canvas
    ensures W < width ==> x == W - width && x < 0.0
  {
    var centred := t - width / 2.0;
    var leftClamped := if centred < 0.0 then 0.0 else centred;
    if leftClamped + width > W then W - width else leftClamped
  }

  /** The paddle after one pointer event. */
  function MovePaddle(p: Paddle, e: PointerEvent, canvasLeft: real, W: real): (q: Paddle)
    // only x can change: y, width, height and speed are never touched
    ensures q.(x := p.x) == p
    // an event without a pointer position leaves the paddle as it was
    ensures PointerX(e, canvasLeft).None? ==> q == p
    // otherwise x is the clamped centred position, whatever x was before
    ensures PointerX(e, canvasLeft).Some? ==> q.x == ClampedPaddleX(PointerX(e, canvasLeft).value, p.width, W)
    // a paddle that fits on the canvas ends the event on it
    ensures InBounds(p, W) ==> InBounds(q, W)
    ensures p.width <= W && PointerX(e, canvasLeft).Some? ==> InBounds(q, W)
  {
    match PointerX(e, canvasLeft)
    case None => p
    case Some(t) => p.(x := ClampedPaddleX(t, p.width, W))
  }

  /** The result depends on the pointer alone, so repeating an event changes
      nothing more. */
  lemma MovePaddleIdempotent(p: Paddle, e: PointerEvent, canvasLeft: real, W: real)
    ensures MovePaddle(MovePaddle(p, e, canvasLeft, W), e, canvasLeft, W) == MovePaddle(p, e, canvasLeft, W)
  {
  }

  /** Mouse and touch converge: a touch whose first contact point is at the
      mouse's clientX moves the paddle exactly as the mouse does. */
  lemma TouchActsAsMouse(p: Paddle, x: real, rest: seq<real>, canvasLeft: real, W: real)
    ensures MovePaddle(p, Touch([x] + rest), canvasLeft, W) == MovePaddle(p, Mouse(x), canvasLeft, W)
  {
  }
}
