/** The two plain records of the game, the `ball` and `paddle` objects that
    `initialize` builds (script.js:28-43), and their starting values.
    Coordinates are canvas pixels; `real` holds the halves (`W / 2`) exactly. */
module Entities {

  /** Centre (x, y), radius, and the velocity added to the centre every frame. */
  datatype Ball = Ball(x: real, y: real, radius: real, dx: real, dy: real)

  /** Top-left corner (x, y) and size. `speed` is set to 8 and never read. */
  datatype Paddle = Paddle(width: real, height: real, x: real, y: real, speed: real)

  function Abs(r: real): real
  {
    if r < 0.0 then -r else r
  }

  /** The ball `initialize` builds: centred horizontally, 50 pixels above the
      bottom edge, radius 10, moving up and to the right at 2 pixels a frame. */
  function InitialBall(W: real, H: real): Ball
  {
    Ball(W / 2.0, H - 50.0, 10.0, 2.0, -2.0)
  }

  /** The paddle `initialize` builds: 80 by 10, centred horizontally, its top
      edge 20 pixels above the bottom of the canvas. */
  function InitialPaddle(W: real, H: real): Paddle
  {
    Paddle(80.0, 10.0, (W - 80.0) / 2.0, H - 20.0, 8.0)
  }
}
