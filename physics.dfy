/** One frame of ball physics: `updateGame` (script.js:68-98) as a function
    from the ball, the paddle and the canvas size to the ball afterwards and
    the two signals the frame raises (paddle hit, ball past the floor). */
module Physics {
  import opened Entities

  /** What one call of `updateGame` produces: the ball afterwards, whether the
      paddle branch fired (the score goes up by one), and whether `gameOver`
      is called. */
  datatype Outcome = Outcome(ball: Ball, scored: bool, over: bool)

  /** The side-wall test, on the centre after the move. */
  predicate HitsSideWall(b: Ball, W: real)
  {
    b.x + b.radius > W || b.x - b.radius < 0.0
  }

  /** The top-wall test. */
  predicate HitsTopWall(b: Ball)
  {
    b.y - b.radius < 0.0
  }

  /** The paddle test: the bottom edge of the ball below the paddle's top edge
      and the CENTRE of the ball strictly inside the paddle's horizontal span. */
  predicate OverPaddle(b: Ball, p: Paddle)
  {
    b.y + b.radius > p.y && b.x > p.x && b.x < p.x + p.width
  }

  /** The game-over test: the bottom edge of the ball below the canvas. */
  predicate PastFloor(b: Ball, H: real)
  {
    b.y + b.radius > H
  }

  /** One frame, in the source's order: move, side walls, top wall, paddle,
      floor. Every test is made on the moved ball; no reflection corrects the
      position. */
  function UpdateGame(b: Ball, p: Paddle, W: real, H: real): (o: Outcome)
    // the centre moves by exactly the velocity it had, and the radius stays
    ensures o.ball.x == b.x + b.dx && o.ball.y == b.y + b.dy
    ensures o.ball.radius == b.radius
    // every reflection is a negation: speeds are kept
    ensures Abs(o.ball.dx) == Abs(b.dx) && Abs(o.ball.dy) == Abs(b.dy)
    // dx is negated once, exactly when the moved ball crosses a side wall
    ensures HitsSideWall(o.ball, W) ==> o.ball.dx == -b.dx
    ensures !HitsSideWall(o.ball, W) ==> o.ball.dx == b.dx
    // the paddle branch fires exactly on the strict centre-x test
    ensures o.scored <==> o.ball.y + o.ball.radius > p.y && p.x < o.ball.x < p.x + p.width
    // dy is negated by the top wall and again by the paddle: two reflections cancel
    ensures o.ball.dy == (if HitsTopWall(o.ball) != o.scored then -b.dy else b.dy)
    // game over exactly when the bottom edge has passed the canvas height
    ensures o.over <==> o.ball.y + o.ball.radius > H
  {
    var moved := b.(x := b.x + b.dx, y := b.y + b.dy);
    var afterSide := if HitsSideWall(moved, W) then moved.(dx := -moved.dx) else moved;
    var afterTop := if HitsTopWall(afterSide) then afterSide.(dy := -afterSide.dy) else afterSide;
    var scored := OverPaddle(afterTop, p);
    var afterPaddle := if scored then afterTop.(dy := -afterTop.dy) else afterTop;
    Outcome(afterPaddle, scored, PastFloor(afterPaddle, H))
  }

  /** The ball is outside a side wall only while it is heading back in, and
      its next move brings it back inside that wall. */
  predicate HeldBySideWalls(b: Ball, W: real)
  {
    && (b.x + b.radius > W ==> b.dx < 0.0 && b.x + b.dx + b.radius <= W)
    && (b.x - b.radius < 0.0 ==> b.dx > 0.0 && b.x + b.dx - b.radius >= 0.0)
  }

  /** The same for the top wall. */
  predicate HeldByTopWall(b: Ball)
  {
    b.y - b.radius < 0.0 ==> b.dy > 0.0 && b.y + b.dy - b.radius >= 0.0
  }

  /** Although no reflection corrects the position, a ball that fits between
      the side walls never gets stuck in one: a frame keeps HeldBySideWalls. */
  lemma SideWallsHold(b: Ball, p: Paddle, W: real, H: real)
    requires 2.0 * b.radius <= W
    requires HeldBySideWalls(b, W)
    ensures HeldBySideWalls(UpdateGame(b, p, W, H).ball, W)
  {
    // A ball that ends the frame outside a wall started it inside that wall
    // (else its move would have brought it in), so it was moving towards the
    // wall; the reflection turns it round, and undoing the move brings it in.
  }

  /** A frame keeps HeldByTopWall as long as the paddle's top edge is at least
      a ball's diameter below the top, so that the paddle cannot undo a
      top-wall reflection. */
  lemma TopWallHolds(b: Ball, p: Paddle, W: real, H: real)
    requires 2.0 * b.radius <= p.y
    requires HeldByTopWall(b)
    ensures HeldByTopWall(UpdateGame(b, p, W, H).ball)
  {
    // As for the side walls; a ball above the top edge is less than a
    // diameter down, hence above the paddle, so the paddle branch is off.
  }

  /** What HeldBySideWalls buys: the ball's edge is never further past a side
      wall than one frame's horizontal travel. */
  lemma SideOvershootBounded(b: Ball, W: real)
    requires HeldBySideWalls(b, W)
    ensures b.x + b.radius <= W + Abs(b.dx)
    ensures b.x - b.radius >= -Abs(b.dx)
  {
  }
}
