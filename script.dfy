/** The program as it runs: `ball` and `paddle` are objects whose fields are
    assigned in place, `score`, `animationId` and the objects themselves are
    variables the functions of script.js reassign. Every method is proved to
    do what the matching function of module Session says, so the lemmas of
    Session hold of it. */
module Script {
  import Entities
  import Physics
  import Input
  import Session

  /** The `ball` object (script.js:28-34). */
  class Ball {
    var x: real
    var y: real
    var radius: real
    var dx: real
    var dy: real

    constructor (x: real, y: real, radius: real, dx: real, dy: real)
      ensures Value() == Entities.Ball(x, y, radius, dx, dy)
    {
      this.x, this.y, this.radius, this.dx, this.dy := x, y, radius, dx, dy;
    }

    function Value(): Entities.Ball
      reads this
    {
      Entities.Ball(x, y, radius, dx, dy)
    }
  }

  /** The `paddle` object (script.js:37-43). */
  class Paddle {
    var width: real
    var height: real
    var x: real
    var y: real
    var speed: real

    constructor (width: real, height: real, x: real, y: real, speed: real)
      ensures Value() == Entities.Paddle(width, height, x, y, speed)
    {
      this.width, this.height, this.x, this.y, this.speed := width, height, x, y, speed;
    }

    function Value(): Entities.Paddle
      reads this
    {
      Entities.Paddle(width, height, x, y, speed)
    }
  }

  /** The page: the canvas size, the game's variables, the overlay, and the
      browser's pending animation frames. */
  class Game {
    const width: real
    const height: real
    var score: nat
    var ball: Ball
    var paddle: Paddle
    var gameOverShown: bool
    var animationId: nat
    // the browser's side of requestAnimationFrame
    var pending: set<nat>
    var nextFrameId: nat

    function Frames(): Session.Frames
      reads this
    {
      Session.Frames(animationId, pending, nextFrameId)
    }

    function Snapshot(): Session.State
      reads this, ball, paddle
    {
      Session.State(Session.World(ball.Value(), paddle.Value(), score, gameOverShown), Frames())
    }

    /** Once the page has started, exactly one frame is pending. */
    ghost predicate Valid()
      reads this
    {
      Session.OnePending(Frames())
    }

    /** The page loads on a canvas of W by H and calls initialize
        (script.js:9-10, 148). */
    constructor (W: nat, H: nat)
      ensures width == W as real && height == H as real
      ensures Snapshot() == Session.Start(W as real, H as real)
      ensures Valid() && fresh(ball) && fresh(paddle)
    {
      width, height := W as real, H as real;
      var b := Entities.InitialBall(W as real, H as real);
      var p := Entities.InitialPaddle(W as real, H as real);
      ball := new Ball(b.x, b.y, b.radius, b.dx, b.dy);
      paddle := new Paddle(p.width, p.height, p.x, p.y, p.speed);
      score, gameOverShown := 0, false;
      animationId, pending, nextFrameId := 0, {}, 1;
      new;
      Initialize();
    }

    /** The browser's requestAnimationFrame: a new id, now pending. */
    method RequestAnimationFrame() returns (id: nat)
      modifies this`pending, this`nextFrameId
      ensures id == old(nextFrameId) && nextFrameId == old(nextFrameId) + 1
      ensures pending == old(pending) + {id}
    {
      id := nextFrameId;
      pending := pending + {id};
      nextFrameId := nextFrameId + 1;
    }

    /** The browser's cancelAnimationFrame: that id is no longer pending. */
    method CancelAnimationFrame(id: nat)
      modifies this`pending
      ensures pending == old(pending) - {id}
    {
      pending := pending - {id};
    }

    /** script.js:19-47 */
    method Initialize()
      modifies this
      ensures Snapshot() == Session.Initialize(old(Snapshot()), width, height)
      ensures fresh(ball) && fresh(paddle)
      ensures old(Session.AtMostOnePending(Frames())) ==> Valid()
    {
      ghost var s := Snapshot();
      score := 0;
      gameOverShown := false;
      ball := new Ball(width / 2.0, height - 50.0, 10.0, 2.0, -2.0);
      paddle := new Paddle(80.0, 10.0, (width - 80.0) / 2.0, height - 20.0, 8.0);
      if animationId != 0 {
        CancelAnimationFrame(animationId);
      }
      GameLoop();
      if Session.AtMostOnePending(s.frames) {
        Session.InitializeResets(s, width, height);
      }
    }

    /** script.js:68-98 */
    method UpdateGame()
      modifies this`score, this`gameOverShown, this`pending, ball
      ensures ball == old(ball) && unchanged(paddle)
      ensures Snapshot() == Session.UpdateGame(old(Snapshot()), width, height)
    {
      ghost var o := Physics.UpdateGame(ball.Value(), paddle.Value(), width, height);
      ghost var score0 := score;
      ball.x := ball.x + ball.dx;
      ball.y := ball.y + ball.dy;

      if ball.x + ball.radius > width || ball.x - ball.radius < 0.0 {
        ball.dx := -ball.dx;
      }

      if ball.y - ball.radius < 0.0 {
        ball.dy := -ball.dy;
      }

      if ball.y + ball.radius > paddle.y && ball.x > paddle.x && ball.x < paddle.x + paddle.width {
        ball.dy := -ball.dy;
        score := score + 1;
      }
      assert ball.Value() == o.ball && score == score0 + (if o.scored then 1 else 0);

      if ball.y + ball.radius > height {
        GameOver();
      }
    }

    /** script.js:100-103 */
    method GameOver()
      modifies this`pending, this`gameOverShown
      ensures Snapshot() == Session.GameOver(old(Snapshot()))
    {
      CancelAnimationFrame(animationId);
      gameOverShown := true;
    }

    /** script.js:106-119; clearing and drawing change no state. */
    method GameLoop()
      modifies this`score, this`gameOverShown, this`pending, this`animationId, this`nextFrameId, ball
      ensures ball == old(ball) && unchanged(paddle)
      ensures Snapshot() == Session.GameLoop(old(Snapshot()), width, height)
    {
      UpdateGame();
      animationId := RequestAnimationFrame();
    }

    /** The browser runs the callback of frame `id`, if it is still pending. */
    method FrameFires(id: nat)
      requires Valid()
      modifies this`score, this`gameOverShown, this`pending, this`animationId, this`nextFrameId, ball
      ensures ball == old(ball) && unchanged(paddle)
      ensures Snapshot() == Session.FrameFires(old(Snapshot()), id, width, height)
      ensures Valid()
    {
      ghost var s := Snapshot();
      if id in pending {
        pending := pending - {id};
        GameLoop();
      }
      Session.StepKeepsOnePending(s, Session.FrameFired(id), width, height);
    }

    /** script.js:122-140, for a pointer event and the canvas's left edge. */
    method MovePaddle(e: Input.PointerEvent, canvasLeft: real)
      modifies paddle
      ensures Snapshot() == Session.PointerMoves(old(Snapshot()), e, canvasLeft, width)
    {
      var touchX: real;
      match e {
        case Touch(touches) =>
          if |touches| == 0 {
            return;
          }
          touchX := touches[0] - canvasLeft;
        case Mouse(clientX) =>
          touchX := clientX - canvasLeft;
      }

      paddle.x := touchX - paddle.width / 2.0;

      if paddle.x < 0.0 {
        paddle.x := 0.0;
      }
      if paddle.x + paddle.width > width {
        paddle.x := width - paddle.width;
      }
    }
  }

  /** The restart button after some play (script.js:143-148): the page
      starts, the pointer moves, two frames fire, and restart is clicked.
      Whatever happened before, the score is 0, the overlay is hidden, and
      one loop is running, not two. */
  method RestartScenario(W: nat, H: nat, e: Input.PointerEvent, canvasLeft: real)
    returns (score: nat, overlayShown: bool, framesPending: nat)
    ensures score == 0 && !overlayShown && framesPending == 1
  {
    var game := new Game(W, H);
    game.MovePaddle(e, canvasLeft);
    game.FrameFires(game.animationId);
    game.FrameFires(game.animationId);
    game.Initialize();
    score, overlayShown, framesPending := game.score, game.gameOverShown, |game.pending|;
  }
}
