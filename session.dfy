/** The whole program as a state machine: the module-level variables of
    script.js (score, ball, paddle, animationId), the game-over overlay, and
    the browser's queue of requested animation frames, driven by three kinds
    of event: an animation frame firing, a pointer moving over the canvas,
    and the restart button (script.js:19-47, 100-119, 143-148). */
module Session {
  import opened Entities
  import Physics
  import Input

  /** The game's own variables. `gameOverShown` is the overlay being visible
      (the `hidden` class removed). */
  datatype World = World(ball: Ball, paddle: Paddle, score: nat, gameOverShown: bool)

  /** Animation frames. `animationId` is the program's variable (0 stands for
      its initial `undefined`, which is falsy; the browser hands out ids from
      1). `pending` holds the ids whose callback the browser will still run;
      `nextId` is the id the next request gets. */
  datatype Frames = Frames(animationId: nat, pending: set<nat>, nextId: nat)

  datatype State = State(world: World, frames: Frames)

  /** requestAnimationFrame(gameLoop), its id stored in animationId. */
  function RequestFrame(f: Frames): (r: Frames)
    // the new id is the only one added, and ids keep growing
    ensures r.animationId == f.nextId && r.pending == f.pending + {r.animationId}
    ensures r.animationId < r.nextId
    // while every pending id was handed out earlier, the new one was not yet pending
    ensures (forall i :: i in f.pending ==> i < f.nextId) ==> r.animationId !in f.pending
  {
    Frames(f.nextId, f.pending + {f.nextId}, f.nextId + 1)
  }

  /** cancelAnimationFrame(id): that callback will not run. */
  function CancelFrame(f: Frames, id: nat): (r: Frames)
    // that id will not fire; every other pending frame still will
    ensures id !in r.pending && r.pending + (f.pending * {id}) == f.pending
    ensures r.animationId == f.animationId && r.nextId == f.nextId
  {
    f.(pending := f.pending - {id})
  }

  /** At most one frame is pending, and if one is, it is animationId. This
      holds from the start and is what makes cancelling animationId enough. */
  predicate AtMostOnePending(f: Frames)
  {
    0 < f.nextId && f.animationId < f.nextId && f.pending <= {f.animationId} && 0 !in f.pending
  }

  /** Exactly one frame is pending, the one animationId names. */
  predicate OnePending(f: Frames)
  {
    0 < f.animationId < f.nextId && f.pending == {f.animationId}
  }

  /** gameOver: cancel animationId and show the overlay. */
  function GameOver(s: State): (t: State)
    // the overlay is shown; ball, paddle and score are kept
    ensures t.world == s.world.(gameOverShown := true)
    // the frame animationId names will not fire; nothing else is cancelled
    ensures s.frames.animationId !in t.frames.pending
    ensures t.frames.pending == s.frames.pending - {s.frames.animationId}
    // animationId itself is not reassigned, and no frame is requested
    ensures t.frames.animationId == s.frames.animationId && t.frames.nextId == s.frames.nextId
  {
    State(s.world.(gameOverShown := true), CancelFrame(s.frames, s.frames.animationId))
  }

  /** updateGame on the whole state: the ball frame, score++ on a paddle hit,
      gameOver when the ball is past the floor. */
  function UpdateGame(s: State, W: real, H: real): (t: State)
    // the ball is the frame's ball; the paddle is never touched by a frame
    ensures t.world.ball == Physics.UpdateGame(s.world.ball, s.world.paddle, W, H).ball
    ensures t.world.paddle == s.world.paddle
    // the score goes up by exactly one on a paddle hit and is otherwise kept
    ensures t.world.score == s.world.score + (if Physics.OverPaddle(t.world.ball, s.world.paddle) then 1 else 0)
    // the overlay is shown afterwards exactly when it was, or the ball is past the floor
    ensures t.world.gameOverShown <==> s.world.gameOverShown || Physics.PastFloor(t.world.ball, H)
    // no frame is requested; animationId is cancelled exactly when the ball is past the floor
    ensures t.frames.animationId == s.frames.animationId && t.frames.nextId == s.frames.nextId
    ensures Physics.PastFloor(t.world.ball, H) ==> t.frames.pending == s.frames.pending - {s.frames.animationId}
    ensures !Physics.PastFloor(t.world.ball, H) ==> t.frames == s.frames
  {
    var o := Physics.UpdateGame(s.world.ball, s.world.paddle, W, H);
    var scored := State(s.world.(ball := o.ball, score := s.world.score + if o.scored then 1 else 0), s.frames);
    if o.over then GameOver(scored) else scored
  }

  /** gameLoop: drawing leaves the state alone, then updateGame, then a new
      frame is requested whatever updateGame did. */
  function GameLoop(s: State, W: real, H: real): (t: State)
    // the game state is the one updateGame leaves
    ensures t.world == UpdateGame(s, W, H).world
    // a fresh frame is pending afterwards, even when updateGame called gameOver
    ensures t.frames.animationId == s.frames.nextId && t.frames.animationId in t.frames.pending
    ensures t.frames.pending == UpdateGame(s, W, H).frames.pending + {s.frames.nextId}
  {
    var t := UpdateGame(s, W, H);
    t.(frames := RequestFrame(t.frames))
  }

  /** initialize: score 0, overlay hidden, fresh ball and paddle, the pending
      frame cancelled, and gameLoop run once at once (so the ball has already
      moved one frame when initialize returns). */
  function Initialize(s: State, W: real, H: real): (t: State)
    // score 0, overlay hidden, the initial paddle, the initial ball after one frame
    ensures t.world.score == 0 && !t.world.gameOverShown
    ensures t.world.paddle == InitialPaddle(W, H)
    ensures t.world.ball == Physics.UpdateGame(InitialBall(W, H), InitialPaddle(W, H), W, H).ball
    // the previous frame, once one was requested, is cancelled; a new one is pending
    ensures 0 != s.frames.animationId < s.frames.nextId ==> s.frames.animationId !in t.frames.pending
    ensures t.frames.animationId == s.frames.nextId && t.frames.animationId in t.frames.pending
  {
    var f := if s.frames.animationId != 0 then CancelFrame(s.frames, s.frames.animationId) else s.frames;
    GameLoop(State(World(InitialBall(W, H), InitialPaddle(W, H), 0, false), f), W, H)
  }

  /** The state when the page has loaded and before the first initialize:
      no frame requested yet. The world is never read before initialize
      replaces it (InitializeForgetsWorld); these are stand-ins. */
  function Loaded(W: real, H: real): State
  {
    State(World(InitialBall(W, H), InitialPaddle(W, H), 0, false), Frames(0, {}, 1))
  }

  /** The page's start: initialize on the loaded page. */
  function Start(W: real, H: real): State
  {
    Initialize(Loaded(W, H), W, H)
  }

  /** The browser runs the callback of frame `id` if it is still pending. */
  function FrameFires(s: State, id: nat, W: real, H: real): (t: State)
    // a frame that is not pending (never requested, cancelled or already run) does nothing
    ensures id !in s.frames.pending ==> t == s
    // a pending one leaves the queue, runs updateGame once (ball, score,
    // overlay, the cancel of gameOver) and requests the next frame
    ensures id in s.frames.pending ==>
      && t.world.ball == Physics.UpdateGame(s.world.ball, s.world.paddle, W, H).ball
      && t.world.paddle == s.world.paddle
      && t.frames.animationId == s.frames.nextId && t.frames.animationId in t.frames.pending
    ensures id in s.frames.pending ==>
      var running := s.(frames := s.frames.(pending := s.frames.pending - {id}));
      && t.world == UpdateGame(running, W, H).world
      && t.frames.pending == UpdateGame(running, W, H).frames.pending + {s.frames.nextId}
  {
    if id in s.frames.pending then GameLoop(s.(frames := s.frames.(pending := s.frames.pending - {id})), W, H)
    else s
  }

  /** A mousemove or touchmove event reaches movePaddle. */
  function PointerMoves(s: State, e: Input.PointerEvent, canvasLeft: real, W: real): (t: State)
    // only the paddle changes: ball, score, overlay and frames are kept
    ensures t.world.(paddle := s.world.paddle) == s.world && t.frames == s.frames
    ensures t.world.paddle == Input.MovePaddle(s.world.paddle, e, canvasLeft, W)
  {
    s.(world := s.world.(paddle := Input.MovePaddle(s.world.paddle, e, canvasLeft, W)))
  }

  datatype Event =
    | FrameFired(id: nat)
    | PointerMoved(e: Input.PointerEvent, canvasLeft: real)
    | RestartClicked

  function Step(s: State, ev: Event, W: real, H: real): State
  {
    match ev
    case FrameFired(id) => FrameFires(s, id, W, H)
    case PointerMoved(e, canvasLeft) => PointerMoves(s, e, canvasLeft, W)
    case RestartClicked => Initialize(s, W, H)
  }

  /** The state after a sequence of events, in order. */
  function Apply(s: State, evs: seq<Event>, W: real, H: real): State
    decreases |evs|
  {
    if evs == [] then s else Apply(Step(s, evs[0], W, H), evs[1..], W, H)
  }

  /** The number of animation frames among the events. */
  function FrameEvents(evs: seq<Event>): nat
  {
    if evs == [] then 0 else (if evs[0].FrameFired? then 1 else 0) + FrameEvents(evs[1..])
  }

  // ---------------------------------------------------------------------
  // initialize

  /** What initialize leaves behind: score 0, overlay hidden, the initial
      paddle, and the initial ball moved by one frame: at (W/2 + 2, H - 52),
      radius 10, speed 2 on each axis, heading up and right on any canvas of
      at least 24 by 62. Exactly one frame is pending. */
  lemma InitializeResets(s: State, W: real, H: real)
    requires AtMostOnePending(s.frames)
    ensures var t := Initialize(s, W, H);
      && t.world.score == 0
      && !t.world.gameOverShown
      && t.world.paddle == InitialPaddle(W, H)
      && t.world.ball.x == W / 2.0 + 2.0 && t.world.ball.y == H - 52.0
      && t.world.ball.radius == 10.0
      && Abs(t.world.ball.dx) == 2.0 && Abs(t.world.ball.dy) == 2.0
      && (24.0 <= W && 62.0 <= H ==> t.world.ball.dx == 2.0 && t.world.ball.dy == -2.0)
      && OnePending(t.frames)
  {
    // the moved initial ball's bottom edge is at H - 42: above the paddle
    // (H - 20) and the floor (H), so neither branch fires
  }

  /** initialize does not read the previous ball, paddle, score or overlay. */
  lemma InitializeForgetsWorld(s: State, s': State, W: real, H: real)
    ensures Initialize(s, W, H).world == Initialize(s', W, H).world
  {
  }

  /** Restarting twice in a row is restarting once: the same game state and
      still exactly one frame pending, never two loops. */
  lemma InitializeIdempotent(s: State, W: real, H: real)
    requires AtMostOnePending(s.frames)
    ensures Initialize(Initialize(s, W, H), W, H).world == Initialize(s, W, H).world
    ensures OnePending(Initialize(Initialize(s, W, H), W, H).frames)
  {
  }

  // ---------------------------------------------------------------------
  // the frame loop

  /** One event keeps exactly one frame pending. In particular the frame that
      shows the game-over overlay still requests the next frame: gameOver
      cancels the frame that is already running, and gameLoop asks for a new
      one right after, so the loop never stops. */
  lemma StepKeepsOnePending(s: State, ev: Event, W: real, H: real)
    requires OnePending(s.frames)
    ensures OnePending(Step(s, ev, W, H).frames)
  {
    // The firing frame is the only pending one; once it is taken off, nothing
    // is pending, so gameOver's cancel has nothing to remove and the request
    // leaves exactly the new frame. A restart cancels the one pending frame
    // before the request.
  }

  /** Once the page has started, exactly one animation frame is pending after
      any sequence of frames, pointer moves and restarts, game over or not. */
  lemma {:induction false} LoopNeverStops(s: State, evs: seq<Event>, W: real, H: real)
    requires OnePending(s.frames)
    ensures OnePending(Apply(s, evs, W, H).frames)
    decreases |evs|
  {
    if evs != [] {
      StepKeepsOnePending(s, evs[0], W, H);
      LoopNeverStops(Step(s, evs[0], W, H), evs[1..], W, H);
    }
  }

  /** After the frame that shows the overlay, the ball keeps being moved: the
      next frame fires and runs updateGame again. */
  lemma FramesContinueAfterGameOver(s: State, W: real, H: real)
    requires OnePending(s.frames)
    requires FrameFires(s, s.frames.animationId, W, H).world.gameOverShown
    ensures var t := FrameFires(s, s.frames.animationId, W, H);
      FrameFires(t, t.frames.animationId, W, H).world.ball
        == Physics.UpdateGame(t.world.ball, t.world.paddle, W, H).ball
  {
  }

  // ---------------------------------------------------------------------
  // score and overlay

  /** Between restarts the score never goes down, and goes up by at most one
      per animation frame. */
  lemma {:induction false} ScoreMonotone(s: State, evs: seq<Event>, W: real, H: real)
    requires RestartClicked !in evs
    ensures s.world.score <= Apply(s, evs, W, H).world.score <= s.world.score + FrameEvents(evs)
    decreases |evs|
  {
    if evs != [] {
      assert evs == [evs[0]] + evs[1..];
      ScoreMonotone(Step(s, evs[0], W, H), evs[1..], W, H);
    }
  }

  /** Between restarts, once shown the overlay stays shown. */
  lemma {:induction false} GameOverStaysShown(s: State, evs: seq<Event>, W: real, H: real)
    requires RestartClicked !in evs
    requires s.world.gameOverShown
    ensures Apply(s, evs, W, H).world.gameOverShown
    decreases |evs|
  {
    if evs != [] {
      assert evs == [evs[0]] + evs[1..];
      GameOverStaysShown(Step(s, evs[0], W, H), evs[1..], W, H);
    }
  }

  /** A frame shows the overlay exactly when the ball it moves has its bottom
      edge past the canvas, and the same frame may also have scored. */
  lemma GameOverExactlyPastFloor(s: State, W: real, H: real)
    requires OnePending(s.frames)
    requires !s.world.gameOverShown
    ensures var t := FrameFires(s, s.frames.animationId, W, H);
      t.world.gameOverShown <==> t.world.ball.y + t.world.ball.radius > H
  {
  }

  // ---------------------------------------------------------------------
  // the session invariant

  /** What holds throughout a session on a canvas at least 80 wide (so the
      paddle fits) and 60 high: the ball keeps radius 10 and speed 2 on each
      axis and is held by the side and top walls; the paddle keeps its size
      and height and lies on the canvas; exactly one frame is pending. */
  predicate Playing(s: State, W: real, H: real)
  {
    var b := s.world.ball;
    var p := s.world.paddle;
    && b.radius == 10.0 && Abs(b.dx) == 2.0 && Abs(b.dy) == 2.0
    && Physics.HeldBySideWalls(b, W) && Physics.HeldByTopWall(b)
    && p.width == 80.0 && p.height == 10.0 && p.y == H - 20.0
    && Input.InBounds(p, W)
    && OnePending(s.frames)
  }

  lemma StartIsPlaying(W: real, H: real)
    requires 80.0 <= W && 60.0 <= H
    ensures Playing(Start(W, H), W, H)
  {
  }

  lemma StepKeepsPlaying(s: State, ev: Event, W: real, H: real)
    requires 80.0 <= W && 60.0 <= H
    requires Playing(s, W, H)
    ensures Playing(Step(s, ev, W, H), W, H)
  {
  }

  /** The session invariant holds after any sequence of events. */
  lemma {:induction false} PlayingHolds(s: State, evs: seq<Event>, W: real, H: real)
    requires 80.0 <= W && 60.0 <= H
    requires Playing(s, W, H)
    ensures Playing(Apply(s, evs, W, H), W, H)
    decreases |evs|
  {
    if evs != [] {
      StepKeepsPlaying(s, evs[0], W, H);
      PlayingHolds(Step(s, evs[0], W, H), evs[1..], W, H);
    }
  }

  /** Inside a game, nothing stops the paddle branch from firing again on the
      next frame: a ball just inside the paddle zone turns, stays in the zone,
      and turns again, scoring on three frames in a row. */
  lemma PaddleBranchRefires()
    ensures
      var s := State(World(Ball(200.0, 374.0, 10.0, 2.0, 2.0), Paddle(80.0, 10.0, 160.0, 380.0, 8.0), 0, false),
                     Frames(1, {1}, 2));
      var s1 := FrameFires(s, 1, 480.0, 400.0);
      var s2 := FrameFires(s1, 2, 480.0, 400.0);
      var s3 := FrameFires(s2, 3, 480.0, 400.0);
      && Playing(s, 480.0, 400.0)
      && s1.world.score == 1 && s2.world.score == 2 && s3.world.score == 3
      && !s3.world.gameOverShown
  {
  }

  /** Inside a game, one frame can both score a paddle hit and show the
      game-over overlay. */
  lemma HitAndGameOverInOneFrame()
    ensures
      var s := State(World(Ball(200.0, 390.0, 10.0, 2.0, 2.0), Paddle(80.0, 10.0, 160.0, 380.0, 8.0), 0, false),
                     Frames(1, {1}, 2));
      var t := FrameFires(s, 1, 480.0, 400.0);
      && Playing(s, 480.0, 400.0)
      && t.world.score == 1 && t.world.gameOverShown
  {
  }

  /** Hence, from the page's start: the paddle is on the canvas and the ball
      is never more than one frame's travel (2 pixels) past a side wall. */
  lemma PaddleAndBallStayOnCanvas(evs: seq<Event>, W: real, H: real)
    requires 80.0 <= W && 60.0 <= H
    ensures var t := Apply(Start(W, H), evs, W, H);
      && 0.0 <= t.world.paddle.x <= W - 80.0
      && -2.0 <= t.world.ball.x - 10.0 && t.world.ball.x + 10.0 <= W + 2.0
  {
    StartIsPlaying(W, H);
    PlayingHolds(Start(W, H), evs, W, H);
    Physics.SideOvershootBounded(Apply(Start(W, H), evs, W, H).world.ball, W);
  }
}
