# Bouncing-ball game: a verified model of its game loop

The game is a single page: a ball bounces inside a canvas, off the side walls,
the top wall and a paddle that follows the mouse or the first touch point.
Every paddle hit scores a point. When the ball's bottom edge passes the bottom
of the canvas, a game-over overlay appears. A restart button starts a new game.

This project models the state machine inside `script.js`:

- `updateGame`, one frame of physics: move, side walls, top wall, paddle, floor;
- `movePaddle`, which maps pointer input to the paddle;
- `initialize`, which resets the game;
- `gameLoop` and `gameOver`, the frame driver, with the browser's animation
  frames reduced to a set of pending frame ids.

Modules, one per component:

- `Entities` (entities.dfy): the ball and paddle records and their starting values.
- `Physics` (physics.dfy): `updateGame` as a function on values, plus the wall lemmas.
- `Input` (input.dfy): `movePaddle` as a function on values.
- `Session` (session.dfy): the whole program as a state machine over events.
  An event is an animation frame firing, a pointer move or a restart click.
  The lemmas over event sequences live here.
- `Script` (script.dfy): the program as it runs. `Ball` and `Paddle` are
  classes whose fields are assigned in place. `Game` holds the module-level
  variables and the pending frames. Each method is proved to leave exactly the
  state that the matching `Session` function gives. So every `Session` lemma
  holds of the running objects.

All coordinates are `real`, so the halves (`W / 2`, `(W - 80) / 2`) are exact.
The canvas width `W` and height `H` are parameters.

Three behaviours of the code differ from what the game evidently intends. The model follows the code:

- After game over the loop does not stop. `gameOver` cancels `animationId`,
  but that is the frame already running. `gameLoop` then requests a new frame.
  So frames keep firing, the ball keeps moving (and may keep scoring), and the
  overlay simply stays shown. See `Session.LoopNeverStops` and
  `Session.FramesContinueAfterGameOver`.
- `initialize` calls `gameLoop` directly, so one frame of physics runs at once.
  When `initialize` returns, the ball is already at `(W/2 + 2, H - 52)`, not
  at `(W/2, H - 50)`. See `Session.InitializeResets`.
- On a canvas narrower than the paddle, the code leaves the paddle at
  `W - 80`, off the left edge. The usual clamp `max(0, min(x, W - width))`
  would give 0. See `Input.ClampedPaddleX`.

## Model

| member | source | states |
|---|---|---|
| `Physics.UpdateGame` | script.js:68-98 | The centre moves by exactly `(dx, dy)` and no reflection corrects it. The radius and both speeds `abs(dx)` and `abs(dy)` are kept. `dx` is negated once, exactly when the moved ball crosses a side wall. The paddle branch fires exactly on `y + r > paddle.y` together with the strict centre test `paddle.x < x < paddle.x + width`. A top-wall and a paddle reflection in one frame cancel. Game over is raised exactly when `y + r > H`. |
| `Physics.SideWallsHold` | script.js:70-76 | A ball that fits between the side walls never gets stuck in one. If it is outside a wall, it is heading back in, and its next move brings it inside. |
| `Physics.TopWallHolds` | script.js:70-89 | The same for the top wall, provided the paddle is at least a ball's diameter below the top, so that a paddle hit cannot undo a top reflection. |
| `Physics.SideOvershootBounded` | script.js:70-76 | Under that invariant, the ball's edge is never further past a side wall than one frame's horizontal travel `abs(dx)`. |
| `Input.ClampedPaddleX` | script.js:133-139 | If the canvas is at least as wide as the paddle, the paddle lies on it, at `max(0, min(t - width/2, W - width))`. It sits centred under the pointer whenever that position fits. On a narrower canvas the paddle ends at `W - width`, which is below 0. |
| `Input.MovePaddle` | script.js:122-140 | Only `x` changes. `y`, `width`, `height` and `speed` are kept. A touch event with no contact point leaves the paddle as it was. Otherwise `x` is the clamped centred position for the pointer, whatever `x` was before. A paddle that fits on the canvas ends on it. |
| `Input.MovePaddleIdempotent` | script.js:122-140 | Repeating the same pointer event changes nothing more. |
| `Input.TouchActsAsMouse` | script.js:124-130 | A touch whose first contact point is at a mouse's `clientX` moves the paddle as that mouse does. |
| `Session.UpdateGame` | script.js:68-103 | The ball becomes the ball `Physics.UpdateGame` gives. A frame never touches the paddle. The score rises by exactly one on a paddle hit and is otherwise kept. The overlay is shown afterwards exactly when it was already shown or the moved ball is past the floor. No frame is requested. `animationId` is cancelled exactly when the moved ball is past the floor; otherwise the frames are left exactly as they were. |
| `Session.RequestFrame` | script.js:118 | `requestAnimationFrame`: the new id is `nextId`, it is the only id added to the pending frames, and ids keep growing. While every pending id was handed out earlier, the new id was not pending before. |
| `Session.CancelFrame` | script.js:101 | `cancelAnimationFrame(id)`: that id will not fire, and every other pending frame still will. |
| `Session.GameOver` | script.js:100-103 | The overlay is shown. Ball, paddle and score are kept. The frame `animationId` names is no longer pending, and nothing else is cancelled. `animationId` itself is not reassigned and no frame is requested. |
| `Session.GameLoop` | script.js:106-119 | The game state is the one `updateGame` leaves. Afterwards a fresh frame (`nextId`) is pending and stored in `animationId`, even when `updateGame` called `gameOver`. |
| `Session.Initialize` | script.js:19-47 | Score 0, overlay hidden, the initial paddle, and the initial ball after one frame of `updateGame`. The previous frame, once one was requested, is cancelled. A new frame is pending and stored in `animationId`. |
| `Session.FrameFires` | script.js:106-119 | The browser runs a frame's callback. A frame that is not pending (never requested, cancelled, or already run) does nothing. A pending one leaves the queue and then runs `gameLoop`: the ball, score and overlay become what one `updateGame` leaves, so the frame scores on a paddle hit and shows the overlay past the floor. The paddle is left alone. The pending frames are those `updateGame` leaves plus the next frame, which is stored in `animationId`. |
| `Session.PointerMoves` | script.js:122-144 | A `mousemove` or `touchmove` event: only the paddle changes, to what `Input.MovePaddle` gives. Ball, score, overlay and frames are kept. |
| `Session.PaddleBranchRefires` | script.js:84-92 | Inside a game (`Session.Playing` holds), nothing stops the paddle branch from firing again. A ball at `(200, 374)` moving `(2, 2)` over a paddle at `x = 160`, `y = 380` scores on three frames in a row. |
| `Session.HitAndGameOverInOneFrame` | script.js:84-97 | Inside a game, one frame can both score a paddle hit and show the game-over overlay. |
| `Session.InitializeResets` | script.js:19-47 | After `initialize`: score 0, overlay hidden, the initial paddle. The ball is the initial ball moved one frame: `(W/2 + 2, H - 52)`, radius 10, speed 2 on each axis, heading up and right on any canvas of at least 24 by 62. Exactly one frame is pending. |
| `Session.InitializeForgetsWorld` | script.js:19-47 | `initialize` does not read the previous ball, paddle, score or overlay. |
| `Session.InitializeIdempotent` | script.js:19-47 | Two `initialize` calls in a row leave the same game state as one, still with exactly one frame pending, never two loops. |
| `Session.StepKeepsOnePending` | script.js:100-118 | Every event keeps exactly one frame pending, including the frame that shows the game-over overlay. |
| `Session.LoopNeverStops` | script.js:100-118 | Once started, exactly one frame is pending after any sequence of frames, pointer moves and restarts, whether or not the game is over. |
| `Session.FramesContinueAfterGameOver` | script.js:95-118 | After the frame that shows the overlay, the next frame fires and moves the ball by `updateGame` again. |
| `Session.ScoreMonotone` | script.js:84-92 | Between restarts the score never decreases. It rises by at most one per animation frame. |
| `Session.GameOverStaysShown` | script.js:95-102 | Between restarts, once shown, the overlay stays shown. |
| `Session.GameOverExactlyPastFloor` | script.js:95-97 | A frame shows the overlay exactly when the ball it moved has its bottom edge past the canvas height. |
| `Session.StartIsPlaying` | script.js:19-47 | On a canvas at least 80 wide and 60 high, the page starts in the session invariant. The ball has radius 10 and speed 2 on each axis and is held by the walls. The paddle has its size and height and lies on the canvas. One frame is pending. |
| `Session.StepKeepsPlaying` | script.js:68-140 | Every event (frame, pointer move, restart) keeps that invariant. |
| `Session.PlayingHolds` | script.js:68-140 | The invariant holds after any sequence of events. |
| `Session.PaddleAndBallStayOnCanvas` | script.js:19-140 | From the page's start, on such a canvas, the paddle is always within `[0, W - 80]`. The ball is never more than 2 pixels past a side wall. |
| `Script.Ball.constructor` | script.js:28-34 | Builds the ball object with the given fields. |
| `Script.Paddle.constructor` | script.js:37-43 | Builds the paddle object with the given fields. |
| `Script.Game.constructor` | script.js:9-10 | Fixes the canvas size, then runs `initialize` (line 148). The state is `Session.Start`, with exactly one frame pending. |
| `Script.Game.RequestAnimationFrame` | script.js:118 | The browser hands out a new id and adds it to the pending frames. |
| `Script.Game.CancelAnimationFrame` | script.js:101 | The browser removes that id from the pending frames. |
| `Script.Game.Initialize` | script.js:19-47 | Leaves exactly the state `Session.Initialize` gives, with fresh ball and paddle objects. Exactly one frame is pending if at most one was before. |
| `Script.Game.UpdateGame` | script.js:68-98 | Changes the ball object's fields, the score and the overlay in place, exactly as `Session.UpdateGame` says. The paddle object is unchanged. |
| `Script.Game.GameOver` | script.js:100-103 | Cancels `animationId` and shows the overlay. |
| `Script.Game.GameLoop` | script.js:106-119 | `updateGame`, then a new frame is requested and its id stored in `animationId`. The paddle is unchanged. |
| `Script.Game.FrameFires` | script.js:106-119 | The browser runs the pending frame's callback. Exactly one frame stays pending. |
| `Script.RestartScenario` | script.js:143-148 | The page starts, the pointer moves, two frames fire, restart is clicked. Afterwards the score is 0, the overlay is hidden, and exactly one frame is pending. |
| `Script.Game.MovePaddle` | script.js:122-140 | Assigns the paddle's `x` in place, exactly as `Input.MovePaddle` says. Its modifies clause is the paddle alone, so the ball, the score and the frames cannot change. |

## Left out

- Drawing (`drawBall`, `drawPaddle`, `clearRect`): rendering with no effect on the game's state.
- DOM plumbing: element lookups, writing the score into the page, and the `hidden` class. The overlay is the boolean `gameOverShown`.
- Canvas sizing (`Math.min(window.innerWidth - 40, 480)` and the height 400): `W` and `H` are parameters. The invariant lemmas assume at least 80 by 60.
- Listener registration: the three kinds of event are the `Session.Event` datatype.
- `getBoundingClientRect`: the canvas's left edge is a parameter of `movePaddle`. Page-space coordinates are `real`.
- `requestAnimationFrame` and `cancelAnimationFrame`: modelled by a set of pending ids with ids from 1 up. Refresh timing is not modelled.
- The browser's choice of order between frames and input events: any interleaving is an event sequence, and the lemmas hold for all of them.
- A touch event with an empty touch list: the source throws when it reads the first point, before the paddle is changed. The model leaves the paddle unchanged. The exception itself is not modelled.
- Floating point: JavaScript numbers are doubles. The model uses exact reals. For the game's small integers and halves the two agree. Positions derived from the pointer (`clientX - rect.left` and the paddle `x` computed from it) can be any double; the model takes them as exact reals and ignores the rounding.
