# pyPong in Dafny

A verified model of the simulation core of pyPong, a two-player ball-and-paddle
game: the per-tick physics of the ball (wall bounce, paddle bounce, scoring,
clamping to the 640 x 480 screen), the paddles driven by the keys held down,
the two score counters and the main loop that drains the posted score events,
resets the ball and updates the paddles before the ball.

The project has three modules:

- `Rects` (`rects.dfy`): the integer rectangle the game relies on, with the
  library's semantics for `move`, `clamp` (shift into a container, centre when
  too large), `colliderect` (strict overlap; touching edges and zero-sized
  rectangles do not collide) and assigning `center`.
- `PongSpec` (`pong_spec.dfy`): the rules as functions on values
  (`PaddleUpdate`, `BallUpdate`, `BallReset`, `HandleScoreEvent`, `Tick`,
  `Run`) and the lemmas about them: the loop invariant (paddles and ball on
  screen, ball speeds in {4, -4}, at most one pending score event), the exact
  change of the scores per tick, monotone scores, at most one score event per
  ball update.
- `Pong` (`pong.dfy`): the sprites as classes whose methods update their fields
  in place (`Paddle.Update`, `Ball.Update`, `Ball.Reset`, `Score.Increment`)
  and the main loop as a class `Game` (`HandleScoreEvents`, `Tick`, `Play`),
  each proved to produce exactly the state the corresponding `PongSpec`
  function gives.

Inputs that the program reads from its environment are parameters: the keys
held down are a `set<Key>`; the signs `random.choice([1, -1])` returns are
values of the subset type `Sign` (exactly 1 or -1), and a tick receives a
function `draws` whose i-th value gives the signs for the i-th ball reset of
that tick. The global event queue becomes the `queue` field of `Game`: the
ball's `Update` returns the players whose score events it posts, and `Tick`
appends them to the queue, to be handled at the start of the next tick.

## Model

| member | source | states |
|---|---|---|
| `Rects.Move` | main.py:48 | `move` keeps the size, shifts the left and top edges by (dx, dy), and so shifts every point of the rectangle by (dx, dy) |
| `Rects.MoveBack` | main.py:48 | moving by (-dx, -dy) undoes a move by (dx, dy) |
| `Rects.ClampAxis` | main.py:71 | one axis of `clamp`: a segment that fits ends up inside the container, one already inside stays put, the result is the projection of the position onto the allowed range, and a segment at least as long as the container is centred on it (start `lo + span / 2 - size / 2`) and covers it |
| `Rects.Clamp` | main.py:71 | `clamp` keeps the size, puts a rectangle that fits inside the container, and leaves one already inside unchanged |
| `Rects.ClampIdempotent` | main.py:114 | clamping twice is the same as clamping once, for every rectangle, including one too large for the container |
| `Rects.ClampAxisNearest` | main.py:114 | among the positions inside the container, clamping picks the one nearest to the original position |
| `Rects.CollideRect` | main.py:56-62 | `colliderect` holds exactly when some point belongs to both rectangles; so touching edges (strict inequalities) and a zero width or height never collide |
| `Rects.CollideRectSymmetric` | main.py:60 | collision does not depend on the order of the rectangles |
| `Rects.TouchingRectsDoNotCollide` | main.py:60 | rectangles that only share an edge do not collide |
| `Rects.WithCenter` | main.py:80 | assigning `center` keeps the size and makes (x + w / 2, y + h / 2) the given point |
| `PongSpec.PaddleChange` | main.py:106-111 | the keys ask for a change of -4, 0 or +4; it is 0 exactly when both or neither key is held, negative exactly when only up is held |
| `PongSpec.PaddleUpdate` | main.py:103-116 | the paddle keeps its size, ends inside the screen when it fits, and keeps its x position when it is horizontally on screen |
| `PongSpec.PaddleUpdateStep` | main.py:106-116 | a paddle on screen stays on screen at its column; it moves by exactly the change when there is room, otherwise in the same direction by less and stops at the top or bottom edge |
| `PongSpec.BallUpdate` | main.py:45-71 | the new rect is the clamp of the provisional rect; y speed is negated on a top or bottom breach and kept otherwise; contact with the right paddle forces -4, else contact with the left paddle forces +4, else x speed is kept; a player-1 event is posted iff the provisional right edge passes 640 and a player-2 event iff its left edge passes 0, each at most once, player 1 first |
| `PongSpec.BallUpdateKeepsBallInPlay` | main.py:42-71 | a 20 x 20 ball on screen moving at (±4, ±4) stays so after an update, and posts at most one score event |
| `PongSpec.BallReset` | main.py:77-83 | the reset ball keeps its size, its centre is the screen centre, each speed is 4 or -4 and its sign is the drawn sign |
| `PongSpec.BallResetInPlay` | main.py:77-83 | a reset 20 x 20 ball is at (310, 230), in play, wherever it was and however often it was reset |
| `PongSpec.HandleScoreEvent` | main.py:175-181 | player 1's event adds exactly one to the left score, player 2's exactly one to the right score, the other score is unchanged, the ball is reset, the paddles are untouched |
| `PongSpec.Drain` | main.py:169-181 | handling a batch of events in order adds to each score the number of events for its player, leaves the ball as it was when the batch is empty and otherwise reset with the last event's draw, and leaves the paddles and the queue alone |
| `PongSpec.DrainKeepsSceneInPlay` | main.py:169-181 | handling events keeps the paddles and the ball in play |
| `PongSpec.Initial` | main.py:150-161 | the state after set-up and the first reset satisfies the loop invariant, with both scores at 0 and nothing queued |
| `PongSpec.Tick` | main.py:165-183 | one pass of the loop changes each score by exactly the number of that player's events queued before it, and leaves at most two queued events, each for player 1 or 2 |
| `PongSpec.MissScoredNextTick` | main.py:165-183 | a miss is scored one tick after it happens: after a tick the queue holds exactly the ball's events of that tick, and the next tick adds one to the left score exactly when the ball passed the right edge and one to the right score exactly when it passed the left edge |
| `PongSpec.MissResetsBallNextTick` | main.py:165-183 | in a game in play, a miss left pending by a tick makes the next tick's ball update start from the ball re-centred at (310, 230), 20 x 20 and moving at the ball speed |
| `PongSpec.TickKeepsInvariant` | main.py:165-183 | a tick keeps the loop invariant: paddles on screen at their columns, ball 20 x 20 on screen with speeds in {4, -4}, at most one queued event, for player 1 or 2 |
| `PongSpec.RunKeepsInvariant` | main.py:165-183 | the loop invariant holds after any number of ticks, whatever the keys and the signs |
| `PongSpec.Run` | main.py:165-183 | successive passes of the loop: scores never go down over any number of passes, and zero passes leave the state as it was |
| `PongSpec.GameStaysInPlay` | main.py:138-183 | from the start of a game, the loop invariant holds after any number of ticks |
| `PongSpec.CentredBallScenario` | main.py:45-71 | a centred ball moving by (4, 4) away from the paddles moves its centre to (324, 244) and posts nothing |
| `Pong.Paddle.constructor` | main.py:92-101 | a paddle has its keys and its starting rect |
| `Pong.Paddle.Update` | main.py:103-116 | the paddle's rect becomes exactly `PaddleUpdate` of the old rect under its own two keys |
| `Pong.Ball.constructor` | main.py:28-43 | a new ball is the 20 x 20 square at the origin moving at (4, 4) |
| `Pong.Ball.Update` | main.py:45-71 | the ball's new fields and the posted events are exactly `BallUpdate` of the old fields against the two paddle rects |
| `Pong.Ball.Reset` | main.py:77-83 | the ball's new fields are exactly `BallReset` of the old ones with the drawn signs |
| `Pong.Score.constructor` | main.py:123-126 | a score starts at 0 |
| `Pong.Score.Increment` | main.py:133-134 | the score goes up by exactly one |
| `Pong.Game.constructor` | main.py:150-161 | creating the sprites and resetting the ball gives the initial state |
| `Pong.Game.HandleScoreEvents` | main.py:169-181 | handling the drained events in order leaves the game in the state `Drain` gives |
| `Pong.Game.OnScoreEvent` | main.py:175-181 | handling one score event leaves the game in exactly the state `HandleScoreEvent` gives |
| `Pong.Game.Tick` | main.py:165-183 | one pass of the loop leaves the game in the state `Tick` gives, and keeps the loop invariant |
| `Pong.Game.Play` | main.py:165-183 | a run of passes leaves the game in the state `Run` gives, and keeps the loop invariant |

## Left out

- Rendering: creating surfaces, filling, rendering the score text, blitting, drawing the sprite group and updating the display. These are side effects through the graphics library and have no effect on the game state. `Score.increment` regenerating its image is one of them.
- Audio: loading the three sounds and playing them on a wall bounce, a paddle bounce and a score.
- Frame pacing: the clock that holds the loop at 60 ticks per second.
- Window set-up and shutdown: initialising the library, opening the 640 x 480 window, the caption, and the quit event that ends the process. `Play` runs for a given finite sequence of ticks instead of forever.
- Randomness: `random.choice` itself. The chosen signs are parameters, and nothing is said about their distribution.
- The library's global event queue and key-state query: the queue holds only score events here (as `Game.queue`), and the key state is a set of held keys.
- The sprite group: `Tick` calls the updates in the group's order (left paddle, right paddle, ball; the scores have no update of their own).
- The ball's callbacks for the paddle rects: `Ball.Update` receives the paddles' current rects as arguments, which is what the callbacks return at that moment.
- Score positions: only used for drawing.
- Rect widths and heights are natural numbers and coordinates are unbounded integers. The library also allows negative sizes and stores coordinates as 32-bit integers. Neither case arises in the game, which uses only the fixed sizes 20 x 20 and 20 x 100 inside a 640 x 480 screen.
- The starting paddle positions (left edge 30 and right edge 610, each centred 100 pixels down) are computed from floats in the program. The model uses the integer rects they produce, `Rect(30, 50, 20, 100)` and `Rect(590, 50, 20, 100)`.
