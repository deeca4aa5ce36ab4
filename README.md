# Pong-style demo: the per-frame simulation step

This project models, in Dafny, the simulation core of a single-screen
ball-and-paddle demo written in JavaScript (`games.js`). Five balls bounce on a
surface. The player paddle on the left follows the arrow keys. An "AI" paddle on
the right follows the first ball. Each frame, `Game.update` moves every ball,
tests it against both paddles and recentres it if it left the surface. Then it
moves the player paddle and the AI paddle.

The model has two layers, both in module `Games` (`games.dfy`):

- **Value layer.** Datatypes `BallState`, `PaddleState` and `GameState`, plus
  functions that say what each step computes: `MoveBall`, `ResetBall`,
  `MovePaddle`, `AutoMovePaddle`, `UpdateBall`, `UpdateBalls`, `PlayerStep`,
  `UpdateGame`, the key handlers `HandleKey`/`HandleKeys`, and `Play`, which
  runs a bounded number of frames.
- **Object layer.** Classes `Ball`, `Paddle` and `Game`, whose fields are
  updated in place as in the source. `Game` holds an `array<Ball>`, two
  paddles and the key map. Each method is proved to leave its objects in the
  state the value layer prescribes. A ghost set `Repr` holds the ball objects,
  and `Valid()` says that they are distinct.

Module `Bands` (`bands.dfy`) proves what stays true over any number of frames,
whatever keys are pressed. Module `Scenarios` (`scenarios.dfy`) works out
single frames on an 800 by 600 surface.

Coordinates are `real`. The surface is a `Canvas(width, height)` value passed
to the operations in place of the global canvas. The key map is a
`map<string, bool>`, and a key that was never pressed reads as not held, as an
absent property does in JavaScript.

What the code does, and what the model follows, where a reader might expect
something else:

- Nothing is clamped. `Ball.move` tests the position after the step and only
  reflects the vertical speed, so a disc can end a frame partly outside the
  surface (`Bands.BallCanOvershootTop`). A ball whose step clears both edges
  is not reflected, even if it touched one before the step
  (`Bands.ReflectionTestsMovedPosition`). A ball that touches an edge and is
  moving inward, but whose step still leaves it touching, is reflected back
  outward (`Bands.InwardTouchCanBeReflected`).
- `Paddle.move` checks the position before the step and then takes a full
  step. From `y = 3` with speed 5 it goes to `y = -2`
  (`Bands.PaddleCanOvershootTop`). `Paddle.autoMove` has no edge check.
- What does hold is a band one step wide around each edge, for any run that
  starts from a state already inside these bands (`Bands.PlayKeepsBands`).
  Within them, no ball's disc gets more than its vertical speed past the top
  or bottom, the player paddle never gets more than one step past either
  edge, and the AI paddle's centre stays within one paddle step of the band
  its ball lives in. A new game starts inside the bands only on a surface
  taller than 340 (`Bands.InitialInBands`,
  `Bands.PlayFromStartStaysNearSurface`). On shorter surfaces the bands are
  not promised: on a surface 80 high the ball of radius 50 ends its second
  frame 10 past the top edge, twice its vertical speed
  (`Bands.ShortSurfaceLeavesBand`).
- The paddle tests and the exit test each negate `speedX`, so they can cancel
  out. From (0, 300) moving left at 4, a ball that is still level with the
  starting player paddle after its step is recentred but keeps moving left.
  Only a ball outside the paddle's span is served back to the right
  (`Scenarios.LeftExitInsidePaddleSpan`, `Scenarios.LeftExitOutsidePaddleSpan`).
- When both arrows are held and neither guard blocks, 'up' then 'down' leaves
  the paddle where it was (`Games.BothKeysCancel`).
- The constructor places both paddles at `height/2 - 150/2`, but they are 250
  tall. They therefore start 50 below centre. On a surface 340 high or less,
  the player paddle starts at least a step past the bottom edge
  (`Bands.InitialInBands` needs `height > 340`).

## Model

| member | source | states |
|---|---|---|
| Games.TouchesTopOrBottom | games.js:29 | the disc reaches or crosses the top edge (y - radius <= 0) or the bottom edge (y + radius >= height) |
| Games.TouchesLeftOrRight | games.js:122 | the disc reaches or crosses the left edge (x - radius <= 0) or the right edge (x + radius >= width) |
| Games.MoveBall | games.js:24-32 | the ball advances by exactly its velocity; radius, colour and speedX are kept; speedY is negated exactly when the moved disc touches the top or bottom edge, is otherwise kept, and its magnitude never changes |
| Games.ResetBall | games.js:34-38 | the ball is placed at (width/2, height/2) and speedX negated; speedY, radius and colour are kept |
| Games.ResetTwiceRestoresServe | games.js:34-38 | two resets give back the original ball recentred, in particular the original speedX |
| Games.MovePaddle | games.js:61-67 | only y can change; 'up' lowers y by speed exactly when y > 0 before the step, 'down' raises it by speed exactly when y + height < surface height before the step; any other case, including any other direction, changes nothing |
| Games.AutoMovePaddle | games.js:69-75 | only y can change; the paddle moves up by speed when the ball is above its centre, down by speed when below, not at all when level; nothing bounds it |
| Games.AutoMoveApproaches | games.js:69-75 | a gap of at least one step between ball and paddle centre shrinks by exactly one step; no gap grows to more than one step |
| Games.HitsPaddle1 | games.js:111-112 | the left paddle's test: the ball's left edge is at or left of the paddle's right edge and its centre lies within the paddle's vertical span, ends included |
| Games.HitsPaddle2 | games.js:116-117 | the right paddle's test: the ball's right edge is at or right of the paddle's left edge and its centre lies within the paddle's vertical span, ends included |
| Games.UpdateBall | games.js:107-125 | one ball's frame: speedX ends negated exactly when an odd number of the paddle1, paddle2 and exit tests hold on the moved ball; a ball whose moved disc reaches the left or right edge ends at the centre, any other ends at its moved position; so every ball ends at the centre or with its disc strictly inside horizontally; speedY is as after the move; radius, colour and the magnitude of speedX are kept |
| Games.UpdateBalls | games.js:107-125 | the ball loop keeps the number and order of balls, and each result ball is that ball's own update against the paddles as they were before the frame |
| Games.Held | games.js:128-131 | a key counts as held exactly when the map has it set to true; a key never pressed, absent from the map, reads as not held, as an absent property is falsy |
| Games.PlayerStep | games.js:127-133 | only paddle1's y can change; with neither arrow held nothing changes; otherwise 'up' for a held ArrowUp, then 'down' for a held ArrowDown on the result |
| Games.BothKeysCancel | games.js:128-133 | with both arrows held and neither guard blocking, the player paddle ends where it started |
| Games.UpdateGame | games.js:105-137 | a frame's balls are the ball loop over paddles read before the frame; paddle1 is the player step; paddle2 is the AI step toward the updated first ball; the key map is unchanged |
| Games.AiTracksFirstBallOnly | games.js:135-136 | two frames that differ only in balls other than the first move the AI paddle identically |
| Games.HandleKey | games.js:139-146 | after a keydown the key reads as held and after a keyup as not held; every other entry of the map is unchanged |
| Games.HandleKeys | games.js:139-146 | handlers applied in event order: keys no event names keep their entries, and the batch's final event decides whether its key is held |
| Games.LastEventDecidesKey | games.js:139-146 | for every key an event names, the last event naming it decides alone: the key is held after the batch exactly when that event is a keydown, whatever earlier events named it or any other key |
| Games.Play | games.js:148-156 | a bounded run of frames with key events between them keeps the number of balls, each ball's radius, colour and speed magnitudes, and every paddle field except y |
| Games.InitialBalls | games.js:82-88 | the constructor's five balls, all at the centre of the surface and all heading down and to the right at equal horizontal and vertical speed |
| Games.InitialState | games.js:82-91 | the constructor's state: those balls, an empty key map, both paddles 250 tall with their centres 50 below the middle of the surface, the player paddle 10 from the left edge and the AI paddle's right side 10 from the right edge, only the first one player-controlled, both with speed 5 |
| Games.NewBalls | games.js:82-88 | five fresh, distinct ball objects holding the constructor's initial balls in order, and the ghost set of ball objects is exactly those five |
| Games.Ball.constructor | games.js:7-14 | the ball holds exactly the given position, radius, colour and velocity |
| Games.Ball.Move | games.js:24-32 | the ball's new state is MoveBall of its old state |
| Games.Ball.Reset | games.js:34-38 | the ball's new state is ResetBall of its old state |
| Games.Paddle.constructor | games.js:43-51 | the paddle holds the given geometry, colour and control flag (default false) and speed 5 |
| Games.Paddle.Move | games.js:61-67 | the paddle's new state is MovePaddle of its old state |
| Games.Paddle.AutoMove | games.js:69-75 | the paddle's new state is AutoMovePaddle of its old state toward the ball's y; only the paddle may change |
| Games.Game.constructor | games.js:80-92 | a valid game whose balls, paddles and empty key map are the initial state, on fresh objects; its set of ball objects is exactly the five balls of the array, so a frame may change those and nothing else |
| Games.Game.BallStates | games.js:82-88 | the ordered states of the ball array: one entry per ball, each the current state of the ball object at that index |
| Games.Game.UpdateOne | games.js:107-125 | a ball object's new state is UpdateBall of its old state against the current paddles |
| Games.Game.UpdateAllBalls | games.js:107-125 | the loop over the ball array leaves the ball states equal to UpdateBalls of the old ones, touching only the ball objects in `Repr`, which for a game built by the constructor are exactly its five balls |
| Games.Game.MovePlayer | games.js:127-133 | paddle1's new state is PlayerStep of its old state and the current keys |
| Games.Game.Update | games.js:105-137 | the game's new state is UpdateGame of its old state, and it stays valid |
| Games.Game.KeyDown | games.js:140-142 | the key map becomes the old map with the key set to true |
| Games.Game.KeyUp | games.js:143-145 | the key map becomes the old map with the key set to false |
| Games.Game.HandleEvents | games.js:139-146 | a sequence of key events leaves the map as HandleKeys of the old one |
| Games.Game.Step | games.js:139-156 | one turn of the frame cycle: the key events since the last frame are handled in order, then the frame is updated; the game stays valid |
| Games.Game.RunFrames | games.js:148-156 | a bounded run of the frame loop leaves the game in the state Play prescribes |
| Bands.MoveBallKeepsBand | games.js:24-32 | a ball within one vertical step of the surface, heading inward wherever it touches an edge, is still so after a move |
| Bands.UpdateBallKeepsBand | games.js:107-125 | the same band survives a ball's whole frame, reset included |
| Bands.MovePaddleKeepsBand | games.js:61-67 | a paddle within one step of both edges stays so after any move |
| Bands.PlayerStepKeepsBand | games.js:127-133 | the player step keeps paddle1 within one step of both edges |
| Bands.AutoMoveKeepsBand | games.js:69-75 | the AI paddle's centre stays within one paddle step of its ball's band |
| Bands.UpdateGameKeepsBands | games.js:105-137 | a frame keeps every ball, the player paddle and the AI paddle in their bands |
| Bands.HandleKeysKeepsBands | games.js:139-146 | key events cannot take anything out of its band |
| Bands.PlayKeepsBands | games.js:148-156 | any bounded run of frames with any key events keeps every band |
| Bands.InitialInBands | games.js:80-92 | the constructor's state is within all bands on a surface taller than 340 |
| Bands.PlayFromStartStaysNearSurface | games.js:80-156 | from a new game, after any frames and keys, each ball's disc is less than its vertical speed past the top and bottom, paddle1 less than 5 past either edge, and paddle2's centre more than 6 inside both edges |
| Bands.ShortSurfaceLeavesBand | games.js:24-32 | on a surface 80 high, two frames from a new game leave the ball of radius 50 with its disc 10 past the top edge, twice its vertical speed of 5 |
| Bands.PaddleCanOvershootTop | games.js:61-67 | a paddle at y = 3 moving up by 5 ends at y = -2 |
| Bands.BallCanOvershootTop | games.js:24-32 | a ball whose step crosses the top edge is reflected where it stands, 2 past the edge |
| Bands.ReflectionTestsMovedPosition | games.js:24-32 | for every ball whose moved disc clears both the top and the bottom edge, speedY is kept, whether or not the disc touched an edge before the step |
| Bands.InwardTouchCanBeReflected | games.js:24-32 | a ball at y = 5, radius 10, touching the top and moving down by 2, still touches after its step and so is reflected to speedY -2, heading back out |
| Scenarios.LeftExitInsidePaddleSpan | games.js:107-125 | on 800 by 600, a ball at (0, 300) with speedX -4 still level with the starting player paddle is recentred at (400, 300) and keeps speedX -4 |
| Scenarios.LeftExitOutsidePaddleSpan | games.js:107-125 | the same ball below the paddle's span is recentred and served with speedX 4 |
| Scenarios.PlayerAtTopStays | games.js:128-133 | paddle1 at y = 0 with only ArrowUp held does not move |
| Scenarios.AiMovesTowardBall | games.js:135-136 | paddle2 at y = 100, 250 tall, with its ball at 50 after the step, moves to 95 |
| Scenarios.FirstFrameValues | games.js:80-137 | the first frame of a new 800 by 600 game with ArrowUp held puts ball 0 at (404, 304) and both paddles at y = 220 |
| Scenarios.FirstFrame | games.js:80-137 | the same first frame on the objects: construct, key down, update |

## Left out

- Drawing (`Ball.draw`, `Paddle.draw`, `Game.draw`: arcs, gradients, clearing). It is canvas output and changes no simulation state.
- Getting the canvas and its context, and creating and starting the game at top level. This is host I/O; the surface size is a parameter instead.
- Registering the key handlers with `window.addEventListener`. Only the map writes the handlers make are modelled (`KeyDown`, `KeyUp`, `HandleKey`).
- The endless `requestAnimationFrame` loop of `run`. It is modelled as a bounded run of frames (`Play`, `Game.RunFrames`), each preceded by the key events that arrived since the last frame.
- Colours are opaque strings, never read by the simulation step (only drawing reads a ball's colour). The paddles' `isPlayerControlled` flag is stored but never read anywhere.
- Numbers are exact reals, not IEEE doubles. The source uses only addition, subtraction, halving and comparisons on small values, so rounding is not modelled.
- Game.Update and UpdateGame require at least one ball. In the source, an empty array would make `balls[0]` undefined and `autoMove` would throw. The constructor always builds five balls and nothing removes them.
- Key events carry their key as a plain string. The event object itself and its other fields are not modelled.
