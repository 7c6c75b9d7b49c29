# Pong physics

A verified model of the integer physics in a small Pong sketch (`index.cpp`).
It covers three pieces.

- The ball's frame update (`Ball::Update`). The ball moves by its velocity. Its vertical speed is reversed when it touches the top or bottom wall. When it reaches the right goal line the opponent scores a point and the ball is served again. When it then lies at the left goal line the player scores and the ball is served again.
- The serve (`Ball::ResetBall`). The ball is put at the integer centre of the screen. Each speed component is multiplied by `-1` or `1`, picked by its own random draw.
- The paddle clamp (`Paddle::LimitMovement`). It keeps the paddle's top edge between `0` and `screenHeight - height`.

Everything is in one module, `Pong` (`pong.dfy`). It has two layers.

- Values and functions. `BallState`, `Scores` and `Game` are values. `Bounce`, `Reset`, `Step` and `LimitY` say what one call does, and their contracts state what the source promises. The ghost function `Run` applies `Step` once per frame of an outside game loop. Lemmas about `Run` show that the promises hold over any number of frames.
- Classes. `Ball`, `Scoreboard` (the two global score counters) and `Paddle` have the source's fields. Their methods update those fields in place, as the source does. Each method is proved to leave exactly the state the matching function gives.

The screen size is passed in as a `Screen` parameter, standing for `GetScreenWidth()` and `GetScreenHeight()`. Each random draw `GetRandomValue(0, 1)` is a `RandomIndex` parameter, an integer that is 0 or 1. One frame may serve twice, so `Update` takes one pair of draws for the serve after a right-goal point and one for the serve after a left-goal point (`FrameRolls`). A draw that is not used is ignored.

The source does not compile. Its errors are read by their evident intent:
- `ins` means `int`.
- `speed_y = *= -1` means `speed_y *= -1`.
- The two goal-line checks after the closing brace of `Update` are the tail of `Update`.
- `cpu_score` is `opponent_score`.
- `speed x` and `speed y` mean `speed_x` and `speed_y`.
- The fields after the early closing brace belong to `Paddle`.

Behaviour of the code worth knowing:
- The ball's position is not clamped back out of a wall after a bounce. `BounceLeavesPositionInWall` shows a ball ending a frame at `y = 595` on a 600-pixel screen.
- One frame can score for both sides. This happens exactly when the moved ball reaches the right goal line and `width / 2 <= radius` (integer division), because the ball served at `x = width / 2` after the opponent's point then touches the left goal line. On an odd width this includes a radius just under half the width, for example radius 10 on a 21-pixel screen. `BothScoreWhenRadiusReachesCentre` exhibits it, and `Step` proves at most one point per frame when `radius < width / 2`.
- The clamp does not reject a paddle taller than the screen. It moves such a paddle above the top edge (`LimitY`).

## Model

| member | source | states |
|---|---|---|
| `Pong.ApplySign` | index.cpp:48-50 | a speed component multiplied by the drawn sign factor keeps its magnitude; draw 0 reverses it and draw 1 keeps it |
| `Pong.Bounce` | index.cpp:37 | the vertical speed is reversed exactly when the ball touches the top or bottom wall; its magnitude is kept; nothing else changes |
| `Pong.Reset` | index.cpp:44-50 | the served ball is at the integer centre of the screen; each speed component keeps its magnitude and at most flips its sign; the radius is kept; a ball that fits the arena is in play after the serve |
| `Pong.Step` | index.cpp:33-42 | the composition of `Move` (lines 34-35), `Bounce` (line 37), `RightGoalCheck` (line 40) and `LeftGoalCheck` (line 42), in the source's order; without a point the ball moves by its velocity and the vertical speed is reversed exactly when the moved ball touches the top or bottom wall; the opponent scores exactly when the moved ball reaches the right goal line; the player scores exactly when the ball then lies at the left goal line; after a point the ball is at the centre; radius and speed magnitudes are kept; when `radius < width / 2`, at most one point per frame and the ball ends strictly between the goal lines |
| `Pong.StepKeepsInPlay` | index.cpp:33-50 | a ball that fits the arena and is in play (between the goal lines, overlapping a wall by less than one frame's travel, heading back when touching one) is still in play after a frame |
| `Pong.RunKeepsBallShape` | index.cpp:33-50 | over any number of frames the radius and the magnitude of each speed component never change, so a moving ball never stops |
| `Pong.RunScoresNeverDecrease` | index.cpp:40-42 | over any number of frames neither score counter decreases; when `radius < width / 2` the frames add at most one point each |
| `Pong.RunKeepsInPlay` | index.cpp:33-50 | a ball in play that fits the arena stays in play for any frames and any random draws |
| `Pong.InitialGame` | index.cpp:8-21 | the starting configuration (800 by 600 screen, ball at (100, 100), speed (5, 5), radius 15, both scores 0) fits the arena and is in play |
| `Pong.StartingGameStaysInPlay` | index.cpp:8-50 | from the starting configuration, after any frames, the ball is in play, each speed component is 5 or -5, and the scores are non-negative and total at most the number of frames |
| `Pong.BothScoreWhenRadiusReachesCentre` | index.cpp:40-45 | with radius 10 on a 20-pixel-wide screen one frame gives a point to both sides |
| `Pong.BounceLeavesPositionInWall` | index.cpp:34-37 | a ball at y = 590 with vertical speed 5 on a 600-pixel screen ends the frame at y = 595 with vertical speed -5; the position is not corrected |
| `Pong.LimitY` | index.cpp:55-62 | a paddle that fits the screen ends inside it; a paddle already inside is not moved; otherwise it goes to the nearest position inside; a paddle taller than the screen ends above the top edge |
| `Pong.Scoreboard.constructor` | index.cpp:20-21 | both score counters start at 0 |
| `Pong.Ball.Update` | index.cpp:33-42 | the in-place update leaves the ball's fields and both score counters exactly as `Step` gives them |
| `Pong.Ball.ResetBall` | index.cpp:44-50 | the in-place serve leaves the ball's fields exactly as `Reset` gives them |
| `Pong.Paddle.LimitMovement` | index.cpp:55-62 | the two sequential checks change only `y`, to the value `LimitY` gives |

## Left out

- Drawing the ball and the paddle (`Ball::Draw`, `Paddle::Draw`): these are rendering calls into the window library.
- The console message and the otherwise empty body of `main`: output only. The constants `main` declares are modelled as module constants.
- `GetScreenWidth`, `GetScreenHeight` and `GetRandomValue`: calls into the window library. They are parameters here, and a draw is assumed to be 0 or 1 as the call's range `(0, 1)` asks.
- Paddle movement by `speed`, collision between ball and paddle, and clamping the ball at the walls: the source has none of them.
- C++ `int` overflow: coordinates and score counters are unbounded integers. A ball in play stays near the screen, because the goal checks re-serve it and the bounces turn it back, so only the score counters grow without bound; a 32-bit counter would overflow after more than two billion points.
- The screen dimensions are natural numbers, so `width / 2` and `height / 2` agree with C++'s truncating division.
