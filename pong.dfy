/** Integer physics of a Pong sketch: a ball that moves by its velocity,
    bounces off the top and bottom walls, scores a point at either goal line
    and is served again from the centre of the screen with randomly signed
    speeds; and a paddle whose vertical position is held inside the screen.

    The screen size and the random draws are parameters: the window library
    that supplies them is not part of this model. */
module Pong {

  // ---------------------------------------------------------------------------
  // Starting configuration

  const ScreenWidth: nat := 800
  const ScreenHeight: nat := 600
  const StartX: int := 100
  const StartY: int := 100
  const StartSpeedX: int := 5
  const StartSpeedY: int := 5
  const StartRadius: int := 15

  /** The sign factors a re-served ball picks from, indexed by a random draw. */
  const SpeedChoices: seq<int> := [-1, 1]

  // ---------------------------------------------------------------------------
  // Values

  /** Width and height of the window, in pixels. */
  datatype Screen = Screen(width: nat, height: nat)

  const DefaultScreen: Screen := Screen(ScreenWidth, ScreenHeight)

  /** The result of a random draw between 0 and 1 inclusive. */
  type RandomIndex = i: int | 0 <= i <= 1

  /** The two draws one serve makes: one for each speed component. */
  datatype Roll = Roll(forX: RandomIndex, forY: RandomIndex)

  /** The draws available to one frame: a frame serves at most twice, once
      after a point at the right goal line and once after a point at the left. */
  datatype FrameRolls = FrameRolls(onRightGoal: Roll, onLeftGoal: Roll)

  datatype BallState = BallState(x: int, y: int, speedX: int, speedY: int, radius: int)

  /** The two score counters: the player scores at the left goal line, the
      opponent at the right one. */
  datatype Scores = Scores(player: int, opponent: int)

  datatype Game = Game(ball: BallState, scores: Scores)

  function Abs(v: int): nat
  {
    if v < 0 then -v else v
  }

  function Distance(a: int, b: int): nat
  {
    Abs(a - b)
  }

  // ---------------------------------------------------------------------------
  // Geometry of the arena

  predicate TouchesHorizontalWall(b: BallState, height: int)
  {
    b.y + b.radius >= height || b.y - b.radius <= 0
  }

  predicate TouchesRightGoal(b: BallState, width: int)
  {
    b.x + b.radius >= width
  }

  predicate TouchesLeftGoal(b: BallState)
  {
    b.x - b.radius <= 0
  }

  /** The radius leaves room for the ball at the centre of the screen: a ball
      served there touches neither goal line nor either wall. */
  predicate FitsArena(b: BallState, screen: Screen)
  {
    b.radius < screen.width / 2 && b.radius < screen.height / 2
  }

  /** The ball lies strictly between the goal lines; vertically it overlaps a
      wall by less than one frame's travel, and when it touches a wall it is
      heading back into the arena. */
  predicate InPlay(b: BallState, screen: Screen)
  {
    && !TouchesLeftGoal(b)
    && !TouchesRightGoal(b, screen.width)
    && b.radius - Abs(b.speedY) < b.y < screen.height - b.radius + Abs(b.speedY)
    && (b.y - b.radius <= 0 ==> b.speedY > 0)
    && (b.y + b.radius >= screen.height ==> b.speedY < 0)
  }

  // ---------------------------------------------------------------------------
  // One frame of the ball

  /** Multiplies a speed component by the sign factor a draw picks: draw 0
      reverses it, draw 1 keeps it. */
  function ApplySign(v: int, i: RandomIndex): (r: int)
    ensures Abs(r) == Abs(v)
    ensures i == 0 ==> r == -v
    ensures i == 1 ==> r == v
  {
    v * SpeedChoices[i]
  }

  function Move(b: BallState): BallState
  {
    b.(x := b.x + b.speedX, y := b.y + b.speedY)
  }

  /** Reverses the vertical speed when the ball touches the top or the bottom
      wall; the position is not corrected. */
  function Bounce(b: BallState, height: int): (r: BallState)
    ensures r.(speedY := b.speedY) == b
    ensures Abs(r.speedY) == Abs(b.speedY)
    ensures TouchesHorizontalWall(b, height) ==> r.speedY == -b.speedY
    ensures !TouchesHorizontalWall(b, height) ==> r == b
  {
    if TouchesHorizontalWall(b, height) then b.(speedY := -b.speedY) else b
  }

  /** Serves the ball again from the centre of the screen with each speed
      component's sign chosen by its own draw. */
  function Reset(b: BallState, screen: Screen, roll: Roll): (r: BallState)
    ensures 2 * r.x <= screen.width <= 2 * r.x + 1
    ensures 2 * r.y <= screen.height <= 2 * r.y + 1
    ensures Abs(r.speedX) == Abs(b.speedX) && Abs(r.speedY) == Abs(b.speedY)
    ensures r.speedX == b.speedX || r.speedX == -b.speedX
    ensures r.speedY == b.speedY || r.speedY == -b.speedY
    ensures r.radius == b.radius
    ensures FitsArena(b, screen) ==> InPlay(r, screen)
  {
    BallState(screen.width / 2, screen.height / 2,
              ApplySign(b.speedX, roll.forX), ApplySign(b.speedY, roll.forY), b.radius)
  }

  /** The point at the right goal line goes to the opponent. */
  function RightGoalCheck(g: Game, screen: Screen, roll: Roll): Game
  {
    if TouchesRightGoal(g.ball, screen.width)
    then Game(Reset(g.ball, screen, roll), g.scores.(opponent := g.scores.opponent + 1))
    else g
  }

  /** The point at the left goal line goes to the player. */
  function LeftGoalCheck(g: Game, screen: Screen, roll: Roll): Game
  {
    if TouchesLeftGoal(g.ball)
    then Game(Reset(g.ball, screen, roll), g.scores.(player := g.scores.player + 1))
    else g
  }

  /** One frame: move, bounce off a wall, then check the right goal line and
      then the left one, each of which scores a point and re-serves. */
  function Step(g: Game, screen: Screen, rolls: FrameRolls): (r: Game)
    // the ball keeps its size and the magnitude of each speed component
    ensures r.ball.radius == g.ball.radius
    ensures Abs(r.ball.speedX) == Abs(g.ball.speedX)
    ensures Abs(r.ball.speedY) == Abs(g.ball.speedY)
    // the opponent scores exactly when the moved ball reaches the right goal line
    ensures r.scores.opponent
            == g.scores.opponent + (if g.ball.x + g.ball.speedX + g.ball.radius >= screen.width then 1 else 0)
    // the player scores exactly when the ball then lies at the left goal line:
    // the moved ball, or the re-served one if the opponent has just scored
    ensures r.scores.player
            == g.scores.player
               + (if g.ball.x + g.ball.speedX + g.ball.radius >= screen.width
                  then (if screen.width / 2 <= g.ball.radius then 1 else 0)
                  else (if g.ball.x + g.ball.speedX <= g.ball.radius then 1 else 0))
    // a frame without a point moves the ball by its velocity and keeps its
    // horizontal speed; after a point the ball is at the centre
    ensures r.scores == g.scores ==>
              && r.ball.x == g.ball.x + g.ball.speedX
              && r.ball.y == g.ball.y + g.ball.speedY
              && r.ball.speedX == g.ball.speedX
              && (r.ball.speedY == g.ball.speedY || r.ball.speedY == -g.ball.speedY)
    // in such a frame the vertical speed is reversed exactly when the moved
    // ball touches the top or the bottom wall
    ensures r.scores == g.scores && TouchesHorizontalWall(Move(g.ball), screen.height) ==>
              r.ball.speedY == -g.ball.speedY
    ensures r.scores == g.scores && !TouchesHorizontalWall(Move(g.ball), screen.height) ==>
              r.ball.speedY == g.ball.speedY
    ensures r.scores != g.scores ==> r.ball.x == screen.width / 2 && r.ball.y == screen.height / 2
    // with room at the centre, at most one point per frame, and the ball ends
    // the frame strictly between the goal lines
    ensures g.ball.radius < screen.width / 2 ==>
              r.scores.player + r.scores.opponent <= g.scores.player + g.scores.opponent + 1
    ensures g.ball.radius < screen.width / 2 ==>
              !TouchesLeftGoal(r.ball) && !TouchesRightGoal(r.ball, screen.width)
  {
    var moved := Game(Bounce(Move(g.ball), screen.height), g.scores);
    LeftGoalCheck(RightGoalCheck(moved, screen, rolls.onRightGoal), screen, rolls.onLeftGoal)
  }

  /** A ball in play that fits the arena is still in play after any frame. */
  lemma StepKeepsInPlay(g: Game, screen: Screen, rolls: FrameRolls)
    requires FitsArena(g.ball, screen) && InPlay(g.ball, screen)
    ensures FitsArena(Step(g, screen, rolls).ball, screen)
    ensures InPlay(Step(g, screen, rolls).ball, screen)
  {
  }

  // ---------------------------------------------------------------------------
  // Many frames, as an outside game loop drives them

  ghost function Run(g: Game, screen: Screen, frames: seq<FrameRolls>): Game
    decreases |frames|
  {
    if frames == [] then g else Run(Step(g, screen, frames[0]), screen, frames[1..])
  }

  /** The radius never changes and each speed component keeps its magnitude, so
      a moving ball never stops. */
  lemma {:induction false} RunKeepsBallShape(g: Game, screen: Screen, frames: seq<FrameRolls>)
    ensures Run(g, screen, frames).ball.radius == g.ball.radius
    ensures Abs(Run(g, screen, frames).ball.speedX) == Abs(g.ball.speedX)
    ensures Abs(Run(g, screen, frames).ball.speedY) == Abs(g.ball.speedY)
    decreases |frames|
  {
    if frames != [] {
      RunKeepsBallShape(Step(g, screen, frames[0]), screen, frames[1..]);
    }
  }

  /** Neither score counter ever decreases; with room at the centre, the
      frames add at most one point each. */
  lemma {:induction false} RunScoresNeverDecrease(g: Game, screen: Screen, frames: seq<FrameRolls>)
    ensures g.scores.player <= Run(g, screen, frames).scores.player
    ensures g.scores.opponent <= Run(g, screen, frames).scores.opponent
    ensures g.ball.radius < screen.width / 2 ==>
              Run(g, screen, frames).scores.player + Run(g, screen, frames).scores.opponent
              <= g.scores.player + g.scores.opponent + |frames|
    decreases |frames|
  {
    if frames != [] {
      RunScoresNeverDecrease(Step(g, screen, frames[0]), screen, frames[1..]);
    }
  }

  /** A ball in play that fits the arena stays in play for any number of frames
      and any random draws. */
  lemma {:induction false} RunKeepsInPlay(g: Game, screen: Screen, frames: seq<FrameRolls>)
    requires FitsArena(g.ball, screen) && InPlay(g.ball, screen)
    ensures InPlay(Run(g, screen, frames).ball, screen)
    decreases |frames|
  {
    if frames != [] {
      StepKeepsInPlay(g, screen, frames[0]);
      RunKeepsInPlay(Step(g, screen, frames[0]), screen, frames[1..]);
    }
  }

  /** The starting configuration: an 800 by 600 screen, the ball at (100, 100)
      with speed (5, 5) and radius 15, and both scores at zero. */
  function InitialGame(): (g: Game)
    ensures FitsArena(g.ball, DefaultScreen) && InPlay(g.ball, DefaultScreen)
    ensures g.scores.player == 0 && g.scores.opponent == 0
  {
    Game(BallState(StartX, StartY, StartSpeedX, StartSpeedY, StartRadius), Scores(0, 0))
  }

  /** From the starting configuration, after any frames and draws, the ball is in
      play, moves by 5 pixels along each axis per frame in some direction, and the
      scores are non-negative and total at most one point per frame. */
  lemma StartingGameStaysInPlay(frames: seq<FrameRolls>)
    ensures InPlay(Run(InitialGame(), DefaultScreen, frames).ball, DefaultScreen)
    ensures Abs(Run(InitialGame(), DefaultScreen, frames).ball.speedX) == 5
    ensures Abs(Run(InitialGame(), DefaultScreen, frames).ball.speedY) == 5
    ensures 0 <= Run(InitialGame(), DefaultScreen, frames).scores.player
    ensures 0 <= Run(InitialGame(), DefaultScreen, frames).scores.opponent
    ensures Run(InitialGame(), DefaultScreen, frames).scores.player
            + Run(InitialGame(), DefaultScreen, frames).scores.opponent <= |frames|
  {
    RunKeepsInPlay(InitialGame(), DefaultScreen, frames);
    RunKeepsBallShape(InitialGame(), DefaultScreen, frames);
    RunScoresNeverDecrease(InitialGame(), DefaultScreen, frames);
  }

  /** When the radius reaches the served position `width / 2` (integer
      division), one frame can score for both sides: the ball re-served after
      the opponent's point already touches the left goal line. */
  lemma BothScoreWhenRadiusReachesCentre()
    ensures Step(Game(BallState(15, 50, 0, 0, 10), Scores(0, 0)), Screen(20, 100),
                 FrameRolls(Roll(1, 1), Roll(1, 1))).scores == Scores(1, 1)
  {
  }

  /** The bounce does not move the ball back out of the wall: a ball at y = 590
      moving down by 5 on a 600-pixel screen ends the frame at y = 595 with its
      vertical speed reversed. */
  lemma BounceLeavesPositionInWall()
    ensures Step(Game(BallState(400, 590, 5, 5, 15), Scores(0, 0)), DefaultScreen,
                 FrameRolls(Roll(1, 1), Roll(1, 1))).ball == BallState(405, 595, 5, -5, 15)
  {
  }

  // ---------------------------------------------------------------------------
  // The paddle clamp

  /** The position the paddle clamp gives a paddle whose top edge is at y. */
  function LimitY(y: int, height: int, screenHeight: int): (r: int)
    // a paddle that fits the screen ends up inside it
    ensures 0 <= height <= screenHeight ==> 0 <= r <= screenHeight - height
    // a paddle already inside is left where it is
    ensures 0 <= y && y + height <= screenHeight ==> r == y
    // otherwise it moves to the nearest position inside the screen
    ensures 0 <= height <= screenHeight ==>
              forall v :: 0 <= v <= screenHeight - height ==> Distance(r, y) <= Distance(v, y)
    // a paddle taller than the screen is pushed above the top edge
    ensures height > screenHeight ==> r == screenHeight - height < 0
  {
    var top := if y <= 0 then 0 else y;
    if top + height >= screenHeight then screenHeight - height else top
  }

  // ---------------------------------------------------------------------------
  // The objects the frame updates in place

  /** The two global score counters. */
  class Scoreboard {
    var player: int
    var opponent: int

    constructor ()
      ensures player == 0 && opponent == 0
    {
      player, opponent := 0, 0;
    }

    function Value(): Scores
      reads this
    {
      Scores(player, opponent)
    }
  }

  class Ball {
    var x: int
    var y: int
    var speedX: int
    var speedY: int
    var radius: int

    constructor (x0: int, y0: int, speedX0: int, speedY0: int, radius0: int)
      ensures State() == BallState(x0, y0, speedX0, speedY0, radius0)
    {
      x, y, speedX, speedY, radius := x0, y0, speedX0, speedY0, radius0;
    }

    function State(): BallState
      reads this
    {
      BallState(x, y, speedX, speedY, radius)
    }

    /** One frame: the ball and the score counters end as Step says. */
    method Update(screen: Screen, scores: Scoreboard, rolls: FrameRolls)
      modifies this, scores
      ensures Game(State(), scores.Value())
              == Step(Game(old(State()), old(scores.Value())), screen, rolls)
    {
      x := x + speedX;
      y := y + speedY;

      if y + radius >= screen.height || y - radius <= 0 {
        speedY := speedY * -1;
      }

      if x + radius >= screen.width {
        scores.opponent := scores.opponent + 1;
        ResetBall(screen, rolls.onRightGoal);
      }

      if x - radius <= 0 {
        scores.player := scores.player + 1;
        ResetBall(screen, rolls.onLeftGoal);
      }
    }

    method ResetBall(screen: Screen, roll: Roll)
      modifies this
      ensures State() == Reset(old(State()), screen, roll)
    {
      x := screen.width / 2;
      y := screen.height / 2;

      speedX := speedX * SpeedChoices[roll.forX];
      speedY := speedY * SpeedChoices[roll.forY];
    }
  }

  class Paddle {
    var x: int
    var y: int
    var width: int
    var height: int
    var speed: int

    constructor (x0: int, y0: int, width0: int, height0: int, speed0: int)
      ensures x == x0 && y == y0 && width == width0 && height == height0 && speed == speed0
    {
      x, y, width, height, speed := x0, y0, width0, height0, speed0;
    }

    /** Keeps the paddle inside the screen; only y changes. */
    method LimitMovement(screenHeight: nat)
      modifies this`y
      ensures y == LimitY(old(y), height, screenHeight)
    {
      if y <= 0 {
        y := 0;
      }
      if y + height >= screenHeight {
        y := screenHeight - height;
      }
    }
  }
}
