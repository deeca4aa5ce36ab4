/** Single frames on an 800 by 600 surface, worked out from the model. */
module Scenarios {
  import opened Games

  const Surface: Canvas := Canvas(800.0, 600.0)

  /** A ball of radius 15 at (0, 300) moving left by 4 leaves the surface in
      its next frame and is served again from (400, 300). When its centre is
      still within the player paddle's span after the step, the paddle test
      and the reset both negate speedX, so it keeps moving left. */
  lemma LeftExitInsidePaddleSpan(speedY: real)
    requires -75.0 <= speedY <= 175.0
    ensures var start := InitialState(Surface);
            var b := BallState(0.0, 300.0, 15.0, Cyan, -4.0, speedY);
            UpdateBall(b, start.paddle1, start.paddle2, Surface) == b.(x := 400.0, y := 300.0)
  {
  }

  /** The same exit with the centre below the player paddle's span: only the
      reset negates speedX, so the ball is served right at speed 4. */
  lemma LeftExitOutsidePaddleSpan(speedY: real)
    requires 175.0 < speedY < 285.0
    ensures var start := InitialState(Surface);
            var b := BallState(0.0, 300.0, 15.0, Cyan, -4.0, speedY);
            UpdateBall(b, start.paddle1, start.paddle2, Surface) ==
              b.(x := 400.0, y := 300.0, speedX := 4.0)
  {
  }

  /** A player paddle at the top edge does not move while only ArrowUp is
      held. */
  lemma PlayerAtTopStays(g: GameState, c: Canvas)
    requires |g.balls| > 0 && g.paddle1.y == 0.0
    requires Held(g.keys, "ArrowUp") && !Held(g.keys, "ArrowDown")
    ensures UpdateGame(g, c).paddle1 == g.paddle1
  {
  }

  /** An AI paddle at 100, 250 tall, whose tracked ball is at 50 after its
      step, moves up by its speed of 5 to 95. */
  lemma AiMovesTowardBall(g: GameState, c: Canvas)
    requires |g.balls| > 0
    requires g.paddle2.y == 100.0 && g.paddle2.height == 250.0 && g.paddle2.speed == 5.0
    requires UpdateBall(g.balls[0], g.paddle1, g.paddle2, c).y == 50.0
    ensures UpdateGame(g, c).paddle2.y == 95.0
  {
  }

  /** The first frame of a new game on the 800 by 600 surface with ArrowUp
      held: the first ball steps to (404, 304), the player paddle rises from
      225 to 220, and the AI paddle, whose centre 350 is below that ball,
      rises to 220 as well. */
  lemma FirstFrameValues()
    ensures var g := UpdateGame(InitialState(Surface).(keys := map["ArrowUp" := true]), Surface);
            g.balls[0].x == 404.0 && g.balls[0].y == 304.0 &&
            g.paddle1.y == 220.0 && g.paddle2.y == 220.0
  {
  }

  /** The same first frame played on the objects: a new game, the keydown
      handler for ArrowUp, one update. */
  method FirstFrame() returns (ballX: real, ballY: real, playerY: real, aiY: real)
    ensures ballX == 404.0 && ballY == 304.0
    ensures playerY == 220.0 && aiY == 220.0
  {
    var game := new Game(Surface);
    game.KeyDown("ArrowUp");
    assert game.Snapshot() == InitialState(Surface).(keys := map["ArrowUp" := true]);
    game.Update();
    FirstFrameValues();
    assert game.balls[0].State() == game.Snapshot().balls[0];
    ballX, ballY := game.balls[0].x, game.balls[0].y;
    playerY, aiY := game.paddle1.y, game.paddle2.y;
  }
}
