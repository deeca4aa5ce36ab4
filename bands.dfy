/** What the frame step keeps true over any number of frames.

    The source clamps nothing, so a ball or a paddle can end a frame partly
    outside the surface. What each one cannot do is get further out than one
    of its own steps: a ball's disc stays within one vertical step of the
    surface, the player paddle within one step of [0, height - paddle height],
    and the AI paddle's centre within one paddle step of the band its tracked
    ball lives in. These bands are proved preserved by every frame, whatever
    keys are pressed in between.
 */
module Bands {
  import opened Games

  /** A ball at most one vertical step beyond the top or bottom edge, and
      when its disc touches an edge, heading back inward. Only a ball that
      fits between the edges can be kept so, since reset puts it at the
      centre with an unchanged vertical speed. */
  predicate BallInBand(b: BallState, c: Canvas)
  {
    2.0 * b.radius < c.height &&
    b.y - b.radius > -Abs(b.speedY) &&
    b.y + b.radius < c.height + Abs(b.speedY) &&
    (b.y - b.radius <= 0.0 ==> b.speedY > 0.0) &&
    (b.y + b.radius >= c.height ==> b.speedY < 0.0)
  }

  /** A paddle at most one step beyond the top or the bottom edge. */
  predicate PlayerInBand(p: PaddleState, c: Canvas)
  {
    p.speed > 0.0 && p.y > -p.speed && p.y + p.height < c.height + p.speed
  }

  /** The AI paddle's centre lies within one paddle step of the vertical band
      of the ball it tracks. */
  predicate AiInBand(p: PaddleState, b: BallState, c: Canvas)
  {
    p.speed > 0.0 &&
    b.radius - Abs(b.speedY) - p.speed < Centre(p) &&
    Centre(p) < c.height - b.radius + Abs(b.speedY) + p.speed
  }

  predicate GameInBands(g: GameState, c: Canvas)
  {
    |g.balls| > 0 &&
    (forall i :: 0 <= i < |g.balls| ==> BallInBand(g.balls[i], c)) &&
    PlayerInBand(g.paddle1, c) &&
    AiInBand(g.paddle2, g.balls[0], c)
  }

  lemma MoveBallKeepsBand(b: BallState, c: Canvas)
    requires BallInBand(b, c)
    ensures BallInBand(MoveBall(b, c), c)
  {
  }

  lemma UpdateBallKeepsBand(b: BallState, p1: PaddleState, p2: PaddleState, c: Canvas)
    requires BallInBand(b, c)
    ensures BallInBand(UpdateBall(b, p1, p2, c), c)
  {
    MoveBallKeepsBand(b, c);
  }

  lemma MovePaddleKeepsBand(p: PaddleState, direction: string, c: Canvas)
    requires PlayerInBand(p, c)
    ensures PlayerInBand(MovePaddle(p, direction, c), c)
  {
  }

  lemma PlayerStepKeepsBand(p: PaddleState, keys: map<string, bool>, c: Canvas)
    requires PlayerInBand(p, c)
    ensures PlayerInBand(PlayerStep(p, keys, c), c)
  {
    var up := if Held(keys, "ArrowUp") then MovePaddle(p, "up", c) else p;
    MovePaddleKeepsBand(p, "up", c);
    MovePaddleKeepsBand(up, "down", c);
  }

  /** Following its ball, the AI paddle stays in the band of the ball as it
      now is, given that the ball is in its own band, has kept its radius and
      vertical speed, and the paddle was in the band before. */
  lemma AutoMoveKeepsBand(p: PaddleState, b: BallState, b': BallState, c: Canvas)
    requires AiInBand(p, b, c) && BallInBand(b', c)
    requires b'.radius == b.radius && Abs(b'.speedY) == Abs(b.speedY)
    ensures AiInBand(AutoMovePaddle(p, b'.y), b', c)
  {
  }

  lemma UpdateGameKeepsBands(g: GameState, c: Canvas)
    requires GameInBands(g, c)
    ensures GameInBands(UpdateGame(g, c), c)
  {
    var r := UpdateGame(g, c);
    forall i | 0 <= i < |r.balls| ensures BallInBand(r.balls[i], c) {
      UpdateBallKeepsBand(g.balls[i], g.paddle1, g.paddle2, c);
    }
    PlayerStepKeepsBand(g.paddle1, g.keys, c);
    assert r.balls[0] == UpdateBall(g.balls[0], g.paddle1, g.paddle2, c);
    AutoMoveKeepsBand(g.paddle2, g.balls[0], r.balls[0], c);
  }

  /** Key events touch only the key map, so they cannot take anything out of
      its band. */
  lemma HandleKeysKeepsBands(g: GameState, c: Canvas, events: seq<KeyEvent>)
    requires GameInBands(g, c)
    ensures GameInBands(g.(keys := HandleKeys(g.keys, events)), c)
  {
  }

  /** Any bounded run of the frame cycle, with any key events between the
      frames, keeps every ball and both paddles within their bands. */
  lemma {:induction false} PlayKeepsBands(g: GameState, c: Canvas, script: seq<seq<KeyEvent>>)
    requires GameInBands(g, c)
    ensures GameInBands(Play(g, c, script), c)
    decreases |script|
  {
    if script != [] {
      var before := Play(g, c, script[..|script| - 1]);
      PlayKeepsBands(g, c, script[..|script| - 1]);
      HandleKeysKeepsBands(before, c, script[|script| - 1]);
      UpdateGameKeepsBands(before.(keys := HandleKeys(before.keys, script[|script| - 1])), c);
    }
  }

  /** The constructor's state is in its bands on every surface taller than
      340: the player paddle starts 75 above the middle yet is 250 tall, so
      on a surface 340 high or less it already starts at least a step past
      the bottom. */
  lemma InitialInBands(c: Canvas)
    requires c.height > 340.0
    ensures GameInBands(InitialState(c), c)
  {
  }

  /** From the constructor's state, however many frames are played and
      whichever keys are pressed, no ball's disc gets more than its vertical
      speed beyond the top or bottom edge, the player paddle never gets more
      than one step beyond either edge, and the AI paddle's centre, which no
      edge check guards, stays more than 6 inside both edges. */
  lemma PlayFromStartStaysNearSurface(c: Canvas, script: seq<seq<KeyEvent>>)
    requires c.height > 340.0
    ensures var g := Play(InitialState(c), c, script);
            |g.balls| == 5 &&
            (forall i :: 0 <= i < 5 ==>
               -Abs(g.balls[i].speedY) < g.balls[i].y - g.balls[i].radius &&
               g.balls[i].y + g.balls[i].radius < c.height + Abs(g.balls[i].speedY)) &&
            -PaddleSpeed < g.paddle1.y && g.paddle1.y + g.paddle1.height < c.height + PaddleSpeed &&
            6.0 < Centre(g.paddle2) < c.height - 6.0
  {
    InitialInBands(c);
    PlayKeepsBands(InitialState(c), c, script);
  }

  /** Below that height the bands are not kept: on a surface 80 high the
      ball of radius 50 does not fit between the edges, and after two frames
      its disc is 10 past the top edge, twice its vertical speed. */
  lemma ShortSurfaceLeavesBand()
    ensures var c := Canvas(800.0, 80.0);
            var g := Play(InitialState(c), c, [[], []]);
            g.balls[3].y - g.balls[3].radius == -10.0 && Abs(g.balls[3].speedY) == 5.0
  {
    var c := Canvas(800.0, 80.0);
    var g0 := InitialState(c);
    var script: seq<seq<KeyEvent>> := [[], []];
    assert script[..1] == [[]];
    assert script[..1][..0] == [];
    assert HandleKeys(g0.keys, []) == g0.keys;
    var g1 := UpdateGame(g0, c);
    assert Play(g0, c, script[..1]) == g1;
    assert g1.balls[3] == UpdateBall(g0.balls[3], g0.paddle1, g0.paddle2, c);
    assert g1.balls[3] == BallState(405.0, 45.0, 50.0, Grey, 5.0, -5.0);
    assert HandleKeys(g1.keys, []) == g1.keys;
    var g2 := UpdateGame(g1, c);
    assert Play(g0, c, script) == g2;
    assert g2.balls[3] == UpdateBall(g1.balls[3], g1.paddle1, g1.paddle2, c);
  }

  // ---------------------------------------------------------------------
  // The bands cannot be narrowed to the surface itself
  // ---------------------------------------------------------------------

  /** The player paddle's guard reads the position before the step: a paddle
      3 below the top edge steps 5 up and ends 2 above it. */
  lemma PaddleCanOvershootTop(c: Canvas)
    requires c.height > 260.0
    ensures var p := PaddleState(10.0, 3.0, 10.0, 250.0, "", true, PaddleSpeed);
            PlayerInBand(p, c) && MovePaddle(p, "up", c).y == -2.0
  {
  }

  /** The reflection leaves the position where the step took it: a ball 2
      below the top edge moving 4 up ends with its disc 2 past the edge. */
  lemma BallCanOvershootTop(c: Canvas)
    requires c.height > 100.0
    ensures var b := BallState(50.0, 12.0, 10.0, Cyan, 4.0, -4.0);
            BallInBand(b, c) && MoveBall(b, c).y - MoveBall(b, c).radius == -2.0 &&
            MoveBall(b, c).speedY == 4.0
  {
  }

  /** The edge test reads the position after the step: a ball whose step
      clears both edges keeps its vertical speed, whether or not it touched
      an edge before the step. */
  lemma ReflectionTestsMovedPosition(b: BallState, c: Canvas)
    requires b.y - b.radius + b.speedY > 0.0 && b.y + b.radius + b.speedY < c.height
    ensures MoveBall(b, c).speedY == b.speedY
  {
  }

  /** The other side of the same test: a ball touching the top edge and
      moving down, whose step still leaves it touching, is reflected and
      heads back out. */
  lemma InwardTouchCanBeReflected(c: Canvas)
    requires c.height > 100.0
    ensures var b := BallState(50.0, 5.0, 10.0, Cyan, 4.0, 2.0);
            TouchesTopOrBottom(b, c) && b.speedY > 0.0 && MoveBall(b, c).speedY == -2.0
  {
  }
}
