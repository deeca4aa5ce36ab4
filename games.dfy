/** The per-frame simulation step of the ball-and-paddle demo in games.js.

    The module has two layers. The value layer (datatypes and functions on
    them) says what each step computes; the object layer (classes Ball,
    Paddle and Game) updates fields in place, as the source does, and every
    method there is proved to leave its object in the state the value layer
    prescribes. Coordinates are reals; the drawing surface is reduced to its
    width and height.
 */
module Games {

  /** The drawing surface, of which the simulation reads only the size. */
  datatype Canvas = Canvas(width: real, height: real)

  function Abs(r: real): real { if r < 0.0 then -r else r }

  // ---------------------------------------------------------------------
  // Value layer: balls
  // ---------------------------------------------------------------------

  datatype BallState = BallState(x: real, y: real, radius: real, color: string,
                                 speedX: real, speedY: real)

  /** The ball's disc touches or crosses the top or the bottom edge. */
  predicate TouchesTopOrBottom(b: BallState, c: Canvas)
  {
    b.y - b.radius <= 0.0 || b.y + b.radius >= c.height
  }

  /** The ball's disc touches or crosses the left or the right edge. */
  predicate TouchesLeftOrRight(b: BallState, c: Canvas)
  {
    b.x - b.radius <= 0.0 || b.x + b.radius >= c.width
  }

  /** Ball.move: one step along the velocity; the vertical speed is reflected
      when the moved disc touches the top or the bottom edge. The position is
      not corrected, so the disc may end up partly outside the surface. */
  function MoveBall(b: BallState, c: Canvas): (r: BallState)
    ensures r.x - b.x == b.speedX && r.y - b.y == b.speedY
    ensures r.radius == b.radius && r.color == b.color && r.speedX == b.speedX
    ensures TouchesTopOrBottom(r, c) ==> r.speedY == -b.speedY
    ensures !TouchesTopOrBottom(r, c) ==> r.speedY == b.speedY
    ensures Abs(r.speedY) == Abs(b.speedY)
  {
    var moved := b.(x := b.x + b.speedX, y := b.y + b.speedY);
    if TouchesTopOrBottom(moved, c) then moved.(speedY := -moved.speedY) else moved
  }

  /** Ball.reset: back to the centre of the surface, serving the other way. */
  function ResetBall(b: BallState, c: Canvas): (r: BallState)
    ensures r.x == c.width / 2.0 && r.y == c.height / 2.0
    ensures r.speedX == -b.speedX && Abs(r.speedX) == Abs(b.speedX)
    ensures r.speedY == b.speedY && r.radius == b.radius && r.color == b.color
  {
    b.(x := c.width / 2.0, y := c.height / 2.0, speedX := -b.speedX)
  }

  /** Resetting twice restores the serve direction: the second reset undoes
      the first one's change of speedX and repeats its recentring. */
  lemma ResetTwiceRestoresServe(b: BallState, c: Canvas)
    ensures ResetBall(ResetBall(b, c), c) == b.(x := c.width / 2.0, y := c.height / 2.0)
    ensures ResetBall(ResetBall(b, c), c).speedX == b.speedX
  {
  }

  // ---------------------------------------------------------------------
  // Value layer: paddles
  // ---------------------------------------------------------------------

  datatype PaddleState = PaddleState(x: real, y: real, width: real, height: real,
                                     color: string, isPlayerControlled: bool,
                                     speed: real)

  /** The fixed step of every paddle. */
  const PaddleSpeed: real := 5.0

  /** Paddle.move: a full step of `speed` up or down, guarded by the position
      BEFORE the step (so a step can carry the paddle past the edge), and no
      move at all for any other direction. */
  function MovePaddle(p: PaddleState, direction: string, c: Canvas): (r: PaddleState)
    ensures r == p.(y := r.y)
    ensures direction == "up" && p.y > 0.0 ==> r.y == p.y - p.speed
    ensures direction == "down" && p.y + p.height < c.height ==> r.y == p.y + p.speed
    ensures !(direction == "up" && p.y > 0.0) && !(direction == "down" && p.y + p.height < c.height)
            ==> r == p
  {
    if direction == "up" && p.y > 0.0 then p.(y := p.y - p.speed)
    else if direction == "down" && p.y + p.height < c.height then p.(y := p.y + p.speed)
    else p
  }

  /** The vertical centre of a paddle, which the AI compares with the ball. */
  function Centre(p: PaddleState): real { p.y + p.height / 2.0 }

  /** Paddle.autoMove: a step of `speed` toward the tracked ball's height,
      none when the ball is level with the paddle's centre; no edge check. */
  function AutoMovePaddle(p: PaddleState, ballY: real): (r: PaddleState)
    ensures r == p.(y := r.y)
    ensures ballY < Centre(p) ==> r.y == p.y - p.speed
    ensures ballY > Centre(p) ==> r.y == p.y + p.speed
    ensures ballY == Centre(p) ==> r == p
  {
    if ballY < p.y + p.height / 2.0 then p.(y := p.y - p.speed)
    else if ballY > p.y + p.height / 2.0 then p.(y := p.y + p.speed)
    else p
  }

  /** The AI step closes the gap to the ball by a full step whenever the gap
      is at least one step, and never lets it grow beyond one step. */
  lemma AutoMoveApproaches(p: PaddleState, ballY: real)
    requires p.speed >= 0.0
    ensures Abs(ballY - Centre(p)) >= p.speed ==>
              Abs(ballY - Centre(AutoMovePaddle(p, ballY))) == Abs(ballY - Centre(p)) - p.speed
    ensures Abs(ballY - Centre(AutoMovePaddle(p, ballY))) <= Abs(ballY - Centre(p)) ||
            Abs(ballY - Centre(AutoMovePaddle(p, ballY))) < p.speed
  {
  }

  // ---------------------------------------------------------------------
  // Value layer: one frame
  // ---------------------------------------------------------------------

  /** The left paddle's test in Game.update: the ball's left edge is at or
      left of the paddle's right edge and its centre within the paddle's span. */
  predicate HitsPaddle1(b: BallState, p: PaddleState)
  {
    b.x - b.radius <= p.x + p.width && b.y >= p.y && b.y <= p.y + p.height
  }

  /** The right paddle's test: the ball's right edge is at or right of the
      paddle's left edge and its centre within the paddle's span. */
  predicate HitsPaddle2(b: BallState, p: PaddleState)
  {
    b.x + b.radius >= p.x && b.y >= p.y && b.y <= p.y + p.height
  }

  function FlipX(b: BallState): BallState { b.(speedX := -b.speedX) }

  /** The number of times speedX is negated within one ball's update. */
  function Flips(m: BallState, p1: PaddleState, p2: PaddleState, c: Canvas): nat
  {
    (if HitsPaddle1(m, p1) then 1 else 0) + (if HitsPaddle2(m, p2) then 1 else 0) +
    (if TouchesLeftOrRight(m, c) then 1 else 0)
  }

  /** One ball's share of Game.update: move, the two paddle tests, the exit
      test. All three tests read the moved position; a paddle flip changes
      only speedX, so each later test still sees that position. */
  function UpdateBall(b: BallState, p1: PaddleState, p2: PaddleState, c: Canvas): (r: BallState)
    ensures var m := MoveBall(b, c);
            r.speedX == (if Flips(m, p1, p2, c) % 2 == 1 then -b.speedX else b.speedX)
    ensures var m := MoveBall(b, c);
            if TouchesLeftOrRight(m, c)
            then r.x == c.width / 2.0 && r.y == c.height / 2.0
            else r.x == m.x && r.y == m.y
    ensures (r.x == c.width / 2.0 && r.y == c.height / 2.0) ||
            (r.x - r.radius > 0.0 && r.x + r.radius < c.width)
    ensures r.speedY == MoveBall(b, c).speedY
    ensures r.radius == b.radius && r.color == b.color && Abs(r.speedX) == Abs(b.speedX)
  {
    var m := MoveBall(b, c);
    var m1 := if HitsPaddle1(m, p1) then FlipX(m) else m;
    var m2 := if HitsPaddle2(m1, p2) then FlipX(m1) else m1;
    if TouchesLeftOrRight(m2, c) then ResetBall(m2, c) else m2
  }

  /** The ball loop of Game.update on the whole ordered list: every ball is
      updated on its own against the paddles as they stood before the frame. */
  function UpdateBalls(bs: seq<BallState>, p1: PaddleState, p2: PaddleState, c: Canvas)
    : (r: seq<BallState>)
    ensures |r| == |bs|
    ensures forall i :: 0 <= i < |bs| ==> r[i] == UpdateBall(bs[i], p1, p2, c)
  {
    if bs == [] then [] else [UpdateBall(bs[0], p1, p2, c)] + UpdateBalls(bs[1..], p1, p2, c)
  }

  /** A key counts as held when the map has it set to true; a key never
      pressed is absent from the map and reads as not held. */
  predicate Held(keys: map<string, bool>, key: string)
  {
    key in keys && keys[key]
  }

  /** The whole controller state: the ordered balls, both paddles, the keys. */
  datatype GameState = GameState(balls: seq<BallState>, paddle1: PaddleState,
                                 paddle2: PaddleState, keys: map<string, bool>)

  /** The player step: 'up' when ArrowUp is held, then 'down' when ArrowDown
      is held, on the paddle as the first call left it. */
  function PlayerStep(p: PaddleState, keys: map<string, bool>, c: Canvas): (r: PaddleState)
    ensures r == p.(y := r.y)
    ensures !Held(keys, "ArrowUp") && !Held(keys, "ArrowDown") ==> r == p
    ensures var up := if Held(keys, "ArrowUp") then MovePaddle(p, "up", c) else p;
            r == if Held(keys, "ArrowDown") then MovePaddle(up, "down", c) else up
  {
    var up := if Held(keys, "ArrowUp") then MovePaddle(p, "up", c) else p;
    if Held(keys, "ArrowDown") then MovePaddle(up, "down", c) else up
  }

  /** Holding both arrows when both guards let the paddle through moves it up
      and straight back: the net effect is no movement at all. */
  lemma BothKeysCancel(p: PaddleState, keys: map<string, bool>, c: Canvas)
    requires Held(keys, "ArrowUp") && Held(keys, "ArrowDown")
    requires p.y > 0.0 && p.y - p.speed + p.height < c.height
    ensures PlayerStep(p, keys, c) == p
  {
  }

  /** Game.update: the ball loop, then the player paddle, then the AI paddle
      tracking the already updated first ball. The keys are only read. */
  function UpdateGame(g: GameState, c: Canvas): (r: GameState)
    requires |g.balls| > 0
    ensures r.balls == UpdateBalls(g.balls, g.paddle1, g.paddle2, c)
    ensures |r.balls| == |g.balls|
    ensures r.paddle1 == PlayerStep(g.paddle1, g.keys, c)
    ensures r.paddle2 == AutoMovePaddle(g.paddle2, r.balls[0].y)
    ensures r.keys == g.keys
  {
    var bs := UpdateBalls(g.balls, g.paddle1, g.paddle2, c);
    GameState(bs, PlayerStep(g.paddle1, g.keys, c), AutoMovePaddle(g.paddle2, bs[0].y), g.keys)
  }

  /** The AI paddle's next position depends on the first ball only: any two
      frames whose first balls agree move it identically. */
  lemma AiTracksFirstBallOnly(g: GameState, h: GameState, c: Canvas)
    requires |g.balls| > 0 && |h.balls| > 0
    requires g.balls[0] == h.balls[0] && g.paddle1 == h.paddle1 && g.paddle2 == h.paddle2
    ensures UpdateGame(g, c).paddle2 == UpdateGame(h, c).paddle2
  {
  }

  // ---------------------------------------------------------------------
  // Value layer: keyboard
  // ---------------------------------------------------------------------

  datatype KeyEvent = Pressed(key: string) | Released(key: string)

  /** The keydown and keyup handlers: one map entry set, the others kept. */
  function HandleKey(keys: map<string, bool>, e: KeyEvent): (r: map<string, bool>)
    ensures Held(r, e.key) <==> e.Pressed?
    ensures e.key in r
    ensures forall k :: k != e.key ==> (k in r <==> k in keys) && (k in keys ==> r[k] == keys[k])
  {
    keys[e.key := e.Pressed?]
  }

  /** The handlers run in event order between two frames. */
  function HandleKeys(keys: map<string, bool>, events: seq<KeyEvent>): (r: map<string, bool>)
    ensures forall k :: (forall i :: 0 <= i < |events| ==> events[i].key != k) ==>
              (k in r <==> k in keys) && (k in keys ==> r[k] == keys[k])
    ensures |events| > 0 ==> (Held(r, events[|events| - 1].key) <==> events[|events| - 1].Pressed?)
    decreases |events|
  {
    if events == [] then keys
    else HandleKey(HandleKeys(keys, events[..|events| - 1]), events[|events| - 1])
  }

  /** Every key is decided by the last event that names it: after the batch
      it is held exactly when that event was a keydown, whatever came before. */
  lemma {:induction false} LastEventDecidesKey(keys: map<string, bool>, events: seq<KeyEvent>, i: int)
    requires 0 <= i < |events|
    requires forall j :: i < j < |events| ==> events[j].key != events[i].key
    ensures Held(HandleKeys(keys, events), events[i].key) <==> events[i].Pressed?
    decreases |events|
  {
    if i < |events| - 1 {
      var earlier := events[..|events| - 1];
      assert earlier[i] == events[i];
      LastEventDecidesKey(keys, earlier, i);
    }
  }

  /** A bounded run of the frame cycle: before each frame the key events that
      arrived since the previous one are handled, then the frame is updated. */
  function Play(g: GameState, c: Canvas, script: seq<seq<KeyEvent>>): (r: GameState)
    requires |g.balls| > 0
    ensures |r.balls| == |g.balls|
    ensures forall i :: 0 <= i < |g.balls| ==>
              r.balls[i].radius == g.balls[i].radius && r.balls[i].color == g.balls[i].color &&
              Abs(r.balls[i].speedX) == Abs(g.balls[i].speedX) &&
              Abs(r.balls[i].speedY) == Abs(g.balls[i].speedY)
    ensures r.paddle1 == g.paddle1.(y := r.paddle1.y)
    ensures r.paddle2 == g.paddle2.(y := r.paddle2.y)
    decreases |script|
  {
    if script == [] then g
    else
      var before := Play(g, c, script[..|script| - 1]);
      UpdateGame(before.(keys := HandleKeys(before.keys, script[|script| - 1])), c)
  }

  // ---------------------------------------------------------------------
  // Object layer
  // ---------------------------------------------------------------------

  class Ball {
    var x: real
    var y: real
    var radius: real
    var color: string
    var speedX: real
    var speedY: real

    function State(): BallState
      reads this
    {
      BallState(x, y, radius, color, speedX, speedY)
    }

    constructor (x: real, y: real, radius: real, color: string, speedX: real, speedY: real)
      ensures State() == BallState(x, y, radius, color, speedX, speedY)
    {
      this.x := x;
      this.y := y;
      this.radius := radius;
      this.color := color;
      this.speedX := speedX;
      this.speedY := speedY;
    }

    method Move(canvas: Canvas)
      modifies this
      ensures State() == MoveBall(old(State()), canvas)
    {
      x := x + speedX;
      y := y + speedY;
      if y - radius <= 0.0 || y + radius >= canvas.height {
        speedY := -speedY;
      }
    }

    method Reset(canvas: Canvas)
      modifies this
      ensures State() == ResetBall(old(State()), canvas)
    {
      x := canvas.width / 2.0;
      y := canvas.height / 2.0;
      speedX := -speedX;
    }
  }

  class Paddle {
    var x: real
    var y: real
    var width: real
    var height: real
    var color: string
    var isPlayerControlled: bool
    var speed: real

    function State(): PaddleState
      reads this
    {
      PaddleState(x, y, width, height, color, isPlayerControlled, speed)
    }

    constructor (x: real, y: real, width: real, height: real, color: string,
                 isPlayerControlled: bool := false)
      ensures State() == PaddleState(x, y, width, height, color, isPlayerControlled, PaddleSpeed)
    {
      this.x := x;
      this.y := y;
      this.width := width;
      this.height := height;
      this.color := color;
      this.isPlayerControlled := isPlayerControlled;
      this.speed := PaddleSpeed;
    }

    method Move(direction: string, canvas: Canvas)
      modifies this
      ensures State() == MovePaddle(old(State()), direction, canvas)
    {
      if direction == "up" && y > 0.0 {
        y := y - speed;
      } else if direction == "down" && y + height < canvas.height {
        y := y + speed;
      }
    }

    method AutoMove(ball: Ball)
      modifies this
      ensures State() == AutoMovePaddle(old(State()), ball.y)
    {
      if ball.y < y + height / 2.0 {
        y := y - speed;
      } else if ball.y > y + height / 2.0 {
        y := y + speed;
      }
    }
  }

  /** The five ball colours; they are never read by the simulation. */
  const Cyan: string := "#00FFFF"
  const Orange: string := "#FFA500"
  const Blue: string := "#0000FF"
  const Grey: string := "#808080"
  const White: string := "#ffffff"

  /** The five balls Game's constructor creates, all at the centre. */
  function InitialBalls(c: Canvas): (r: seq<BallState>)
    ensures |r| == 5
    ensures forall i :: 0 <= i < |r| ==>
              r[i].x == c.width / 2.0 && r[i].y == c.height / 2.0 &&
              r[i].speedX == r[i].speedY && r[i].speedX > 0.0 && r[i].radius > 0.0
  {
    var cx, cy := c.width / 2.0, c.height / 2.0;
    [ BallState(cx, cy, 15.0, Cyan, 4.0, 4.0),
      BallState(cx, cy, 10.0, Orange, 3.0, 3.0),
      BallState(cx, cy, 8.0, Blue, 2.0, 2.0),
      BallState(cx, cy, 50.0, Grey, 5.0, 5.0),
      BallState(cx, cy, 20.0, White, 8.0, 8.0) ]
  }

  /** The state Game's constructor builds on a surface of the given size. The
      paddles start at height/2 - 150/2 although they are 250 tall. */
  function InitialState(c: Canvas): (r: GameState)
    ensures r.balls == InitialBalls(c) && r.keys == map[]
    ensures r.paddle1.height == r.paddle2.height == 250.0 && r.paddle1.width == r.paddle2.width
    ensures Centre(r.paddle1) == Centre(r.paddle2) == c.height / 2.0 + 50.0
    ensures r.paddle1.x == 10.0 && r.paddle2.x + r.paddle2.width == c.width - 10.0
    ensures r.paddle1.isPlayerControlled && !r.paddle2.isPlayerControlled
    ensures r.paddle1.speed == r.paddle2.speed == PaddleSpeed
  {
    var cy := c.height / 2.0;
    GameState(
      InitialBalls(c),
      PaddleState(10.0, cy - 150.0 / 2.0, 10.0, 250.0, "", true, PaddleSpeed),
      PaddleState(c.width - 10.0 - 10.0, cy - 150.0 / 2.0, 10.0, 250.0, "", false, PaddleSpeed),
      map[])
  }

  /** The ball array of Game's constructor: five fresh, distinct balls. */
  method NewBalls(c: Canvas) returns (balls: array<Ball>, ghost repr: set<Ball>)
    ensures fresh(balls) && fresh(repr)
    ensures balls.Length == |InitialBalls(c)|
    ensures forall i :: 0 <= i < balls.Length ==>
              balls[i] in repr && balls[i].State() == InitialBalls(c)[i]
    ensures forall i, j :: 0 <= i < j < balls.Length ==> balls[i] != balls[j]
    ensures repr == {balls[0], balls[1], balls[2], balls[3], balls[4]}
  {
    var cx, cy := c.width / 2.0, c.height / 2.0;
    var b0 := new Ball(cx, cy, 15.0, Cyan, 4.0, 4.0);
    var b1 := new Ball(cx, cy, 10.0, Orange, 3.0, 3.0);
    var b2 := new Ball(cx, cy, 8.0, Blue, 2.0, 2.0);
    var b3 := new Ball(cx, cy, 50.0, Grey, 5.0, 5.0);
    var b4 := new Ball(cx, cy, 20.0, White, 8.0, 8.0);
    balls := new Ball[] [b0, b1, b2, b3, b4];
    repr := {b0, b1, b2, b3, b4};
    assert balls[0] == b0 && balls[1] == b1 && balls[2] == b2 && balls[3] == b3 && balls[4] == b4;
    forall i, j | 0 <= i < j < balls.Length ensures balls[i] != balls[j] {
      assert i == 0 || i == 1 || i == 2 || i == 3;
      assert j == 1 || j == 2 || j == 3 || j == 4;
    }
    forall i | 0 <= i < balls.Length
      ensures balls[i] in repr && balls[i].State() == InitialBalls(c)[i]
    {
      assert i == 0 || i == 1 || i == 2 || i == 3 || i == 4;
    }
  }

  class Game {
    const canvas: Canvas
    const balls: array<Ball>
    const paddle1: Paddle
    const paddle2: Paddle
    var keys: map<string, bool>

    /** The ball objects, which every frame updates in place. */
    ghost const Repr: set<Ball>

    /** The balls are distinct objects, all in Repr, and there is at least
        one for the AI to track; the two paddles are distinct objects. */
    ghost predicate Valid()
      reads balls
    {
      paddle1 != paddle2 && balls.Length > 0 &&
      (forall i :: 0 <= i < balls.Length ==> balls[i] in Repr) &&
      (forall i, j :: 0 <= i < j < balls.Length ==> balls[i] != balls[j])
    }

    ghost function BallStates(): (s: seq<BallState>)
      requires Valid()
      reads balls, Repr
      ensures |s| == balls.Length
      ensures forall i :: 0 <= i < balls.Length ==> s[i] == balls[i].State()
    {
      seq(balls.Length, i reads balls, Repr
                          requires 0 <= i < balls.Length && balls[i] in Repr => balls[i].State())
    }

    ghost function Snapshot(): GameState
      requires Valid()
      reads this, balls, Repr, paddle1, paddle2
    {
      GameState(BallStates(), paddle1.State(), paddle2.State(), keys)
    }

    constructor (canvas: Canvas)
      ensures Valid()
      ensures Snapshot() == InitialState(canvas) && this.canvas == canvas
      ensures fresh(balls) && fresh(paddle1) && fresh(paddle2) && fresh(Repr)
      ensures balls.Length == 5 && Repr == {balls[0], balls[1], balls[2], balls[3], balls[4]}
    {
      var bs, repr := NewBalls(canvas);
      var cy := canvas.height / 2.0;
      this.canvas := canvas;
      balls := bs;
      Repr := repr;
      paddle1 := new Paddle(10.0, cy - 150.0 / 2.0, 10.0, 250.0, "", true);
      paddle2 := new Paddle(canvas.width - 10.0 - 10.0, cy - 150.0 / 2.0, 10.0, 250.0, "");
      keys := map[];
      new;
      assert BallStates() == InitialBalls(canvas);
    }

    /** The body of the ball loop in Game.update, for one ball. */
    method UpdateOne(ball: Ball)
      modifies ball
      ensures ball.State() == UpdateBall(old(ball.State()), paddle1.State(), paddle2.State(), canvas)
    {
      ball.Move(canvas);

      if ball.x - ball.radius <= paddle1.x + paddle1.width &&
         ball.y >= paddle1.y && ball.y <= paddle1.y + paddle1.height {
        ball.speedX := -ball.speedX;
      }

      if ball.x + ball.radius >= paddle2.x &&
         ball.y >= paddle2.y && ball.y <= paddle2.y + paddle2.height {
        ball.speedX := -ball.speedX;
      }

      if ball.x - ball.radius <= 0.0 || ball.x + ball.radius >= canvas.width {
        ball.Reset(canvas);
      }
    }

    /** The ball loop of Game.update: every ball in list order, against the
        paddles as they stand, which the loop does not move. */
    method UpdateAllBalls()
      requires Valid()
      modifies Repr
      ensures BallStates() == UpdateBalls(old(BallStates()), paddle1.State(), paddle2.State(), canvas)
    {
      ghost var before := BallStates();
      var i := 0;
      while i < balls.Length
        invariant 0 <= i <= balls.Length
        invariant forall k :: 0 <= k < i ==>
                    balls[k].State() == UpdateBall(before[k], paddle1.State(), paddle2.State(), canvas)
        invariant forall k :: i <= k < balls.Length ==> balls[k].State() == before[k]
      {
        UpdateOne(balls[i]);
        i := i + 1;
      }
    }

    /** The player step of Game.update: 'up' for a held ArrowUp, then 'down'
        for a held ArrowDown. */
    method MovePlayer()
      modifies paddle1
      ensures paddle1.State() == PlayerStep(old(paddle1.State()), keys, canvas)
    {
      if Held(keys, "ArrowUp") {
        paddle1.Move("up", canvas);
      }
      if Held(keys, "ArrowDown") {
        paddle1.Move("down", canvas);
      }
    }

    /** One frame of the simulation. */
    method Update()
      requires Valid()
      modifies Repr, paddle1, paddle2
      ensures Valid()
      ensures Snapshot() == UpdateGame(old(Snapshot()), canvas)
    {
      UpdateAllBalls();
      ghost var updated := BallStates();
      MovePlayer();
      paddle2.AutoMove(balls[0]);
      assert BallStates() == updated;
    }

    /** The keydown handler's write. */
    method KeyDown(key: string)
      modifies this`keys
      ensures keys == HandleKey(old(keys), Pressed(key))
    {
      keys := keys[key := true];
    }

    /** The keyup handler's write. */
    method KeyUp(key: string)
      modifies this`keys
      ensures keys == HandleKey(old(keys), Released(key))
    {
      keys := keys[key := false];
    }

    /** The handlers firing for the key events that arrive between frames. */
    method HandleEvents(events: seq<KeyEvent>)
      modifies this`keys
      ensures keys == HandleKeys(old(keys), events)
    {
      var j := 0;
      while j < |events|
        invariant 0 <= j <= |events|
        invariant keys == HandleKeys(old(keys), events[..j])
      {
        assert events[..j + 1][..j] == events[..j];
        if events[j].Pressed? {
          KeyDown(events[j].key);
        } else {
          KeyUp(events[j].key);
        }
        j := j + 1;
      }
      assert events[..j] == events;
    }

    /** One turn of the frame cycle: the key events since the previous frame
        are handled, then the frame is updated. */
    method Step(events: seq<KeyEvent>)
      requires Valid()
      modifies Repr, paddle1, paddle2, this`keys
      ensures Valid()
      ensures Snapshot() == UpdateGame(old(Snapshot()).(keys := HandleKeys(old(keys), events)), canvas)
    {
      ghost var prev := Snapshot();
      HandleEvents(events);
      assert Snapshot() == prev.(keys := HandleKeys(prev.keys, events));
      Update();
    }

    /** A bounded stretch of the frame cycle driven by run(): one Step per
        batch of key events (drawing and rescheduling are not modelled). */
    method RunFrames(script: seq<seq<KeyEvent>>)
      requires Valid()
      modifies Repr, paddle1, paddle2, this`keys
      ensures Valid()
      ensures Snapshot() == Play(old(Snapshot()), canvas, script)
    {
      ghost var start := Snapshot();
      var n := 0;
      while n < |script|
        invariant 0 <= n <= |script| && Valid()
        invariant Snapshot() == Play(start, canvas, script[..n])
      {
        ghost var prev := Snapshot();
        assert script[..n + 1][..n] == script[..n];
        assert Play(start, canvas, script[..n + 1]) ==
               UpdateGame(prev.(keys := HandleKeys(prev.keys, script[n])), canvas);
        Step(script[n]);
        n := n + 1;
      }
      assert script[..n] == script;
    }
  }
}
