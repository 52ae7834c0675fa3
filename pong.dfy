/**
 * The game's objects as they are updated in place: the paddles, the ball,
 * the two scores and the main loop that owns them. Each method is proved to
 * leave its object in exactly the state the rules in module PongSpec give.
 */
module Pong {
  import opened Rects
  import opened PongSpec

  /** A paddle, moved by its own pair of keys. */
  class Paddle {
    const upKey: Key
    const downKey: Key
    var rect: Rect

    constructor (upKey: Key, downKey: Key, rect: Rect)
      ensures this.upKey == upKey && this.downKey == downKey && this.rect == rect
    {
      this.upKey := upKey;
      this.downKey := downKey;
      this.rect := rect;
    }

    /** Paddle.update, given the set of keys held down this tick. */
    method Update(pressed: set<Key>)
      modifies this
      ensures rect == PaddleUpdate(old(rect), upKey in pressed, downKey in pressed)
    {
      var change := 0;
      if upKey in pressed {
        change := change - PaddleSpeed;
      }
      if downKey in pressed {
        change := change + PaddleSpeed;
      }
      var newRect := Clamp(Move(rect, 0, change), Screen);
      rect := newRect;
    }
  }

  /** The ball; it sees the paddles' rects only through the arguments of Update. */
  class Ball {
    var rect: Rect
    var xSpeed: int
    var ySpeed: int

    function State(): BallState
      reads this
    {
      BallState(rect, xSpeed, ySpeed)
    }

    /** A new ball: a 20 x 20 square at the origin moving at (4, 4). */
    constructor ()
      ensures State() == BallState(BallStart, BallSpeed, BallSpeed)
    {
      rect := Rect(0, 0, BallWidth, BallWidth);
      xSpeed := BallSpeed;
      ySpeed := BallSpeed;
    }

    /**
     * Ball.update: returns the players whose score events it posts, in the
     * order it posts them.
     */
    method Update(leftPaddle: Rect, rightPaddle: Rect) returns (events: seq<int>)
      modifies this
      ensures BallStep(State(), events) == BallUpdate(old(State()), leftPaddle, rightPaddle)
    {
      var newRect := Move(rect, xSpeed, ySpeed);

      if newRect.Top() < 0 || newRect.Bottom() > Screen.Bottom() {
        ySpeed := ySpeed * -1;
      }

      if CollideRect(newRect, leftPaddle) {
        xSpeed := BallSpeed;
      }
      if CollideRect(newRect, rightPaddle) {
        xSpeed := -BallSpeed;
      }

      events := [];
      if newRect.Right() > Screen.Right() {
        events := events + [1];
      }
      if newRect.Left() < Screen.Left() {
        events := events + [2];
      }

      rect := Clamp(newRect, Screen);
    }

    /** Ball.reset, with the two signs drawn by the caller. */
    method Reset(sx: Sign, sy: Sign)
      modifies this
      ensures State() == BallReset(old(State()), sx, sy)
    {
      rect := WithCenter(rect, Screen.x + Screen.w / 2, Screen.y + Screen.h / 2);
      xSpeed := sx * BallSpeed;
      ySpeed := sy * BallSpeed;
    }
  }

  /** One player's score. */
  class Score {
    var value: nat

    constructor ()
      ensures value == 0
    {
      value := 0;
    }

    method Increment()
      modifies this
      ensures value == old(value) + 1
    {
      value := value + 1;
    }
  }

  /**
   * The main loop's state: the sprites and the queue of score events the
   * ball has posted and the loop has not yet handled.
   */
  class Game {
    const leftPaddle: Paddle
    const rightPaddle: Paddle
    const ball: Ball
    const leftScore: Score
    const rightScore: Score
    var queue: seq<int>

    /** Two distinct paddles listening to w/s and the arrow keys, and two distinct scores. */
    ghost predicate Valid()
    {
      && leftPaddle != rightPaddle
      && leftScore != rightScore
      && leftPaddle.upKey == W && leftPaddle.downKey == S
      && rightPaddle.upKey == Up && rightPaddle.downKey == Down
    }

    function State(): GameState
      reads this, leftPaddle, rightPaddle, ball, leftScore, rightScore
    {
      GameState(leftPaddle.rect, rightPaddle.rect, ball.State(),
                leftScore.value, rightScore.value, queue)
    }

    /** Creating the sprites and resetting the ball once, with the signs d. */
    constructor (d: Draw)
      ensures Valid()
      ensures fresh(leftPaddle) && fresh(rightPaddle) && fresh(ball) && fresh(leftScore) && fresh(rightScore)
      ensures State() == Initial(d)
    {
      leftScore := new Score();
      rightScore := new Score();
      leftPaddle := new Paddle(W, S, LeftPaddleStart);
      rightPaddle := new Paddle(Up, Down, RightPaddleStart);
      var b := new Ball();
      b.Reset(d.x, d.y);
      ball := b;
      queue := [];
    }

    /**
     * The event-handling part of a pass: each score event adds one to the
     * matching score and resets the ball; the i-th reset draws draws(i).
     */
    method HandleScoreEvents(events: seq<int>, draws: nat -> Draw)
      requires Valid()
      modifies leftScore, rightScore, ball
      ensures State() == Drain(old(State()), events, draws, 0)
    {
      ghost var start := State();
      var i := 0;
      while i < |events|
        invariant 0 <= i <= |events|
        invariant Drain(State(), events[i..], draws, i) == Drain(start, events, draws, 0)
      {
        ghost var before := State();
        OnScoreEvent(events[i], draws(i));
        DrainUnfold(before, events, draws, i);
        i := i + 1;
      }
    }

    /** One score event: add one to the player's score and reset the ball with the signs d. */
    method OnScoreEvent(player: int, d: Draw)
      requires Valid()
      modifies leftScore, rightScore, ball
      ensures State() == HandleScoreEvent(old(State()), player, d)
    {
      if player == 1 {
        leftScore.Increment();
      }
      if player == 2 {
        rightScore.Increment();
      }
      ball.Reset(d.x, d.y);
    }

    /**
     * One pass of the main loop: take every queued score event and handle
     * it, then update the left paddle, the right paddle and the ball, and
     * queue what the ball posts for the next pass.
     */
    method Tick(pressed: set<Key>, draws: nat -> Draw)
      requires Valid()
      modifies this, leftPaddle, rightPaddle, ball, leftScore, rightScore
      ensures State() == PongSpec.Tick(old(State()), TickInput(pressed, draws))
      ensures GameInvariant(old(State())) ==> GameInvariant(State())
    {
      ghost var start := State();
      var events := queue;
      queue := [];
      HandleScoreEvents(events, draws);

      leftPaddle.Update(pressed);
      rightPaddle.Update(pressed);
      var posted := ball.Update(leftPaddle.rect, rightPaddle.rect);
      queue := queue + posted;

      if GameInvariant(start) {
        TickKeepsInvariant(start, TickInput(pressed, draws));
      }
    }

    /**
     * The main loop, for as many passes as there are inputs (it otherwise
     * only stops when the window is closed).
     */
    method Play(inputs: seq<TickInput>)
      requires Valid()
      modifies this, leftPaddle, rightPaddle, ball, leftScore, rightScore
      ensures State() == Run(old(State()), inputs)
      ensures GameInvariant(old(State())) ==> GameInvariant(State())
    {
      ghost var start := State();
      var i := 0;
      while i < |inputs|
        invariant 0 <= i <= |inputs|
        invariant Run(State(), inputs[i..]) == Run(start, inputs)
      {
        ghost var before := State();
        Tick(inputs[i].pressed, inputs[i].draws);
        RunUnfold(before, inputs, i);
        i := i + 1;
      }
      if GameInvariant(start) {
        RunKeepsInvariant(start, inputs);
      }
    }
  }
}
