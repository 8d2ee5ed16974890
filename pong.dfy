/** The game state and the operations the game loop applies to it: the key
    handlers, the paddle move, the ball reset, the ball move and the two
    paddle collision handlers. */
module Pong {
  import opened Angles
  import opened Physics

  /** The keys the game reacts to; KeyOther stands for every other key. */
  datatype Key = KeyW | KeyS | KeyUp | KeyDown | KeyOther

  /** Which of the two paddles move_paddle is given. */
  datatype Side = Left | Right

  /** A paddle velocity the key handlers can produce. */
  predicate IsPaddleVelocity(dy: real) {
    dy == -PADDLE_DY || dy == 0.0 || dy == PADDLE_DY
  }

  /** The root game structure, without its window and renderer. The ball's
      heading is kept as an angle in whole degrees (ball_dx and ball_dy are
      its cosine and sine). */
  class Game {
    var ball: Rect
    var ballAngle: int
    var ballSpeed: real
    var paddle1: Rect
    var paddle1Dy: real
    var paddle2: Rect
    var paddle2Dy: real

    /** What holds from initialisation on: the sizes never change, the
        heading is an entry of the angle table, the speed never drops below
        its initial value, and each paddle is still, or moves at PADDLE_DY
        up or down. */
    ghost predicate Valid()
      reads this
    {
      ball.w == BALL_LENGTH as real && ball.h == BALL_LENGTH as real
      && paddle1.w == PADDLE_WIDTH as real && paddle1.h == PADDLE_HEIGHT as real
      && paddle2.w == PADDLE_WIDTH as real && paddle2.h == PADDLE_HEIGHT as real
      && ballAngle in BALL_ANGLES
      && ballSpeed >= BALL_INIT_SPEED
      && IsPaddleVelocity(paddle1Dy) && IsPaddleVelocity(paddle2Dy)
    }

    /** Both paddles lie in their vertical band. */
    ghost predicate PaddlesInBand(windowHeight: int)
      reads this
    {
      InBand(paddle1.y, paddle1.h, windowHeight) && InBand(paddle2.y, paddle2.h, windowHeight)
    }

    /** The ball, its heading and its speed. */
    ghost function BallState(): Ball
      reads this
    {
      Ball(ball, ballAngle, ballSpeed)
    }

    /** init_game without the window and renderer: the ball gets its size
        and is reset, and both paddles are placed at the vertical centre
        against their edge of the window, standing still. */
    constructor (windowWidth: nat, windowHeight: nat, rnd: nat)
      ensures Valid()
      ensures ball == ResetRect(Rect(0.0, 0.0, BALL_LENGTH as real, BALL_LENGTH as real),
                                windowWidth, windowHeight)
      ensures ballAngle == BALL_ANGLES[ResetIndex(rnd)] && ballSpeed == BALL_INIT_SPEED
      ensures paddle1 == Rect(PADDLE_HORIZONTAL_OFFSET as real, InitialPaddleY(windowHeight),
                              PADDLE_WIDTH as real, PADDLE_HEIGHT as real)
      ensures paddle2 == Rect((windowWidth - PADDLE_HORIZONTAL_OFFSET - PADDLE_WIDTH) as real,
                              InitialPaddleY(windowHeight), PADDLE_WIDTH as real, PADDLE_HEIGHT as real)
      ensures paddle1Dy == 0.0 && paddle2Dy == 0.0
      ensures windowHeight >= 80 ==> PaddlesInBand(windowHeight)
    {
      ball := Rect(0.0, 0.0, BALL_LENGTH as real, BALL_LENGTH as real);
      paddle1 := Rect(PADDLE_HORIZONTAL_OFFSET as real, InitialPaddleY(windowHeight),
                      PADDLE_WIDTH as real, PADDLE_HEIGHT as real);
      paddle1Dy := 0.0;
      paddle2 := Rect((windowWidth - PADDLE_HORIZONTAL_OFFSET - PADDLE_WIDTH) as real,
                      InitialPaddleY(windowHeight), PADDLE_WIDTH as real, PADDLE_HEIGHT as real);
      paddle2Dy := 0.0;
      new;
      ResetBall(windowWidth, windowHeight, rnd);
    }

    /** reset_ball: recentre the ball, take the heading from the table entry
        chosen by rnd (a value of rand()), and restore the initial speed. */
    method ResetBall(windowWidth: nat, windowHeight: nat, rnd: nat)
      modifies this`ball, this`ballAngle, this`ballSpeed
      ensures ball == ResetRect(old(ball), windowWidth, windowHeight)
      ensures ballAngle == BALL_ANGLES[ResetIndex(rnd)]
      ensures ballSpeed == BALL_INIT_SPEED
      ensures old(Valid()) ==> Valid()
    {
      ball := ball.(x := (windowWidth / 2) as real - ball.w / 2.0,
                    y := (windowHeight / 2) as real - ball.h / 2.0);
      var i := rnd % (BALL_ANGLES_SIZE - 1);
      ballAngle := BALL_ANGLES[i];
      ballSpeed := BALL_INIT_SPEED;
    }

    /** handle_keydown: W and S start paddle 1 up and down, Up and Down start
        paddle 2 up and down; any other key changes nothing. */
    method HandleKeyDown(k: Key)
      modifies this`paddle1Dy, this`paddle2Dy
      ensures paddle1Dy == (if k == KeyW then -PADDLE_DY else if k == KeyS then PADDLE_DY else old(paddle1Dy))
      ensures paddle2Dy == (if k == KeyUp then -PADDLE_DY else if k == KeyDown then PADDLE_DY else old(paddle2Dy))
      ensures old(Valid()) ==> Valid()
    {
      match k
      case KeyW => paddle1Dy := -PADDLE_DY;
      case KeyS => paddle1Dy := PADDLE_DY;
      case KeyUp => paddle2Dy := -PADDLE_DY;
      case KeyDown => paddle2Dy := PADDLE_DY;
      case KeyOther =>
    }

    /** handle_keyup: releasing W or S stops paddle 1, releasing Up or Down
        stops paddle 2; any other key changes nothing. */
    method HandleKeyUp(k: Key)
      modifies this`paddle1Dy, this`paddle2Dy
      ensures paddle1Dy == (if k == KeyW || k == KeyS then 0.0 else old(paddle1Dy))
      ensures paddle2Dy == (if k == KeyUp || k == KeyDown then 0.0 else old(paddle2Dy))
      ensures old(Valid()) ==> Valid()
    {
      match k
      case KeyW => paddle1Dy := 0.0;
      case KeyS => paddle1Dy := 0.0;
      case KeyUp => paddle2Dy := 0.0;
      case KeyDown => paddle2Dy := 0.0;
      case KeyOther =>
    }

    /** move_paddle: only the chosen paddle's top changes; it moves by dy and
        is clamped to its band, which it then lies in whenever the window is
        tall enough for the band to exist. */
    method MovePaddle(side: Side, dy: real, windowHeight: nat)
      modifies this`paddle1, this`paddle2
      ensures side == Left ==>
        paddle2 == old(paddle2)
        && paddle1 == old(paddle1).(y := ClampedY(old(paddle1).y, dy, old(paddle1).h, windowHeight))
      ensures side == Right ==>
        paddle1 == old(paddle1)
        && paddle2 == old(paddle2).(y := ClampedY(old(paddle2).y, dy, old(paddle2).h, windowHeight))
      ensures var p := if side == Left then paddle1 else paddle2;
        windowHeight as real >= p.h + 2.0 * PADDLE_VERTICAL_OFFSET as real ==> InBand(p.y, p.h, windowHeight)
      ensures old(Valid()) ==> Valid()
    {
      var paddle := if side == Left then paddle1 else paddle2;
      paddle := paddle.(y := paddle.y + dy);
      if paddle.y < PADDLE_VERTICAL_OFFSET as real {
        paddle := paddle.(y := PADDLE_VERTICAL_OFFSET as real);
      } else if paddle.y + paddle.h > windowHeight as real - PADDLE_VERTICAL_OFFSET as real {
        paddle := paddle.(y := windowHeight as real - paddle.h - PADDLE_VERTICAL_OFFSET as real);
      }
      if side == Left {
        paddle1 := paddle;
      } else {
        paddle2 := paddle;
      }
    }

    /** handle_paddle1_collision: on contact with the left paddle the heading
        becomes the first-half table entry for the bucket the ball's centre
        falls in, which sends the ball right; otherwise nothing changes. */
    method HandlePaddle1Collision()
      requires Valid()
      modifies this`ballAngle
      ensures Valid()
      ensures ballAngle == Deflect1(ball, paddle1, old(ballAngle))
    {
      var b, p := ball, paddle1;
      var inRangeX := b.x <= p.x + p.w + 1.0;
      var inRangeY := b.y + b.h >= p.y && b.y <= p.y + p.h;
      if !inRangeX || !inRangeY {
        return;
      }
      var bucketLength := p.h / (BALL_ANGLES_SIZE / 2) as real;
      var test := b.y + b.h / 2.0 - p.y;
      var bucket := Trunc(test / bucketLength);
      if bucket < 0 {
        bucket := 0;
      } else if bucket >= BALL_ANGLES_SIZE / 2 {
        bucket := BALL_ANGLES_SIZE / 2 - 1;
      }
      ballAngle := BALL_ANGLES[bucket];
    }

    /** handle_paddle2_collision: on contact with the right paddle the
        heading becomes the second-half table entry for the bucket the ball's
        centre falls in, which sends the ball left; otherwise nothing
        changes. */
    method HandlePaddle2Collision()
      requires Valid()
      modifies this`ballAngle
      ensures Valid()
      ensures ballAngle == Deflect2(ball, paddle2, old(ballAngle))
    {
      var b, p := ball, paddle2;
      var inRangeX := b.x + b.w >= p.x - 1.0;
      var inRangeY := b.y + b.h >= p.y && b.y <= p.y + p.h;
      if !inRangeX || !inRangeY {
        return;
      }
      var bucketLength := p.h / (BALL_ANGLES_SIZE / 2) as real;
      var test := b.y + b.h / 2.0 - p.y;
      var bucket := Trunc(test / bucketLength);
      if bucket < 0 {
        bucket := 0;
      } else if bucket >= BALL_ANGLES_SIZE / 2 {
        bucket := BALL_ANGLES_SIZE / 2 - 1;
      }
      ballAngle := BALL_ANGLES[bucket + BALL_ANGLES_SIZE / 2];
    }

    /** move_ball: one tick of the ball, as MovedBall describes it. */
    method MoveBall(trig: Trig, windowWidth: nat, windowHeight: nat, rnd: nat)
      requires Valid()
      modifies this`ball, this`ballAngle, this`ballSpeed
      ensures Valid()
      ensures BallState() == MovedBall(old(BallState()), paddle1, paddle2, trig, windowWidth, windowHeight, rnd)
    {
      ghost var b0 := BallState();
      ballSpeed := ballSpeed + BALL_ACCELERATION;
      ball := ball.(x := ball.x + trig.cos(ballAngle) * ballSpeed);
      ball := ball.(y := ball.y + trig.sin(ballAngle) * ballSpeed);
      ghost var b1 := BallState();
      assert b1 == Advanced(b0, trig);
      if ball.x < 0.0 || ball.x + ball.w > windowWidth as real {
        ResetBall(windowWidth, windowHeight, rnd);
      }
      ghost var b2 := BallState();
      assert b2 == AfterHorizontalExit(b1, windowWidth, windowHeight, rnd);
      if ball.y < 0.0 || ball.y + ball.h > windowHeight as real {
        ballAngle := Mirror(ballAngle);
      }
      assert BallState() == AfterVerticalExit(b2, windowHeight);
      HandlePaddle1Collision();
      HandlePaddle2Collision();
    }

    /** The updates of one iteration of the game loop: move paddle 1 and
        paddle 2 by their velocities, then move the ball. Both paddles then
        lie in their band whenever the window is tall enough for it. */
    method Step(trig: Trig, windowWidth: nat, windowHeight: nat, rnd: nat)
      requires Valid()
      modifies this`paddle1, this`paddle2, this`ball, this`ballAngle, this`ballSpeed
      ensures Valid()
      ensures paddle1 == old(paddle1).(y := ClampedY(old(paddle1).y, paddle1Dy, PADDLE_HEIGHT as real, windowHeight))
      ensures paddle2 == old(paddle2).(y := ClampedY(old(paddle2).y, paddle2Dy, PADDLE_HEIGHT as real, windowHeight))
      ensures BallState() == MovedBall(old(BallState()), paddle1, paddle2, trig, windowWidth, windowHeight, rnd)
      ensures windowHeight >= PADDLE_HEIGHT + 2 * PADDLE_VERTICAL_OFFSET ==> PaddlesInBand(windowHeight)
    {
      MovePaddle(Left, paddle1Dy, windowHeight);
      MovePaddle(Right, paddle2Dy, windowHeight);
      MoveBall(trig, windowWidth, windowHeight, rnd);
    }
  }
}
