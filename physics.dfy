/** The geometry of one game tick: rectangles, the paddle clamp, the reset
    position of the ball, the exit tests and the paddle contact tests with
    their bucket computation. Coordinates are exact reals; the game uses
    single-precision floats. */
module Physics {
  import opened Angles

  /** An axis-aligned rectangle (SDL_FRect): top-left corner, width, height.
      The y axis points down. */
  datatype Rect = Rect(x: real, y: real, w: real, h: real)

  const BALL_LENGTH: int := 10
  const BALL_INIT_SPEED: real := 3.0
  const BALL_ACCELERATION: real := 0.005
  const PADDLE_WIDTH: int := 10
  const PADDLE_HEIGHT: int := 40
  const PADDLE_DY: real := 5.0
  const PADDLE_HORIZONTAL_OFFSET: int := 0
  const PADDLE_VERTICAL_OFFSET: int := 20

  /** Conversion of a real to int as C's `(int)` does it: towards zero. */
  function Trunc(x: real): (n: int)
    ensures x >= 0.0 ==> 0 <= n && n as real <= x < n as real + 1.0
    ensures x < 0.0 ==> n <= 0 && n as real - 1.0 < x <= n as real
  {
    if x >= 0.0 then x.Floor else -((-x).Floor)
  }

  /** The band a paddle of height h is kept in: PADDLE_VERTICAL_OFFSET away
      from both the top and the bottom of the window. */
  predicate InBand(y: real, h: real, windowHeight: int) {
    PADDLE_VERTICAL_OFFSET as real <= y
    && y + h <= windowHeight as real - PADDLE_VERTICAL_OFFSET as real
  }

  /** The new top of a paddle after move_paddle: the old top plus the
      velocity, pulled back to the top limit if above it, else to the bottom
      limit if below it. */
  function ClampedY(y: real, dy: real, h: real, windowHeight: int): (r: real)
    ensures windowHeight as real >= h + 2.0 * PADDLE_VERTICAL_OFFSET as real ==> InBand(r, h, windowHeight)
    ensures InBand(y + dy, h, windowHeight) ==> r == y + dy
    ensures y + dy < PADDLE_VERTICAL_OFFSET as real ==> r == PADDLE_VERTICAL_OFFSET as real
    ensures (y + dy >= PADDLE_VERTICAL_OFFSET as real
             && y + dy + h > windowHeight as real - PADDLE_VERTICAL_OFFSET as real) ==>
      r == windowHeight as real - h - PADDLE_VERTICAL_OFFSET as real
  {
    var moved := y + dy;
    if moved < PADDLE_VERTICAL_OFFSET as real then
      PADDLE_VERTICAL_OFFSET as real
    else if moved + h > windowHeight as real - PADDLE_VERTICAL_OFFSET as real then
      windowHeight as real - h - PADDLE_VERTICAL_OFFSET as real
    else
      moved
  }

  /** The top of a paddle after one move per velocity in dys, in order: the
      paddle's position after that many ticks of the game loop. */
  ghost function PaddleYAfter(y: real, dys: seq<real>, h: real, windowHeight: int): real
    decreases |dys|
  {
    if dys == [] then y else PaddleYAfter(ClampedY(y, dys[0], h, windowHeight), dys[1..], h, windowHeight)
  }

  /** However long the keys are held, a paddle that moved at least once, or
      that started in its band, is in its band, provided the window is tall
      enough for the band to exist. */
  lemma {:induction false} PaddleStaysInBand(y: real, dys: seq<real>, h: real, windowHeight: int)
    requires windowHeight as real >= h + 2.0 * PADDLE_VERTICAL_OFFSET as real
    requires dys != [] || InBand(y, h, windowHeight)
    ensures InBand(PaddleYAfter(y, dys, h, windowHeight), h, windowHeight)
    decreases |dys|
  {
    if dys != [] {
      PaddleStaysInBand(ClampedY(y, dys[0], h, windowHeight), dys[1..], h, windowHeight);
    }
  }

  /** The top of both paddles as init_game places them: half the window
      height less half the paddle height, in integer arithmetic. The paddle
      starts in its band exactly when the window is at least 80 high. */
  function InitialPaddleY(windowHeight: nat): (y: real)
    ensures InBand(y, PADDLE_HEIGHT as real, windowHeight) <==> windowHeight >= 80
    ensures 0.0 <= windowHeight as real - 2.0 * (y + PADDLE_HEIGHT as real / 2.0) <= 1.0
    ensures windowHeight % 2 == 0 ==> 2.0 * (y + PADDLE_HEIGHT as real / 2.0) == windowHeight as real
    ensures windowHeight % 2 == 1 ==> 2.0 * (y + PADDLE_HEIGHT as real / 2.0) == windowHeight as real - 1.0
  {
    (windowHeight / 2 - PADDLE_HEIGHT / 2) as real
  }

  /** The ball as reset_ball places it: its size is kept and its centre is
      moved to the window centre, computed with integer halves of the window
      size, hence at most half a pixel left of or above the true centre. */
  function ResetRect(b: Rect, windowWidth: nat, windowHeight: nat): (r: Rect)
    ensures r.w == b.w && r.h == b.h
    ensures 0.0 <= windowWidth as real - 2.0 * (r.x + r.w / 2.0) <= 1.0
    ensures 0.0 <= windowHeight as real - 2.0 * (r.y + r.h / 2.0) <= 1.0
    ensures windowWidth % 2 == 0 ==> 2.0 * (r.x + r.w / 2.0) == windowWidth as real
    ensures windowHeight % 2 == 0 ==> 2.0 * (r.y + r.h / 2.0) == windowHeight as real
    ensures windowWidth % 2 == 1 ==> 2.0 * (r.x + r.w / 2.0) == windowWidth as real - 1.0
    ensures windowHeight % 2 == 1 ==> 2.0 * (r.y + r.h / 2.0) == windowHeight as real - 1.0
  {
    b.(x := (windowWidth / 2) as real - b.w / 2.0,
       y := (windowHeight / 2) as real - b.h / 2.0)
  }

  /** The ball leaves through the left or right edge of the window. */
  predicate ExitsHorizontally(b: Rect, windowWidth: int) {
    b.x < 0.0 || b.x + b.w > windowWidth as real
  }

  /** The ball leaves through the top or bottom edge of the window. */
  predicate ExitsVertically(b: Rect, windowHeight: int) {
    b.y < 0.0 || b.y + b.h > windowHeight as real
  }

  /** The vertical range test shared by both paddles: the ball's and the
      paddle's vertical extents overlap (touching counts). */
  predicate InRangeY(b: Rect, p: Rect) {
    b.y + b.h >= p.y && b.y <= p.y + p.h
  }

  /** handle_paddle1_collision's test: the ball's left edge is at most one
      pixel right of the left paddle's right edge, and the ranges overlap. */
  predicate Contact1(b: Rect, p: Rect) {
    b.x <= p.x + p.w + 1.0 && InRangeY(b, p)
  }

  /** handle_paddle2_collision's test: the ball's right edge is at most one
      pixel left of the right paddle's left edge, or beyond it, and the
      ranges overlap. */
  predicate Contact2(b: Rect, p: Rect) {
    b.x + b.w >= p.x - 1.0 && InRangeY(b, p)
  }

  /** The edge cases of the contact tests: a ball whose edge exactly touches
      a paddle's top or bottom is in range, and the horizontal tests have no
      far bound, so a ball anywhere beyond a paddle (left of the left one,
      right of the right one) is in contact as long as the ranges overlap. */
  lemma ContactTestsAtEdges(b: Rect, p: Rect)
    requires b.w >= 0.0 && b.h >= 0.0 && p.w >= 0.0 && p.h >= 0.0
    ensures b.y + b.h == p.y ==> InRangeY(b, p)
    ensures b.y == p.y + p.h ==> InRangeY(b, p)
    ensures InRangeY(b, p) && b.x <= p.x ==> Contact1(b, p)
    ensures InRangeY(b, p) && b.x >= p.x ==> Contact2(b, p)
  {
  }

  /** How far the ball's vertical centre is below the paddle's top. */
  function CentreOffset(b: Rect, p: Rect): real {
    b.y + b.h / 2.0 - p.y
  }

  /** The bucket exactly as the game computes it: the centre offset divided
      by an eighth of the paddle height, truncated towards zero. It is a
      valid bucket 0..7 exactly when the ball's centre lies strictly between
      one eighth of the paddle above the paddle's top and the paddle's
      bottom. */
  function RawBucket(b: Rect, p: Rect): (k: int)
    requires p.h > 0.0
    ensures 0 <= k < BALL_ANGLES_SIZE / 2
      <==> p.y - p.h / 8.0 < b.y + b.h / 2.0 < p.y + p.h
  {
    var bucketLength := p.h / (BALL_ANGLES_SIZE / 2) as real;
    var q := CentreOffset(b, p) / bucketLength;
    assert q * bucketLength == CentreOffset(b, p);
    assert q > -1.0 <==> CentreOffset(b, p) > -bucketLength;
    assert q < 8.0 <==> CentreOffset(b, p) < p.h;
    assert 0 <= Trunc(q) < 8 <==> -1.0 < q < 8.0;
    Trunc(q)
  }

  /** With the game's ball and paddle sizes, every contact gives a raw
      bucket in -1..9; -1 only when the ball's bottom edge exactly touches
      the paddle's top, 9 only when the ball's top edge exactly touches the
      paddle's bottom. */
  lemma ContactBucketRange(b: Rect, p: Rect)
    requires b.h == BALL_LENGTH as real && p.h == PADDLE_HEIGHT as real
    requires InRangeY(b, p)
    ensures -1 <= RawBucket(b, p) <= 9
    ensures RawBucket(b, p) == -1 ==> b.y + b.h == p.y
    ensures RawBucket(b, p) == 9 ==> b.y == p.y + p.h
  {
  }

  /** A contact with the left paddle whose ball centre is at the paddle's
      bottom: the game reads entry 8, which belongs to the right paddle and
      sends the ball back into the left wall. */
  lemma Paddle1ReadsRightHalf()
    ensures Contact1(Rect(5.0, 135.0, 10.0, 10.0), Rect(0.0, 100.0, 10.0, 40.0))
    ensures RawBucket(Rect(5.0, 135.0, 10.0, 10.0), Rect(0.0, 100.0, 10.0, 40.0)) == 8
    ensures PointsLeft(BALL_ANGLES[8])
  {
  }

  /** A contact with the left paddle whose ball bottom touches the paddle's
      top: the game reads the index -1, before the start of the table. */
  lemma Paddle1ReadsBeforeTable()
    ensures Contact1(Rect(5.0, 90.0, 10.0, 10.0), Rect(0.0, 100.0, 10.0, 40.0))
    ensures RawBucket(Rect(5.0, 90.0, 10.0, 10.0), Rect(0.0, 100.0, 10.0, 40.0)) == -1
  {
  }

  /** A contact with the right paddle whose ball top touches the paddle's
      bottom: the game reads the index 9 + 8 = 17, past the end of the
      table. */
  lemma Paddle2ReadsPastTable()
    ensures Contact2(Rect(485.0, 140.0, 10.0, 10.0), Rect(490.0, 100.0, 10.0, 40.0))
    ensures RawBucket(Rect(485.0, 140.0, 10.0, 10.0), Rect(490.0, 100.0, 10.0, 40.0))
      + BALL_ANGLES_SIZE / 2 >= BALL_ANGLES_SIZE
  {
  }

  /** A contact with the right paddle whose ball bottom touches the paddle's
      top: the game reads index -1 + 8 = 7, an entry of the left paddle's
      half, which sends the ball on to the right, past the paddle. */
  lemma Paddle2ReadsLeftHalf()
    ensures Contact2(Rect(485.0, 90.0, 10.0, 10.0), Rect(490.0, 100.0, 10.0, 40.0))
    ensures RawBucket(Rect(485.0, 90.0, 10.0, 10.0), Rect(490.0, 100.0, 10.0, 40.0))
      + BALL_ANGLES_SIZE / 2 == 7
    ensures PointsRight(BALL_ANGLES[7])
  {
  }

  /** The bucket the model uses: the raw bucket clamped to 0..7, so that a
      ball touching a paddle's end gets that end's bucket. Inside the valid
      range it is the raw bucket. */
  function Bucket(b: Rect, p: Rect): (k: int)
    requires p.h > 0.0
    ensures 0 <= k < BALL_ANGLES_SIZE / 2
    ensures 0 <= RawBucket(b, p) < BALL_ANGLES_SIZE / 2 ==> k == RawBucket(b, p)
    ensures RawBucket(b, p) < 0 ==> k == 0
    ensures RawBucket(b, p) >= BALL_ANGLES_SIZE / 2 ==> k == BALL_ANGLES_SIZE / 2 - 1
  {
    var raw := RawBucket(b, p);
    if raw < 0 then 0
    else if raw >= BALL_ANGLES_SIZE / 2 then BALL_ANGLES_SIZE / 2 - 1
    else raw
  }

  /** The heading after the left paddle's collision test: unchanged without
      contact; on contact the bucket's entry from the first half of the
      table, which always sends the ball to the right. */
  function Deflect1(b: Rect, p: Rect, a: int): (r: int)
    requires p.h > 0.0
    ensures !Contact1(b, p) ==> r == a
    ensures Contact1(b, p) ==> r == BALL_ANGLES[Bucket(b, p)] && PointsRight(r)
  {
    TableSides();
    if Contact1(b, p) then BALL_ANGLES[Bucket(b, p)] else a
  }

  /** The heading after the right paddle's collision test: unchanged without
      contact; on contact the bucket's entry from the second half of the
      table, which always sends the ball to the left, and which mirrors the
      left paddle's entry for the same bucket. */
  function Deflect2(b: Rect, p: Rect, a: int): (r: int)
    requires p.h > 0.0
    ensures !Contact2(b, p) ==> r == a
    ensures Contact2(b, p) ==> r == BALL_ANGLES[Bucket(b, p) + BALL_ANGLES_SIZE / 2] && PointsLeft(r)
    ensures Contact2(b, p) ==> r == Normalize(180 - BALL_ANGLES[Bucket(b, p)])
  {
    TableSides();
    TableHalvesMirror();
    if Contact2(b, p) then BALL_ANGLES[Bucket(b, p) + BALL_ANGLES_SIZE / 2] else a
  }

  /** The moving part of the game state: the ball's rectangle, its heading
      in degrees and its speed. */
  datatype Ball = Ball(rect: Rect, angle: int, speed: real)

  /** The first part of move_ball: the speed grows by BALL_ACCELERATION
      and the ball advances along its heading by the new speed. */
  function Advanced(b: Ball, trig: Trig): (r: Ball)
    ensures r.angle == b.angle && r.speed == b.speed + BALL_ACCELERATION
    ensures r.rect.w == b.rect.w && r.rect.h == b.rect.h
    ensures r.rect.x - b.rect.x == trig.cos(b.angle) * r.speed
    ensures r.rect.y - b.rect.y == trig.sin(b.angle) * r.speed
  {
    var speed := b.speed + BALL_ACCELERATION;
    Ball(b.rect.(x := b.rect.x + trig.cos(b.angle) * speed,
                 y := b.rect.y + trig.sin(b.angle) * speed),
         b.angle, speed)
  }

  /** The left and right edges: a ball out through either is reset (see
      ResetRect and ResetIndex) with the initial speed; any other ball is
      left alone. */
  function AfterHorizontalExit(b: Ball, windowWidth: nat, windowHeight: nat, rnd: nat): (r: Ball)
    ensures ExitsHorizontally(b.rect, windowWidth) ==>
      r.rect == ResetRect(b.rect, windowWidth, windowHeight)
      && r.angle == BALL_ANGLES[ResetIndex(rnd)] && r.speed == BALL_INIT_SPEED
    ensures !ExitsHorizontally(b.rect, windowWidth) ==> r == b
  {
    if ExitsHorizontally(b.rect, windowWidth) then
      Ball(ResetRect(b.rect, windowWidth, windowHeight), BALL_ANGLES[ResetIndex(rnd)], BALL_INIT_SPEED)
    else
      b
  }

  /** The top and bottom edges: a ball out through either has its vertical
      direction flipped, so its new heading is the negated old one; nothing
      else changes, and a heading from the table stays one. */
  function AfterVerticalExit(b: Ball, windowHeight: nat): (r: Ball)
    ensures r.rect == b.rect && r.speed == b.speed
    ensures ExitsVertically(b.rect, windowHeight) ==> (r.angle + b.angle) % 360 == 0
    ensures !ExitsVertically(b.rect, windowHeight) ==> r.angle == b.angle
    ensures b.angle in BALL_ANGLES ==> r.angle in BALL_ANGLES
  {
    TableClosedUnderMirror();
    if ExitsVertically(b.rect, windowHeight) then b.(angle := Mirror(b.angle)) else b
  }

  /** The two collision tests, paddle 1's first: only the heading can
      change, and a heading from the table stays one. */
  function AfterPaddles(b: Ball, p1: Rect, p2: Rect): (r: Ball)
    requires p1.h > 0.0 && p2.h > 0.0
    ensures r.rect == b.rect && r.speed == b.speed
    ensures Contact2(b.rect, p2) ==> PointsLeft(r.angle)
    ensures Contact1(b.rect, p1) && !Contact2(b.rect, p2) ==> PointsRight(r.angle)
    ensures !Contact1(b.rect, p1) && !Contact2(b.rect, p2) ==> r.angle == b.angle
    ensures b.angle in BALL_ANGLES ==> r.angle in BALL_ANGLES
  {
    b.(angle := Deflect2(b.rect, p2, Deflect1(b.rect, p1, b.angle)))
  }

  /** The ball after move_ball against the left paddle p1 and the right
      paddle p2: accelerate and advance, then the left/right edge rule, then
      the top/bottom edge rule (on the possibly recentred ball), then the two
      paddle tests. The size never changes, a heading from the table stays
      one, and the speed either grew by exactly BALL_ACCELERATION or is back
      to its initial value because the ball was reset. */
  function MovedBall(b: Ball, p1: Rect, p2: Rect, trig: Trig,
                     windowWidth: nat, windowHeight: nat, rnd: nat): (r: Ball)
    requires p1.h > 0.0 && p2.h > 0.0
    ensures r.rect.w == b.rect.w && r.rect.h == b.rect.h
    ensures b.angle in BALL_ANGLES ==> r.angle in BALL_ANGLES
    ensures ExitsHorizontally(Advanced(b, trig).rect, windowWidth) ==>
      r.speed == BALL_INIT_SPEED && r.rect == ResetRect(Advanced(b, trig).rect, windowWidth, windowHeight)
    ensures !ExitsHorizontally(Advanced(b, trig).rect, windowWidth) ==>
      r.speed == b.speed + BALL_ACCELERATION && r.rect == Advanced(b, trig).rect
  {
    AfterPaddles(AfterVerticalExit(AfterHorizontalExit(Advanced(b, trig), windowWidth, windowHeight, rnd),
                                   windowHeight),
                 p1, p2)
  }

  /** The cosine is even and the sine odd on the table's headings, as they
      are for exact trigonometry. */
  predicate Symmetric(trig: Trig) {
    forall a :: a in BALL_ANGLES ==>
      trig.cos(Mirror(a)) == trig.cos(a) && trig.sin(Mirror(a)) == -trig.sin(a)
  }

  /** The game flips the stored sine (`ball_dy *= -1`) and keeps the stored
      cosine; the model replaces the heading by its mirror. For a symmetric
      Trig the tick after a top/bottom bounce then moves the ball by
      (cos a, -sin a) times the new speed, which is what the game does. */
  lemma BounceFlipsDy(b: Ball, trig: Trig, windowHeight: nat)
    requires Symmetric(trig)
    requires b.angle in BALL_ANGLES
    requires ExitsVertically(b.rect, windowHeight)
    ensures var r := Advanced(AfterVerticalExit(b, windowHeight), trig);
      r.rect.x == b.rect.x + trig.cos(b.angle) * r.speed
      && r.rect.y == b.rect.y - trig.sin(b.angle) * r.speed
  {
  }
}
