/** The ball's headings. The game stores a heading as the cosine and sine of
    an angle taken from a fixed 16-entry table; here a heading is that angle
    itself, in whole degrees, and the cosine and sine are supplied from
    outside (see Trig). */
module Angles {

  /** BALL_ANGLES, in degrees. The first eight entries are read when the ball
      hits the left paddle, the last eight when it hits the right paddle. */
  const BALL_ANGLES: seq<int> :=
    [300, 315, 330, 0, 0, 30, 45, 60,
     240, 225, 210, 180, 180, 150, 135, 120]

  const BALL_ANGLES_SIZE: nat := 16

  /** The cosine and sine of an angle in whole degrees (cosf and sinf of the
      maths library, which is not part of this model). */
  datatype Trig = Trig(cos: int -> real, sin: int -> real)

  /** The representative of an angle in [0, 360). */
  function Normalize(a: int): (r: int)
    ensures 0 <= r < 360
    ensures (r - a) % 360 == 0
  {
    a % 360
  }

  /** The heading whose vertical component is negated and whose horizontal
      component is kept, i.e. the angle -a: what `ball_dy *= -1` does. */
  function Mirror(a: int): (r: int)
    ensures 0 <= r < 360
    ensures (r + a) % 360 == 0
  {
    (360 - a % 360) % 360
  }

  /** The heading has a positive horizontal component (cosine > 0). */
  predicate PointsRight(a: int) {
    Normalize(a) < 90 || Normalize(a) > 270
  }

  /** The heading has a negative horizontal component (cosine < 0). */
  predicate PointsLeft(a: int) {
    90 < Normalize(a) < 270
  }

  /** The table index reset_ball picks from a value of rand(): it takes the
      remainder modulo BALL_ANGLES_SIZE - 1, so the last entry is never used. */
  function ResetIndex(rnd: nat): (i: nat)
    ensures i < BALL_ANGLES_SIZE - 1
    ensures rnd < BALL_ANGLES_SIZE - 1 ==> i == rnd
  {
    rnd % (BALL_ANGLES_SIZE - 1)
  }

  /** Mirroring twice gives the heading back. */
  lemma MirrorInvolution(a: int)
    ensures Mirror(Mirror(a)) == Normalize(a)
  {
  }

  /** The right paddle's half of the table is the left paddle's half
      reflected about the vertical axis: entry i + 8 is 180 - entry i. */
  lemma TableHalvesMirror()
    ensures |BALL_ANGLES| == BALL_ANGLES_SIZE
    ensures forall i :: 0 <= i < BALL_ANGLES_SIZE / 2 ==>
      BALL_ANGLES[i + BALL_ANGLES_SIZE / 2] == Normalize(180 - BALL_ANGLES[i])
  {
  }

  /** Every entry of the left paddle's half sends the ball to the right,
      every entry of the right paddle's half sends it to the left. */
  lemma TableSides()
    ensures forall i :: 0 <= i < BALL_ANGLES_SIZE / 2 ==> PointsRight(BALL_ANGLES[i])
    ensures forall i :: BALL_ANGLES_SIZE / 2 <= i < BALL_ANGLES_SIZE ==> PointsLeft(BALL_ANGLES[i])
  {
  }

  /** Flipping the vertical direction of a heading from the table gives a
      heading from the table again, so the ball never takes a heading the
      table does not hold. */
  lemma TableClosedUnderMirror()
    ensures forall a :: a in BALL_ANGLES ==> Mirror(a) in BALL_ANGLES
  {
  }

  /** reset_ball never picks the table's last heading (120 degrees), which
      occurs nowhere else in the table. */
  lemma ResetNeverPicksLast(rnd: nat)
    ensures BALL_ANGLES[ResetIndex(rnd)] != BALL_ANGLES[BALL_ANGLES_SIZE - 1]
    ensures BALL_ANGLES[ResetIndex(rnd)] in BALL_ANGLES
  {
  }
}
