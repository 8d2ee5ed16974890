# Pong: a verified model of the per-tick game update

This project models the simulation core of a two-player Pong game written in C
on SDL2 (`src/main.c`), and proves properties of it:

- the key handlers that start and stop the two paddles;
- the paddle move with its clamp to a vertical band;
- the ball reset;
- the ball move: acceleration, advance, left/right exit, top/bottom bounce;
- the two paddle collision handlers, which pick one of eight buckets on the
  paddle and read a reflection angle from a 16-entry table.

Three modules, one per concern of the game:

- `Angles` (`angles.dfy`) holds the angle table `BALL_ANGLES` in whole
  degrees. It also has the vertical mirror of a heading (what `ball_dy *= -1`
  does), the left/right predicates, and the table index that `reset_ball`
  draws from a value of `rand()`.
- `Physics` (`physics.dfy`) holds the rectangles and the geometry of one tick:
  C's truncating `(int)` conversion, the paddle clamp, the reset position, the
  exit and contact tests, the bucket computation, and the ball move as a
  composition of its phases (`MovedBall`).
- `Pong` (`pong.dfy`) holds the game structure as a class `Game` whose methods
  update its fields in place, as the C functions do through their
  `struct game *`. Each method other than the two key handlers is proved
  against the `Physics` functions; the key handlers state their new
  velocities outright. Every method also keeps `Valid()`. `Valid()` says that
  the sizes are fixed, the heading is a table entry, the speed is at least its
  initial value, and each paddle velocity is -5, 0 or +5.

Modelling choices:

- Coordinates are exact reals.
- The ball's direction is the table angle in degrees. `ball_dx` and `ball_dy`
  are its cosine and sine, taken from a `Trig` parameter that stands for
  `cosf`/`sinf`. The C code stores the cosine and sine when `reset_ball` or a
  collision handler sets the heading. The model applies them when the ball
  advances. For a heading set by a reset or a collision, both give the same
  values for a deterministic `cosf`/`sinf`.
- A top/bottom bounce replaces the heading by its negation (`Mirror`). The game
  instead negates the stored sine. The two agree when the cosine is even and the
  sine is odd on the table's headings (`Symmetric`), as `BounceFlipsDy` proves.
- The window size is passed as explicit parameters. The game reads it from
  `SDL_GL_GetDrawableSize`.
- `rand()` is replaced by a natural-number parameter `rnd`.
- `Game.Step` is the three update calls of one game-loop iteration.

Two facts about the code:

- Only `reset_ball` and the per-tick acceleration change the speed; neither
  the wall bounce nor a paddle hit does.
- Because `(int)` truncates towards zero, the bucket is in 0..7 exactly when
  the ball's centre lies in (paddle top − height/8, paddle bottom).

## Model

| member | source | states |
|---|---|---|
| `Pong.Game.HandleKeyDown` | src/main.c:158-176 | W sets paddle 1's velocity to -5 and S to +5. Up and Down do the same for paddle 2. Any other key changes nothing. Only the two velocities can change. Valid() is kept. |
| `Pong.Game.HandleKeyUp` | src/main.c:184-202 | Releasing W or S sets paddle 1's velocity to 0, and Up or Down sets paddle 2's. Any other key changes nothing. Valid() is kept. |
| `Pong.Game.MovePaddle` | src/main.c:322-336 | Only the chosen paddle's y changes; the other paddle and the ball are untouched. The new y is the clamp of y + dy. If the window height is at least paddle height + 40, the paddle then lies in its band. |
| `Physics.ClampedY` | src/main.c:327-335 | If the window height is at least h + 40, the result lies in [20, windowHeight − h − 20]. A moved top already inside the band is kept as y + dy. A top above the band goes to the top limit 20. A top inside the upper limit whose bottom is below the band goes to the bottom limit windowHeight − h − 20. |
| `Physics.PaddleStaysInBand` | src/main.c:322-336 | After any non-empty sequence of paddle moves, a paddle lies in its band, and so does one that starts there. Holds whenever the window is tall enough for the band. |
| `Physics.InitialPaddleY` | src/main.c:124-132 | init_game's paddle top is windowHeight/2 − 20 in integer arithmetic. The paddle starts inside its band if and only if the window height is at least 80. The paddle's centre is exactly the window's centre on an even height and exactly half a pixel above it on an odd one. |
| `Pong.Game.constructor` | src/main.c:111-134 | The ball gets size 10×10 and is reset. Paddle 1 is at x 0 and paddle 2 at x windowWidth − 10, both at InitialPaddleY, both size 10×40 and still. Valid() holds. Both paddles are in their band whenever windowHeight ≥ 80. |
| `Physics.ResetRect` | src/main.c:65-66 | The ball keeps its size. Its centre moves to the integer half of the window size: exactly the window centre on an even dimension, exactly half a pixel short of it on an odd one. |
| `Angles.ResetIndex` | src/main.c:69 | The index drawn from rand() is always in 0..14, never 15. For rnd < 15 it is rnd itself. |
| `Angles.ResetNeverPicksLast` | src/main.c:68-71 | Reset never gives the ball the last table heading, 120 degrees. The chosen heading is always a table entry. |
| `Pong.Game.ResetBall` | src/main.c:58-73 | The ball is placed by ResetRect. Its heading becomes the table entry at ResetIndex(rnd). Its speed becomes 3. Nothing else changes. Valid() is kept. |
| `Physics.Advanced` | src/main.c:293-295 | The speed grows by exactly 0.005. The ball moves by its heading's cosine and sine times the new speed. The heading and the size are kept. |
| `Physics.AfterHorizontalExit` | src/main.c:302-305 | A ball out through the left or right edge is recentred, with the heading at ResetIndex(rnd) and speed 3. Any other ball is unchanged. |
| `Physics.AfterVerticalExit` | src/main.c:307-309 | A ball out through the top or bottom edge has its heading negated (mod 360). Nothing else changes. A table heading stays a table heading. |
| `Physics.AfterPaddles` | src/main.c:311-312 | Only the heading changes. Contact with paddle 2, tested last, sends the ball left. Contact with paddle 1 alone sends it right. Without either contact the heading is kept. |
| `Physics.MovedBall` | src/main.c:293-312 | The ball keeps its size and a table heading stays one. If the advanced ball exits left or right, the speed is back to 3 and the ball is at the reset position. Otherwise the speed grew by exactly 0.005 and the ball is at the advanced position. |
| `Pong.Game.MoveBall` | src/main.c:291-313 | The new ball, heading and speed are MovedBall of the old ones against the current paddles. Valid() is kept. |
| `Pong.Game.Step` | src/main.c:361-363 | Both paddles move by their own velocity and the ball moves against the moved paddles. Valid() is kept. Both paddles are in their band whenever windowHeight ≥ 80. |
| `Physics.ExitsHorizontally` | src/main.c:302-303 | The ball has left through the left edge (x < 0) or the right edge (right edge beyond the window width). Touching an edge is not an exit. |
| `Physics.ExitsVertically` | src/main.c:307 | The ball has left through the top edge (y < 0) or the bottom edge (bottom edge beyond the window height). Touching an edge is not an exit. |
| `Physics.InRangeY` | src/main.c:245 | The vertical range test of both collision handlers: the ball's and the paddle's vertical extents overlap, and touching counts. |
| `Physics.Contact1` | src/main.c:244-245 | The left paddle's test: the ball's left edge is at most one pixel right of the paddle's right edge, with no lower bound on x, and InRangeY holds. |
| `Physics.Contact2` | src/main.c:270-271 | The right paddle's test: the ball's right edge is at least the paddle's left edge less one pixel, with no upper bound on x, and InRangeY holds. |
| `Physics.ContactTestsAtEdges` | src/main.c:244-271 | For non-negative sizes, a ball whose bottom edge equals the paddle's top, or whose top edge equals the paddle's bottom, is in range. A ball in range anywhere left of the left paddle's x is in contact with it, and one anywhere right of the right paddle's x is in contact with that. |
| `Physics.Trunc` | src/main.c:252 | C's `(int)` conversion rounds towards zero. For x ≥ 0 the result is the floor; for x < 0 it is the ceiling. |
| `Physics.RawBucket` | src/main.c:250-252 | The bucket as written is in 0..7 if and only if the ball's centre lies strictly between p.y − p.h/8 and p.y + p.h. |
| `Physics.ContactBucketRange` | src/main.c:245-252 | With the game's sizes, every y-range contact gives a raw bucket in −1..9. −1 occurs only when the ball's bottom exactly touches the paddle's top; 9 only when the ball's top exactly touches its bottom. |
| `Physics.Paddle1ReadsRightHalf` | src/main.c:244-254 | A contact the left paddle's test admits gives bucket 8. Entry 8 sends the ball left, back into the left wall. |
| `Physics.Paddle1ReadsBeforeTable` | src/main.c:244-254 | A contact the left paddle's test admits gives bucket −1, an index before the table. |
| `Physics.Paddle2ReadsPastTable` | src/main.c:270-280 | A contact the right paddle's test admits gives an index of at least 16, past the end of the table. |
| `Physics.Paddle2ReadsLeftHalf` | src/main.c:270-280 | A contact the right paddle's test admits gives index 7. Entry 7 belongs to the left paddle and sends the ball on to the right. |
| `Physics.BounceFlipsDy` | src/main.c:307-309 | If the cosine is even and the sine odd on the table's headings, the tick after a top/bottom bounce moves the ball by (cos a, −sin a) times the new speed. That is the game's step after `ball_dy *= -1`. |
| `Physics.Bucket` | src/main.c:250-252 | The corrected bucket is always in 0..7. It equals the bucket as written whenever that one is valid, and is clamped to 0 or 7 otherwise. |
| `Physics.Deflect1` | src/main.c:244-256 | Without contact the heading is unchanged. On contact it is entry Bucket of the first half of the table, a heading that points right. |
| `Physics.Deflect2` | src/main.c:270-282 | Without contact the heading is unchanged. On contact it is entry Bucket + 8, which points left and equals 180° minus paddle 1's entry for the same bucket (mod 360). |
| `Pong.Game.HandlePaddle1Collision` | src/main.c:239-257 | The heading becomes Deflect1 of the ball against paddle 1. Nothing else changes. Valid() is kept. |
| `Pong.Game.HandlePaddle2Collision` | src/main.c:265-283 | The heading becomes Deflect2 of the ball against paddle 2. Nothing else changes. Valid() is kept. |
| `Angles.TableHalvesMirror` | src/main.c:18-23 | The table has 16 entries. For each i in 0..7, entry i + 8 is 180° − entry i (mod 360). |
| `Angles.TableSides` | src/main.c:18-22 | Entries 0..7 point right (positive cosine); entries 8..15 point left (negative cosine). |
| `Angles.TableClosedUnderMirror` | src/main.c:18-22 | Negating any table heading gives a table heading again, so a vertical bounce never leaves the table. |
| `Angles.Mirror` | src/main.c:308 | The bounced heading lies in [0, 360) and is the negation of the old one mod 360: cosine kept, sine negated. |
| `Angles.MirrorInvolution` | src/main.c:308 | Bouncing twice gives back the original heading (normalised). |

## Findings

| source | as written | input that shows it | evidently intended | confidence | as-written member | corrected member |
|---|---|---|---|---|---|---|
| src/main.c:244-254 | The left paddle's test admits a ball up to half its height beyond either end of the paddle. `angles[bucket]` is then read with bucket −1 (before the table) or 8 and 9 (the right paddle's entries, which send the ball left). | paddle 1 at (0, 100, 10×40): ball at (5, 135) gives bucket 8; ball at (5, 90) gives bucket −1 | A ball touching an end of the paddle gets that end's bucket (0 or 7), so it always leaves to the right. | not executed | `Physics.Paddle1ReadsBeforeTable` | `Physics.Deflect1` |
| src/main.c:270-280 | The right paddle's test admits the same overhang. `angles[bucket + 8]` is then read at 7 (a rightward entry of paddle 1) or at 16 and 17 (past the end of the table). | paddle 2 at (490, 100, 10×40): ball at (485, 140) gives bucket 9, index 17; ball at (485, 90) gives index 7 | A ball touching an end of the paddle gets that end's bucket, so it always leaves to the left. | not executed | `Physics.Paddle2ReadsPastTable` | `Physics.Deflect2` |

`Physics.RawBucket` is the bucket as written. `Physics.Paddle1ReadsRightHalf`
states the second case of the first row, and `Physics.Paddle2ReadsLeftHalf` the
first case of the second row. The collision handlers of the model use
the corrected `Physics.Bucket`.

## Left out

- SDL initialisation and teardown (`SDL_Init`, window and renderer creation, their failure exits, `free_game`): foreign library calls and process exit.
- `poll_events`, `prepare_scene`, `draw_white_rect`, the `game_loop` loop itself, `SDL_RenderPresent`, `SDL_Delay` and the `is_running` flag: event input, rendering and frame timing. `Game.Step` models only the updates of one iteration.
- `cosf`/`sinf`: they are the `Trig` parameter, and the ball-move members assume no property of it. The model's heading after a top/bottom bounce matches the game's negated `ball_dy` only when the cosine is even and the sine odd on the table's headings (`Symmetric`). For single-precision `cosf`/`sinf` that can fail by a rounding error.
- Single-precision floating point: coordinates, speed and the product of direction and speed are exact reals, with no rounding.
- `rand()`: the random number generator is not modelled. Its result is the parameter `rnd`.
- `SDL_GL_GetDrawableSize`: the window size is given as non-negative parameters. Inside `Step` all three calls see the same size, while the game queries it at every call.
- `RawBucket`, `Bucket`, `Deflect1`, `Deflect2`: these require a positive paddle height. The game only ever uses 40. A zero height would make the C code divide by zero in floating point, which is not modelled.
