# Asteroids-style ship: the per-frame update

A small nannou game draws a ship that the player turns with A and D, pushes
forward with W, brakes with S and fires bullets from with Space.  Once per
frame the `update` function of `src/main.rs` rotates the ship, changes its
speed (thrust, brake, snap to rest or drag), fires a bullet when the
cooldown allows, moves the ship and wraps it around the edges of the window,
removes bullets by an edge test, and moves every remaining bullet by its own
speed.

This project models that update and the pieces it uses:

- `vectors.dfy` (module `Vectors`): the `(f32, f32)` pairs as `Vec2` over
  reals, `add_at_an_angle` as `AddAtAngle`, and `scalarize` through its
  square (`SquaredMagnitude`, `Negligible`, `Moving`).  cos and sin are a
  parameter `Trig`; `UnitCircle` is the assumption cos² + sin² = 1 that
  lemmas ask for when they need it.
- `controls.dfy` (module `Controls`): the keys, `RotationControl`, and the
  choice of rotation from the held keys.
- `simulation.dfy` (module `Simulation`): the constants, `Bullet`, the
  state as a value (`Snapshot`), one frame's inputs (`Frame`), each stage of
  `update` as a function on a snapshot (`Steer`, `Fire`, `Move`, `Cull`,
  `Advance`) and one frame as `Step`; then the class `Model`, whose fields
  are updated in place by `Update` and its stage methods exactly as the
  source does, each proved equal to the matching function.  The culling
  loop keeps the source's index that only advances past kept bullets.
- `properties.dfy` (module `Properties`): runs of many frames and what a
  frame, and a run, guarantees: the key priorities, exactly one speed
  branch, thrust of the right size, rest that persists, the fire cooldown
  (at most one shot per 100 ms window), the wrap, the culling test as
  written, and the bullets' drift.

The culling test is modelled as written: a bullet goes when its own x is
past the left edge, or when the SHIP is past the right, top or bottom edge.
So with the ship on screen, bullets leaving by the right, top or bottom are
kept (`ShipOnScreenCullsOnlyLeft`, `RightEscapeeKept`), and a ship past one
of those edges clears every bullet (`ShipOffScreenClearsAll`).  The wrap
runs before the cull, so the ship is usually back inside by then.

`update` applies the thrust (src/main.rs:94) before the move
(src/main.rs:122), so one 1000 ms frame with W from rest ends with speed
and position both (10, 0) (`ThrustFromRest`).

## Model

| member | source | states |
|---|---|---|
| Vectors.AddAtAngle | src/main.rs:59-62 | the pair is displaced by scalar times (cos angle, sin angle), and a zero push leaves it unchanged |
| Vectors.AddAtAngleUndone | src/main.rs:59-62 | a push by s and then by -s along the same angle gives back the original pair |
| Vectors.AddAtAngleAdds | src/main.rs:59-62 | two pushes along one angle are one push by the sum |
| Vectors.AddAtAngleLength | src/main.rs:59-62 | with cos² + sin² = 1, the push changes the pair by a vector of squared length s² |
| Vectors.SumOfSquaresPositive | src/main.rs:64-66 | x² + y² is positive when x or y is non-zero |
| Vectors.ScalarizeZeroOnlyAtRest | src/main.rs:64-66 | the square of `scalarize` is non-zero exactly when the pair is not (0, 0), so `scalarize(v) != 0.0` is `Moving(v)` |
| Vectors.NegligibleComponents | src/main.rs:98-100 | (0, 0) is below the snap threshold, and a pair below it has both components strictly within 0.001 of zero |
| Controls.RotationOf | src/main.rs:71-77 | CCW exactly when A is held, CW exactly when D is held without A, None exactly when neither is |
| Controls.AngleDirection | src/main.rs:82-86 | the sign is 0 exactly for None, positive exactly for CCW, and within -1..1 |
| Simulation.Initial | src/main.rs:49-56 | the new state is at angle 0, speed and position (0, 0), no bullets, last shot at the creation time |
| Simulation.Seconds | src/main.rs:69 | elapsed seconds are never negative and zero exactly when no milliseconds passed |
| Simulation.Rotated | src/main.rs:80-90 | CCW adds ROTATE_SPEED * secs to the angle, CW subtracts it, None leaves it |
| Simulation.SpeedBranchOf | src/main.rs:92-105 | exactly one of thrust, brake, snap, drag is chosen: W first, then S, then a negligible speed, drag otherwise |
| Simulation.Steer | src/main.rs:69-105 | position, bullets and last-shot time untouched; the angle is the rotated one, and the speed branch pushes along that new angle |
| Simulation.Fire | src/main.rs:107-118 | angle, speed and position unchanged; one bullet appended after the old ones, facing the ship's angle with the ship's speed plus the muzzle boost, and the clock noted, exactly when Space is held and more than 100 ms passed; otherwise nothing changes |
| Simulation.Moved | src/main.rs:121-124 | the displacement is always exactly the speed, and the ship stays put exactly when the speed is (0, 0), so the guard only skips a zero move |
| Simulation.Wrapped | src/main.rs:134-144 | the result is the same point on the torus (c, c + size or c - size); a coordinate inside [-size/2, size/2] is left alone; one within 3·size/2 of the centre lands inside |
| Simulation.Move | src/main.rs:121-144 | only the position changes, and each coordinate ends at the moved coordinate up to one whole turn of the viewport |
| Simulation.Doomed | src/main.rs:152-155 | a ship past the right, top or bottom edge dooms every bullet; with the ship inside those edges a bullet is doomed exactly when it is past the left edge |
| Simulation.Survivors | src/main.rs:146-162 | the culling never adds bullets |
| Simulation.SurvivorsExtend | src/main.rs:146-162 | one more bullet at the back is kept exactly when the test does not doom it |
| Simulation.CullStep | src/main.rs:147-161 | one turn of the loop: the bullet at the index is the next unseen one, and removing it or stepping past it keeps the kept-then-unseen picture |
| Simulation.SurvivorsCount | src/main.rs:146-162 | each bullet is kept exactly as many times as it occurs when the test does not doom it, and not at all otherwise |
| Simulation.Cull | src/main.rs:146-162 | only the bullets change, and they are exactly the undoomed ones, each with its multiplicity, tested against the wrapped ship position |
| Simulation.Advanced | src/main.rs:164-167 | count, order, speeds and angles kept; each position moved by its own speed |
| Simulation.Advance | src/main.rs:164-167 | only the bullets change, and each one has drifted by its own speed at its own index |
| Simulation.Step | src/main.rs:68-173 | the later stages keep the angle, speed and last-shot time set by steering and firing, and the position set by the move and wrap |
| Simulation.Model.constructor | src/main.rs:43-57 | the new model's state is `Initial(now)` |
| Simulation.Model.Update | src/main.rs:68-173 | the in-place update leaves the state equal to `Step` of the old state |
| Simulation.Model.TurnAndSteer | src/main.rs:69-105 | the in-place rotation and speed branch agree with `Steer` |
| Simulation.Model.FireIfReady | src/main.rs:107-118 | the in-place firing agrees with `Fire` |
| Simulation.Model.MoveAndWrap | src/main.rs:121-144 | the in-place move and wrap agree with `Move` |
| Simulation.Model.CullBullets | src/main.rs:146-162 | the index loop that removes in place leaves exactly `Survivors` of the old bullets |
| Simulation.Model.AdvanceBullets | src/main.rs:164-167 | the in-place drift leaves exactly `Advanced` of the old bullets |
| Properties.TurnKeys | src/main.rs:71-90 | over a whole frame, A turns counter-clockwise even with D held, D alone turns clockwise, neither leaves the angle |
| Properties.SpeedBranches | src/main.rs:92-105 | W pushes by THRUST * secs along the new angle, else S by -THRUST * secs, else a negligible speed becomes (0, 0), else both components scale by 1 - DRAG * secs |
| Properties.ThrustSize | src/main.rs:92-97 | with cos² + sin² = 1, W or S changes the speed by a vector of length exactly THRUST * secs |
| Properties.SteeredThrustSize | src/main.rs:92-97 | the same for the speed branch on its own |
| Properties.RestStays | src/main.rs:98-100 | a negligible speed with neither W nor S held becomes exactly (0, 0) |
| Properties.RestPersists | src/main.rs:92-105 | a ship at rest stays at rest for any run of frames without W or S |
| Properties.FireInStep | src/main.rs:107-118 | when firing, the bullet starts at the pre-move position with the post-rotation angle and the post-thrust speed plus 20 along it; otherwise bullets and last-shot time are untouched |
| Properties.BulletCountBound | src/main.rs:107-162 | a frame adds at most one bullet, and none when it does not fire |
| Properties.NoShotWithinCooldown | src/main.rs:107-109 | frames whose clock is within 100 ms of the last shot fire nothing |
| Properties.AtMostOneShotPerCooldown | src/main.rs:107-112 | frames whose clock readings lie in one 100 ms window fire at most one bullet between them |
| Properties.ShipMove | src/main.rs:121-144 | the ship moves by its new speed unless that speed is (0, 0), and each coordinate is then wrapped |
| Properties.WrapIsWholeTurn | src/main.rs:134-144 | the wrap shifts a coordinate by a whole viewport size or not at all, by + size past the low edge and - size past the high one |
| Properties.WrapExample | src/main.rs:126-144 | an 800 by 600 window is a 400 by 300 viewport; x = 401 wraps to 1 and x = 201 to -199 |
| Properties.ShipStaysOnScreen | src/main.rs:121-144 | a ship inside the viewport moving less than one size per axis ends the frame inside it |
| Properties.ThrustFromRest | src/main.rs:68-144 | from rest, one 1000 ms frame with W at angle 0 gives speed (10, 0) and, since the move follows the thrust, position (10, 0) |
| Properties.ThrustFromRestSteers | src/main.rs:69-97 | that frame's steering keeps angle 0 and sets the speed to (10, 0) |
| Properties.ThrustFromRestMoves | src/main.rs:121-144 | that frame's move takes the ship from the origin to (10, 0) on a 400 by 300 viewport |
| Properties.SurvivorsMembers | src/main.rs:146-162 | a bullet survives exactly when it was there and the test does not doom it |
| Properties.SurvivorsInOrder | src/main.rs:146-162 | the survivors keep their relative order |
| Properties.ShipOffScreenClearsAll | src/main.rs:152-158 | a ship past the right, top or bottom edge removes every bullet |
| Properties.ShipOnScreenCullsOnlyLeft | src/main.rs:152-158 | with the ship inside those edges, a bullet survives exactly when it is not past the left edge |
| Properties.ShipOnScreenKeepsAll | src/main.rs:146-162 | with the ship inside and no bullet past the left edge, nothing is removed |
| Properties.RightEscapeeKept | src/main.rs:152-158 | a bullet past the right edge is kept while the ship is on screen |
| Properties.TravelledLinear | src/main.rs:164-167 | moving by v on each of n ticks moves by n times v |
| Properties.DriftOverTicks | src/main.rs:164-167 | after n advances each bullet keeps its speed, angle and place, and each coordinate has moved by its speed on every tick |
| Properties.DriftIsLinear | src/main.rs:164-167 | after n advances each bullet has moved by n times its speed |

## Left out

- Drawing (`view`, `draw_ship`, `draw_bullets`, `draw_stars`, src/main.rs:175-231), the window, the cursor and the ship texture (src/main.rs:44-46): rendering and platform I/O.
- Floating point: f32 values are exact reals, so rounding, overflow to infinity and NaN are not modelled; ROTATE_SPEED is the exact value of f32 PI.
- `cos` and `sin` come from the platform; they are the parameter `Trig`, and only lemmas that need it assume cos² + sin² = 1.
- `scalarize`'s square root: the model compares the squared length with 0.001² (`Negligible`), equivalent over the reals, and treats `scalarize(v) != 0.0` as `v != (0, 0)` (`Moving`, justified by `ScalarizeZeroOnlyAtRest`).
- The clock: `Instant` readings are integer milliseconds supplied in `Frame`, and the frame's elapsed time is supplied as whole milliseconds; the second `Instant::now()` of line 112 is taken to read the same time as the one of line 107, so a shot sets the last-shot time to the frame's `now`.
- The `u128` width of `as_millis()` and the `u32` window size: integers are unbounded; an earlier-than-last-shot reading saturates to 0 as `Instant` subtraction does.
- The window size query (`inner_size_pixels`) is a parameter of `Frame`; its integer halving is modelled.
- The key set is abstracted to the five keys the update reads; other held keys play no part.
