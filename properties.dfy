// What one call of `update`, and a run of them, guarantees.

module Properties {
  import opened Vectors
  import opened Controls
  import opened Simulation

  // ----------------------------------------------------------- several frames

  /** The state after `update` has run once per frame, in order. */
  function Run(s: Snapshot, frames: seq<Frame>, t: Trig): Snapshot
    decreases |frames|
  {
    if frames == [] then s else Run(Step(s, frames[0], t), frames[1..], t)
  }

  /** How many of those frames pushed a bullet. */
  function ShotsFired(s: Snapshot, frames: seq<Frame>, t: Trig): nat
    decreases |frames|
  {
    if frames == [] then 0
    else (if Fires(frames[0].keys, frames[0].now, s.lastFired) then 1 else 0) +
         ShotsFired(Step(s, frames[0], t), frames[1..], t)
  }

  // ----------------------------------------------------------------- rotation

  /** A turns counter-clockwise whether or not D is held; D turns clockwise
      only without A; with neither key the angle does not change. */
  lemma TurnKeys(s: Snapshot, f: Frame, t: Trig)
    ensures A in f.keys ==> Step(s, f, t).angle == s.angle + ROTATE_SPEED * Seconds(f.elapsedMillis)
    ensures A !in f.keys && D in f.keys ==> Step(s, f, t).angle == s.angle - ROTATE_SPEED * Seconds(f.elapsedMillis)
    ensures A !in f.keys && D !in f.keys ==> Step(s, f, t).angle == s.angle
  {
  }

  // ------------------------------------------------------------------- speed

  /** Exactly one speed branch runs, in priority W, S, snap, drag; thrust and
      brake push along the angle after this frame's rotation. */
  lemma SpeedBranches(speed: Vec2, keys: set<Key>, secs: real, angle: real, t: Trig)
    ensures var r := Steered(speed, keys, secs, angle, t);
      (W in keys ==> r == AddAtAngle(speed, THRUST * secs, angle, t)) &&
      (W !in keys && S in keys ==> r == AddAtAngle(speed, -THRUST * secs, angle, t)) &&
      (W !in keys && S !in keys && Negligible(speed) ==> r == Zero) &&
      (W !in keys && S !in keys && !Negligible(speed) ==>
         r == Vec2(speed.x * (1.0 - DRAG * secs), speed.y * (1.0 - DRAG * secs)))
  {
    assert -1.0 * THRUST * secs == -THRUST * secs;
  }

  /** With cos and sin on the unit circle, W or S changes the speed by a
      vector of length exactly THRUST * secs. */
  lemma ThrustSize(s: Snapshot, f: Frame, t: Trig)
    requires UnitCircle(t)
    requires W in f.keys || S in f.keys
    ensures var secs := Seconds(f.elapsedMillis);
      SquaredMagnitude(Minus(Step(s, f, t).speed, s.speed)) == (THRUST * secs) * (THRUST * secs)
  {
    var secs := Seconds(f.elapsedMillis);
    var angle := Steer(s, f, t).angle;
    assert Step(s, f, t).speed == Steered(s.speed, f.keys, secs, angle, t);
    SteeredThrustSize(s.speed, f.keys, secs, angle, t);
  }

  /** The same for the speed branch alone. */
  lemma SteeredThrustSize(speed: Vec2, keys: set<Key>, secs: real, angle: real, t: Trig)
    requires UnitCircle(t)
    requires W in keys || S in keys
    ensures SquaredMagnitude(Minus(Steered(speed, keys, secs, angle, t), speed)) == (THRUST * secs) * (THRUST * secs)
  {
    SpeedBranches(speed, keys, secs, angle, t);
    if W in keys {
      AddAtAngleLength(speed, THRUST * secs, angle, t);
    } else {
      AddAtAngleLength(speed, -THRUST * secs, angle, t);
      assert (-THRUST * secs) * (-THRUST * secs) == (THRUST * secs) * (THRUST * secs);
    }
  }

  /** A ship at rest with neither W nor S held stays exactly at rest. */
  lemma RestStays(s: Snapshot, f: Frame, t: Trig)
    requires Negligible(s.speed)
    requires W !in f.keys && S !in f.keys
    ensures Step(s, f, t).speed == Zero
  {
    SpeedBranches(s.speed, f.keys, Seconds(f.elapsedMillis), Steer(s, f, t).angle, t);
  }

  /** A ship at rest stays exactly at rest for any number of frames without
      W or S; a negligible speed snaps to rest in the first of them. */
  lemma {:induction false} RestPersists(s: Snapshot, frames: seq<Frame>, t: Trig)
    requires Negligible(s.speed)
    requires forall i :: 0 <= i < |frames| ==> W !in frames[i].keys && S !in frames[i].keys
    ensures frames != [] ==> Step(s, frames[0], t).speed == Zero
    ensures s.speed == Zero || frames != [] ==> Run(s, frames, t).speed == Zero
    decreases |frames|
  {
    if frames != [] {
      RestStays(s, frames[0], t);
      var next := Step(s, frames[0], t);
      NegligibleComponents(next.speed);
      assert forall i :: 0 <= i < |frames[1..]| ==> frames[1..][i] == frames[i + 1];
      RestPersists(next, frames[1..], t);
    }
  }

  // ------------------------------------------------------------------ firing

  /** The firing stage as it sits inside a frame: when Space is held and the
      cooldown is over, exactly one bullet is appended, the time of the last
      shot becomes `now`, and the bullet starts at the ship's position from
      before this frame's move, faces the ship's new angle, and has the ship's
      new speed plus MUZZLE_BOOST along that angle.  Otherwise the bullets and
      the time of the last shot are untouched. */
  lemma FireInStep(s: Snapshot, f: Frame, t: Trig)
    ensures var r, fired := Step(s, f, t), Fire(Steer(s, f, t), f, t);
      if Fires(f.keys, f.now, s.lastFired) then
        r.lastFired == f.now &&
        fired.bullets == s.bullets + [Bullet(AddAtAngle(r.speed, MUZZLE_BOOST, r.angle, t), s.position, r.angle)]
      else
        r.lastFired == s.lastFired && fired.bullets == s.bullets
  {
    var steered := Steer(s, f, t);
    var fired := Fire(steered, f, t);
    if Fires(f.keys, f.now, s.lastFired) {
      assert fired.bullets == steered.bullets + [Shot(steered, t)];
    }
  }

  /** One frame adds at most one bullet, and none when it does not fire. */
  lemma BulletCountBound(s: Snapshot, f: Frame, t: Trig)
    ensures |Step(s, f, t).bullets| <= |s.bullets| + (if Fires(f.keys, f.now, s.lastFired) then 1 else 0)
  {
    var width, height := Logical(f.pixelWidth), Logical(f.pixelHeight);
    var moved := Move(Fire(Steer(s, f, t), f, t), width, height);
    assert |Survivors(moved.bullets, moved.position, Half(width), Half(height))| <= |moved.bullets|;
  }

  /** No shot while every frame's clock reading is within FIRE_COOLDOWN
      milliseconds of the last shot. */
  lemma {:induction false} NoShotWithinCooldown(s: Snapshot, frames: seq<Frame>, t: Trig)
    requires forall i :: 0 <= i < |frames| ==> frames[i].now <= s.lastFired + FIRE_COOLDOWN
    ensures ShotsFired(s, frames, t) == 0
    decreases |frames|
  {
    if frames != [] {
      assert !Fires(frames[0].keys, frames[0].now, s.lastFired);
      FireInStep(s, frames[0], t);
      NoShotWithinCooldown(Step(s, frames[0], t), frames[1..], t);
    }
  }

  /** The cooldown: however long Space is held, frames whose clock readings
      all lie within one window of FIRE_COOLDOWN milliseconds fire at most
      one bullet between them. */
  lemma {:induction false} AtMostOneShotPerCooldown(s: Snapshot, frames: seq<Frame>, t: Trig, start: int)
    requires forall i :: 0 <= i < |frames| ==> start <= frames[i].now <= start + FIRE_COOLDOWN
    ensures ShotsFired(s, frames, t) <= 1
    decreases |frames|
  {
    if frames != [] {
      var next := Step(s, frames[0], t);
      FireInStep(s, frames[0], t);
      if Fires(frames[0].keys, frames[0].now, s.lastFired) {
        NoShotWithinCooldown(next, frames[1..], t);
      } else {
        AtMostOneShotPerCooldown(next, frames[1..], t, start);
      }
    }
  }

  // ------------------------------------------------------------- ship motion

  /** The ship moves by exactly its (new) speed when that speed is not (0, 0)
      and stays put when it is; the result is then wrapped. */
  lemma ShipMove(s: Snapshot, f: Frame, t: Trig)
    ensures var r := Step(s, f, t);
      var before := if r.speed == Zero then s.position else Plus(s.position, r.speed);
      r.position == Vec2(Wrapped(before.x, Logical(f.pixelWidth)), Wrapped(before.y, Logical(f.pixelHeight)))
  {
  }

  /** The wrap moves a coordinate by a whole viewport size or not at all, so
      it is the same point on the torus. */
  lemma WrapIsWholeTurn(c: real, size: nat)
    ensures Wrapped(c, size) == c || Wrapped(c, size) == c + size as real || Wrapped(c, size) == c - size as real
    ensures c < -Half(size) ==> Wrapped(c, size) == c + size as real
    ensures c > Half(size) ==> Wrapped(c, size) == c - size as real
  {
  }

  /** The 800 by 600 pixel window is a 400 by 300 viewport, so x = 401 lies
      past the right edge at 200 and wraps to 1; adding the width back gives
      the original 401. */
  lemma WrapExample()
    ensures Logical(800) == 400 && Logical(600) == 300
    ensures Wrapped(401.0, Logical(800)) == 1.0
    ensures Wrapped(401.0, Logical(800)) + Logical(800) as real == 401.0
    ensures Wrapped(201.0, Logical(800)) == 201.0 - 400.0
  {
  }

  /** The ship stays on screen: starting inside the viewport and moving less
      than one viewport size per axis, it ends the frame inside it. */
  lemma ShipStaysOnScreen(s: Snapshot, f: Frame, t: Trig)
    requires var w, h := Logical(f.pixelWidth), Logical(f.pixelHeight);
      -Half(w) <= s.position.x <= Half(w) && -Half(h) <= s.position.y <= Half(h)
    requires var r := Step(s, f, t);
      -(Logical(f.pixelWidth) as real) <= r.speed.x <= Logical(f.pixelWidth) as real &&
      -(Logical(f.pixelHeight) as real) <= r.speed.y <= Logical(f.pixelHeight) as real
    ensures var w, h, r := Logical(f.pixelWidth), Logical(f.pixelHeight), Step(s, f, t);
      -Half(w) <= r.position.x <= Half(w) && -Half(h) <= r.position.y <= Half(h)
  {
    var w, h, r := Logical(f.pixelWidth), Logical(f.pixelHeight), Step(s, f, t);
    ShipMove(s, f, t);
    var before := if r.speed == Zero then s.position else Plus(s.position, r.speed);
    assert -3.0 * Half(w) <= before.x <= 3.0 * Half(w);
    assert -3.0 * Half(h) <= before.y <= 3.0 * Half(h);
  }

  /** Thrust from rest: at the origin, facing angle 0, one 1000 ms frame with
      W held sets the speed to (10 cos 0, 10 sin 0) and moves the ship by that
      new speed in the same frame, because the move follows the thrust. */
  lemma ThrustFromRest(f: Frame, t: Trig, now: int)
    requires f.keys == {W} && f.elapsedMillis == 1000
    requires f.pixelWidth == 800 && f.pixelHeight == 600
    requires t.cos(0.0) == 1.0 && t.sin(0.0) == 0.0
    ensures Step(Initial(now), f, t).speed == Vec2(10.0, 0.0)
    ensures Step(Initial(now), f, t).position == Vec2(10.0, 0.0)
  {
    var s := Initial(now);
    ThrustFromRestSteers(f, t, now);
    WrapExample();
    ThrustFromRestMoves(Fire(Steer(s, f, t), f, t));
  }

  /** The move and wrap of that frame on the 400 by 300 viewport: the ship
      at the origin moves by (10, 0), which is well inside. */
  lemma ThrustFromRestMoves(s: Snapshot)
    requires s.speed == Vec2(10.0, 0.0) && s.position == Zero
    ensures Move(s, 400, 300).position == Vec2(10.0, 0.0)
  {
    assert Wrapped(10.0, 400) == 10.0 && Wrapped(0.0, 300) == 0.0;
  }

  /** The steering of that frame: no rotation key, so the angle stays 0, and
      W pushes the zero speed by THRUST * 1 along angle 0. */
  lemma ThrustFromRestSteers(f: Frame, t: Trig, now: int)
    requires f.keys == {W} && f.elapsedMillis == 1000
    requires t.cos(0.0) == 1.0 && t.sin(0.0) == 0.0
    ensures Steer(Initial(now), f, t).speed == Vec2(10.0, 0.0)
    ensures Steer(Initial(now), f, t).position == Zero
  {
    assert Seconds(f.elapsedMillis) == 1.0;
    assert RotationOf(f.keys) == None;
    assert Steer(Initial(now), f, t).angle == 0.0;
    SpeedBranches(Zero, f.keys, 1.0, 0.0, t);
    assert AddAtAngle(Zero, THRUST * 1.0, 0.0, t) == Vec2(10.0, 0.0);
  }

  // ---------------------------------------------------------------- culling

  /** A bullet is kept exactly when it was there and the test does not doom it. */
  lemma {:induction false} SurvivorsMembers(bs: seq<Bullet>, ship: Vec2, halfWidth: real, halfHeight: real)
    ensures forall b :: b in Survivors(bs, ship, halfWidth, halfHeight) <==>
      b in bs && !Doomed(b, ship, halfWidth, halfHeight)
    decreases |bs|
  {
    if bs != [] {
      var init, last := bs[..|bs| - 1], bs[|bs| - 1];
      assert bs == init + [last];
      SurvivorsMembers(init, ship, halfWidth, halfHeight);
    }
  }

  /** `a` is `b` with some elements left out, the rest in the same order. */
  ghost predicate IsSubsequence(a: seq<Bullet>, b: seq<Bullet>)
    decreases |b|
  {
    if a == [] then true
    else if b == [] then false
    else if a[|a| - 1] == b[|b| - 1] then IsSubsequence(a[..|a| - 1], b[..|b| - 1])
    else IsSubsequence(a, b[..|b| - 1])
  }

  /** The culling keeps the survivors in their original relative order. */
  lemma {:induction false} SurvivorsInOrder(bs: seq<Bullet>, ship: Vec2, halfWidth: real, halfHeight: real)
    ensures IsSubsequence(Survivors(bs, ship, halfWidth, halfHeight), bs)
    decreases |bs|
  {
    if bs != [] {
      var init, last := bs[..|bs| - 1], bs[|bs| - 1];
      var kept := Survivors(init, ship, halfWidth, halfHeight);
      SurvivorsInOrder(init, ship, halfWidth, halfHeight);
      if !Doomed(last, ship, halfWidth, halfHeight) {
        assert (kept + [last])[..|kept|] == kept;
      } else if kept != [] {
        SurvivorsMembers(init, ship, halfWidth, halfHeight);
        assert kept[|kept| - 1] in kept;
        assert kept[|kept| - 1] != last;
      }
    }
  }

  /** When the ship itself is past the right, top or bottom edge, every bullet
      is removed, wherever the bullets are. */
  lemma {:induction false} ShipOffScreenClearsAll(bs: seq<Bullet>, ship: Vec2, halfWidth: real, halfHeight: real)
    requires ship.x > halfWidth || ship.y < -halfHeight || ship.y > halfHeight
    ensures Survivors(bs, ship, halfWidth, halfHeight) == []
    decreases |bs|
  {
    if bs != [] {
      ShipOffScreenClearsAll(bs[..|bs| - 1], ship, halfWidth, halfHeight);
    }
  }

  /** When the ship is inside those three edges, only bullets past the left
      edge are removed: bullets past the right, top or bottom edge stay. */
  lemma ShipOnScreenCullsOnlyLeft(bs: seq<Bullet>, ship: Vec2, halfWidth: real, halfHeight: real)
    requires ship.x <= halfWidth && -halfHeight <= ship.y <= halfHeight
    ensures forall b :: b in Survivors(bs, ship, halfWidth, halfHeight) <==>
      b in bs && b.position.x >= -halfWidth
  {
    SurvivorsMembers(bs, ship, halfWidth, halfHeight);
  }

  /** ... so with the ship inside them and no bullet past the left edge,
      nothing is removed at all, whatever the other edges say. */
  lemma {:induction false} ShipOnScreenKeepsAll(bs: seq<Bullet>, ship: Vec2, halfWidth: real, halfHeight: real)
    requires ship.x <= halfWidth && -halfHeight <= ship.y <= halfHeight
    requires forall i :: 0 <= i < |bs| ==> bs[i].position.x >= -halfWidth
    ensures Survivors(bs, ship, halfWidth, halfHeight) == bs
    decreases |bs|
  {
    if bs != [] {
      var init := bs[..|bs| - 1];
      assert forall i :: 0 <= i < |init| ==> init[i] == bs[i];
      ShipOnScreenKeepsAll(init, ship, halfWidth, halfHeight);
      assert bs == init + [bs[|bs| - 1]];
    }
  }

  /** The literal test at work: with the ship on screen, a bullet far past
      the right edge is kept. */
  lemma RightEscapeeKept(b: Bullet, ship: Vec2, halfWidth: real, halfHeight: real)
    requires halfWidth >= 0.0
    requires ship.x <= halfWidth && -halfHeight <= ship.y <= halfHeight
    requires b.position.x > halfWidth
    ensures Survivors([b], ship, halfWidth, halfHeight) == [b]
  {
    assert [b][..0] == [];
  }

  // ---------------------------------------------------------------- advance

  /** The bullets after `n` advances with nothing removed. */
  function AdvancedTimes(bs: seq<Bullet>, n: nat): (r: seq<Bullet>)
    ensures |r| == |bs|
  {
    if n == 0 then bs else Advanced(AdvancedTimes(bs, n - 1))
  }

  /** A coordinate moved by `v` on each of `n` ticks. */
  function Travelled(p: real, v: real, n: nat): real
  {
    if n == 0 then p else Travelled(p, v, n - 1) + v
  }

  /** Moving by `v` on each of `n` ticks moves by n times `v`. */
  lemma {:induction false} TravelledLinear(p: real, v: real, n: nat)
    ensures Travelled(p, v, n) == p + n as real * v
  {
    if n > 0 {
      TravelledLinear(p, v, n - 1);
    }
  }

  /** After n advances every bullet has kept its speed, its angle and its
      place in the order, and each coordinate has moved by its speed on every
      tick. */
  lemma {:induction false} DriftOverTicks(bs: seq<Bullet>, n: nat, i: nat)
    requires i < |bs|
    ensures var b, b0 := AdvancedTimes(bs, n)[i], bs[i];
      b.speed == b0.speed && b.angle == b0.angle &&
      b.position == Vec2(Travelled(b0.position.x, b0.speed.x, n), Travelled(b0.position.y, b0.speed.y, n))
  {
    if n > 0 {
      DriftOverTicks(bs, n - 1, i);
    }
  }

  /** The same drift stated with the multiplication: n ticks move a bullet by
      n times its speed. */
  lemma {:induction false} DriftIsLinear(bs: seq<Bullet>, n: nat, i: nat)
    requires i < |bs|
    ensures var b, b0 := AdvancedTimes(bs, n)[i], bs[i];
      b.position == Vec2(b0.position.x + n as real * b0.speed.x, b0.position.y + n as real * b0.speed.y)
  {
    DriftOverTicks(bs, n, i);
    TravelledLinear(bs[i].position.x, bs[i].speed.x, n);
    TravelledLinear(bs[i].position.y, bs[i].speed.y, n);
  }
}
