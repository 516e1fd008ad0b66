// The per-frame simulation step of the ship and its bullets (`update` in
// src/main.rs).  Every stage is first given as a function on a snapshot of
// the state; the class `Model` then performs the same stages in place, the
// way the source does, and `Update` is proved to agree with `Step`.

module Simulation {
  import opened Vectors
  import opened Controls

  /** 0.5 * 2.0 * PI in f32.  f32's PI is exactly 13176795 / 2^22, and the
      two factors are powers of two, so the product is that value. */
  const ROTATE_SPEED: real := 13176795.0 / 4194304.0
  const THRUST: real := 10.0
  const DRAG: real := 1.0
  /** Milliseconds that must have passed since the last shot. */
  const FIRE_COOLDOWN: nat := 100
  /** The speed a bullet gets on top of the ship's, along the ship's angle. */
  const MUZZLE_BOOST: real := 20.0

  datatype Bullet = Bullet(speed: Vec2, position: Vec2, angle: real)

  /** The ship's state and its bullets, without the texture.  `lastFired` is
      the clock reading of the last shot, in milliseconds. */
  datatype Snapshot = Snapshot(angle: real, speed: Vec2, position: Vec2, bullets: seq<Bullet>, lastFired: int)

  /** What the outside world supplies to one frame: the held keys, the
      milliseconds since the previous frame, the clock reading in
      milliseconds, and the window's size in pixels. */
  datatype Frame = Frame(keys: set<Key>, elapsedMillis: nat, now: int, pixelWidth: nat, pixelHeight: nat)

  /** The state `model` builds: everything at rest at the origin, no bullets,
      and the clock reading of creation as the last shot. */
  function Initial(now: int): (s: Snapshot)
    ensures s.speed == Zero && s.position == Zero && s.angle == 0.0
    ensures s.bullets == [] && s.lastFired == now
  {
    Snapshot(0.0, Zero, Zero, [], now)
  }

  function Seconds(millis: nat): (r: real)
    ensures r >= 0.0
    ensures r == 0.0 <==> millis == 0
  {
    millis as real / 1000.0
  }

  // ---------------------------------------------------------------- rotation

  /** The angle after the chosen rotation: it grows by ROTATE_SPEED * secs for
      CCW, shrinks by as much for CW, and stays put otherwise. */
  function Rotated(angle: real, rot: RotationControl, secs: real): (r: real)
    ensures rot == None ==> r == angle
    ensures rot == CCW ==> r == angle + ROTATE_SPEED * secs
    ensures rot == CW ==> r == angle - ROTATE_SPEED * secs
  {
    var dir := AngleDirection(rot);
    if dir != 0 then dir as real * (ROTATE_SPEED * secs) + angle else angle
  }

  // ------------------------------------------------- thrust, brake, snap, drag

  datatype SpeedBranch = Thrust | Brake | Snap | Drag

  /** Exactly one of the four speed branches runs, in a fixed priority:
      W before S, both before the snap to rest, and drag last. */
  function SpeedBranchOf(keys: set<Key>, speed: Vec2): (b: SpeedBranch)
    ensures b == Thrust <==> W in keys
    ensures b == Brake <==> W !in keys && S in keys
    ensures b == Snap <==> W !in keys && S !in keys && Negligible(speed)
    ensures b == Drag <==> W !in keys && S !in keys && !Negligible(speed)
  {
    if W in keys then Thrust
    else if S in keys then Brake
    else if Negligible(speed) then Snap
    else Drag
  }

  function DragFactor(secs: real): real
  {
    1.0 - DRAG * secs
  }

  function Steered(speed: Vec2, keys: set<Key>, secs: real, angle: real, t: Trig): Vec2
  {
    match SpeedBranchOf(keys, speed)
    case Thrust => AddAtAngle(speed, THRUST * secs, angle, t)
    case Brake => AddAtAngle(speed, -1.0 * THRUST * secs, angle, t)
    case Snap => Zero
    case Drag => Vec2(speed.x * DragFactor(secs), speed.y * DragFactor(secs))
  }

  /** Rotation, then the speed branch, which pushes along the new angle.
      The position, the bullets and the time of the last shot are untouched. */
  function Steer(s: Snapshot, f: Frame, t: Trig): (r: Snapshot)
    ensures r.position == s.position && r.bullets == s.bullets && r.lastFired == s.lastFired
    ensures r.angle == Rotated(s.angle, RotationOf(f.keys), Seconds(f.elapsedMillis))
    ensures r.speed == Steered(s.speed, f.keys, Seconds(f.elapsedMillis), r.angle, t)
  {
    var secs := Seconds(f.elapsedMillis);
    var angle := Rotated(s.angle, RotationOf(f.keys), secs);
    s.(angle := angle, speed := Steered(s.speed, f.keys, secs, angle, t))
  }

  // ------------------------------------------------------------------ firing

  /** `(now - last_fired).as_millis()`: subtracting a later instant from an
      earlier one gives a zero duration rather than a negative one. */
  function ElapsedMillis(now: int, since: int): nat
  {
    if now >= since then now - since else 0
  }

  predicate Fires(keys: set<Key>, now: int, lastFired: int)
  {
    Space in keys && ElapsedMillis(now, lastFired) > FIRE_COOLDOWN
  }

  /** The shot leaves from where the ship is, facing the ship's way, with the
      ship's speed plus MUZZLE_BOOST along the ship's angle. */
  function Shot(s: Snapshot, t: Trig): Bullet
  {
    Bullet(AddAtAngle(s.speed, MUZZLE_BOOST, s.angle, t), s.position, s.angle)
  }

  /** At most one bullet is appended, and only when Space is held and more
      than FIRE_COOLDOWN milliseconds have passed; only then is the time of
      the last shot reset.  Nothing else about the state changes. */
  function Fire(s: Snapshot, f: Frame, t: Trig): (r: Snapshot)
    ensures r.angle == s.angle && r.speed == s.speed && r.position == s.position
    ensures |r.bullets| == |s.bullets| + (if Fires(f.keys, f.now, s.lastFired) then 1 else 0)
    ensures r.bullets[..|s.bullets|] == s.bullets
    ensures Fires(f.keys, f.now, s.lastFired) ==> r.lastFired == f.now && r.bullets[|s.bullets|] == Shot(s, t)
    ensures !Fires(f.keys, f.now, s.lastFired) ==> r == s
  {
    if Fires(f.keys, f.now, s.lastFired) then
      s.(bullets := s.bullets + [Shot(s, t)], lastFired := f.now)
    else
      s
  }

  // ------------------------------------------------------------ ship motion

  /** The ship moves by its speed when `scalarize(speed) != 0.0`.  Over the
      reals the guard only skips a zero move: the displacement is always the
      speed, and the ship stays put exactly when the speed is (0, 0). */
  function Moved(p: Vec2, speed: Vec2): (r: Vec2)
    ensures Minus(r, p) == speed
    ensures r == p <==> !Moving(speed)
  {
    if Moving(speed) then Plus(p, speed) else p
  }

  /** The window's pixel size halved with integer division ("retina"). */
  function Logical(pixels: nat): nat
  {
    pixels / 2
  }

  /** Half a logical size, as a float. */
  function Half(size: nat): real
  {
    size as real / 2.0
  }

  /** One coordinate's wrap on a torus of the given logical size: past the
      low edge it gains a whole size, past the high edge it loses one, and it
      is left alone in between.  A single wrap, not a clamp: the result is
      the same point on the torus, a coordinate inside is left alone, and one
      less than a whole size beyond an edge lands inside. */
  function Wrapped(c: real, size: nat): (r: real)
    ensures r == c || r == c + size as real || r == c - size as real
    ensures -Half(size) <= c <= Half(size) ==> r == c
    ensures -3.0 * Half(size) <= c <= 3.0 * Half(size) ==> -Half(size) <= r <= Half(size)
  {
    if c < -Half(size) then c + size as real
    else if c > Half(size) then c - size as real
    else c
  }

  /** The move, then the wrap of each coordinate independently, on a
      logical viewport of `width` by `height`.  Only the position changes,
      and it ends at the moved position up to a whole turn on each axis. */
  function Move(s: Snapshot, width: nat, height: nat): (r: Snapshot)
    ensures r.angle == s.angle && r.speed == s.speed && r.bullets == s.bullets && r.lastFired == s.lastFired
    ensures var p := Moved(s.position, s.speed);
      (r.position.x == p.x || r.position.x == p.x + width as real || r.position.x == p.x - width as real) &&
      (r.position.y == p.y || r.position.y == p.y + height as real || r.position.y == p.y - height as real)
  {
    var p := Moved(s.position, s.speed);
    s.(position := Vec2(Wrapped(p.x, width), Wrapped(p.y, height)))
  }

  // ---------------------------------------------------------------- culling

  /** The removal test exactly as written: the bullet's own x against the
      left edge, but the SHIP's position against the other three edges.  So a
      ship past the right, top or bottom edge dooms every bullet, and a ship
      inside those edges leaves the bullet's own left-edge test to decide. */
  predicate Doomed(b: Bullet, ship: Vec2, halfWidth: real, halfHeight: real): (r: bool)
    ensures ship.x > halfWidth || ship.y < -halfHeight || ship.y > halfHeight ==> r
    ensures ship.x <= halfWidth && -halfHeight <= ship.y <= halfHeight ==> (r <==> b.position.x < -halfWidth)
  {
    b.position.x < -halfWidth || ship.x > halfWidth || ship.y < -halfHeight || ship.y > halfHeight
  }

  /** The bullets the culling loop keeps, in their original order. */
  function Survivors(bs: seq<Bullet>, ship: Vec2, halfWidth: real, halfHeight: real): (r: seq<Bullet>)
    ensures |r| <= |bs|
  {
    if bs == [] then []
    else
      var init, last := bs[..|bs| - 1], bs[|bs| - 1];
      assert bs == init + [last];
      var kept := Survivors(init, ship, halfWidth, halfHeight);
      if Doomed(last, ship, halfWidth, halfHeight) then kept else kept + [last]
  }

  /** Survivors grows at the back exactly as the culling loop's index moves. */
  lemma SurvivorsExtend(bs: seq<Bullet>, b: Bullet, ship: Vec2, halfWidth: real, halfHeight: real)
    ensures Survivors(bs + [b], ship, halfWidth, halfHeight) ==
      Survivors(bs, ship, halfWidth, halfHeight) + (if Doomed(b, ship, halfWidth, halfHeight) then [] else [b])
  {
    assert (bs + [b])[..|bs|] == bs;
  }

  /** One turn of the culling loop, seen on the ghost state: the bullet at
      the loop's index is the next unseen one, removing it or stepping past it
      both keep the loop's picture of kept and unseen bullets. */
  lemma CullStep(original: seq<Bullet>, seen: nat, kept: seq<Bullet>, ship: Vec2, halfWidth: real, halfHeight: real)
    requires seen < |original|
    requires kept == Survivors(original[..seen], ship, halfWidth, halfHeight)
    ensures var bs, b := kept + original[seen..], original[seen];
      |kept| < |bs| && bs[|kept|] == b &&
      Survivors(original[..seen + 1], ship, halfWidth, halfHeight) ==
        kept + (if Doomed(b, ship, halfWidth, halfHeight) then [] else [b]) &&
      bs[..|kept|] + bs[|kept| + 1..] == kept + original[seen + 1..] &&
      bs == (kept + [b]) + original[seen + 1..]
  {
    var b := original[seen];
    assert original[..seen + 1] == original[..seen] + [b];
    SurvivorsExtend(original[..seen], b, ship, halfWidth, halfHeight);
    var bs := kept + original[seen..];
    assert bs[..|kept|] == kept;
    assert bs[|kept| + 1..] == original[seen + 1..];
  }

  /** Each bullet is kept as many times as it occurs when the test does not
      doom it, and not at all when it does. */
  lemma {:induction false} SurvivorsCount(bs: seq<Bullet>, ship: Vec2, halfWidth: real, halfHeight: real)
    ensures forall b ::
      multiset(Survivors(bs, ship, halfWidth, halfHeight))[b] ==
        (if Doomed(b, ship, halfWidth, halfHeight) then 0 else multiset(bs)[b])
    decreases |bs|
  {
    if bs != [] {
      var init, last := bs[..|bs| - 1], bs[|bs| - 1];
      assert bs == init + [last];
      SurvivorsCount(init, ship, halfWidth, halfHeight);
    }
  }

  /** The culling runs against the ship's position after the wrap: it keeps
      exactly the bullets the test does not doom, each as often as before, and
      changes nothing else. */
  function Cull(s: Snapshot, width: nat, height: nat): (r: Snapshot)
    ensures r.angle == s.angle && r.speed == s.speed && r.position == s.position && r.lastFired == s.lastFired
    ensures forall b ::
      multiset(r.bullets)[b] ==
        (if Doomed(b, s.position, Half(width), Half(height)) then 0 else multiset(s.bullets)[b])
  {
    SurvivorsCount(s.bullets, s.position, Half(width), Half(height));
    s.(bullets := Survivors(s.bullets, s.position, Half(width), Half(height)))
  }

  // ---------------------------------------------------------------- advance

  function Drifted(b: Bullet): Bullet
  {
    b.(position := Plus(b.position, b.speed))
  }

  /** Every bullet moves by its own speed; the count, the order, and every
      bullet's speed and angle stay as they were. */
  function Advanced(bs: seq<Bullet>): (r: seq<Bullet>)
    ensures |r| == |bs|
    ensures forall i :: 0 <= i < |bs| ==>
      r[i].speed == bs[i].speed && r[i].angle == bs[i].angle &&
      r[i].position == Plus(bs[i].position, bs[i].speed)
  {
    if bs == [] then []
    else Advanced(bs[..|bs| - 1]) + [Drifted(bs[|bs| - 1])]
  }

  /** Only the bullets change: each one drifts by its own speed, in place. */
  function Advance(s: Snapshot): (r: Snapshot)
    ensures r.angle == s.angle && r.speed == s.speed && r.position == s.position && r.lastFired == s.lastFired
    ensures |r.bullets| == |s.bullets|
    ensures forall i :: 0 <= i < |s.bullets| ==> r.bullets[i] == Drifted(s.bullets[i])
  {
    s.(bullets := Advanced(s.bullets))
  }

  // ------------------------------------------------------------- one frame

  /** One call of `update`, stage by stage in the source's order.  The later
      stages leave the angle, the speed and the time of the last shot as the
      steering and firing stages set them, and the ship's position as the
      move and wrap set it. */
  function Step(s: Snapshot, f: Frame, t: Trig): (r: Snapshot)
    ensures r.angle == Steer(s, f, t).angle && r.speed == Steer(s, f, t).speed
    ensures r.lastFired == Fire(Steer(s, f, t), f, t).lastFired
    ensures r.position ==
      Move(Fire(Steer(s, f, t), f, t), Logical(f.pixelWidth), Logical(f.pixelHeight)).position
  {
    var width, height := Logical(f.pixelWidth), Logical(f.pixelHeight);
    Advance(Cull(Move(Fire(Steer(s, f, t), f, t), width, height), width, height))
  }

  // ------------------------------------------------- the state, in place

  class Model {
    var angle: real
    var speed: Vec2
    var position: Vec2
    var bullets: seq<Bullet>
    var lastFired: int

    function State(): Snapshot
      reads this
    {
      Snapshot(angle, speed, position, bullets, lastFired)
    }

    /** `model`, without the window and the texture. */
    constructor (now: int)
      ensures State() == Initial(now)
    {
      angle := 0.0;
      speed := Zero;
      position := Zero;
      bullets := [];
      lastFired := now;
    }

    /** `update`: every field changes as `Step` says. */
    method Update(f: Frame, t: Trig)
      modifies this
      ensures State() == Step(old(State()), f, t)
    {
      ghost var s0 := State();
      TurnAndSteer(f, t);
      ghost var s1 := State();
      FireIfReady(f, t);
      ghost var s2 := State();

      var width := f.pixelWidth / 2;
      var height := f.pixelHeight / 2;
      assert width == Logical(f.pixelWidth) && height == Logical(f.pixelHeight);
      MoveAndWrap(width, height);
      ghost var s3 := State();
      assert s3 == Move(Fire(Steer(s0, f, t), f, t), width, height);

      var halfWidth := width as real / 2.0;
      var halfHeight := height as real / 2.0;
      CullBullets(halfWidth, halfHeight);
      ghost var s4 := State();
      assert s4 == Cull(s3, width, height);
      AdvanceBullets();
      assert State() == Advance(s4);
    }

    /** The rotation choice, then exactly one of thrust, brake, snap or drag. */
    method TurnAndSteer(f: Frame, t: Trig)
      modifies this`angle, this`speed
      ensures State() == Steer(old(State()), f, t)
    {
      var secs := Seconds(f.elapsedMillis);

      var rot := RotationOf(f.keys);
      var rotateSpeed := ROTATE_SPEED * secs;
      var angleDir := AngleDirection(rot);
      if angleDir != 0 {
        angle := angleDir as real * rotateSpeed + angle;
      }
      assert angle == Rotated(old(angle), rot, secs);

      ghost var before := speed;
      if W in f.keys {
        speed := AddAtAngle(speed, THRUST * secs, angle, t);
      } else if S in f.keys {
        speed := AddAtAngle(speed, -1.0 * THRUST * secs, angle, t);
      } else if SquaredMagnitude(speed) < SNAP_SQUARED {
        speed := Vec2(0.0, 0.0);
      } else {
        speed := Vec2(speed.x * (1.0 - DRAG * secs), speed.y * (1.0 - DRAG * secs));
      }
      assert speed == Steered(before, f.keys, secs, angle, t);
    }

    /** Space held and the cooldown over: one bullet pushed, the clock noted. */
    method FireIfReady(f: Frame, t: Trig)
      modifies this`bullets, this`lastFired
      ensures State() == Fire(old(State()), f, t)
    {
      if Space in f.keys && ElapsedMillis(f.now, lastFired) > FIRE_COOLDOWN {
        var shotSpeed := AddAtAngle(speed, MUZZLE_BOOST, angle, t);
        lastFired := f.now;
        bullets := bullets + [Bullet(shotSpeed, position, angle)];
      }
    }

    /** The ship's move by its speed, then the wrap on a logical viewport of
        `width` by `height`. */
    method MoveAndWrap(width: nat, height: nat)
      modifies this`position
      ensures State() == Move(old(State()), width, height)
    {
      if Moving(speed) {
        position := Vec2(position.x + speed.x, position.y + speed.y);
      }

      var halfWidth := width as real / 2.0;
      var halfHeight := height as real / 2.0;

      if position.x < -halfWidth {
        position := position.(x := position.x + width as real);
      } else if position.x > halfWidth {
        position := position.(x := position.x - width as real);
      }
      if position.y < -halfHeight {
        position := position.(y := position.y + height as real);
      } else if position.y > halfHeight {
        position := position.(y := position.y - height as real);
      }
    }

    /** The culling loop: walks the bullets with an index, removing in place
        every bullet the test dooms and stepping past every other one. */
    method CullBullets(halfWidth: real, halfHeight: real)
      modifies this`bullets
      ensures bullets == Survivors(old(bullets), position, halfWidth, halfHeight)
    {
      ghost var original := bullets;
      ghost var seen := 0;
      ghost var kept: seq<Bullet> := [];
      var i := 0;
      while i != |bullets|
        invariant 0 <= seen <= |original|
        invariant kept == Survivors(original[..seen], position, halfWidth, halfHeight)
        invariant i == |kept|
        invariant bullets == kept + original[seen..]
        decreases |original| - seen
      {
        CullStep(original, seen, kept, position, halfWidth, halfHeight);
        var b := bullets[i];
        if b.position.x < -halfWidth || position.x > halfWidth || position.y < -halfHeight || position.y > halfHeight {
          bullets := bullets[..i] + bullets[i + 1..];
        } else {
          kept := kept + [b];
          i := i + 1;
        }
        seen := seen + 1;
      }
      assert original[..seen] == original;
    }

    /** `iter_mut().for_each(...)`: each bullet's position moves by its speed. */
    method AdvanceBullets()
      modifies this`bullets
      ensures bullets == Advanced(old(bullets))
    {
      for i := 0 to |bullets|
        invariant |bullets| == |old(bullets)|
        invariant forall k :: 0 <= k < i ==> bullets[k] == Drifted(old(bullets)[k])
        invariant forall k :: i <= k < |bullets| ==> bullets[k] == old(bullets)[k]
      {
        var b := bullets[i];
        bullets := bullets[i := b.(position := Vec2(b.position.x + b.speed.x, b.position.y + b.speed.y))];
      }
    }
  }
}
