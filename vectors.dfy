// Two-component vectors as the game uses them: an (f32, f32) pair for a
// speed or a position, modelled with exact reals.

module Vectors {

  datatype Vec2 = Vec2(x: real, y: real)

  const Zero: Vec2 := Vec2(0.0, 0.0)

  /** The square of the snap threshold 0.001: `scalarize(v) < 0.001` holds
      exactly when x*x + y*y < 0.001 * 0.001, because the square root is
      monotone and never negative. */
  const SNAP_SQUARED: real := 0.000001

  /** cos and sin come from the platform's float library.  The model takes them
      as a parameter and knows nothing of their values unless a lemma asks for
      `UnitCircle`. */
  datatype Trig = Trig(cos: real -> real, sin: real -> real)

  ghost predicate UnitCircle(t: Trig)
  {
    forall a: real :: t.cos(a) * t.cos(a) + t.sin(a) * t.sin(a) == 1.0
  }

  function Plus(a: Vec2, b: Vec2): Vec2
  {
    Vec2(a.x + b.x, a.y + b.y)
  }

  function Minus(a: Vec2, b: Vec2): Vec2
  {
    Vec2(a.x - b.x, a.y - b.y)
  }

  /** `add_at_an_angle`: the pair `c` pushed by `scalar` along `angle`.  The
      source updates its argument through `&mut`; a pair of floats is a value,
      so the model returns the updated pair and callers assign it back.  The
      pair is displaced by `scalar` times the direction (cos angle, sin angle),
      and a zero push leaves it alone. */
  function AddAtAngle(c: Vec2, scalar: real, angle: real, t: Trig): (r: Vec2)
    ensures Minus(r, c) == Vec2(scalar * t.cos(angle), scalar * t.sin(angle))
    ensures scalar == 0.0 ==> r == c
  {
    Vec2(c.x + scalar * t.cos(angle), c.y + scalar * t.sin(angle))
  }

  /** The square of `scalarize(c)`: the pair's length, squared so that no
      square root is needed. */
  function SquaredMagnitude(c: Vec2): real
  {
    c.x * c.x + c.y * c.y
  }

  /** `scalarize(c).abs() < 0.001`: the pair is negligible. */
  predicate Negligible(c: Vec2)
  {
    SquaredMagnitude(c) < SNAP_SQUARED
  }

  /** `scalarize(c) != 0.0`.  The square root of x*x + y*y is zero exactly when
      x*x + y*y is (see `ScalarizeZeroOnlyAtRest`), so this is the pair being
      other than (0, 0). */
  predicate Moving(c: Vec2)
  {
    c != Zero
  }

  lemma SumOfSquaresPositive(a: real, b: real)
    requires a != 0.0 || b != 0.0
    ensures a * a + b * b > 0.0
  {
    if a != 0.0 {
      assert a * a > 0.0;
      assert b * b >= 0.0;
    } else {
      assert b * b > 0.0;
      assert a * a >= 0.0;
    }
  }

  /** x*x + y*y, the square of `scalarize`, is positive exactly when the pair
      is not (0, 0), so `scalarize(v) != 0.0` is `Moving(v)`. */
  lemma ScalarizeZeroOnlyAtRest(x: real, y: real)
    ensures x * x + y * y > 0.0 <==> Moving(Vec2(x, y))
  {
    if x != 0.0 || y != 0.0 {
      SumOfSquaresPositive(x, y);
    }
  }

  /** A negligible pair has both components within 0.001 of zero, and the
      zero pair is negligible. */
  lemma NegligibleComponents(c: Vec2)
    ensures Negligible(Zero)
    ensures Negligible(c) ==> -0.001 < c.x < 0.001 && -0.001 < c.y < 0.001
  {
  }

  /** Pushing by `s` and then by `-s` along the same angle gives back the
      original pair (a forward thrust undone by a brake of the same size). */
  lemma AddAtAngleUndone(c: Vec2, s: real, angle: real, t: Trig)
    ensures AddAtAngle(AddAtAngle(c, s, angle, t), -s, angle, t) == c
  {
  }

  /** Two pushes along the same angle add up. */
  lemma AddAtAngleAdds(c: Vec2, s1: real, s2: real, angle: real, t: Trig)
    ensures AddAtAngle(AddAtAngle(c, s1, angle, t), s2, angle, t) == AddAtAngle(c, s1 + s2, angle, t)
  {
  }

  /** With a genuine cos/sin pair, the push changes the pair by a vector of
      length |s| exactly. */
  lemma AddAtAngleLength(c: Vec2, s: real, angle: real, t: Trig)
    requires UnitCircle(t)
    ensures SquaredMagnitude(Minus(AddAtAngle(c, s, angle, t), c)) == s * s
  {
    var co, si := t.cos(angle), t.sin(angle);
    assert co * co + si * si == 1.0;
    var d := Minus(AddAtAngle(c, s, angle, t), c);
    assert d.x == s * co && d.y == s * si;
    assert (s * co) * (s * co) + (s * si) * (s * si) == (s * s) * (co * co + si * si);
  }
}
