// Resolving the held keys into a rotation choice.

module Controls {

  /** The keys the game looks at; any other held key plays no part. */
  datatype Key = A | D | W | S | Space

  datatype RotationControl = CW | CCW | None

  /** First match wins: A turns counter-clockwise even when D is held too;
      D turns clockwise only without A; neither key leaves the ship alone. */
  function RotationOf(keys: set<Key>): (r: RotationControl)
    ensures r == CCW <==> A in keys
    ensures r == CW <==> A !in keys && D in keys
    ensures r == None <==> A !in keys && D !in keys
  {
    if A in keys then CCW
    else if D in keys then CW
    else None
  }

  /** The sign the chosen rotation gives to the angle's change. */
  function AngleDirection(rot: RotationControl): (d: int)
    ensures -1 <= d <= 1
    ensures d == 0 <==> rot == None
    ensures d > 0 <==> rot == CCW
  {
    match rot
    case CCW => 1
    case CW => -1
    case None => 0
  }
}
