/** The two kinds of service request: a hall call (a button pressed outside
    the cab, carrying the passenger's intended direction) and a car call (a
    destination chosen inside the cab). Both are immutable values. */
module Requests {
  import opened Directions
  import opened Failures

  /** Where a request came from: inside the cab (CAR) or a hall (HALL). */
  datatype RequestType = Car | Hall

  datatype Request = HallCall(floor: int, direction: Direction) | CarCall(floor: int) {

    /** What the constructors guarantee of every request they build. */
    predicate Valid() {
      floor >= 1 && (HallCall? ==> direction.IsMoving())
    }

    function Type(): (t: RequestType)
      ensures t == Hall <==> HallCall?
    {
      match this
      case HallCall(_, _) => Hall
      case CarCall(_) => Car
    }

    /** The travel direction the request asks for; a car call has none. */
    function DesiredDirection(): (d: Direction)
      ensures CarCall? ==> d == Idle
      ensures Valid() ==> (d.IsMoving() <==> Type() == Hall)
    {
      match this
      case HallCall(_, dir) => dir
      case CarCall(_) => Idle
    }

    /** Structural equality: same kind, same floor and, for hall calls, the
        same direction. */
    function Equals(other: Request): (eq: bool)
      ensures eq <==> this == other
      ensures Type() != other.Type() ==> !eq
    {
      match this
      case HallCall(f, d) => other.HallCall? && f == other.floor && d == other.direction
      case CarCall(f) => other.CarCall? && f == other.floor
    }
  }

  /** The hall call constructor: the floor is checked first, then the direction. */
  function NewHallCall(floor: int, direction: Direction): (r: Result<Request>)
    ensures r.Ok? <==> floor >= 1 && direction != Idle
    ensures floor < 1 ==> r == Err(FloorNotPositive)
    ensures floor >= 1 && direction == Idle ==> r == Err(IdleHallDirection)
    ensures r.Ok? ==> r.value.Valid() && r.value.Type() == Hall
                      && r.value.floor == floor && r.value.DesiredDirection() == direction
  {
    if floor < 1 then Err(FloorNotPositive)
    else if direction == Idle then Err(IdleHallDirection)
    else Ok(HallCall(floor, direction))
  }

  /** The car call constructor: only the floor is checked. */
  function NewCarCall(floor: int): (r: Result<Request>)
    ensures r.Ok? <==> floor >= 1
    ensures r.Err? ==> r.error == FloorNotPositive
    ensures r.Ok? ==> r.value.Valid() && r.value.Type() == Car
                      && r.value.floor == floor && r.value.DesiredDirection() == Idle
  {
    if floor < 1 then Err(FloorNotPositive) else Ok(CarCall(floor))
  }

  /** The valid requests are exactly those the two constructors build. */
  lemma ValidIffConstructible(r: Request)
    ensures r.Valid() <==>
      (if r.HallCall? then NewHallCall(r.floor, r.direction) == Ok(r)
       else NewCarCall(r.floor) == Ok(r))
  {
  }
}
