/** The direction of travel of the cab, with IDLE for "no movement scheduled". */
module Directions {

  datatype Direction = Up | Down | Idle {

    /** Signed floor step associated with the direction. */
    function Delta(): (d: int)
      ensures -1 <= d <= 1
      ensures d == 0 <==> !IsMoving()
      ensures d > 0 <==> this == Up
    {
      match this
      case Up => 1
      case Down => -1
      case Idle => 0
    }

    /** The reverse direction; IDLE has no reverse and maps to itself. */
    function Opposite(): (o: Direction)
      ensures o.IsMoving() == IsMoving()
      ensures IsMoving() ==> o != this
    {
      match this
      case Up => Down
      case Down => Up
      case Idle => Idle
    }

    /** Whether the direction implies motion. */
    predicate IsMoving(): (moving: bool)
      ensures moving <==> this == Up || this == Down
    {
      this != Idle
    }
  }

  lemma OppositeIsInvolution(d: Direction)
    ensures d.Opposite().Opposite() == d
  {
  }

  lemma OppositeNegatesDelta(d: Direction)
    ensures d.Opposite().Delta() == -d.Delta()
  {
  }
}
