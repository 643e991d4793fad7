/** The argument errors the controller raises. Each one is an
    IllegalArgumentException in the source; here it is a value that the
    failing operation returns instead of a new state. */
module Failures {

  datatype Error =
    | MaxFloorBelowMinFloor   // Elevator(minFloor, maxFloor) with maxFloor < minFloor
    | MinFloorNotPositive     // Elevator(minFloor, maxFloor) with minFloor < 1
    | FloorNotPositive        // a request constructed for a floor below 1
    | IdleHallDirection       // a hall call whose direction is IDLE
    | FloorOutOfRange         // a call for a floor outside [minFloor, maxFloor]

  datatype Result<T> = Ok(value: T) | Err(error: Error)

  datatype Outcome = Pass | Fail(error: Error)
}
