// Values shared by every part of the controller model.
//
// Temperatures and slopes are exact reals (degrees Celsius, degrees per minute);
// instants are whole seconds on one clock.

module ComfortTypes {

  datatype Option<+T> = None | Some(value: T)

  datatype Result<+T, +E> = Ok(value: T) | Err(error: E)

  // The action labels of const.py.
  datatype Action = Heat | Cool | Idle | Unknown

  // SLOPE_EPSILON_PER_HOUR of const.py, a minute's share: drift below it is noise.
  const SLOPE_EPSILON_PER_MINUTE := 0.05 / 60.0

  predicate IsActive(a: Action) {
    a == Heat || a == Cool
  }

  // A comfort band. The controller keeps low below high; see Proper.
  datatype Band = Band(low: real, high: real)

  predicate Proper(b: Band) {
    b.low < b.high
  }

  predicate Within(temp: real, b: Band) {
    b.low <= temp <= b.high
  }

  // b reaches at least as far as a on both sides.
  predicate Covers(b: Band, a: Band) {
    b.low <= a.low && a.high <= b.high
  }

  function Min(a: real, b: real): real {
    if a <= b then a else b
  }

  function Max(a: real, b: real): real {
    if a >= b then a else b
  }

  function Abs(a: real): real {
    if a >= 0.0 then a else -a
  }

  function Last<T>(s: seq<T>): T
    requires s != []
  {
    s[|s| - 1]
  }
}
