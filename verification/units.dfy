/** Display units for times. */
module Units {

  datatype Unit = Second | MilliSecond

  /** The label shown in column headers, as in `Mean [ms]`. */
  function ShortName(u: Unit): string
  {
    match u
    case Second => "s"
    case MilliSecond => "ms"
  }

  /** How many of `u` make one second. */
  function PerSecond(u: Unit): (k: real)
    ensures 1.0 <= k
  {
    match u
    case Second => 1.0
    case MilliSecond => 1000.0
  }

  /** A time in seconds expressed in `u`. */
  function InUnit(seconds: real, u: Unit): (v: real)
    requires 0.0 <= seconds
    ensures 0.0 <= v
  {
    seconds * PerSecond(u)
  }

  /** Digits after the decimal point of a time shown in `u`: whole milliseconds to one
      decimal, whole seconds to three, so both resolve at least a tenth of a millisecond. */
  function Decimals(u: Unit): (d: nat)
    ensures 1 <= d
  {
    match u
    case Second => 3
    case MilliSecond => 1
  }

  /** The unit a time reads best in: milliseconds below one second, seconds from one second on. */
  function SuitableUnit(seconds: real): (u: Unit)
    ensures u == MilliSecond <==> seconds < 1.0
    ensures u == Second <==> 1.0 <= seconds
  {
    if seconds < 1.0 then MilliSecond else Second
  }
}
