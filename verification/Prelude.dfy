/** Definitions shared by every part of the model. */
module Prelude {

  datatype Option<+T> = None | Some(value: T)

  datatype Result<+T, +E> = Ok(value: T) | Err(error: E)

  /** Points in time are nanoseconds on one monotone clock. */
  type Instant = nat

  const MILLISECOND: nat := 1_000_000

  /** The number of values a 64-bit `usize` can take. */
  const USIZE_VALUES: nat := 0x1_0000_0000_0000_0000

  /** What an atomic `usize` shows after increments and decrements that add up to `c`. */
  function Usize(c: int): nat {
    c % USIZE_VALUES
  }

  /** The error kinds a checkout can end with. */
  datatype CheckoutErrorKind =
    | NoConnection
    | CheckoutTimeout
    | ReservationLimitReached
    | NoPool
    | CheckoutLimitReached
    | TaskExecution

  /** The gauges of one pool. They are integers here; what can be observed of a gauge `c` is `Usize(c)`. */
  datatype PoolState = PoolState(inFlight: int, reservations: int, connections: int, idle: int, pools: int)
  {
    function Plus(other: PoolState): PoolState {
      PoolState(inFlight + other.inFlight, reservations + other.reservations,
                connections + other.connections, idle + other.idle, pools + other.pools)
    }
  }

  const ZERO_STATE := PoolState(0, 0, 0, 0, 0)
}
