/** The gauges of one sub pool, and the shared counters that aggregate the gauges of all of them. */
module Instrumentation {
  import opened Prelude

  /** The events that move a gauge. */
  datatype GaugeEvent =
    | PoolAdded
    | PoolRemoved
    | CheckedInNewConnection
    | ConnectionDropped
    | IdleInc
    | IdleDec
    | InFlightInc
    | InFlightDec
    | ReservationAdded
    | ReservationFulfilled
    | ReservationNotFulfilled

  /** How an event moves the gauges. */
  function Delta(event: GaugeEvent): PoolState {
    match event
    case PoolAdded => ZERO_STATE.(pools := 1)
    case PoolRemoved => ZERO_STATE.(pools := -1)
    case CheckedInNewConnection => ZERO_STATE.(connections := 1)
    case ConnectionDropped => ZERO_STATE.(connections := -1)
    case IdleInc => ZERO_STATE.(idle := 1)
    case IdleDec => ZERO_STATE.(idle := -1)
    case InFlightInc => ZERO_STATE.(inFlight := 1)
    case InFlightDec => ZERO_STATE.(inFlight := -1)
    case ReservationAdded => ZERO_STATE.(reservations := 1)
    case ReservationFulfilled => ZERO_STATE.(reservations := -1)
    case ReservationNotFulfilled => ZERO_STATE.(reservations := -1)
  }

  /** Counters that all sub pools share. */
  class StateCounters {
    var connections: int
    var idle: int
    var inFlight: int
    var reservations: int
    var pools: int

    constructor ()
      ensures State() == ZERO_STATE
    {
      connections, idle, inFlight, reservations, pools := 0, 0, 0, 0, 0;
    }

    function State(): PoolState
      reads this
    {
      PoolState(inFlight, reservations, connections, idle, pools)
    }

    method Record(event: GaugeEvent)
      modifies this
      ensures State() == old(State()).Plus(Delta(event))
    {
      match event
      case PoolAdded => pools := pools + 1;
      case PoolRemoved => pools := pools - 1;
      case CheckedInNewConnection => connections := connections + 1;
      case ConnectionDropped => connections := connections - 1;
      case IdleInc => idle := idle + 1;
      case IdleDec => idle := idle - 1;
      case InFlightInc => inFlight := inFlight + 1;
      case InFlightDec => inFlight := inFlight - 1;
      case ReservationAdded => reservations := reservations + 1;
      case ReservationFulfilled => reservations := reservations - 1;
      case ReservationNotFulfilled => reservations := reservations - 1;
    }
  }

  /** The gauges of one sub pool. Every event is counted here first and then passed on. */
  class PoolInstrumentation {
    const flavour: StateCounters
    var connections: int
    var idle: int
    var inFlight: int
    var reservations: int
    var pools: int

    constructor (flavour: StateCounters)
      ensures this.flavour == flavour && State() == ZERO_STATE
    {
      this.flavour := flavour;
      connections, idle, inFlight, reservations, pools := 0, 0, 0, 0, 0;
    }

    function State(): PoolState
      reads this
    {
      PoolState(inFlight, reservations, connections, idle, pools)
    }

    /** What the shared counters count beyond this sub pool. */
    function Others(): PoolState
      reads this, flavour
    {
      PoolState(flavour.inFlight - inFlight, flavour.reservations - reservations,
                flavour.connections - connections, flavour.idle - idle, flavour.pools - pools)
    }

    method Record(event: GaugeEvent)
      modifies this, flavour
      ensures State() == old(State()).Plus(Delta(event))
      ensures Others() == old(Others())
    {
      match event {
        case PoolAdded => pools := pools + 1;
        case PoolRemoved => pools := pools - 1;
        case CheckedInNewConnection => connections := connections + 1;
        case ConnectionDropped => connections := connections - 1;
        case IdleInc => idle := idle + 1;
        case IdleDec => idle := idle - 1;
        case InFlightInc => inFlight := inFlight + 1;
        case InFlightDec => inFlight := inFlight - 1;
        case ReservationAdded => reservations := reservations + 1;
        case ReservationFulfilled => reservations := reservations - 1;
        case ReservationNotFulfilled => reservations := reservations - 1;
      }
      flavour.Record(event);
    }

    /** The gauge as the drop of the inner pool reads it. */
    method InFlight() returns (count: nat)
      ensures count == Usize(inFlight)
    {
      count := Usize(inFlight);
    }
  }

  // ===== Aggregation =====

  /** The state of a pool of sub pools. */
  function Fold(states: seq<PoolState>): PoolState {
    if states == [] then ZERO_STATE else states[0].Plus(Fold(states[1..]))
  }

  /** Sub pools that record concurrently: the `halfway` moves are counted by a sub pool and not yet passed on. */
  datatype Counting = Counting(own: seq<PoolState>, shared: PoolState, halfway: seq<PoolState>)

  datatype CountingStep =
    | CountOwn(pool: nat, event: GaugeEvent)
    | PassOn(i: nat)

  function CountingNext(c: Counting, step: CountingStep): Counting {
    match step
    case CountOwn(pool, event) =>
      if pool < |c.own|
      then c.(own := c.own[pool := c.own[pool].Plus(Delta(event))], halfway := c.halfway + [Delta(event)])
      else c
    case PassOn(i) =>
      if i < |c.halfway|
      then c.(shared := c.shared.Plus(c.halfway[i]), halfway := c.halfway[..i] + c.halfway[i + 1..])
      else c
  }

  function CountingRun(c: Counting, steps: seq<CountingStep>): Counting
    decreases |steps|
  {
    if steps == [] then c else CountingRun(CountingNext(c, steps[0]), steps[1..])
  }

  lemma {:induction false} FoldUpdate(states: seq<PoolState>, i: nat, delta: PoolState)
    requires i < |states|
    ensures Fold(states[i := states[i].Plus(delta)]) == Fold(states).Plus(delta)
  {
    if i > 0 {
      FoldUpdate(states[1..], i - 1, delta);
      assert states[i := states[i].Plus(delta)][1..] == states[1..][i - 1 := states[i].Plus(delta)];
    }
  }

  lemma {:induction false} FoldPush(states: seq<PoolState>, last: PoolState)
    ensures Fold(states + [last]) == Fold(states).Plus(last)
  {
    if states == [] {
      assert Fold([last][1..]) == ZERO_STATE;
    } else {
      FoldPush(states[1..], last);
      assert (states + [last])[1..] == states[1..] + [last];
    }
  }

  lemma {:induction false} FoldRemove(states: seq<PoolState>, i: nat)
    requires i < |states|
    ensures Fold(states) == Fold(states[..i] + states[i + 1..]).Plus(states[i])
  {
    if i == 0 {
      assert states[..0] + states[1..] == states[1..];
    } else {
      FoldRemove(states[1..], i - 1);
      assert (states[..i] + states[i + 1..])[1..] == states[1..][..i - 1] + states[1..][i..];
    }
  }

  lemma {:induction false} CountingStepKeepsSum(c: Counting, step: CountingStep)
    requires c.shared.Plus(Fold(c.halfway)) == Fold(c.own)
    ensures var c' := CountingNext(c, step); c'.shared.Plus(Fold(c'.halfway)) == Fold(c'.own)
  {
    match step
    case CountOwn(pool, event) =>
      if pool < |c.own| {
        FoldUpdate(c.own, pool, Delta(event));
        FoldPush(c.halfway, Delta(event));
      }
    case PassOn(i) =>
      if i < |c.halfway| {
        FoldRemove(c.halfway, i);
      }
  }

  /** Sub pools that counted nothing yet. */
  function Fresh(n: nat): seq<PoolState> {
    if n == 0 then [] else [ZERO_STATE] + Fresh(n - 1)
  }

  lemma {:induction false} FreshPoolsAddUp(n: nat)
    ensures Fold(Fresh(n)) == ZERO_STATE
  {
    if n > 0 {
      FreshPoolsAddUp(n - 1);
      assert Fresh(n)[1..] == Fresh(n - 1);
    }
  }

  lemma {:induction false} RunKeepsSum(c: Counting, steps: seq<CountingStep>)
    requires c.shared.Plus(Fold(c.halfway)) == Fold(c.own)
    ensures var c' := CountingRun(c, steps); c'.shared.Plus(Fold(c'.halfway)) == Fold(c'.own)
    decreases |steps|
  {
    if steps != [] {
      CountingStepKeepsSum(c, steps[0]);
      RunKeepsSum(CountingNext(c, steps[0]), steps[1..]);
    }
  }

  lemma {:induction false} AgreeWithoutHalfway(c: Counting)
    requires c.halfway == []
    ensures c.shared.Plus(Fold(c.halfway)) == Fold(c.own) <==> c.shared == Fold(c.own)
  {
  }

  lemma {:induction false} AgreementIsKept(start: Counting, steps: seq<CountingStep>)
    requires start.halfway == [] && start.shared == Fold(start.own)
    ensures var c := CountingRun(start, steps);
            && c.shared.Plus(Fold(c.halfway)) == Fold(c.own)
            && (c.halfway == [] ==> c.shared == Fold(c.own))
  {
    AgreeWithoutHalfway(start);
    RunKeepsSum(start, steps);
    if CountingRun(start, steps).halfway == [] {
      AgreeWithoutHalfway(CountingRun(start, steps));
    }
  }

  /**
   The shared counters refine the sum over the sub pools: for any number of them, under every interleaving of their
   events, they differ by exactly the moves that are counted halfway, so they agree whenever there is none.
   */
  lemma {:induction false} SharedCountersAggregate(n: nat, steps: seq<CountingStep>)
    ensures var c := CountingRun(Counting(Fresh(n), ZERO_STATE, []), steps);
            && c.shared.Plus(Fold(c.halfway)) == Fold(c.own)
            && (c.halfway == [] ==> c.shared == Fold(c.own))
  {
    FreshPoolsAddUp(n);
    AgreementIsKept(Counting(Fresh(n), ZERO_STATE, []), steps);
  }
}
