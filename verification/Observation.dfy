/** What can be observed of several sub pools together: the sum of gauges that may have wrapped around. */
module Observation {
  import opened Prelude
  import opened SubPool
  import opened System
  import opened Ledger
  import opened Conservation
  import opened Gauges
  import opened Instrumentation

  /** What atomic counters show for the gauges of one sub pool. */
  function Observed(s: PoolState): PoolState {
    PoolState(Usize(s.inFlight), Usize(s.reservations), Usize(s.connections), Usize(s.idle), Usize(s.pools))
  }

  function ObservedAll(states: seq<PoolState>): seq<PoolState> {
    if states == [] then [] else [Observed(states[0])] + ObservedAll(states[1..])
  }

  predicate Fits(s: PoolState) {
    && 0 <= s.inFlight < USIZE_VALUES && 0 <= s.reservations < USIZE_VALUES && 0 <= s.connections < USIZE_VALUES
    && 0 <= s.idle < USIZE_VALUES && 0 <= s.pools < USIZE_VALUES
  }

  // ===== Adding with wrap around =====

  /** The gauges of a state, which are added one by one. */
  datatype Gauge = InFlight | Reserved | Connections | Idle | Pools
  {
    function Of(s: PoolState): int {
      match this
      case InFlight => s.inFlight
      case Reserved => s.reservations
      case Connections => s.connections
      case Idle => s.idle
      case Pools => s.pools
    }
  }

  function Column(states: seq<PoolState>, gauge: Gauge): seq<int> {
    if states == [] then [] else [gauge.Of(states[0])] + Column(states[1..], gauge)
  }

  /** The sum of what is observed of one gauge, where additions wrap around. */
  function WrappingSum(sum: nat, gauges: seq<int>): nat
    decreases |gauges|
  {
    if gauges == [] then sum else WrappingSum(Usize(sum + Usize(gauges[0])), gauges[1..])
  }

  function TrueSum(gauges: seq<int>): int {
    if gauges == [] then 0 else gauges[0] + TrueSum(gauges[1..])
  }

  lemma {:induction false} UsizeOfSum(x: int, y: int)
    ensures Usize(Usize(x) + Usize(y)) == Usize(x + y)
  {
    var q := x / USIZE_VALUES + y / USIZE_VALUES;
    assert x + y == Usize(x) + Usize(y) + q * USIZE_VALUES;
    UsizeOfShift(Usize(x) + Usize(y), q);
  }

  lemma {:induction false} UsizeOfShift(x: int, q: int)
    ensures Usize(x + q * USIZE_VALUES) == Usize(x)
    decreases if q < 0 then -q else q
  {
    if q > 0 {
      UsizeOfShift(x, q - 1);
      assert x + q * USIZE_VALUES == (x + (q - 1) * USIZE_VALUES) + USIZE_VALUES;
    } else if q < 0 {
      UsizeOfShift(x, q + 1);
      assert x + q * USIZE_VALUES == (x + (q + 1) * USIZE_VALUES) - USIZE_VALUES;
    }
  }

  lemma {:induction false} WrappingFrom(sum: int, gauges: seq<int>)
    ensures WrappingSum(Usize(sum), gauges) == Usize(sum + TrueSum(gauges))
    decreases |gauges|
  {
    if gauges != [] {
      UsizeOfSum(sum, gauges[0]);
      WrappingFrom(sum + gauges[0], gauges[1..]);
    }
  }

  lemma {:induction false} FoldByGauge(states: seq<PoolState>, gauge: Gauge)
    ensures TrueSum(Column(states, gauge)) == gauge.Of(Fold(states))
  {
    if states != [] {
      FoldByGauge(states[1..], gauge);
      assert Column(states, gauge)[1..] == Column(states[1..], gauge);
    }
  }

  /** Where additions wrap around, what is observed of the sum is the sum of what is observed, for every gauge. */
  lemma {:induction false} WrappingSumIsObserved(states: seq<PoolState>, gauge: Gauge)
    ensures WrappingSum(0, Column(states, gauge)) == Usize(gauge.Of(Fold(states)))
  {
    FoldByGauge(states, gauge);
    WrappingFrom(0, Column(states, gauge));
  }

  /** So, whenever no move is counted halfway, a shared counter shows the wrapping sum of what the sub pools show. */
  lemma {:induction false} SharedCountersShowTheSum(n: nat, steps: seq<CountingStep>, gauge: Gauge)
    ensures var c := CountingRun(Counting(Fresh(n), ZERO_STATE, []), steps);
            c.halfway == [] ==> WrappingSum(0, Column(c.own, gauge)) == Usize(gauge.Of(c.shared))
  {
    SharedCountersAggregate(n, steps);
    WrappingSumIsObserved(CountingRun(Counting(Fresh(n), ZERO_STATE, []), steps).own, gauge);
  }

  // ===== Adding with a check =====

  /** The state of a pool of sub pools where an addition that overflows panics, which is `None` here. */
  function CheckedState(sum: PoolState, states: seq<PoolState>): Option<PoolState>
    decreases |states|
  {
    if states == [] then Some(sum)
    else
      var next := sum.Plus(Observed(states[0]));
      if Fits(next) then CheckedState(next, states[1..]) else None
  }

  predicate IsNonNegative(s: PoolState) {
    s.inFlight >= 0 && s.reservations >= 0 && s.connections >= 0 && s.idle >= 0 && s.pools >= 0
  }

  lemma {:induction false} ObservedIsNonNegative(states: seq<PoolState>)
    ensures IsNonNegative(Fold(ObservedAll(states)))
  {
    if states != [] {
      ObservedIsNonNegative(states[1..]);
      assert ObservedAll(states)[1..] == ObservedAll(states[1..]);
    }
  }

  /** Some addition overflows exactly if the whole sum does. */
  lemma {:induction false} CheckedFrom(sum: PoolState, states: seq<PoolState>)
    requires Fits(sum)
    ensures var total := sum.Plus(Fold(ObservedAll(states)));
            CheckedState(sum, states) == if Fits(total) then Some(total) else None
    decreases |states|
  {
    if states == [] {
      assert sum.Plus(ZERO_STATE) == sum;
    } else {
      var next := sum.Plus(Observed(states[0]));
      var rest := Fold(ObservedAll(states[1..]));
      assert ObservedAll(states)[1..] == ObservedAll(states[1..]);
      assert sum.Plus(Fold(ObservedAll(states))) == next.Plus(rest);
      ObservedIsNonNegative(states[1..]);
      if Fits(next) {
        CheckedFrom(next, states[1..]);
      }
    }
  }

  // ===== One gauge of many sub pools =====

  predicate AreNearZeroOrAbove(gauges: seq<int>) {
    forall i :: 0 <= i < |gauges| ==> gauges[i] >= -1
  }

  function SumObserved(gauges: seq<int>): nat {
    if gauges == [] then 0 else Usize(gauges[0]) + SumObserved(gauges[1..])
  }

  /** What is truly counted, apart from the gauges below zero. */
  function Positives(gauges: seq<int>): nat {
    if gauges == [] then 0 else (if gauges[0] > 0 then gauges[0] else 0) + Positives(gauges[1..])
  }

  function Negatives(gauges: seq<int>): nat {
    if gauges == [] then 0 else One(gauges[0] < 0) + Negatives(gauges[1..])
  }

  lemma {:induction false} ObservedInParts(gauges: seq<int>)
    requires AreNearZeroOrAbove(gauges)
    requires Positives(gauges) < USIZE_VALUES
    ensures SumObserved(gauges) == Positives(gauges) + Negatives(gauges) * (USIZE_VALUES - 1)
  {
    if gauges != [] {
      ObservedInParts(gauges[1..]);
      UsizeOfSmall(gauges[0]);
    }
  }

  /** The observed sum overflows exactly if two gauges have wrapped, or one has and another is above zero. */
  lemma {:induction false} SumOverflowsExactly(gauges: seq<int>)
    requires AreNearZeroOrAbove(gauges)
    requires Positives(gauges) < USIZE_VALUES
    ensures SumObserved(gauges) >= USIZE_VALUES
        <==> Negatives(gauges) >= 2 || (Negatives(gauges) == 1 && Positives(gauges) > 0)
    ensures SumObserved(gauges) == Positives(gauges) <==> Negatives(gauges) == 0
  {
    ObservedInParts(gauges);
  }

  // ===== Living sub pools =====

  /** A sub pool after some run of its own. */
  datatype Member = Member(cfg: Config, steps: seq<Step>)
  {
    function Gauges(): PoolState {
      Run(cfg, steps).view.gauges
    }
  }

  ghost predicate AreLiving(members: seq<Member>) {
    forall m :: m in members ==> m.cfg.Valid() && Run(m.cfg, m.steps).alive
  }

  function StatesOf(members: seq<Member>): seq<PoolState> {
    if members == [] then [] else [members[0].Gauges()] + StatesOf(members[1..])
  }

  function InFlights(members: seq<Member>): seq<int> {
    Column(StatesOf(members), InFlight)
  }

  /** What the configurations allow altogether: connections, and reservations. */
  function SizeOf(members: seq<Member>): nat {
    if members == [] then 0 else members[0].cfg.desiredPoolSize + SizeOf(members[1..])
  }

  function CapacityOf(members: seq<Member>): nat {
    if members == [] then 0 else members[0].cfg.capacity + CapacityOf(members[1..])
  }

  lemma {:induction false} MemberIsBounded(m: Member)
    requires m.cfg.Valid() && Run(m.cfg, m.steps).alive
    ensures var g := m.Gauges();
            && 0 <= g.idle <= m.cfg.desiredPoolSize && 0 <= g.connections <= m.cfg.desiredPoolSize
            && -1 <= g.inFlight <= m.cfg.desiredPoolSize && 0 <= g.reservations <= m.cfg.capacity && 0 <= g.pools <= 1
  {
    GaugesAreBounded(m.cfg, m.steps);
    EveryRunKeepsInv(m.cfg, m.steps);
  }

  predicate IsWithin(s: PoolState, size: nat, capacity: nat, pools: nat) {
    && 0 <= s.idle <= size && 0 <= s.connections <= size
    && 0 <= s.reservations <= capacity && 0 <= s.pools <= pools
  }

  lemma {:induction false} ObservedOfBounded(g: PoolState, size: nat, capacity: nat)
    requires IsWithin(g, size, capacity, 1) && size < USIZE_VALUES && capacity < USIZE_VALUES
    ensures Observed(g) == g.(inFlight := Usize(g.inFlight))
  {
    UsizeOfSmall(g.idle);
    UsizeOfSmall(g.connections);
    UsizeOfSmall(g.reservations);
    UsizeOfSmall(g.pools);
  }

  /** Only in flight gauges can be observed to differ from what they count, and only by having wrapped. */
  ghost predicate IsInParts(members: seq<Member>) {
    var gauges := InFlights(members);
    var sum := Fold(StatesOf(members));
    && AreNearZeroOrAbove(gauges)
    && Positives(gauges) <= SizeOf(members) && sum.inFlight == Positives(gauges) - Negatives(gauges)
    && IsWithin(sum, SizeOf(members), CapacityOf(members), |members|)
    && Fold(ObservedAll(StatesOf(members))) == sum.(inFlight := SumObserved(gauges))
  }

  lemma {:induction false} OneMoreInParts(m: Member, rest: seq<Member>, members: seq<Member>)
    requires members == [m] + rest && IsInParts(rest)
    requires m.cfg.desiredPoolSize < USIZE_VALUES && m.cfg.capacity < USIZE_VALUES
    requires IsWithin(m.Gauges(), m.cfg.desiredPoolSize, m.cfg.capacity, 1)
    requires -1 <= m.Gauges().inFlight <= m.cfg.desiredPoolSize
    ensures IsInParts(members)
  {
    LivingOneMore(m, rest, members);
    ColumnOneMore(m.Gauges().inFlight, InFlights(rest));
    ObservedOfBounded(m.Gauges(), m.cfg.desiredPoolSize, m.cfg.capacity);
  }

  lemma {:induction false} ColumnOneMore(g: int, rest: seq<int>)
    requires g >= -1
    ensures AreNearZeroOrAbove(rest) ==> AreNearZeroOrAbove([g] + rest)
    ensures SumObserved([g] + rest) == Usize(g) + SumObserved(rest)
    ensures Positives([g] + rest) - Negatives([g] + rest) == g + Positives(rest) - Negatives(rest)
    ensures Positives([g] + rest) == (if g > 0 then g else 0) + Positives(rest)
  {
    assert ([g] + rest)[1..] == rest;
  }

  lemma {:induction false} LivingInParts(members: seq<Member>)
    requires AreLiving(members) && SizeOf(members) < USIZE_VALUES && CapacityOf(members) < USIZE_VALUES
    ensures IsInParts(members)
  {
    if members != [] {
      var m, rest := members[0], members[1..];
      assert forall other :: other in rest ==> other in members;
      LivingInParts(rest);
      MemberIsBounded(m);
      OneMoreInParts(m, rest, members);
    }
  }

  lemma {:induction false} LivingOneMore(m: Member, rest: seq<Member>, members: seq<Member>)
    requires members == [m] + rest
    ensures StatesOf(members) == [m.Gauges()] + StatesOf(rest)
    ensures InFlights(members) == [m.Gauges().inFlight] + InFlights(rest)
    ensures Fold(StatesOf(members)) == m.Gauges().Plus(Fold(StatesOf(rest)))
    ensures Fold(ObservedAll(StatesOf(members))) == Observed(m.Gauges()).Plus(Fold(ObservedAll(StatesOf(rest))))
    ensures SizeOf(members) == m.cfg.desiredPoolSize + SizeOf(rest)
    ensures CapacityOf(members) == m.cfg.capacity + CapacityOf(rest)
  {
    assert members[1..] == rest;
    assert StatesOf(members)[1..] == StatesOf(rest);
    assert InFlights(members)[1..] == InFlights(rest);
    assert ObservedAll(StatesOf(members))[1..] == ObservedAll(StatesOf(rest));
  }

  lemma {:induction false} CheckedTotal(states: seq<PoolState>)
    ensures var total := Fold(ObservedAll(states));
            CheckedState(ZERO_STATE, states) == if Fits(total) then Some(total) else None
  {
    CheckedFrom(ZERO_STATE, states);
    assert ZERO_STATE.Plus(Fold(ObservedAll(states))) == Fold(ObservedAll(states));
  }

  lemma {:induction false} LivingTotal(members: seq<Member>)
    requires AreLiving(members)
    requires SizeOf(members) < USIZE_VALUES && CapacityOf(members) < USIZE_VALUES && |members| < USIZE_VALUES
    ensures var gauges := InFlights(members);
            var total := Fold(ObservedAll(StatesOf(members)));
            && (Fits(total) <==> !(Negatives(gauges) >= 2 || (Negatives(gauges) == 1 && Positives(gauges) > 0)))
            && (total == Fold(StatesOf(members)) <==> Negatives(gauges) == 0)
  {
    LivingInParts(members);
    SumOverflowsExactly(InFlights(members));
    ObservedInParts(InFlights(members));
  }

  /**
   The state of a pool of living sub pools cannot be summed up, where overflow is checked, exactly while the `in_flight`
   gauges of two of them have wrapped, or of one while another has connections in flight. It is right exactly if
   none has wrapped.
   */
  lemma {:induction false} StateOverflowsExactly(members: seq<Member>)
    requires AreLiving(members)
    requires SizeOf(members) < USIZE_VALUES && CapacityOf(members) < USIZE_VALUES && |members| < USIZE_VALUES
    ensures var gauges := InFlights(members);
            var checked := CheckedState(ZERO_STATE, StatesOf(members));
            && (checked == None <==> Negatives(gauges) >= 2 || (Negatives(gauges) == 1 && Positives(gauges) > 0))
            && (checked == Some(Fold(StatesOf(members))) <==> Negatives(gauges) == 0)
  {
    CheckedTotal(StatesOf(members));
    LivingTotal(members);
  }

  lemma {:induction false} TwoOverflow(m: Member)
    requires AreLiving([m, m]) && m.Gauges().inFlight == -1
    requires SizeOf([m, m]) < USIZE_VALUES && CapacityOf([m, m]) < USIZE_VALUES
    ensures CheckedState(ZERO_STATE, StatesOf([m, m])) == None
    ensures WrappingSum(0, InFlights([m, m])) == 18446744073709551614
  {
    LivingOneMore(m, [m], [m, m]);
    LivingOneMore(m, [], [m]);
    ColumnOneMore(-1, [-1]);
    ColumnOneMore(-1, []);
    assert [-1] + [-1] == [-1, -1] == InFlights([m, m]);
    assert Positives([]) == 0 && Negatives([]) == 0;
    StateOverflowsExactly([m, m]);
    WrappingSumIsObserved(StatesOf([m, m]), InFlight);
    assert Fold(StatesOf([m, m])).inFlight == -2;
  }

  /** It does happen, with two sub pools of one connection each. */
  lemma {:induction false} StateDoesOverflow()
    ensures var m := Member(SMALLEST, MAKE_ONE + LOSE_ONE);
            && AreLiving([m, m]) && SizeOf([m, m]) == 2
            && CheckedState(ZERO_STATE, StatesOf([m, m])) == None
            && WrappingSum(0, InFlights([m, m])) == 18446744073709551614
  {
    var m := Member(SMALLEST, MAKE_ONE + LOSE_ONE);
    InFlightDoesWrap();
    MemberIsBounded(m);
    UsizeOfSmall(m.Gauges().inFlight);
    assert SizeOf([m, m][1..]) == 1 && CapacityOf([m, m][1..]) == 0;
    TwoOverflow(m);
  }
}
