/** What the gauges of a living pool show in every state it can reach, and the fixed size of the pool. */
module Gauges {
  import opened Prelude
  import opened SubPool
  import opened System
  import opened Ledger
  import opened Balance
  import opened Conservation
  import opened Tally

  // ===== Gauges =====

  /** The requests whose connection `connections` has to count. */
  predicate OwnsConnection(cell: Cell) {
    cell.Delivered? || cell.Held?
  }

  /** The requests whose connection `in_flight` has to count. */
  predicate IsInFlight(cell: Cell) {
    OwnsConnection(cell) || cell.Uncounted?
  }

  predicate OwnsSlot(cell: Cell) {
    IsInFlight(cell) || cell.Unspawned?
  }

  /** How many requests are in a given situation. */
  ghost function Census(cells: seq<Cell>, situation: Cell -> bool): nat {
    |set id | 0 <= id < |cells| && situation(cells[id])|
  }

  lemma {:induction false} CensusPush(cells: seq<Cell>, cell: Cell, situation: Cell -> bool)
    ensures Census(cells + [cell], situation) == Census(cells, situation) + One(situation(cell))
  {
    var longer := cells + [cell];
    var ids := set id | 0 <= id < |longer| && situation(longer[id]);
    var fewer := set id | 0 <= id < |cells| && situation(cells[id]);
    assert ids == if situation(cell) then fewer + {|cells|} else fewer;
  }

  lemma {:induction false} CensusIsSum(cells: seq<Cell>, situation: Cell -> bool, t: Token)
    requires forall cell :: cell in cells ==> CellWeight(cell, t) == One(situation(cell))
    ensures Sum(cells, CellWeight, t) == Census(cells, situation)
  {
    if cells == [] {
      CensusEmpty(cells, situation);
    } else {
      var n := |cells| - 1;
      assert cells == cells[..n] + [cells[n]];
      CensusIsSum(cells[..n], situation, t);
      SumPush<Cell, Token>(cells[..n], cells[n], CellWeight);
      CensusPush(cells[..n], cells[n], situation);
    }
  }

  lemma {:induction false} CensusEmpty(cells: seq<Cell>, situation: Cell -> bool)
    ensures Census(cells, situation) == 0 <==> forall cell :: cell in cells ==> !situation(cell)
  {
    var ids := set id | 0 <= id < |cells| && situation(cells[id]);
    if ids == {} {
      forall cell | cell in cells ensures !situation(cell) {
        var id :| 0 <= id < |cells| && cells[id] == cell;
        assert id !in ids;
      }
    } else {
      var id :| id in ids;
      assert cells[id] in cells;
    }
  }

  lemma {:induction false} CellsInFigures(cfg: Config, s: Sys)
    requires Shape(cfg, s)
    ensures Sum(s.view.cells, CellWeight, Flight) == Census(s.view.cells, IsInFlight)
    ensures Sum(s.view.cells, CellWeight, Known) == Census(s.view.cells, OwnsConnection)
    ensures Sum(s.view.cells, CellWeight, Seat) == Census(s.view.cells, OwnsSlot)
  {
    CensusIsSum(s.view.cells, IsInFlight, Flight);
    CensusIsSum(s.view.cells, OwnsConnection, Known);
    CensusIsSum(s.view.cells, OwnsSlot, Seat);
  }

  /**
   Counter agreement, with the send of a connection, the count of a reservation that it fulfils and the increment of
   `in_flight` as separate steps. `idle` and `connections` always agree with what they count. `reservations` is one too
   high while the consumer has sent a connection to a reservation and not counted that out, and `in_flight` lacks
   the connection that the consumer has sent and not counted.
   */
  lemma {:induction false} GaugesAgree(cfg: Config, steps: seq<Step>)
    requires cfg.Valid() && Run(cfg, steps).alive
    ensures var s := Run(cfg, steps);
            var gauges := s.view.gauges;
            && gauges.idle == |s.view.idle|
            && gauges.reservations == |s.view.reservations| + One(s.owed.ReservationAndFlight?)
            && gauges.connections == |s.view.idle| + Census(s.view.cells, OwnsConnection) + CountReturning(s.internal)
            && gauges.inFlight + One(s.owed != Nothing) == Census(s.view.cells, IsInFlight) + CountReturning(s.internal)
  {
    EveryRunKeepsInv(cfg, steps);
    var s := Run(cfg, steps);
    WhereFlightsAre(s);
    CellsInFigures(cfg, s);
  }

  lemma {:induction false} HeadIsServed(v: View, m: Managed, now: Instant)
    requires v.reservations != [] && Open(v.cells, v.reservations[0])
    ensures var v' := OnCheckIn(v, m, now).view;
            && v'.reservations == v.reservations[1..] && v'.gauges.reservations == v.gauges.reservations
            && |v'.cells| == |v.cells| && v'.cells[v.reservations[0]].Delivered?
  {
    assert FirstOpen(v.cells, v.reservations) == 0;
  }

  /** A client served from the queue can own its connection while the gauge still counts its reservation. */
  lemma {:induction false} OwnerMayReadOldGauge(cfg: Config, steps: seq<Step>)
    requires cfg.Valid() && ConsumerReady(Run(cfg, steps))
    requires Run(cfg, steps).internal != [] && CarriesCheckIn(Run(cfg, steps).internal[0])
    requires Run(cfg, steps).view.reservations != []
    requires Open(Run(cfg, steps).view.cells, Run(cfg, steps).view.reservations[0])
    ensures var id := Run(cfg, steps).view.reservations[0];
            var s := Run(cfg, steps + [TakeInternal, Client(id, Receive)]);
            && id < |s.view.cells| && s.view.cells[id].Held?
            && s.view.gauges.reservations == |s.view.reservations| + 1
  {
    var s := Run(cfg, steps);
    var id := s.view.reservations[0];
    var s1 := Next(cfg, s, TakeInternal);
    GaugesAgree(cfg, steps);
    HeadIsServed(s.view, s.internal[0].message.conn, s.now);
    FirstStep(cfg, s, TakeInternal, [Client(id, Receive)]);
    FirstStep(cfg, s1, Client(id, Receive), []);
    RunConcat(cfg, Start(cfg), steps, [TakeInternal, Client(id, Receive)]);
  }

  lemma {:induction false} CensusSame(cells: seq<Cell>, one: Cell -> bool, other: Cell -> bool)
    requires forall cell :: cell in cells ==> one(cell) == other(cell)
    ensures Census(cells, one) == Census(cells, other)
  {
    assert forall id: nat :: id < |cells| ==> cells[id] in cells;
    assert (set id | 0 <= id < |cells| && one(cells[id])) == (set id | 0 <= id < |cells| && other(cells[id]));
  }

  /** Without anything half counted, every connection is idle or in flight. */
  lemma {:induction false} QuietGaugesAddUp(cfg: Config, steps: seq<Step>)
    requires cfg.Valid() && Run(cfg, steps).alive && Run(cfg, steps).owed == Nothing
    requires forall cell :: cell in Run(cfg, steps).view.cells ==> !cell.Uncounted?
    ensures var gauges := Run(cfg, steps).view.gauges;
            gauges.connections == gauges.idle + gauges.inFlight
  {
    GaugesAgree(cfg, steps);
    CensusSame(Run(cfg, steps).view.cells, IsInFlight, OwnsConnection);
  }

  /** The pool has a fixed size: no gauge of a living pool leaves these bounds. */
  lemma {:induction false} GaugesAreBounded(cfg: Config, steps: seq<Step>)
    requires cfg.Valid() && Run(cfg, steps).alive
    ensures var gauges := Run(cfg, steps).view.gauges;
            && 0 <= gauges.idle <= gauges.connections <= cfg.desiredPoolSize
            && -1 <= gauges.inFlight <= cfg.desiredPoolSize
            && 0 <= gauges.reservations <= cfg.capacity
  {
    EveryRunKeepsInv(cfg, steps);
    SeatsBound(cfg, Run(cfg, steps));
    GaugesAgree(cfg, steps);
  }

  lemma {:induction false} UsizeOfSmall(c: int)
    requires -1 <= c < USIZE_VALUES
    ensures Usize(c) == if c == -1 then USIZE_VALUES - 1 else c
  {
  }

  /**
   The `in_flight` gauge of a living pool can wrap around. It does exactly while the consumer has not
   yet counted a connection that it sent and nothing else is in flight, because the client was faster
   to give that connection up than the consumer to count it.
   */
  lemma {:induction false} InFlightWrapsExactly(cfg: Config, steps: seq<Step>)
    requires cfg.Valid() && Run(cfg, steps).alive
    ensures var s := Run(cfg, steps);
            Usize(s.view.gauges.inFlight) != s.view.gauges.inFlight
            <==> s.owed != Nothing && CountReturning(s.internal) == 0
                 && (forall cell :: cell in s.view.cells ==> !IsInFlight(cell))
  {
    var s := Run(cfg, steps);
    GaugesAreBounded(cfg, steps);
    GaugesAgree(cfg, steps);
    UsizeOfSmall(s.view.gauges.inFlight);
    CensusEmpty(s.view.cells, IsInFlight);
  }

  /** One slot, one client: the client loses the connection before the consumer has counted it. */
  const MAKE_ONE: seq<Step> := [CreateLoop(0, Probe), CreateLoop(0, ConnectSucceeds), TakeInternal, TakeInternal]
  const LOSE_ONE: seq<Step> :=
    [RequestCheckOut(false), TakeCheckout(false), Client(0, Receive), Client(0, BeginCommand),
     Client(0, CommandIsLost), Client(0, CountOut)]

  const SMALLEST := Config(1, 0, 0, FiFo, 1)

  const ONE_IDLE :=
    View([Managed(None, Some(Conn(0, false)), Some(Factory(0)))], [], 0, PoolState(0, 0, 1, 1, 1), [])

  lemma {:induction false} MakeOne()
    ensures var s := Run(SMALLEST, MAKE_ONE);
            && s.view == ONE_IDLE
            && s.alive && s.handle && s.internal == [] && s.checkouts == [] && s.owed == Nothing && s.now == 0
  {
    var f := Factory(0);
    var s0 := Start(SMALLEST);
    assert FirstTasks(1) == [Probing(f, 1)];
    var s1 := Next(SMALLEST, s0, CreateLoop(0, Probe));
    assert s1 == s0.(tasks := [Connecting(f, 1)], internal := [Deliver(CheckAlive)]);
    var newborn := Managed(None, Some(Conn(0, false)), Some(f));
    var s2 := Next(SMALLEST, s1, CreateLoop(0, ConnectSucceeds));
    assert s2 == s1.(tasks := [], nextConn := 1, internal := [Deliver(CheckAlive), Deliver(CheckIn(newborn))]);
    var s3 := Next(SMALLEST, s2, TakeInternal);
    assert s3 == s2.(internal := [Deliver(CheckIn(newborn))]);
    FirstStep(SMALLEST, s0, CreateLoop(0, Probe), [CreateLoop(0, ConnectSucceeds), TakeInternal, TakeInternal]);
    FirstStep(SMALLEST, s1, CreateLoop(0, ConnectSucceeds), [TakeInternal, TakeInternal]);
    FirstStep(SMALLEST, s2, TakeInternal, [TakeInternal]);
    FirstStep(SMALLEST, s3, TakeInternal, []);
  }

  lemma {:induction false} GetOne(s: Sys)
    requires s.view == ONE_IDLE
    requires s.alive && s.handle && s.internal == [] && s.checkouts == [] && s.owed == Nothing && s.now == 0
    ensures var s' := RunFrom(SMALLEST, s, LOSE_ONE[..2]);
            && s'.view.cells == [Delivered(Managed(Some(0), Some(Conn(0, false)), Some(Factory(0))))]
            && s'.alive && s'.view.gauges.inFlight == 0
  {
    var s1 := Next(SMALLEST, s, RequestCheckOut(false));
    assert s1.view.cells == [Waiting] && s1.checkouts == [Request(0, false)];
    FirstStep(SMALLEST, s, RequestCheckOut(false), [TakeCheckout(false)]);
    FirstStep(SMALLEST, s1, TakeCheckout(false), []);
    assert LOSE_ONE[..2] == [RequestCheckOut(false), TakeCheckout(false)];
  }

  lemma {:induction false} BeginOne(s: Sys)
    requires s.view.cells == [Delivered(Managed(Some(0), Some(Conn(0, false)), Some(Factory(0))))]
    requires s.alive && s.view.gauges.inFlight == 0
    ensures var s' := RunFrom(SMALLEST, s, LOSE_ONE[2..4]);
            && s'.view.cells == [Held(PoolConn(false, Managed(Some(0), None, Some(Factory(0)))), Some(Conn(0, true)))]
            && s'.alive && s'.view.gauges.inFlight == 0
  {
    FirstStep(SMALLEST, s, Client(0, Receive), [Client(0, BeginCommand)]);
    FirstStep(SMALLEST, Next(SMALLEST, s, Client(0, Receive)), Client(0, BeginCommand), []);
    assert LOSE_ONE[2..4] == [Client(0, Receive), Client(0, BeginCommand)];
  }

  lemma {:induction false} GiveUpOne(s: Sys)
    requires s.view.cells == [Held(PoolConn(false, Managed(Some(0), None, Some(Factory(0)))), Some(Conn(0, true)))]
    requires s.alive && s.view.gauges.inFlight == 0
    ensures var s' := RunFrom(SMALLEST, s, LOSE_ONE[4..]);
            s'.alive && s'.view.gauges.inFlight == -1
  {
    var s1 := Next(SMALLEST, s, Client(0, CommandIsLost));
    LossEffect(s, 0);
    CountOutEffect(s1, 0);
    FirstStep(SMALLEST, s, Client(0, CommandIsLost), [Client(0, CountOut)]);
    FirstStep(SMALLEST, s1, Client(0, CountOut), []);
    assert LOSE_ONE[4..] == [Client(0, CommandIsLost), Client(0, CountOut)];
  }

  /** The wrap does occur: with one slot and one client the gauge can read 18446744073709551615. */
  lemma {:induction false} InFlightDoesWrap()
    ensures SMALLEST.Valid() && Run(SMALLEST, MAKE_ONE + LOSE_ONE).alive
    ensures Usize(Run(SMALLEST, MAKE_ONE + LOSE_ONE).view.gauges.inFlight) == 18446744073709551615
  {
    MakeOne();
    var s := Run(SMALLEST, MAKE_ONE);
    GetOne(s);
    BeginOne(RunFrom(SMALLEST, s, LOSE_ONE[..2]));
    RunConcat(SMALLEST, s, LOSE_ONE[..2], LOSE_ONE[2..4]);
    assert LOSE_ONE[..4] == LOSE_ONE[..2] + LOSE_ONE[2..4];
    GiveUpOne(RunFrom(SMALLEST, s, LOSE_ONE[..4]));
    RunConcat(SMALLEST, s, LOSE_ONE[..4], LOSE_ONE[4..]);
    assert LOSE_ONE == LOSE_ONE[..4] + LOSE_ONE[4..];
    RunConcat(SMALLEST, Start(SMALLEST), MAKE_ONE, LOSE_ONE);
  }

  const ONE_RESERVATION := Config(1, 1, 1, FiFo, 1)

  /** A request is reserved, and the first connection is on its way in. */
  const RESERVE_ONE: seq<Step> :=
    [RequestCheckOut(true), TakeCheckout(false), CreateLoop(0, Probe), TakeInternal, CreateLoop(0, ConnectSucceeds)]

  lemma {:induction false} ReserveOne()
    ensures var s := Run(ONE_RESERVATION, RESERVE_ONE[..2]);
            && s.view.cells == [Waiting] && s.view.reservations == [0] && s.tasks == [Probing(Factory(0), 1)]
            && s.internal == [] && ConsumerReady(s)
  {
    var cfg := ONE_RESERVATION;
    var s0 := Start(cfg);
    assert FirstTasks(1) == [Probing(Factory(0), 1)];
    var s1 := Next(cfg, s0, RequestCheckOut(true));
    assert s1.view.cells == [Waiting] && s1.checkouts == [Request(0, true)];
    FirstStep(cfg, s0, RequestCheckOut(true), [TakeCheckout(false)]);
    FirstStep(cfg, s1, TakeCheckout(false), []);
    assert RESERVE_ONE[..2] == [RequestCheckOut(true), TakeCheckout(false)];
  }

  lemma {:induction false} SendOne(s: Sys)
    requires s.view.cells == [Waiting] && s.view.reservations == [0] && s.tasks == [Probing(Factory(0), 1)]
    requires s.internal == [] && ConsumerReady(s)
    ensures var s' := RunFrom(ONE_RESERVATION, s, RESERVE_ONE[2..]);
            && s'.view == s.view && ConsumerReady(s')
            && |s'.internal| == 1 && CarriesCheckIn(s'.internal[0])
  {
    var cfg := ONE_RESERVATION;
    var s1 := Next(cfg, s, CreateLoop(0, Probe));
    assert s1 == s.(tasks := [Connecting(Factory(0), 1)], internal := [Deliver(CheckAlive)]);
    var s2 := Next(cfg, s1, TakeInternal);
    assert s2 == s1.(internal := []);
    FirstStep(cfg, s, CreateLoop(0, Probe), [TakeInternal, CreateLoop(0, ConnectSucceeds)]);
    FirstStep(cfg, s1, TakeInternal, [CreateLoop(0, ConnectSucceeds)]);
    FirstStep(cfg, s2, CreateLoop(0, ConnectSucceeds), []);
    assert RESERVE_ONE[2..] == [CreateLoop(0, Probe), TakeInternal, CreateLoop(0, ConnectSucceeds)];
  }

  /** The reservations gauge does lag: the only client owns its connection and the gauge still shows its reservation. */
  lemma {:induction false} OwnerDoesReadOldGauge()
    ensures ONE_RESERVATION.Valid()
    ensures var s := Run(ONE_RESERVATION, RESERVE_ONE + [TakeInternal, Client(0, Receive)]);
            && |s.view.cells| > 0 && s.view.cells[0].Held?
            && s.view.gauges.reservations == |s.view.reservations| + 1
  {
    ReserveOne();
    SendOne(Run(ONE_RESERVATION, RESERVE_ONE[..2]));
    RunConcat(ONE_RESERVATION, Start(ONE_RESERVATION), RESERVE_ONE[..2], RESERVE_ONE[2..]);
    assert RESERVE_ONE == RESERVE_ONE[..2] + RESERVE_ONE[2..];
    OwnerMayReadOldGauge(ONE_RESERVATION, RESERVE_ONE);
  }

  // ===== A fixed number of seats =====

  predicate CarriesCheckIn(envelope: Envelope) {
    envelope.Deliver? && envelope.message.CheckIn?
  }

  function CountCheckIns(internal: seq<Envelope>): nat {
    if internal == [] then 0 else One(CarriesCheckIn(internal[0])) + CountCheckIns(internal[1..])
  }

  lemma {:induction false} CheckInsCarrySeats(internal: seq<Envelope>)
    requires forall envelope :: envelope in internal ==> EnvelopeShape(envelope)
    ensures Sum(internal, EnvelopeWeight, Seat) == CountCheckIns(internal)
  {
    if internal != [] {
      assert EnvelopeShape(internal[0]);
      CheckInsCarrySeats(internal[1..]);
    }
  }

  lemma {:induction false} IdleCarrySeats(idle: seq<Managed>)
    requires forall m :: m in idle ==> Reusable(m)
    ensures Sum(idle, IdleWeight, Seat) == |idle|
  {
    if idle != [] {
      assert Reusable(idle[0]);
      IdleCarrySeats(idle[1..]);
    }
  }

  lemma {:induction false} TasksCarrySeats(tasks: seq<Task>)
    ensures Sum(tasks, TaskWeight, Seat) == |tasks|
  {
    if tasks != [] {
      TasksCarrySeats(tasks[1..]);
    }
  }

  lemma {:induction false} SendersCarryNoSeats(checkouts: seq<Request>, reservations: seq<nat>)
    ensures Sum(checkouts, RequestWeight, Seat) == 0 && Sum(reservations, ReservationWeight, Seat) == 0
    decreases |checkouts| + |reservations|
  {
    if checkouts != [] {
      SendersCarryNoSeats(checkouts[1..], reservations);
    } else if reservations != [] {
      SendersCarryNoSeats(checkouts, reservations[1..]);
    }
  }

  lemma {:induction false} SeatsInFigures(cfg: Config, s: Sys)
    requires Shape(cfg, s)
    ensures Holds(s, Seat) == |s.tasks| + CountCheckIns(s.internal) + |s.view.idle| + Census(s.view.cells, OwnsSlot)
  {
    TasksCarrySeats(s.tasks);
    CheckInsCarrySeats(s.internal);
    IdleCarrySeats(s.view.idle);
    SendersCarryNoSeats(s.checkouts, s.view.reservations);
    CellsInFigures(cfg, s);
  }

  /** Connections being made, on their way in, idle or with clients add up to the configured size, always. */
  lemma {:induction false} PoolSizeIsFixed(cfg: Config, steps: seq<Step>)
    requires cfg.Valid() && Run(cfg, steps).alive
    ensures var s := Run(cfg, steps);
            |s.tasks| + CountCheckIns(s.internal) + |s.view.idle| + Census(s.view.cells, OwnsSlot)
            == cfg.desiredPoolSize
  {
    EveryRunKeepsInv(cfg, steps);
    SeatsInFigures(cfg, Run(cfg, steps));
  }
}
