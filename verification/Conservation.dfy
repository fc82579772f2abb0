/** The invariant holds in every state of every run, and what that means for slots, gauges and clients. */
module Conservation {
  import opened Prelude
  import opened SubPool
  import opened System
  import opened Ledger
  import opened Balance
  import opened Shapes
  import opened Tally

  // ===== Bounds =====

  lemma {:induction false} TokenBound(s: Sys, t: Token)
    requires t.Flight? || t.Known?
    requires forall cell :: cell in s.view.cells ==> CellWeight(cell, t) <= CellWeight(cell, Seat)
    requires forall e :: e in s.internal ==> EnvelopeWeight(e, t) <= EnvelopeWeight(e, Seat)
    requires forall m :: m in s.view.idle ==> IdleWeight(m, t) <= IdleWeight(m, Seat)
    ensures Holds(s, t) <= Holds(s, Seat)
  {
    SumMonotone(s.tasks, TaskWeight, t, Seat);
    SumMonotone(s.internal, EnvelopeWeight, t, Seat);
    SumMonotone(s.checkouts, RequestWeight, t, Seat);
    SumMonotone(s.view.idle, IdleWeight, t, Seat);
    SumMonotone(s.view.reservations, ReservationWeight, t, Seat);
    SumMonotone(s.view.cells, CellWeight, t, Seat);
  }

  /** Whatever counts as in flight or as a connection occupies a seat. */
  lemma {:induction false} SeatsBound(cfg: Config, s: Sys)
    requires Shape(cfg, s)
    ensures Holds(s, Flight) <= Holds(s, Seat) && Holds(s, Known) <= Holds(s, Seat)
  {
    TokenBound(s, Flight);
    TokenBound(s, Known);
  }

  lemma {:induction false} IdleAreKnown(idle: seq<Managed>)
    ensures Sum(idle, IdleWeight, Known) == |idle| && Sum(idle, IdleWeight, Flight) == 0
  {
    if idle != [] {
      IdleAreKnown(idle[1..]);
    }
  }

  lemma {:induction false} ReturningWeigh(internal: seq<Envelope>)
    ensures Sum(internal, EnvelopeWeight, Flight) == CountReturning(internal) == Sum(internal, EnvelopeWeight, Known)
  {
    if internal != [] {
      ReturningWeigh(internal[1..]);
    }
  }

  lemma {:induction false} OnlyManagedHoldFlights(tasks: seq<Task>, checkouts: seq<Request>, reservations: seq<nat>)
    ensures Sum(tasks, TaskWeight, Flight) == 0 && Sum(tasks, TaskWeight, Known) == 0
    ensures Sum(checkouts, RequestWeight, Flight) == 0 && Sum(checkouts, RequestWeight, Known) == 0
    ensures Sum(reservations, ReservationWeight, Flight) == 0 && Sum(reservations, ReservationWeight, Known) == 0
    decreases |tasks| + |checkouts| + |reservations|
  {
    if tasks != [] {
      OnlyManagedHoldFlights(tasks[1..], checkouts, reservations);
    } else if checkouts != [] {
      OnlyManagedHoldFlights(tasks, checkouts[1..], reservations);
    } else if reservations != [] {
      OnlyManagedHoldFlights(tasks, checkouts, reservations[1..]);
    }
  }

  /** Where flights and known connections can be. */
  lemma {:induction false} WhereFlightsAre(s: Sys)
    ensures Holds(s, Flight) == CountReturning(s.internal) + Sum(s.view.cells, CellWeight, Flight)
    ensures Holds(s, Known) == CountReturning(s.internal) + |s.view.idle| + Sum(s.view.cells, CellWeight, Known)
  {
    OnlyManagedHoldFlights(s.tasks, s.checkouts, s.view.reservations);
    ReturningWeigh(s.internal);
    IdleAreKnown(s.view.idle);
  }

  // ===== Shutting down =====

  lemma {:induction false} DroppedSendersWeigh(cells: seq<Cell>, ids: seq<nat>)
    ensures forall t: Token :: Sum(DropSenders(cells, ids), CellWeight, t) == Sum(cells, CellWeight, t)
  {
    forall t: Token ensures Sum(DropSenders(cells, ids), CellWeight, t) == Sum(cells, CellWeight, t) {
      SumPointwise(DropSenders(cells, ids), cells, CellWeight, t);
    }
  }

  /** Only create loops and cells are left. */
  lemma {:induction false} ShutdownHolds(s: Sys)
    ensures forall t: Token :: Holds(Shutdown(s), t) == Sum(s.tasks, TaskWeight, t) + Sum(s.view.cells, CellWeight, t)
  {
    var cells := DropSenders(s.view.cells, IdsOf(s.checkouts));
    DroppedSendersWeigh(s.view.cells, IdsOf(s.checkouts));
    DroppedSendersWeigh(cells, s.view.reservations);
  }

  lemma {:induction false} NoSenderInTheChannel(internal: seq<Envelope>, id: nat)
    requires forall envelope :: envelope in internal ==> EnvelopeShape(envelope)
    ensures Sum(internal, EnvelopeWeight, Ticket(id)) == 0
  {
    if internal != [] {
      NoSenderInTheChannel(internal[1..], id);
      assert EnvelopeShape(internal[0]);
    }
  }

  lemma {:induction false} OnlyQueuesHoldSenders(tasks: seq<Task>, idle: seq<Managed>, cells: seq<Cell>, id: nat)
    ensures Sum(tasks, TaskWeight, Ticket(id)) == 0 && Sum(idle, IdleWeight, Ticket(id)) == 0
    ensures Sum(cells, CellWeight, Ticket(id)) == 0
    decreases |tasks| + |idle| + |cells|
  {
    if tasks != [] {
      OnlyQueuesHoldSenders(tasks[1..], idle, cells, id);
    } else if idle != [] {
      OnlyQueuesHoldSenders(tasks, idle[1..], cells, id);
    } else if cells != [] {
      OnlyQueuesHoldSenders(tasks, idle, cells[1..], id);
    }
  }

  /** While the pool is alive the sender of a waiting request is in the checkout channel or in the queue. */
  lemma {:induction false} WaitingIsQueued(cfg: Config, s: Sys, id: nat)
    requires Inv(cfg, s) && Open(s.view.cells, id)
    ensures id in IdsOf(s.checkouts) || id in s.view.reservations
  {
    assert TicketRule(s.view.cells, id, Holds(s, Ticket(id)));
    NoSenderInTheChannel(s.internal, id);
    OnlyQueuesHoldSenders(s.tasks, s.view.idle, s.view.cells, id);
    if Sum(s.checkouts, RequestWeight, Ticket(id)) > 0 {
      SumPositive(s.checkouts, RequestWeight, Ticket(id));
      var i :| 0 <= i < |s.checkouts| && RequestWeight(s.checkouts[i], Ticket(id)) > 0;
      assert IdsOf(s.checkouts)[i] == id;
    } else {
      SumPositive(s.view.reservations, ReservationWeight, Ticket(id));
    }
  }

  lemma {:induction false} ShutdownLeavesNobodyWaiting(cfg: Config, s: Sys, rest: Sys)
    requires Inv(cfg, s) && rest == s.(internal := rest.internal)
    ensures forall id: nat | id < |s.view.cells| ::
              Shutdown(rest).view.cells[id]
              == if s.view.cells[id].Waiting? then Refused(NoPool) else s.view.cells[id]
  {
    forall id: nat | id < |s.view.cells| && s.view.cells[id].Waiting?
      ensures Shutdown(rest).view.cells[id] == Refused(NoPool)
    {
      WaitingIsQueued(cfg, s, id);
    }
  }

  /** The drop of the inner pool reads a gauge that has not wrapped. */
  lemma {:induction false} StopReadsTrueGauge(cfg: Config, s: Sys)
    requires cfg.Valid() && Inv(cfg, s) && ConsumerReady(s)
    ensures 0 <= s.view.gauges.inFlight <= cfg.desiredPoolSize
    ensures Usize(s.view.gauges.inFlight) == s.view.gauges.inFlight
  {
    SeatsBound(cfg, s);
  }

  lemma {:induction false} ShutdownKeepsBalance(cfg: Config, s: Sys, rest: Sys)
    requires cfg.Valid() && Inv(cfg, s) && ConsumerReady(s) && s.internal != [] && s.internal[0].Stop?
    requires rest == s.(internal := s.internal[1..])
    ensures Balanced(cfg, Shutdown(rest))
  {
    var s' := Shutdown(rest);
    StopReadsTrueGauge(cfg, s);
    ShutdownLeavesNobodyWaiting(cfg, s, rest);
    ShutdownHolds(rest);
    WhereFlightsAre(s);
    OnlyManagedHoldFlights(s.tasks, [], []);
    assert forall t: Token :: Holds(s', t) <= Holds(s, t);
    forall id: nat ensures TicketRule(s'.view.cells, id, Holds(s', Ticket(id))) {
      OnlyQueuesHoldSenders(s.tasks, [], s.view.cells, id);
    }
  }

  // ===== Every step of every run =====

  /** Nothing that circulates moves, and nothing that is counted is counted differently. */
  lemma {:induction false} StillKeeps(s: Sys, s': Sys)
    requires s'.view == s.view.(gauges := s'.view.gauges) && s'.alive == s.alive
    requires s' == s.(view := s'.view, internal := s'.internal, owed := s'.owed, handle := s'.handle,
                      now := s'.now)
    requires s'.view.gauges.inFlight + One(s'.owed != Nothing) == s.view.gauges.inFlight + One(s.owed != Nothing)
    requires s'.view.gauges.connections == s.view.gauges.connections
    requires s'.view.gauges.reservations - One(s'.owed.ReservationAndFlight?)
          == s.view.gauges.reservations - One(s.owed.ReservationAndFlight?)
    requires forall t: Token :: Sum(s'.internal, EnvelopeWeight, t) == Sum(s.internal, EnvelopeWeight, t)
    ensures Kept(s, s')
  {
    assert forall t: Token :: Holds(s', t) == Holds(s, t);
  }

  lemma {:induction false} IdleStepKeeps(cfg: Config, s: Sys, step: Step)
    requires step.CleanupTick? || step.DropHandle? || step.CountOne? || step.Pass?
    ensures Kept(s, Next(cfg, s, step))
  {
    SumPush<Envelope, Token>(s.internal, Deliver(CleanupReservations), EnvelopeWeight);
    SumPush<Envelope, Token>(s.internal, Stop, EnvelopeWeight);
    StillKeeps(s, Next(cfg, s, step));
  }

  lemma {:induction false} TaskKeeps(s: Sys, event: Event, i: nat)
    requires i < |s.tasks|
    ensures Kept(s, OnTask(s, event, i))
  {
    NothingKeeps(s);
    if event.Probe? && s.tasks[i].Probing? {
      ProbeKeeps(s, i);
    } else if event.ConnectSucceeds? && s.tasks[i].Connecting? {
      ConnectedKeeps(s, i);
    } else if event.ConnectFails? && s.tasks[i].Connecting? {
      RetryKeeps(s, i);
    } else {
      assert OnTask(s, event, i) == s;
    }
  }

  lemma {:induction false} NextKeeps(cfg: Config, s: Sys, step: Step)
    requires Shape(cfg, s)
    requires step.Client? && step.id < |s.view.cells| ==> RunsSomethingKept(s, step.id)
    requires !(step.TakeInternal? && ConsumerReady(s) && s.internal != [] && s.internal[0].Stop?)
    ensures Kept(s, Next(cfg, s, step))
  {
    NothingKeeps(s);
    match step
    case RequestCheckOut(allowed) => RequestKeeps(cfg, s, allowed);
    case Client(id, action) =>
      if id < |s.view.cells| {
        assert CellShape(s.view.cells[id]);
        ClientKeeps(s, action, id);
      }
    case CreateLoop(i, event) => if i < |s.tasks| { TaskKeeps(s, event, i); }
    case TakeInternal => if ConsumerReady(s) && s.internal != [] { TakeInternalKeeps(cfg, s); }
    case TakeCheckout(races) => if ConsumerReady(s) && s.checkouts != [] { TakeCheckoutKeeps(cfg, s, races); }
    case _ => IdleStepKeeps(cfg, s, step);
  }

  lemma {:induction false} NextKeepsBalance(cfg: Config, s: Sys, step: Step)
    requires cfg.Valid() && Inv(cfg, s)
    ensures Balanced(cfg, Next(cfg, s, step))
  {
    var s' := Next(cfg, s, step);
    if step.TakeInternal? && ConsumerReady(s) && s.internal != [] && s.internal[0].Stop? {
      var rest := s.(internal := s.internal[1..]);
      assert s' == Shutdown(rest);
      ShutdownKeepsBalance(cfg, s, rest);
    } else {
      if step.Client? && step.id < |s.view.cells| {
        RunningIsNotLost(cfg, s, step.id);
      }
      NextKeeps(cfg, s, step);
      KeptStaysBalanced(cfg, s, s');
    }
  }

  lemma {:induction false} NextKeepsInv(cfg: Config, s: Sys, step: Step)
    requires cfg.Valid() && Inv(cfg, s)
    ensures Inv(cfg, Next(cfg, s, step))
  {
    NextKeepsShape(cfg, s, step);
    NextKeepsBalance(cfg, s, step);
  }

  lemma {:induction false} RunFromKeepsInv(cfg: Config, s: Sys, steps: seq<Step>)
    requires cfg.Valid() && Inv(cfg, s)
    ensures Inv(cfg, RunFrom(cfg, s, steps))
    decreases |steps|
  {
    if steps != [] {
      NextKeepsInv(cfg, s, steps[0]);
      RunFromKeepsInv(cfg, Next(cfg, s, steps[0]), steps[1..]);
    }
  }

  lemma {:induction false} EveryRunKeepsInv(cfg: Config, steps: seq<Step>)
    requires cfg.Valid()
    ensures Inv(cfg, Run(cfg, steps))
  {
    StartKeepsInv(cfg);
    RunFromKeepsInv(cfg, Start(cfg), steps);
  }
}
