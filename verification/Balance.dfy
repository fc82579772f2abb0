/** Every step keeps what the stations hold in balance with the gauges. */
module Balance {
  import opened Prelude
  import opened SubPool
  import opened System
  import opened Ledger
  import opened Consumption
  import opened Tally

  // ===== How single moves change what is held =====

  lemma {:induction false} SetCellHolds(s: Sys, id: nat, cell: Cell)
    requires id < |s.view.cells|
    ensures forall t: Token :: Holds(SetCell(s, id, cell), t)
                            == Holds(s, t) - CellWeight(s.view.cells[id], t) + CellWeight(cell, t)
  {
    SumUpdate<Cell, Token>(s.view.cells, id, cell, CellWeight);
  }

  lemma {:induction false} SendHolds(s: Sys, envelope: Envelope)
    ensures forall t: Token :: Holds(Send(s, envelope), t)
                            == Holds(s, t) + (if s.alive then EnvelopeWeight(envelope, t) else 0)
  {
    SumPush<Envelope, Token>(s.internal, envelope, EnvelopeWeight);
  }

  lemma {:induction false} SetTaskHolds(s: Sys, i: nat, task: Task)
    requires i < |s.tasks|
    ensures forall t: Token :: Holds(s.(tasks := s.tasks[i := task]), t)
                            == Holds(s, t) - TaskWeight(s.tasks[i], t) + TaskWeight(task, t)
  {
    SumUpdate<Task, Token>(s.tasks, i, task, TaskWeight);
  }

  lemma {:induction false} EndTaskHolds(s: Sys, i: nat)
    requires i < |s.tasks|
    ensures forall t: Token :: Holds(s.(tasks := Without(s.tasks, i)), t) == Holds(s, t) - TaskWeight(s.tasks[i], t)
  {
    SumRemove<Task, Token>(s.tasks, i, TaskWeight);
  }

  lemma {:induction false} AddTaskHolds(s: Sys, task: Task)
    ensures forall t: Token :: Holds(s.(tasks := s.tasks + [task]), t) == Holds(s, t) + TaskWeight(task, t)
  {
    SumPush<Task, Token>(s.tasks, task, TaskWeight);
  }

  // ===== When a move keeps the balance =====

  /** The requests and their senders, apart from everything else. */
  ghost predicate TicketsKept(s: Sys, s': Sys) {
    (forall id: nat :: TicketRule(s.view.cells, id, Holds(s, Ticket(id))))
    ==> (forall id: nat :: TicketRule(s'.view.cells, id, Holds(s', Ticket(id))))
  }

  /** The slots stay where they are, or leave only after the pool is gone. */
  ghost predicate SlotsKept(s: Sys, s': Sys) {
    && s'.alive == s.alive
    && (forall t: Token :: t.Slot? || t.Seat? ==>
          if s.alive then Holds(s', t) == Holds(s, t) else Holds(s', t) <= Holds(s, t))
  }

  ghost predicate LinksKept(s: Sys, s': Sys) {
    forall c: nat ::
      var before := Holds(s, Link(c)) + One(c in s.lost) + One(c < s'.nextConn);
      var after := Holds(s', Link(c)) + One(c in s'.lost) + One(c < s.nextConn);
      if s.alive then after == before else after <= before
  }

  ghost predicate GaugesKept(s: Sys, s': Sys) {
    && s'.view.gauges.connections - Holds(s', Known) - s'.orphaned
       == s.view.gauges.connections - Holds(s, Known) - s.orphaned
    && s'.view.gauges.inFlight + One(s'.owed != Nothing) + s'.inFlightAtStop - Holds(s', Flight) - s'.orphaned
       == s.view.gauges.inFlight + One(s.owed != Nothing) + s.inFlightAtStop - Holds(s, Flight) - s.orphaned
    && s'.view.gauges.reservations - |s'.view.reservations| - One(s'.owed.ReservationAndFlight?) - s'.reservedAtStop
       == s.view.gauges.reservations - |s.view.reservations| - One(s.owed.ReservationAndFlight?) - s.reservedAtStop
  }

  ghost predicate Kept(s: Sys, s': Sys) {
    TicketsKept(s, s') && SlotsKept(s, s') && LinksKept(s, s') && GaugesKept(s, s')
  }

  lemma {:induction false} KeptStaysBalanced(cfg: Config, s: Sys, s': Sys)
    requires Balanced(cfg, s) && Kept(s, s')
    ensures Balanced(cfg, s')
  {
  }

  /** Things move from one station to another, and no gauge moves. */
  lemma {:induction false} MovingKeeps(s: Sys, s': Sys)
    requires s' == s.(view := s'.view, internal := s'.internal, tasks := s'.tasks)
    requires s'.view == s.view.(cells := s'.view.cells)
    requires forall t: Token :: Holds(s', t) == Holds(s, t)
    requires TicketsKept(s, s')
    ensures Kept(s, s')
  {
  }

  // ===== The consumer =====

  lemma {:induction false} ConsumeTickets(cfg: Config, s: Sys, rest: Sys, message: PoolMessage, races: bool)
    requires rest == s.(internal := rest.internal, checkouts := rest.checkouts)
    requires forall t: Token :: Holds(rest, t) + MessageWeight(message, t) == Holds(s, t)
    ensures TicketsKept(s, Consume(cfg, rest, message, races))
  {
    var p := OnMessage(cfg, s.view, message, s.now, races);
    var s' := Consume(cfg, rest, message, races);
    MessageAbsorbs(cfg, s.view, message, s.now, races);
    forall id: nat | TicketRule(s.view.cells, id, Holds(s, Ticket(id)))
      ensures TicketRule(s'.view.cells, id, Holds(s', Ticket(id)))
    {
      assert TicketFollows(s.view.cells, p.view.cells, id,
          HoldsView(s.view, Ticket(id)) + MessageWeight(message, Ticket(id)), HoldsView(p.view, Ticket(id)));
      assert Holds(s', Ticket(id)) - HoldsView(p.view, Ticket(id))
          == Holds(rest, Ticket(id)) - HoldsView(s.view, Ticket(id));
    }
  }

  /** Absorbing a message into the view keeps everything, if the message came from one of the channels. */
  lemma {:induction false} AbsorbingKeeps(s: Sys, s': Sys, message: PoolMessage, p: Processed)
    requires s.owed == Nothing && Absorbs(s.view, message, p)
    requires s' == s.(view := p.view, owed := p.owed, internal := s'.internal, checkouts := s'.checkouts)
    requires forall t: Token :: Holds(s', t) - HoldsView(p.view, t) + MessageWeight(message, t)
                             == Holds(s, t) - HoldsView(s.view, t)
    requires TicketsKept(s, s')
    ensures Kept(s, s')
  {
  }

  lemma {:induction false} ConsumeKeeps(cfg: Config, s: Sys, rest: Sys, message: PoolMessage, races: bool)
    requires s.owed == Nothing
    requires rest == s.(internal := rest.internal, checkouts := rest.checkouts)
    requires forall t: Token :: Holds(rest, t) + MessageWeight(message, t) == Holds(s, t)
    ensures Kept(s, Consume(cfg, rest, message, races))
  {
    var p := OnMessage(cfg, s.view, message, s.now, races);
    var s' := Consume(cfg, rest, message, races);
    ConsumeTickets(cfg, s, rest, message, races);
    MessageAbsorbs(cfg, s.view, message, s.now, races);
    assert forall t: Token :: Holds(s', t) - HoldsView(p.view, t) == Holds(rest, t) - HoldsView(rest.view, t);
    AbsorbingKeeps(s, s', message, p);
  }

  lemma {:induction false} PopInternalHolds(s: Sys)
    requires s.internal != []
    ensures forall t: Token ::
              Holds(s.(internal := s.internal[1..]), t) + EnvelopeWeight(s.internal[0], t) == Holds(s, t)
  {
  }

  lemma {:induction false} PopCheckoutHolds(s: Sys)
    requires s.checkouts != []
    ensures forall t: Token ::
              Holds(s.(checkouts := s.checkouts[1..]), t) + RequestWeight(s.checkouts[0], t) == Holds(s, t)
  {
  }

  lemma {:induction false} TakeInternalKeeps(cfg: Config, s: Sys)
    requires ConsumerReady(s) && s.internal != [] && s.internal[0].Deliver?
    ensures Kept(s, Consume(cfg, s.(internal := s.internal[1..]), s.internal[0].message, false))
  {
    PopInternalHolds(s);
    ConsumeKeeps(cfg, s, s.(internal := s.internal[1..]), s.internal[0].message, false);
  }

  lemma {:induction false} TakeCheckoutKeeps(cfg: Config, s: Sys, races: bool)
    requires ConsumerReady(s) && s.checkouts != []
    ensures Kept(s, Consume(cfg, s.(checkouts := s.checkouts[1..]), CheckOut(s.checkouts[0]), races))
  {
    PopCheckoutHolds(s);
    ConsumeKeeps(cfg, s, s.(checkouts := s.checkouts[1..]), CheckOut(s.checkouts[0]), races);
  }

  // ===== Clients =====

  lemma {:induction false} RequestHolds(cfg: Config, s: Sys, allowed: bool)
    ensures var s' := OnRequest(cfg, s, allowed);
            && |s'.view.cells| == |s.view.cells| + 1 && s'.view.cells[..|s.view.cells|] == s.view.cells
            && (s'.view.cells[|s.view.cells|].Waiting? || s'.view.cells[|s.view.cells|].Refused?)
            && (forall t: Token :: Holds(s', t) == Holds(s, t)
                  + One(s'.view.cells[|s.view.cells|].Waiting? && t == Ticket(|s.view.cells|)))
  {
    var s' := OnRequest(cfg, s, allowed);
    var id := |s.view.cells|;
    SumPush<Cell, Token>(s.view.cells, s'.view.cells[id], CellWeight);
    SumPush<Request, Token>(s.checkouts, Request(id, allowed), RequestWeight);
  }

  /** A new request that waits brings one sender; one that is refused at once brings none. */
  lemma {:induction false} NewTickets(s: Sys, s': Sys)
    requires |s'.view.cells| == |s.view.cells| + 1 && s'.view.cells[..|s.view.cells|] == s.view.cells
    requires s'.view.cells[|s.view.cells|].Waiting? || s'.view.cells[|s.view.cells|].Refused?
    requires forall t: Token :: Holds(s', t) == Holds(s, t)
               + One(s'.view.cells[|s.view.cells|].Waiting? && t == Ticket(|s.view.cells|))
    ensures TicketsKept(s, s')
  {
    forall k: nat | TicketRule(s.view.cells, k, Holds(s, Ticket(k)))
      ensures TicketRule(s'.view.cells, k, Holds(s', Ticket(k)))
    {
      assert k < |s.view.cells| ==> s'.view.cells[k] == s.view.cells[k];
    }
  }

  lemma {:induction false} RequestKeeps(cfg: Config, s: Sys, allowed: bool)
    ensures Kept(s, OnRequest(cfg, s, allowed))
  {
    RequestHolds(cfg, s, allowed);
    NewTickets(s, OnRequest(cfg, s, allowed));
  }

  /** Replacing a cell leaves the senders alone, so it must not pretend that a sender was used. */
  lemma {:induction false} SetCellTickets(s: Sys, s': Sys, id: nat, cell: Cell)
    requires id < |s.view.cells| && s'.view.cells == s.view.cells[id := cell]
    requires forall k: nat :: Holds(s', Ticket(k)) == Holds(s, Ticket(k))
    requires if s.view.cells[id].Waiting? then cell.HungUp? else !s.view.cells[id].HungUp? && !cell.Waiting?
    ensures TicketsKept(s, s')
  {
    forall k: nat | TicketRule(s.view.cells, k, Holds(s, Ticket(k)))
      ensures TicketRule(s'.view.cells, k, Holds(s', Ticket(k)))
    {
    }
  }

  /** A client step after which the cell holds what it held before. */
  lemma {:induction false} QuietClientKeeps(s: Sys, id: nat, cell: Cell)
    requires id < |s.view.cells|
    requires if s.view.cells[id].Waiting? then cell.HungUp? else !s.view.cells[id].HungUp? && !cell.Waiting?
    requires forall t: Token :: CellWeight(cell, t) == CellWeight(s.view.cells[id], t)
    ensures Kept(s, SetCell(s, id, cell))
  {
    SetCellHolds(s, id, cell);
    SetCellTickets(s, SetCell(s, id, cell), id, cell);
    MovingKeeps(s, SetCell(s, id, cell));
  }

  /** A connection that is not in flight any more is counted out. */
  lemma {:induction false} LandingKeeps(s: Sys, s': Sys)
    requires s' == s.(view := s.view.(cells := s'.view.cells,
                                      gauges := s.view.gauges.(inFlight := s.view.gauges.inFlight - 1)))
    requires forall t: Token :: Holds(s', t) == Holds(s, t) - One(t.Flight?)
    requires TicketsKept(s, s')
    ensures Kept(s, s')
  {
  }

  lemma {:induction false} CountOutEffect(s: Sys, id: nat)
    requires id < |s.view.cells| && s.view.cells[id].Uncounted?
    ensures OnClient(s, CountOut, id)
         == s.(view := s.view.(cells := s.view.cells[id := Unspawned(s.view.cells[id].factory)],
                               gauges := s.view.gauges.(inFlight := s.view.gauges.inFlight - 1)))
  {
  }

  lemma {:induction false} LandedHolds(s: Sys, s': Sys, id: nat)
    requires id < |s.view.cells| && s.view.cells[id].Uncounted?
    requires s' == s.(view := s'.view) && s'.view.idle == s.view.idle && s'.view.reservations == s.view.reservations
    requires s'.view.cells == s.view.cells[id := Unspawned(s.view.cells[id].factory)]
    ensures forall t: Token :: Holds(s', t) == Holds(s, t) - One(t.Flight?)
  {
    SumUpdate<Cell, Token>(s.view.cells, id, Unspawned(s.view.cells[id].factory), CellWeight);
  }

  lemma {:induction false} CountOutKeeps(s: Sys, id: nat)
    requires id < |s.view.cells| && s.view.cells[id].Uncounted?
    ensures Kept(s, OnClient(s, CountOut, id))
  {
    var cell := Unspawned(s.view.cells[id].factory);
    var s' := OnClient(s, CountOut, id);
    CountOutEffect(s, id);
    LandedHolds(s, s', id);
    SetCellTickets(s, s', id, cell);
    LandingKeeps(s, s');
  }

  /** A client gives back a connection with a value. */
  lemma {:induction false} ReturnKeeps(s: Sys, id: nat, m: Managed)
    requires id < |s.view.cells| && s.alive
    requires s.view.cells[id] == Delivered(m) || s.view.cells[id] == Held(PoolConn(true, m), None)
    requires Reusable(m) && m.checkedOutAt.Some?
    ensures Kept(s, Release(s, id, m))
  {
    var freed := SetCell(s, id, Finished);
    SetCellHolds(s, id, Finished);
    SendHolds(freed, Deliver(CheckIn(m)));
    assert forall t: Token :: Holds(Release(s, id, m), t) == Holds(s, t);
    SetCellTickets(s, Release(s, id, m), id, Finished);
    MovingKeeps(s, Release(s, id, m));
  }

  /** One connection leaves a dead pool without being counted out. */
  lemma {:induction false} ClosingKeeps(s: Sys, s': Sys)
    requires !s.alive && s' == s.(view := s'.view, orphaned := s.orphaned + 1)
    requires s'.view == s.view.(cells := s'.view.cells)
    requires forall t: Token :: Holds(s', t) <= Holds(s, t)
    requires Holds(s', Known) == Holds(s, Known) - 1 && Holds(s', Flight) == Holds(s, Flight) - 1
    requires TicketsKept(s, s')
    ensures Kept(s, s')
  {
  }

  lemma {:induction false} OrphanEffect(s: Sys, id: nat, m: Managed)
    requires id < |s.view.cells| && !s.alive && Reusable(m)
    ensures Release(s, id, m)
         == s.(view := s.view.(cells := s.view.cells[id := Finished]), orphaned := s.orphaned + 1)
  {
  }

  lemma {:induction false} ClosedHolds(s: Sys, s': Sys, id: nat, m: Managed)
    requires id < |s.view.cells| && Reusable(m)
    requires s.view.cells[id] == Delivered(m) || s.view.cells[id] == Held(PoolConn(true, m), None)
    requires s' == s.(view := s.view.(cells := s.view.cells[id := Finished]), orphaned := s'.orphaned)
    ensures forall t: Token :: Holds(s', t) == Holds(s, t) - CellWeight(s.view.cells[id], t)
    ensures CellWeight(s.view.cells[id], Known) == 1 && CellWeight(s.view.cells[id], Flight) == 1
    ensures forall k: nat :: CellWeight(s.view.cells[id], Ticket(k)) == 0
  {
    SumUpdate<Cell, Token>(s.view.cells, id, Finished, CellWeight);
  }

  /** If the pool is gone the connection is closed. */
  lemma {:induction false} OrphanKeeps(s: Sys, id: nat, m: Managed)
    requires id < |s.view.cells| && !s.alive
    requires s.view.cells[id] == Delivered(m) || s.view.cells[id] == Held(PoolConn(true, m), None)
    requires Reusable(m) && m.checkedOutAt.Some?
    ensures Kept(s, Release(s, id, m))
  {
    var s' := Release(s, id, m);
    OrphanEffect(s, id, m);
    ClosedHolds(s, s', id, m);
    SetCellTickets(s, s', id, Finished);
    ClosingKeeps(s, s');
  }

  lemma {:induction false} LossEffect(s: Sys, id: nat)
    requires id < |s.view.cells| && CellShape(s.view.cells[id])
    requires s.view.cells[id].Held? && s.view.cells[id].running.Some?
    ensures var Held(conn, running) := s.view.cells[id];
            OnClient(s, CommandIsLost, id)
            == s.(lost := s.lost + {running.value.id},
                  view := s.view.(cells := s.view.cells[id := Uncounted(conn.managed.factory.value)],
                                  gauges := s.view.gauges.(connections := s.view.gauges.connections - 1)))
  {
  }

  lemma {:induction false} BrokenHolds(s: Sys, s': Sys, id: nat)
    requires id < |s.view.cells| && CellShape(s.view.cells[id])
    requires s.view.cells[id].Held? && s.view.cells[id].running.Some?
    requires s' == s.(view := s'.view, lost := s'.lost)
    requires s'.view.idle == s.view.idle && s'.view.reservations == s.view.reservations
    requires s'.view.cells == s.view.cells[id := Uncounted(s.view.cells[id].conn.managed.factory.value)]
    ensures forall t: Token :: Holds(s', t)
              == Holds(s, t) - One(t.Known?) - One(t == Link(s.view.cells[id].running.value.id))
  {
    SumUpdate<Cell, Token>(s.view.cells, id, Uncounted(s.view.cells[id].conn.managed.factory.value), CellWeight);
  }

  /** One connection is lost, and only counted out of `connections`. */
  lemma {:induction false} LossKeeps(s: Sys, s': Sys, c: nat)
    requires c !in s.lost
    requires s'.view.gauges == s.view.gauges.(connections := s.view.gauges.connections - 1)
    requires s' == s.(view := s'.view, lost := s.lost + {c}) && s'.view.reservations == s.view.reservations
    requires forall t: Token :: Holds(s', t) == Holds(s, t) - One(t.Known?) - One(t == Link(c))
    requires TicketsKept(s, s')
    ensures Kept(s, s')
  {
  }

  /** A connection inside a command has not been given up before. */
  predicate RunsSomethingKept(s: Sys, id: nat)
    requires id < |s.view.cells|
  {
    s.view.cells[id].Held? && s.view.cells[id].running.Some? ==> s.view.cells[id].running.value.id !in s.lost
  }

  lemma {:induction false} RunningIsNotLost(cfg: Config, s: Sys, id: nat)
    requires Balanced(cfg, s) && id < |s.view.cells|
    ensures RunsSomethingKept(s, id)
  {
    if s.view.cells[id].Held? && s.view.cells[id].running.Some? {
      var c := s.view.cells[id].running.value.id;
      assert CellWeight(s.view.cells[id], Link(c)) > 0;
      SumAt<Cell, Token>(s.view.cells, id, CellWeight);
      assert Holds(s, Link(c)) + One(c in s.lost) <= One(c < s.nextConn);
    }
  }

  /** A client gives up a connection inside a command. */
  lemma {:induction false} BreakKeeps(s: Sys, id: nat)
    requires id < |s.view.cells|
    requires s.view.cells[id].Held? && s.view.cells[id].running.Some? && CellShape(s.view.cells[id])
    requires RunsSomethingKept(s, id)
    ensures Kept(s, OnClient(s, CommandIsLost, id))
  {
    var s' := OnClient(s, CommandIsLost, id);
    LossEffect(s, id);
    BrokenHolds(s, s', id);
    SetCellTickets(s, s', id, Uncounted(s.view.cells[id].conn.managed.factory.value));
    LossKeeps(s, s', s.view.cells[id].running.value.id);
  }

  lemma {:induction false} SpawnKeeps(s: Sys, id: nat)
    requires id < |s.view.cells| && s.view.cells[id].Unspawned?
    ensures Kept(s, OnClient(s, SpawnCreateLoop, id))
  {
    var factory := s.view.cells[id].factory;
    var s' := OnClient(s, SpawnCreateLoop, id);
    SetCellHolds(s, id, Finished);
    AddTaskHolds(SetCell(s, id, Finished), Probing(factory, 1));
    SetCellTickets(s, s', id, Finished);
    MovingKeeps(s, s');
  }

  lemma {:induction false} ClientKeeps(s: Sys, action: Action, id: nat)
    requires id < |s.view.cells| && CellShape(s.view.cells[id]) && RunsSomethingKept(s, id)
    ensures Kept(s, OnClient(s, action, id))
  {
    match (action, s.view.cells[id])
    case (Receive, Delivered(m)) => QuietClientKeeps(s, id, Held(PoolConn(true, m), None));
    case (HangUp, Waiting) => QuietClientKeeps(s, id, HungUp);
    case (HangUp, Delivered(m)) => if s.alive { ReturnKeeps(s, id, m); } else { OrphanKeeps(s, id, m); }
    case (BeginCommand, Held(conn, None)) =>
      QuietClientKeeps(s, id, Held(StartCommand(conn), Some(conn.managed.value.value.(dirty := true))));
    case (CommandSucceeds, Held(conn, Some(running))) =>
      QuietClientKeeps(s, id, Held(FinishCommand(conn, running), None));
    case (CommandIsLost, Held(conn, Some(running))) => BreakKeeps(s, id);
    case (DropConnection, Held(conn, None)) =>
      if s.alive { ReturnKeeps(s, id, conn.managed); } else { OrphanKeeps(s, id, conn.managed); }
    case (CountOut, Uncounted(factory)) => CountOutKeeps(s, id);
    case (SpawnCreateLoop, Unspawned(factory)) => SpawnKeeps(s, id);
    case _ => NothingKeeps(s);
  }

  lemma {:induction false} NothingKeeps(s: Sys)
    ensures Kept(s, s)
  {
  }

  // ===== Create loops =====

  /** A create loop of a dead pool ends, and its slot with it. */
  lemma {:induction false} EndingKeeps(s: Sys, s': Sys)
    requires !s.alive && s' == s.(tasks := s'.tasks)
    requires forall t: Token :: if t.Slot? || t.Seat? then Holds(s', t) <= Holds(s, t) else Holds(s', t) == Holds(s, t)
    ensures Kept(s, s')
  {
  }

  lemma {:induction false} ProbeKeeps(s: Sys, i: nat)
    requires i < |s.tasks| && s.tasks[i].Probing?
    ensures Kept(s, OnTask(s, Probe, i))
  {
    var s' := OnTask(s, Probe, i);
    var connecting := Connecting(s.tasks[i].factory, s.tasks[i].attempt);
    SetTaskHolds(s, i, connecting);
    EndTaskHolds(s, i);
    SendHolds(s.(tasks := s.tasks[i := connecting]), Deliver(CheckAlive));
    if s.alive {
      MovingKeeps(s, s');
    } else {
      EndingKeeps(s, s');
    }
  }

  /** A new connection appears; its slot comes along, or ends if the pool is dead. */
  lemma {:induction false} AppearingKeeps(s: Sys, s': Sys)
    requires s' == s.(tasks := s'.tasks, internal := s'.internal, nextConn := s.nextConn + 1)
    requires forall t: Token :: t.Slot? || t.Seat? ==>
               if s.alive then Holds(s', t) == Holds(s, t) else Holds(s', t) <= Holds(s, t)
    requires forall t: Token :: !t.Slot? && !t.Seat? ==>
               Holds(s', t) == Holds(s, t) + One(s.alive && t == Link(s.nextConn))
    ensures Kept(s, s')
  {
  }

  lemma {:induction false} ConnectedKeeps(s: Sys, i: nat)
    requires i < |s.tasks| && s.tasks[i].Connecting?
    ensures Kept(s, OnTask(s, ConnectSucceeds, i))
  {
    var s' := OnTask(s, ConnectSucceeds, i);
    var newborn := Managed(None, Some(Conn(s.nextConn, false)), Some(s.tasks[i].factory));
    var ended := s.(tasks := Without(s.tasks, i));
    EndTaskHolds(s, i);
    SendHolds(ended, Deliver(CheckIn(newborn)));
    assert forall t: Token :: Holds(s', t) == Holds(Send(ended, Deliver(CheckIn(newborn))), t);
    AppearingKeeps(s, s');
  }

  lemma {:induction false} RetryKeeps(s: Sys, i: nat)
    requires i < |s.tasks| && s.tasks[i].Connecting?
    ensures Kept(s, OnTask(s, ConnectFails, i))
  {
    SetTaskHolds(s, i, Probing(s.tasks[i].factory, s.tasks[i].attempt + 1));
    MovingKeeps(s, OnTask(s, ConnectFails, i));
  }
}
