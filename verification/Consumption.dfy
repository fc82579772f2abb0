/** Every message the inner pool processes keeps the ledger of the consumer's view. */
module Consumption {
  import opened Prelude
  import opened SubPool
  import opened Ledger
  import opened Tally

  /** How the senders of request `id` and its cell move together. */
  predicate TicketFollows(old': seq<Cell>, new': seq<Cell>, id: nat, before: nat, after: nat)
  {
    && |new'| == |old'|
    && after <= before
    && (Open(new', id) ==> after == before && Open(old', id))
    && (Open(old', id) && !Open(new', id) && !new'[id].HungUp? ==> after < before)
    && (id < |old'| && !Open(old', id) ==> new'[id] == old'[id])
  }

  /** The view takes in what the message holds, gains nothing else, and counts what it gains. */
  ghost predicate Absorbs(v: View, message: PoolMessage, p: Processed) {
    && (forall t: Token :: !t.Ticket? && !t.Known? && !t.Flight? ==>
          HoldsView(p.view, t) == HoldsView(v, t) + MessageWeight(message, t))
    && p.view.gauges.connections - HoldsView(p.view, Known)
       == v.gauges.connections - HoldsView(v, Known) - MessageWeight(message, Known)
    && p.view.gauges.inFlight + One(p.owed != Nothing) - HoldsView(p.view, Flight)
       == v.gauges.inFlight - HoldsView(v, Flight) - MessageWeight(message, Flight)
    && p.view.gauges.reservations - |p.view.reservations| - One(p.owed.ReservationAndFlight?)
       == v.gauges.reservations - |v.reservations|
    && p.view.gauges.pools == v.gauges.pools
    && |p.view.cells| == |v.cells|
    && (forall id: nat :: TicketFollows(v.cells, p.view.cells, id,
          HoldsView(v, Ticket(id)) + MessageWeight(message, Ticket(id)), HoldsView(p.view, Ticket(id))))
  }

  // ===== Reservations that leave the queue =====

  lemma {:induction false} TicketsAreTheOnlyWeight(queue: seq<nat>)
    ensures forall t: Token :: !t.Ticket? ==> Sum(queue, ReservationWeight, t) == 0
  {
    if queue != [] {
      TicketsAreTheOnlyWeight(queue[1..]);
    }
  }

  lemma {:induction false} SplitQueue(queue: seq<nat>, k: nat)
    requires k <= |queue|
    ensures forall t: Token :: Sum(queue, ReservationWeight, t)
                            == Sum(queue[..k], ReservationWeight, t) + Sum(queue[k..], ReservationWeight, t)
  {
    assert queue == queue[..k] + queue[k..];
    SumConcat<nat, Token>(queue[..k], queue[k..], ReservationWeight);
  }

  lemma {:induction false} ClosedHoldNoOpenTicket(cells: seq<Cell>, queue: seq<nat>)
    requires forall j :: 0 <= j < |queue| ==> !Open(cells, queue[j])
    ensures forall id: nat :: Open(cells, id) ==> Sum(queue, ReservationWeight, Ticket(id)) == 0
  {
    forall id: nat | Open(cells, id) ensures Sum(queue, ReservationWeight, Ticket(id)) == 0 {
      SumPositive(queue, ReservationWeight, Ticket(id));
    }
  }

  lemma {:induction false} AnswerWeighs(cells: seq<Cell>, id: nat, answer: Cell)
    requires Open(cells, id)
    ensures forall t: Token :: Sum(Answer(cells, id, answer), CellWeight, t)
                            == Sum(cells, CellWeight, t) + CellWeight(answer, t)
  {
    SumUpdate<Cell, Token>(cells, id, answer, CellWeight);
  }

  // ===== Checking in =====

  /** The queue without its first `n` reservations, none of which can be answered any more in `cells`. */
  lemma {:induction false} LeavingTheQueue(queue: seq<nat>, n: nat, cells: seq<Cell>)
    requires n <= |queue|
    requires forall j :: 0 <= j < n ==> !Open(cells, queue[j])
    ensures forall t: Token :: !t.Ticket? ==>
              Sum(queue[n..], ReservationWeight, t) == Sum(queue, ReservationWeight, t) == 0
    ensures forall id: nat ::
              Sum(queue[n..], ReservationWeight, Ticket(id)) <= Sum(queue, ReservationWeight, Ticket(id))
    ensures forall id: nat :: Open(cells, id) ==>
              Sum(queue[n..], ReservationWeight, Ticket(id)) == Sum(queue, ReservationWeight, Ticket(id))
  {
    SplitQueue(queue, n);
    TicketsAreTheOnlyWeight(queue);
    TicketsAreTheOnlyWeight(queue[n..]);
    ClosedHoldNoOpenTicket(cells, queue[..n]);
  }

  lemma {:induction false} FirstLeavesTheQueue(queue: seq<nat>, k: nat)
    requires k < |queue|
    ensures Sum(queue[k + 1..], ReservationWeight, Ticket(queue[k])) < Sum(queue, ReservationWeight, Ticket(queue[k]))
  {
    SplitQueue(queue, k);
    assert queue[k..][1..] == queue[k + 1..];
  }

  ghost predicate TakesIn(v: View, m: Managed, p: Processed) {
    && (forall t: Token :: !t.Ticket? && !t.Flight? ==>
          HoldsView(p.view, t) == HoldsView(v, t) + ManagedWeight(m, t) + One(t.Known?))
    && HoldsView(p.view, Flight) == HoldsView(v, Flight) + One(p.owed != Nothing)
    && (forall id: nat :: TicketFollows(v.cells, p.view.cells, id,
          HoldsView(v, Ticket(id)), HoldsView(p.view, Ticket(id))))
  }

  lemma {:induction false} NobodyTakesIt(v: View, m: Managed, now: Instant)
    requires FirstOpen(v.cells, v.reservations) == |v.reservations|
    ensures TakesIn(v, m, Fulfil(v, m, now))
  {
    var k := |v.reservations|;
    LeavingTheQueue(v.reservations, k, v.cells);
    assert v.reservations[k..] == [];
    SumPush<Managed, Token>(v.idle, m, IdleWeight);
  }

  /** The winner has one sender less, all other open requests keep theirs, and no cell but the winner's changes. */
  lemma {:induction false} WinnerUsesItsSender(v: View, m: Managed, now: Instant)
    requires FirstOpen(v.cells, v.reservations) < |v.reservations|
    ensures var w := Fulfil(v, m, now).view;
            forall id: nat :: TicketFollows(v.cells, w.cells, id,
              Sum(v.reservations, ReservationWeight, Ticket(id)), Sum(w.reservations, ReservationWeight, Ticket(id)))
  {
    var k := FirstOpen(v.cells, v.reservations);
    LeavingTheQueue(v.reservations, k + 1, Fulfil(v, m, now).view.cells);
    FirstLeavesTheQueue(v.reservations, k);
  }

  lemma {:induction false} SomebodyTakesIt(v: View, m: Managed, now: Instant)
    requires FirstOpen(v.cells, v.reservations) < |v.reservations|
    ensures TakesIn(v, m, Fulfil(v, m, now))
  {
    var w := Fulfil(v, m, now).view;
    var k := FirstOpen(v.cells, v.reservations);
    var delivered := Delivered(m.(checkedOutAt := Some(now)));
    AnswerWeighs(v.cells, v.reservations[k], delivered);
    TicketsAreTheOnlyWeight(v.reservations);
    TicketsAreTheOnlyWeight(w.reservations);
    WinnerUsesItsSender(v, m, now);
    forall id: nat
      ensures TicketFollows(v.cells, w.cells, id, HoldsView(v, Ticket(id)), HoldsView(w, Ticket(id)))
    {
      assert CellWeight(delivered, Ticket(id)) == 0;
    }
  }

  lemma {:induction false} ArrivingHolds(v: View, m: Managed)
    ensures forall t: Token :: HoldsView(Arrive(v, m), t) == HoldsView(v, t)
  {
  }

  lemma {:induction false} TakenInIsAbsorbed(v: View, m: Managed, p: Processed)
    requires var arrived := Arrive(v, m);
             && TakesIn(arrived, m.(checkedOutAt := None), p)
             && p.view.gauges.connections == arrived.gauges.connections
             && p.view.gauges.inFlight == arrived.gauges.inFlight
             && p.view.gauges.pools == arrived.gauges.pools
             && p.view.gauges.reservations - |p.view.reservations| - One(p.owed.ReservationAndFlight?)
                == v.gauges.reservations - |v.reservations|
             && |p.view.cells| == |v.cells|
    ensures Absorbs(v, CheckIn(m), p)
  {
    var blank := m.(checkedOutAt := None);
    ArrivingHolds(v, m);
    assert forall t: Token :: ManagedWeight(blank, t) == ManagedWeight(m, t);
  }

  lemma {:induction false} CheckInAbsorbs(v: View, m: Managed, now: Instant)
    ensures Absorbs(v, CheckIn(m), OnCheckIn(v, m, now))
  {
    var arrived := Arrive(v, m);
    if FirstOpen(v.cells, v.reservations) == |v.reservations| {
      NobodyTakesIt(arrived, m.(checkedOutAt := None), now);
    } else {
      SomebodyTakesIt(arrived, m.(checkedOutAt := None), now);
    }
    TakenInIsAbsorbed(v, m, OnCheckIn(v, m, now));
  }

  // ===== Cleaning up =====

  lemma {:induction false} RetainedHolds(cells: seq<Cell>, queue: seq<nat>, id: nat)
    ensures Sum(Retained(cells, queue), ReservationWeight, Ticket(id))
         == if Open(cells, id) then Sum(queue, ReservationWeight, Ticket(id)) else 0
  {
    if queue != [] {
      RetainedHolds(cells, queue[1..], id);
      var head := if Open(cells, queue[0]) then [queue[0]] else [];
      SumConcat<nat, Token>(head, Retained(cells, queue[1..]), ReservationWeight);
      SumSingle<nat, Token>(queue[0], ReservationWeight);
    }
  }

  lemma {:induction false} CleanupAbsorbs(capacity: nat, v: View, now: Instant)
    ensures Absorbs(v, CleanupReservations, Processed(OnCleanup(capacity, v, now), Nothing))
  {
    var v' := OnCleanup(capacity, v, now);
    TicketsAreTheOnlyWeight(v.reservations);
    TicketsAreTheOnlyWeight(v'.reservations);
    forall id: nat
      ensures TicketFollows(v.cells, v'.cells, id, HoldsView(v, Ticket(id)), HoldsView(v', Ticket(id)))
    {
      RetainedHolds(v.cells, v.reservations, id);
    }
  }

  // ===== Checking out =====

  /** A cell that ends without a connection, or that still waits, holds nothing. */
  lemma {:induction false} AnswerWithoutConnection(v: View, id: nat, answer: Cell)
    requires answer.HungUp? || answer.Refused?
    ensures forall t: Token :: HoldsView(v.(cells := Answer(v.cells, id, answer)), t) == HoldsView(v, t)
  {
    if Open(v.cells, id) {
      AnswerWeighs(v.cells, id, answer);
    }
  }

  /** Joining the queue brings the sender of the request along. */
  lemma {:induction false} JoinHolds(v: View, id: nat)
    ensures forall t: Token :: HoldsView(Enqueue(v, id), t) == HoldsView(v, t) + ReservationWeight(id, t)
  {
    SumPush<nat, Token>(v.reservations, id, ReservationWeight);
  }

  lemma {:induction false} JoinAbsorbs(v: View, request: Request)
    requires request.id < |v.cells| && (v.cells[request.id].Waiting? || v.cells[request.id].HungUp?)
    ensures Absorbs(v, CheckOut(request), Processed(Enqueue(v, request.id), Nothing))
  {
    JoinHolds(v, request.id);
  }

  lemma {:induction false} FullAbsorbs(v: View, request: Request)
    ensures Absorbs(v, CheckOut(request),
              Processed(v.(cells := Answer(v.cells, request.id, Refused(ReservationLimitReached))), Nothing))
  {
    AnswerWithoutConnection(v, request.id, Refused(ReservationLimitReached));
  }

  /** A sweep before the request is handled loses nothing. */
  lemma {:induction false} SweptAbsorbs(v: View, swept: View, request: Request, p: Processed)
    requires Absorbs(v, CleanupReservations, Processed(swept, Nothing)) && swept.cells == v.cells
    requires Absorbs(swept, CheckOut(request), p)
    ensures Absorbs(v, CheckOut(request), p)
  {
    forall id: nat
      ensures TicketFollows(v.cells, p.view.cells, id,
                HoldsView(v, Ticket(id)) + MessageWeight(CheckOut(request), Ticket(id)), HoldsView(p.view, Ticket(id)))
    {
      assert TicketFollows(v.cells, swept.cells, id, HoldsView(v, Ticket(id)), HoldsView(swept, Ticket(id)));
      assert TicketFollows(swept.cells, p.view.cells, id,
                HoldsView(swept, Ticket(id)) + MessageWeight(CheckOut(request), Ticket(id)),
                HoldsView(p.view, Ticket(id)));
    }
  }

  lemma {:induction false} EnqueueAbsorbs(capacity: nat, v: View, request: Request, now: Instant)
    requires capacity > 0
    requires request.id < |v.cells| && (v.cells[request.id].Waiting? || v.cells[request.id].HungUp?)
    ensures Absorbs(v, CheckOut(request), Processed(CreateReservation(capacity, v, request.id, now), Nothing))
  {
    var p := Processed(CreateReservation(capacity, v, request.id, now), Nothing);
    var swept := if |v.reservations| == capacity then OnCleanup(capacity, v, now) else v;
    if |swept.reservations| == capacity {
      FullAbsorbs(swept, request);
    } else {
      JoinAbsorbs(swept, request);
      assert p.view == Enqueue(swept, request.id);
    }
    if |v.reservations| == capacity {
      CleanupAbsorbs(capacity, v, now);
      SweptAbsorbs(v, swept, request, p);
    }
  }

  /** Before it answers, a receiver that leaves in between only changes the cell. */
  lemma {:induction false} RacedAbsorbs(v: View, request: Request, races: bool, p: Processed)
    requires Open(v.cells, request.id)
    requires Absorbs(v.(cells := Race(v.cells, request.id, races)), CheckOut(request), p)
    ensures Absorbs(v, CheckOut(request), p)
  {
    var raced := v.(cells := Race(v.cells, request.id, races));
    AnswerWithoutConnection(v, request.id, HungUp);
    assert forall t: Token :: HoldsView(raced, t) == HoldsView(v, t);
    forall id: nat
      ensures TicketFollows(v.cells, p.view.cells, id,
                HoldsView(v, Ticket(id)) + MessageWeight(CheckOut(request), Ticket(id)), HoldsView(p.view, Ticket(id)))
    {
      assert TicketFollows(raced.cells, p.view.cells, id,
                HoldsView(raced, Ticket(id)) + MessageWeight(CheckOut(request), Ticket(id)),
                HoldsView(p.view, Ticket(id)));
    }
  }

  lemma {:induction false} CreateReservationAbsorbs(capacity: nat, v: View, request: Request, now: Instant, races: bool)
    requires Open(v.cells, request.id)
    ensures var raced := v.(cells := Race(v.cells, request.id, races));
            Absorbs(v, CheckOut(request), Processed(CreateReservation(capacity, raced, request.id, now), Nothing))
  {
    var raced := v.(cells := Race(v.cells, request.id, races));
    if capacity == 0 {
      AnswerWithoutConnection(raced, request.id, Refused(NoConnection));
    } else {
      EnqueueAbsorbs(capacity, raced, request, now);
    }
    RacedAbsorbs(v, request, races, Processed(CreateReservation(capacity, raced, request.id, now), Nothing));
  }

  /** Taking an idle connection and putting it back, stamped, holds what was held before. */
  lemma {:induction false} PutBackHolds(order: ActivationOrder, v: View, now: Instant)
    requires v.idle != []
    ensures var m := v.idle[NextIdle(order, v.idle)].(checkedOutAt := Some(now));
            forall t: Token :: HoldsView(PutIdle(TakeIdle(order, v), m), t) == HoldsView(v, t)
  {
    var i := NextIdle(order, v.idle);
    SumRemove<Managed, Token>(v.idle, i, IdleWeight);
    SumPush<Managed, Token>(v.idle[..i] + v.idle[i + 1..], v.idle[i].(checkedOutAt := Some(now)), IdleWeight);
  }

  /** An idle connection that is sent out becomes one in flight. */
  lemma {:induction false} SendOutHolds(order: ActivationOrder, v: View, id: nat, now: Instant)
    requires v.idle != [] && Open(v.cells, id)
    ensures var m := v.idle[NextIdle(order, v.idle)].(checkedOutAt := Some(now));
            forall t: Token :: HoldsView(TakeIdle(order, v).(cells := Answer(v.cells, id, Delivered(m))), t)
                            == HoldsView(v, t) + One(t.Flight?)
  {
    var i := NextIdle(order, v.idle);
    SumRemove<Managed, Token>(v.idle, i, IdleWeight);
    AnswerWeighs(v.cells, id, Delivered(v.idle[i].(checkedOutAt := Some(now))));
  }

  lemma {:induction false} HandOutAbsorbs(cfg: Config, v: View, request: Request, now: Instant, races: bool)
    requires Open(v.cells, request.id) && v.idle != []
    ensures Absorbs(v, CheckOut(request), OnCheckOut(cfg, v, request, now, races))
  {
    var raced := v.(cells := Race(v.cells, request.id, races));
    if races {
      AnswerWithoutConnection(v, request.id, HungUp);
      PutBackHolds(cfg.order, raced, now);
    } else {
      SendOutHolds(cfg.order, v, request.id, now);
    }
  }

  lemma {:induction false} NoConnectionAbsorbs(v: View, request: Request, races: bool)
    requires Open(v.cells, request.id)
    ensures var raced := v.(cells := Race(v.cells, request.id, races));
            Absorbs(v, CheckOut(request),
              Processed(raced.(cells := Answer(raced.cells, request.id, Refused(NoConnection))), Nothing))
  {
    var raced := v.(cells := Race(v.cells, request.id, races));
    AnswerWithoutConnection(v, request.id, HungUp);
    AnswerWithoutConnection(raced, request.id, Refused(NoConnection));
  }

  lemma {:induction false} CheckOutAbsorbs(cfg: Config, v: View, request: Request, now: Instant, races: bool)
    ensures Absorbs(v, CheckOut(request), OnCheckOut(cfg, v, request, now, races))
  {
    if !Open(v.cells, request.id) {
      LateAbsorbs(v, request);
    } else if v.idle != [] {
      HandOutAbsorbs(cfg, v, request, now, races);
    } else if request.reservationAllowed {
      CreateReservationAbsorbs(cfg.capacity, v, request, now, races);
    } else {
      NoConnectionAbsorbs(v, request, races);
    }
  }

  lemma {:induction false} LateAbsorbs(v: View, request: Request)
    requires !Open(v.cells, request.id)
    ensures Absorbs(v, CheckOut(request), Processed(v, Nothing))
  {
  }

  lemma {:induction false} MessageAbsorbs(cfg: Config, v: View, message: PoolMessage, now: Instant, races: bool)
    ensures Absorbs(v, message, OnMessage(cfg, v, message, now, races))
  {
    match message
    case CheckIn(m) => CheckInAbsorbs(v, m, now);
    case CheckOut(request) => CheckOutAbsorbs(cfg, v, request, now, races);
    case CleanupReservations => CleanupAbsorbs(cfg.capacity, v, now);
    case CheckAlive =>
  }
}
