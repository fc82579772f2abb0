/** Every accepted request is answered at most once, and nobody is left waiting. */
module Answers {
  import opened Prelude
  import opened SubPool
  import opened System
  import opened Ledger
  import opened Conservation
  import opened Shapes
  import opened Stations

  /** How far a request that got a connection has come. */
  function Stage(cell: Cell): nat {
    match cell
    case Delivered(_) => 1
    case Held(_, _) => 2
    case Uncounted(_) => 3
    case Unspawned(_) => 4
    case Finished => 5
    case _ => 0
  }

  /** The slot that a request with a connection owns, until it is finished. */
  function SlotOf(cell: Cell): Option<Factory> {
    match cell
    case Delivered(m) => m.factory
    case Held(conn, _) => conn.managed.factory
    case Uncounted(factory) => Some(factory)
    case Unspawned(factory) => Some(factory)
    case _ => None
  }

  /** The raw connection that a request got, be it at rest or inside a command. */
  function LinkOf(cell: Cell): Option<nat> {
    match cell
    case Delivered(Managed(_, Some(value), _)) => Some(value.id)
    case Held(_, Some(running)) => Some(running.id)
    case Held(PoolConn(_, Managed(_, Some(value), _)), None) => Some(value.id)
    case _ => None
  }

  /**
   The ways a request can go on. A refusal is final; a delivered connection stays what it is until it is received, then
   it is the same connection of the same slot until the client is done with it, and that slot goes on even if
   the connection is lost. No stage is ever entered again.
   */
  predicate MayBecome(now: Cell, later: Cell) {
    if Stage(now) == 0 then now.Waiting? || later == now
    else
      && Stage(now) <= Stage(later)
      && (later.Delivered? ==> later == now)
      && (later.Delivered? || later.Held? ==> LinkOf(later) == LinkOf(now))
      && (!later.Finished? ==> SlotOf(later) == SlotOf(now))
  }

  predicate CellsMayBecome(now: seq<Cell>, later: seq<Cell>) {
    |now| <= |later| && forall id :: 0 <= id < |now| ==> MayBecome(now[id], later[id])
  }

  lemma {:induction false} MessageMovesCells(cfg: Config, v: View, message: PoolMessage, now: Instant, races: bool)
    ensures CellsMayBecome(v.cells, OnMessage(cfg, v, message, now, races).view.cells)
  {
  }

  lemma {:induction false} ReleaseMovesCells(s: Sys, id: nat, managed: Managed)
    requires id < |s.view.cells| && managed.factory.Some?
    ensures var cells := Release(s, id, managed).view.cells;
            && |cells| == |s.view.cells| && cells == s.view.cells[id := cells[id]]
            && Stage(cells[id]) >= 3 && (!cells[id].Finished? ==> SlotOf(cells[id]) == managed.factory)
  {
  }

  /** What a client does with a connection that it has not received. */
  lemma {:induction false} DeliveredMoves(s: Sys, action: Action, id: nat)
    requires id < |s.view.cells| && s.view.cells[id].Delivered? && CellShape(s.view.cells[id])
    ensures var cells := OnClient(s, action, id).view.cells;
            && |cells| == |s.view.cells| && cells == s.view.cells[id := cells[id]]
            && MayBecome(s.view.cells[id], cells[id])
  {
    if action.HangUp? {
      ReleaseMovesCells(s, id, s.view.cells[id].managed);
    }
  }

  /** What a client does with a connection that it owns while no command runs. */
  lemma {:induction false} RestingMoves(s: Sys, action: Action, id: nat)
    requires id < |s.view.cells| && CellShape(s.view.cells[id])
    requires s.view.cells[id].Held? && s.view.cells[id].running.None?
    ensures var cells := OnClient(s, action, id).view.cells;
            && |cells| == |s.view.cells| && cells == s.view.cells[id := cells[id]]
            && MayBecome(s.view.cells[id], cells[id])
  {
    if action.DropConnection? {
      ReleaseMovesCells(s, id, ReleaseConn(s.view.cells[id].conn));
    }
  }

  /** How a command ends. */
  lemma {:induction false} RunningMoves(s: Sys, action: Action, id: nat)
    requires id < |s.view.cells| && CellShape(s.view.cells[id])
    requires s.view.cells[id].Held? && s.view.cells[id].running.Some?
    ensures var cells := OnClient(s, action, id).view.cells;
            && |cells| == |s.view.cells| && cells == s.view.cells[id := cells[id]]
            && MayBecome(s.view.cells[id], cells[id])
  {
    if action.CommandIsLost? {
      var lost := s.(lost := s.lost + {s.view.cells[id].running.value.id});
      ReleaseMovesCells(lost, id, ReleaseConn(s.view.cells[id].conn));
    }
  }

  lemma {:induction false} OtherMoves(s: Sys, action: Action, id: nat)
    requires id < |s.view.cells| && !s.view.cells[id].Delivered? && !s.view.cells[id].Held?
    ensures var cells := OnClient(s, action, id).view.cells;
            && |cells| == |s.view.cells| && cells == s.view.cells[id := cells[id]]
            && MayBecome(s.view.cells[id], cells[id])
  {
  }

  lemma {:induction false} ClientMovesCells(s: Sys, action: Action, id: nat)
    requires id < |s.view.cells| && CellShape(s.view.cells[id])
    ensures var cells := OnClient(s, action, id).view.cells;
            && |cells| == |s.view.cells| && cells == s.view.cells[id := cells[id]]
            && MayBecome(s.view.cells[id], cells[id])
  {
    match s.view.cells[id]
    case Delivered(_) => DeliveredMoves(s, action, id);
    case Held(_, None) => RestingMoves(s, action, id);
    case Held(_, Some(_)) => RunningMoves(s, action, id);
    case _ => OtherMoves(s, action, id);
  }

  lemma {:induction false} NextMovesCells(cfg: Config, s: Sys, step: Step)
    requires Shape(cfg, s)
    ensures CellsMayBecome(s.view.cells, Next(cfg, s, step).view.cells)
  {
    match step
    case TakeInternal =>
      if ConsumerReady(s) && s.internal != [] && s.internal[0].Deliver? {
        MessageMovesCells(cfg, s.view, s.internal[0].message, s.now, false);
      }
    case TakeCheckout(races) =>
      if ConsumerReady(s) && s.checkouts != [] {
        MessageMovesCells(cfg, s.view, CheckOut(s.checkouts[0]), s.now, races);
      }
    case Client(id, action) =>
      if id < |s.view.cells| {
        assert s.view.cells[id] in s.view.cells;
        ClientMovesCells(s, action, id);
      }
    case _ =>
  }

  lemma {:induction false} CellsMoveOn(cfg: Config, s: Sys, steps: seq<Step>)
    requires Shape(cfg, s)
    ensures CellsMayBecome(s.view.cells, RunFrom(cfg, s, steps).view.cells)
    decreases |steps|
  {
    if steps != [] {
      var s' := Next(cfg, s, steps[0]);
      NextMovesCells(cfg, s, steps[0]);
      NextKeepsShape(cfg, s, steps[0]);
      CellsMoveOn(cfg, s', steps[1..]);
      forall id | 0 <= id < |s.view.cells|
        ensures MayBecome(s.view.cells[id], RunFrom(cfg, s, steps).view.cells[id])
      {
        assert MayBecome(s.view.cells[id], s'.view.cells[id]);
        assert MayBecome(s'.view.cells[id], RunFrom(cfg, s', steps[1..]).view.cells[id]);
      }
    }
  }

  /**
   No sender is answered twice: over any run a refused request stays refused, and one that got a connection has that
   connection and no other until it is done.
   */
  lemma {:induction false} AnswersAreFinal(cfg: Config, before: seq<Step>, after: seq<Step>)
    requires cfg.Valid()
    ensures CellsMayBecome(Run(cfg, before).view.cells, Run(cfg, before + after).view.cells)
  {
    EveryRunKeepsInv(cfg, before);
    CellsMoveOn(cfg, Run(cfg, before), after);
    RunConcat(cfg, Start(cfg), before, after);
  }

  /** Where the one sender of a waiting request is; `InCheckouts` and `InQueue` are the only possible places. */
  lemma {:induction false} WaitingSender(cfg: Config, s: Sys, id: nat) returns (station: Station)
    requires Inv(cfg, s) && Open(s.view.cells, id)
    ensures s.alive && Has(s, station, Ticket(id)) && (station.InCheckouts? || station.InQueue?)
  {
    WaitingIsQueued(cfg, s, id);
    if id in IdsOf(s.checkouts) {
      var i :| 0 <= i < |s.checkouts| && IdsOf(s.checkouts)[i] == id;
      station := InCheckouts(i);
    } else {
      var i :| 0 <= i < |s.view.reservations| && s.view.reservations[i] == id;
      station := InQueue(i);
    }
  }

  /**
   Exactly-once answers. The sender of a waiting request exists exactly once, in the checkout channel
   or in the reservation queue of a living pool; an answered request has no sender left; and whoever
   hung up leaves at most one sender behind.
   */
  lemma {:induction false} EverySenderIsAccountedFor(cfg: Config, steps: seq<Step>, id: nat)
    requires cfg.Valid() && id < |Run(cfg, steps).view.cells|
    ensures var s := Run(cfg, steps);
            var cell := s.view.cells[id];
            && (cell.Waiting? ==> s.alive && exists at: Station ::
                  Has(s, at, Ticket(id)) && (at.InCheckouts? || at.InQueue?))
            && (forall one, other :: Has(s, one, Ticket(id)) && Has(s, other, Ticket(id)) ==> one == other)
            && (!cell.Waiting? && !cell.HungUp? ==> forall at :: !Has(s, at, Ticket(id)))
  {
    EveryRunKeepsInv(cfg, steps);
    var s := Run(cfg, steps);
    assert TicketRule(s.view.cells, id, Holds(s, Ticket(id)));
    if Open(s.view.cells, id) {
      var at := WaitingSender(cfg, s, id);
    }
    forall one, other | Has(s, one, Ticket(id)) && Has(s, other, Ticket(id)) ensures one == other {
      AtMostOneStation(s, Ticket(id), one, other);
    }
    if !s.view.cells[id].Waiting? && !s.view.cells[id].HungUp? {
      forall at ensures !Has(s, at, Ticket(id)) {
        if Has(s, at, Ticket(id)) {
          StationIsWeighed(s, at, Ticket(id));
        }
      }
    }
  }

  /** A request that may not be reserved waits only until the consumer takes it from the checkout channel. */
  lemma {:induction false} UnreservedNeverStays(cfg: Config, steps: seq<Step>, id: nat)
    requires cfg.Valid() && Open(Run(cfg, steps).view.cells, id)
    ensures var s := Run(cfg, steps);
            id < |s.asked| && (!s.asked[id] ==> id in IdsOf(s.checkouts) && id !in s.view.reservations)
  {
    EveryRunKeepsInv(cfg, steps);
    WaitingIsQueued(cfg, Run(cfg, steps), id);
  }

  /** Taking it from the channel settles it: it gets a connection, or is refused, or its receiver has left. */
  lemma {:induction false} UnreservedIsSettledAtOnce(cfg: Config, s: Sys, races: bool)
    requires ConsumerReady(s) && s.checkouts != [] && !s.checkouts[0].reservationAllowed
    requires Open(s.view.cells, s.checkouts[0].id)
    ensures var cell := Next(cfg, s, TakeCheckout(races)).view.cells[s.checkouts[0].id];
            if races then cell == HungUp
            else if s.view.idle == [] then cell == Refused(NoConnection)
            else cell.Delivered? && cell.managed.value == s.view.idle[NextIdle(cfg.order, s.view.idle)].value
  {
  }

  /** Once the pool is gone, nobody waits. */
  lemma {:induction false} NobodyWaitsForADeadPool(cfg: Config, steps: seq<Step>, id: nat)
    requires cfg.Valid() && !Run(cfg, steps).alive
    ensures !Open(Run(cfg, steps).view.cells, id)
  {
    EveryRunKeepsInv(cfg, steps);
    if Open(Run(cfg, steps).view.cells, id) {
      var at := WaitingSender(cfg, Run(cfg, steps), id);
    }
  }

  /**
   Whoever still has the handle never meets a dead pool: a request is accepted exactly if the checkout channel has
   room, and otherwise refused because of that limit and not because there is no pool.
   */
  lemma {:induction false} RequestsMeetALivingPool(cfg: Config, steps: seq<Step>, allowed: bool)
    requires cfg.Valid() && Run(cfg, steps).handle
    ensures var s := Run(cfg, steps);
            var s' := Next(cfg, s, RequestCheckOut(allowed));
            && s.alive
            && s'.view.cells == s.view.cells + [if |s.checkouts| < cfg.checkoutQueueSize then Waiting
                                                else Refused(CheckoutLimitReached)]
  {
    EveryRunKeepsInv(cfg, steps);
  }
}
