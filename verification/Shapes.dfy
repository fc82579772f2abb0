/** Every step keeps the shape of what the stations hold. */
module Shapes {
  import opened Prelude
  import opened SubPool
  import opened System
  import opened Ledger

  // ===== Shape of the view =====

  lemma {:induction false} RetainedIsPart(cells: seq<Cell>, queue: seq<nat>)
    ensures forall id :: id in Retained(cells, queue) ==> id in queue
  {
    if queue != [] {
      RetainedIsPart(cells, queue[1..]);
    }
  }

  lemma {:induction false} AnswerKeepsShape(cells: seq<Cell>, id: nat, answer: Cell)
    requires forall cell :: cell in cells ==> CellShape(cell)
    requires CellShape(answer)
    ensures forall cell :: cell in Answer(cells, id, answer) ==> CellShape(cell)
    ensures |Answer(cells, id, answer)| == |cells|
  {
  }

  lemma {:induction false} CheckInKeepsShape(cfg: Config, v: View, asked: seq<bool>, m: Managed, now: Instant)
    requires ViewShape(cfg, v, asked) && Reusable(m)
    ensures ViewShape(cfg, OnCheckIn(v, m, now).view, asked)
  {
    var k := FirstOpen(v.cells, v.reservations);
    if k < |v.reservations| {
      AnswerKeepsShape(v.cells, v.reservations[k], Delivered(m.(checkedOutAt := Some(now))));
    }
  }

  lemma {:induction false} CleanupKeepsShape(cfg: Config, v: View, asked: seq<bool>, now: Instant)
    requires ViewShape(cfg, v, asked)
    ensures ViewShape(cfg, OnCleanup(cfg.capacity, v, now), asked)
  {
    RetainedIsPart(v.cells, v.reservations);
  }

  lemma {:induction false} CreateReservationKeepsShape(cfg: Config, v: View, asked: seq<bool>, id: nat, now: Instant)
    requires ViewShape(cfg, v, asked) && id < |asked| && asked[id] && v.idle == []
    ensures ViewShape(cfg, CreateReservation(cfg.capacity, v, id, now), asked)
  {
    CleanupKeepsShape(cfg, v, asked, now);
    AnswerKeepsShape(v.cells, id, Refused(NoConnection));
    AnswerKeepsShape(v.cells, id, Refused(ReservationLimitReached));
  }

  lemma {:induction false} HandOutKeepsShape(cfg: Config, v: View, asked: seq<bool>, request: Request, now: Instant,
                                             races: bool)
    requires ViewShape(cfg, v, asked) && v.idle != []
    ensures ViewShape(cfg, OnCheckOut(cfg, v, request, now, races).view, asked)
  {
    var i := NextIdle(cfg.order, v.idle);
    var m := v.idle[i].(checkedOutAt := Some(now));
    assert v.idle[i] in v.idle;
    AnswerKeepsShape(v.cells, request.id, HungUp);
    AnswerKeepsShape(v.cells, request.id, Delivered(m));
  }

  lemma {:induction false} CheckOutKeepsShape(cfg: Config, v: View, asked: seq<bool>, request: Request, now: Instant,
                                              races: bool)
    requires ViewShape(cfg, v, asked)
    requires request.id < |asked| && asked[request.id] == request.reservationAllowed
    ensures ViewShape(cfg, OnCheckOut(cfg, v, request, now, races).view, asked)
  {
    var raced := v.(cells := Race(v.cells, request.id, races));
    AnswerKeepsShape(v.cells, request.id, HungUp);
    if v.idle != [] {
      HandOutKeepsShape(cfg, v, asked, request, now, races);
    } else if request.reservationAllowed {
      CreateReservationKeepsShape(cfg, raced, asked, request.id, now);
    } else {
      AnswerKeepsShape(raced.cells, request.id, Refused(NoConnection));
    }
  }

  lemma {:induction false} MessageKeepsShape(cfg: Config, v: View, asked: seq<bool>, message: PoolMessage,
                                             now: Instant, races: bool)
    requires ViewShape(cfg, v, asked)
    requires message.CheckIn? ==> Reusable(message.conn)
    requires message.CheckOut? ==>
               message.request.id < |asked| && asked[message.request.id] == message.request.reservationAllowed
    ensures ViewShape(cfg, OnMessage(cfg, v, message, now, races).view, asked)
  {
    match message
    case CheckIn(m) => CheckInKeepsShape(cfg, v, asked, m, now);
    case CheckOut(request) => CheckOutKeepsShape(cfg, v, asked, request, now, races);
    case CleanupReservations => CleanupKeepsShape(cfg, v, asked, now);
    case CheckAlive =>
  }

  // ===== Steps =====

  lemma {:induction false} ConsumeKeepsShape(cfg: Config, s: Sys, message: PoolMessage, races: bool)
    requires Shape(cfg, s) && ConsumerReady(s)
    requires message.CheckIn? ==> Reusable(message.conn)
    requires message.CheckOut? ==>
               message.request.id < |s.asked| && s.asked[message.request.id] == message.request.reservationAllowed
    ensures Shape(cfg, Consume(cfg, s, message, races))
  {
    MessageKeepsShape(cfg, s.view, s.asked, message, s.now, races);
    MessageKeepsClock(cfg, s.view, message, s.now, races);
  }

  /**
   Processing a message does not touch the pools gauge, stamps at most the current time, and owes the count of a
   reservation only if one has left the queue.
   */
  lemma {:induction false} MessageKeepsClock(cfg: Config, v: View, message: PoolMessage, now: Instant, races: bool)
    requires v.lastCleanup <= now
    ensures OnMessage(cfg, v, message, now, races).view.lastCleanup <= now
    ensures OnMessage(cfg, v, message, now, races).view.gauges.pools == v.gauges.pools
    ensures OnMessage(cfg, v, message, now, races).owed.ReservationAndFlight? ==>
              |OnMessage(cfg, v, message, now, races).view.reservations| < |v.reservations|
  {
  }

  lemma {:induction false} RestKeepsShape(cfg: Config, s: Sys)
    requires Shape(cfg, s) && s.alive
    ensures s.internal != [] && s.internal[0].Deliver? ==> Shape(cfg, s.(internal := s.internal[1..]))
    ensures s.checkouts != [] ==> Shape(cfg, s.(checkouts := s.checkouts[1..]))
  {
    if s.internal != [] && s.internal[0].Deliver? {
      assert s.internal == [s.internal[0]] + s.internal[1..];
    }
  }

  lemma {:induction false} TakeKeepsShape(cfg: Config, s: Sys, races: bool)
    requires Shape(cfg, s) && ConsumerReady(s)
    ensures s.internal != [] && s.internal[0].Deliver? ==> Shape(cfg, Next(cfg, s, TakeInternal))
    ensures s.checkouts != [] ==> Shape(cfg, Next(cfg, s, TakeCheckout(races)))
  {
    RestKeepsShape(cfg, s);
    if s.internal != [] && s.internal[0].Deliver? {
      assert s.internal[0] in s.internal;
      ConsumeKeepsShape(cfg, s.(internal := s.internal[1..]), s.internal[0].message, false);
    }
    if s.checkouts != [] {
      assert s.checkouts[0] in s.checkouts;
      ConsumeKeepsShape(cfg, s.(checkouts := s.checkouts[1..]), CheckOut(s.checkouts[0]), races);
    }
  }

  lemma {:induction false} SetCellKeepsShape(cfg: Config, s: Sys, id: nat, cell: Cell)
    requires Shape(cfg, s) && id < |s.view.cells| && CellShape(cell)
    ensures Shape(cfg, SetCell(s, id, cell))
  {
  }

  lemma {:induction false} SetGaugesKeepsShape(cfg: Config, s: Sys, gauges: PoolState)
    requires Shape(cfg, s) && gauges.idle == s.view.gauges.idle && gauges.pools == s.view.gauges.pools
    ensures Shape(cfg, SetGauges(s, gauges))
  {
  }

  lemma {:induction false} SendKeepsShape(cfg: Config, s: Sys, envelope: Envelope)
    requires Shape(cfg, s) && EnvelopeShape(envelope) && envelope.Deliver?
    ensures Shape(cfg, Send(s, envelope))
  {
  }

  lemma {:induction false} RequestKeepsShape(cfg: Config, s: Sys, allowed: bool)
    requires Shape(cfg, s)
    ensures Shape(cfg, OnRequest(cfg, s, allowed))
  {
  }

  lemma {:induction false} ReleaseKeepsShape(cfg: Config, s: Sys, id: nat, m: Managed)
    requires Shape(cfg, s) && id < |s.view.cells| && (m.value.Some? ==> Reusable(m))
    ensures Shape(cfg, Release(s, id, m))
  {
    match EffectOfDrop(m, s.alive)
    case Returns(_) =>
      SetCellKeepsShape(cfg, s, id, Finished);
      SendKeepsShape(cfg, SetCell(s, id, Finished), Deliver(CheckIn(m)));
    case Breaks(factory, wasCheckedOut) =>
      var counted := SetGauges(s, s.view.gauges.(connections := s.view.gauges.connections - 1));
      SetGaugesKeepsShape(cfg, s, counted.view.gauges);
      SetCellKeepsShape(cfg, counted, id, if wasCheckedOut then Uncounted(factory) else Unspawned(factory));
    case _ => SetCellKeepsShape(cfg, s, id, Finished);
  }

  lemma {:induction false} RestingKeepsShape(cfg: Config, s: Sys, action: Action, id: nat)
    requires Shape(cfg, s) && id < |s.view.cells| && CellShape(s.view.cells[id])
    requires s.view.cells[id].Held? && s.view.cells[id].running.None?
    ensures Shape(cfg, OnClient(s, action, id))
  {
    var conn := s.view.cells[id].conn;
    match action
    case BeginCommand =>
      SetCellKeepsShape(cfg, s, id, Held(StartCommand(conn), Some(conn.managed.value.value.(dirty := true))));
    case DropConnection => ReleaseKeepsShape(cfg, s, id, ReleaseConn(conn));
    case _ =>
  }

  lemma {:induction false} RunningKeepsShape(cfg: Config, s: Sys, action: Action, id: nat)
    requires Shape(cfg, s) && id < |s.view.cells| && CellShape(s.view.cells[id])
    requires s.view.cells[id].Held? && s.view.cells[id].running.Some?
    ensures Shape(cfg, OnClient(s, action, id))
  {
    var Held(conn, running) := s.view.cells[id];
    match action
    case CommandSucceeds => SetCellKeepsShape(cfg, s, id, Held(FinishCommand(conn, running.value), None));
    case CommandIsLost => ReleaseKeepsShape(cfg, s.(lost := s.lost + {running.value.id}), id, ReleaseConn(conn));
    case _ =>
  }

  lemma {:induction false} ClientKeepsShape(cfg: Config, s: Sys, action: Action, id: nat)
    requires Shape(cfg, s) && id < |s.view.cells|
    ensures Shape(cfg, OnClient(s, action, id))
  {
    assert s.view.cells[id] in s.view.cells;
    match (action, s.view.cells[id])
    case (_, Held(_, None)) => RestingKeepsShape(cfg, s, action, id);
    case (_, Held(_, Some(_))) => RunningKeepsShape(cfg, s, action, id);
    case (Receive, Delivered(m)) => SetCellKeepsShape(cfg, s, id, Held(PoolConn(true, m), None));
    case (HangUp, Waiting) => SetCellKeepsShape(cfg, s, id, HungUp);
    case (HangUp, Delivered(m)) => ReleaseKeepsShape(cfg, s, id, m);
    case (CountOut, Uncounted(factory)) =>
      var counted := SetGauges(s, s.view.gauges.(inFlight := s.view.gauges.inFlight - 1));
      SetGaugesKeepsShape(cfg, s, counted.view.gauges);
      SetCellKeepsShape(cfg, counted, id, Unspawned(factory));
    case (SpawnCreateLoop, Unspawned(factory)) => SetCellKeepsShape(cfg, s, id, Finished);
    case _ =>
  }

  lemma {:induction false} TaskKeepsShape(cfg: Config, s: Sys, event: Event, i: nat)
    requires Shape(cfg, s) && i < |s.tasks|
    ensures Shape(cfg, OnTask(s, event, i))
  {
    match (event, s.tasks[i])
    case (Probe, Probing(factory, attempt)) =>
      SendKeepsShape(cfg, s.(tasks := s.tasks[i := Connecting(factory, attempt)]), Deliver(CheckAlive));
    case (ConnectSucceeds, Connecting(factory, attempt)) =>
      SendKeepsShape(cfg, s.(tasks := Without(s.tasks, i), nextConn := s.nextConn + 1),
                     Deliver(CheckIn(Managed(None, Some(Conn(s.nextConn, false)), Some(factory)))));
    case _ =>
  }

  lemma {:induction false} ShutdownKeepsShape(cfg: Config, s: Sys, rest: Sys)
    requires Shape(cfg, s) && ConsumerReady(s) && s.internal != [] && s.internal[0].Stop?
    requires rest == s.(internal := s.internal[1..])
    ensures Shape(cfg, Shutdown(rest))
  {
    assert s.internal[0] in s.internal;
    var cells := Shutdown(rest).view.cells;
    forall cell | cell in cells ensures CellShape(cell) {
      var i :| 0 <= i < |cells| && cells[i] == cell;
      assert CellShape(s.view.cells[i]);
    }
  }

  lemma {:induction false} DropHandleKeepsShape(cfg: Config, s: Sys)
    requires Shape(cfg, s)
    ensures Shape(cfg, Next(cfg, s, DropHandle))
  {
  }

  lemma {:induction false} NextKeepsShape(cfg: Config, s: Sys, step: Step)
    requires Shape(cfg, s)
    ensures Shape(cfg, Next(cfg, s, step))
  {
    match step
    case RequestCheckOut(allowed) => RequestKeepsShape(cfg, s, allowed);
    case Client(id, action) => if id < |s.view.cells| { ClientKeepsShape(cfg, s, action, id); }
    case CreateLoop(i, event) => if i < |s.tasks| { TaskKeepsShape(cfg, s, event, i); }
    case CleanupTick => SendKeepsShape(cfg, s, Deliver(CleanupReservations));
    case DropHandle => DropHandleKeepsShape(cfg, s);
    case TakeInternal =>
      if ConsumerReady(s) && s.internal != [] {
        if s.internal[0].Deliver? {
          TakeKeepsShape(cfg, s, false);
        } else {
          ShutdownKeepsShape(cfg, s, s.(internal := s.internal[1..]));
        }
      }
    case TakeCheckout(races) => if ConsumerReady(s) { TakeKeepsShape(cfg, s, races); }
    case CountOne => SetGaugesKeepsShape(cfg, s, s.owed.CountOne(s.view.gauges));
    case Pass(time) =>
  }
}
