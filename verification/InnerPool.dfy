/** The inner pool as the object that the consumer of a sub pool owns and mutates. */
module InnerPools {
  import opened Prelude
  import opened SubPool
  import opened Instrumentation

  /** The oneshots through which requests are answered; senders are named by the request. */
  class Oneshots {
    var cells: seq<Cell>

    constructor ()
      ensures cells == []
    {
      cells := [];
    }

    method IsClosed(id: nat) returns (closed: bool)
      ensures closed == !Open(cells, id)
    {
      closed := !(id < |cells| && cells[id].Waiting?);
    }

    /** Use up a sender; `false` means that the receiver is gone and nothing was sent. */
    method SendAnswer(id: nat, answer: Cell) returns (sent: bool)
      modifies this
      ensures sent == old(Open(cells, id))
      ensures cells == Answer(old(cells), id, answer)
    {
      sent := id < |cells| && cells[id].Waiting?;
      if sent {
        cells := cells[id := answer];
      }
    }

    /** The receiver of `id` may leave at this very moment. */
    method Meanwhile(id: nat, leaves: bool)
      modifies this
      ensures cells == Race(old(cells), id, leaves)
    {
      if leaves && id < |cells| && cells[id].Waiting? {
        cells := cells[id := HungUp];
      }
    }

    /** Drop unused senders, one after the other. */
    method DropAll(ids: seq<nat>)
      modifies this
      ensures cells == DropSenders(old(cells), ids)
    {
      for k := 0 to |ids|
        invariant cells == DropSenders(old(cells), ids[..k])
      {
        var sent := SendAnswer(ids[k], Refused(NoPool));
        assert ids[..k + 1] == ids[..k] + [ids[k]];
      }
      assert ids[..|ids|] == ids;
    }
  }

  /** The store of idle connections, a queue or a stack. */
  class IdleConnections {
    const order: ActivationOrder
    var slots: seq<Managed>

    constructor (order: ActivationOrder)
      ensures this.order == order && slots == []
    {
      this.order := order;
      slots := [];
    }

    method Put(conn: Managed)
      modifies this
      ensures slots == old(slots) + [conn]
    {
      slots := slots + [conn];
    }

    method Get() returns (conn: Option<Managed>)
      modifies this
      ensures old(slots) == [] ==> conn == None && slots == []
      ensures old(slots) != [] ==>
                var i := NextIdle(order, old(slots));
                conn == Some(old(slots)[i]) && slots == old(slots)[..i] + old(slots)[i + 1..]
    {
      if slots == [] {
        conn := None;
      } else {
        match order
        case FiFo =>
          conn := Some(slots[0]);
          slots := slots[1..];
        case LiFo =>
          conn := Some(slots[|slots| - 1]);
          slots := slots[..|slots| - 1];
      }
    }

    method Drain() returns (drained: seq<Managed>)
      modifies this
      ensures drained == old(slots) && slots == []
    {
      drained := slots;
      slots := [];
    }
  }

  datatype Fulfillment = Fulfilled | NotFulfilled(conn: Managed)

  lemma {:induction false} RetainedPush(cells: seq<Cell>, queue: seq<nat>, id: nat)
    ensures Retained(cells, queue + [id]) == Retained(cells, queue) + if Open(cells, id) then [id] else []
  {
    if queue == [] {
      assert [id][1..] == [];
      assert Retained(cells, [id][1..]) == [];
    } else {
      RetainedPush(cells, queue[1..], id);
      assert (queue + [id])[1..] == queue[1..] + [id];
    }
  }

  /** The first `n` reservations are gone and counted out. */
  ghost function Skipped(v: View, n: nat): View
    requires n <= |v.reservations|
  {
    v.(reservations := v.reservations[n..], gauges := v.gauges.(reservations := v.gauges.reservations - n))
  }

  class InnerPool {
    const cfg: Config
    const idle: IdleConnections
    const instrumentation: PoolInstrumentation
    const oneshots: Oneshots
    var reservations: seq<nat>
    var lastCleanup: Instant

    constructor (cfg: Config, instrumentation: PoolInstrumentation, oneshots: Oneshots, now: Instant)
      ensures Valid() && this.cfg == cfg && this.instrumentation == instrumentation && this.oneshots == oneshots
      ensures fresh(idle)
      ensures AsView() == View([], [], now, instrumentation.State(), oneshots.cells)
    {
      this.cfg := cfg;
      this.instrumentation := instrumentation;
      this.oneshots := oneshots;
      idle := new IdleConnections(cfg.order);
      reservations := [];
      lastCleanup := now;
    }

    ghost predicate Valid()
      reads this, idle
    {
      idle.order == cfg.order
    }

    ghost function AsView(): View
      reads this, idle, instrumentation, oneshots
    {
      View(idle.slots, reservations, lastCleanup, instrumentation.State(), oneshots.cells)
    }

    /** Process one message; a connection that was sent out is counted before the method returns. */
    method Process(message: PoolMessage, now: Instant, races: bool)
      requires Valid()
      modifies this, idle, instrumentation, instrumentation.flavour, oneshots
      ensures Valid()
      ensures AsView() == OnMessage(cfg, old(AsView()), message, now, races).Completed()
      ensures instrumentation.Others() == old(instrumentation.Others())
    {
      match message
      case CheckIn(conn) => DoCheckIn(conn, now);
      case CheckOut(request) => DoCheckOut(request, now, races);
      case CleanupReservations => DoCleanup(now);
      case CheckAlive =>
    }

    method DoCheckIn(conn: Managed, now: Instant)
      requires Valid()
      modifies this, idle, instrumentation, instrumentation.flavour, oneshots
      ensures Valid()
      ensures AsView() == OnCheckIn(old(AsView()), conn, now).Completed()
      ensures instrumentation.Others() == old(instrumentation.Others())
    {
      CountArrival(conn);
      var managed := conn.(checkedOutAt := None);
      if reservations == [] {
        DoPutIdle(managed);
      } else {
        DoFulfil(managed, now);
      }
    }

    /** A connection that was checked out returns, any other is new. */
    method CountArrival(conn: Managed)
      requires Valid()
      modifies instrumentation, instrumentation.flavour
      ensures Valid()
      ensures AsView() == Arrive(old(AsView()), conn)
      ensures instrumentation.Others() == old(instrumentation.Others())
    {
      if conn.checkedOutAt.Some? {
        instrumentation.Record(InFlightDec);
      } else {
        instrumentation.Record(CheckedInNewConnection);
      }
    }

    /** Offer the connection to one reservation after the other. */
    method DoFulfil(managed: Managed, now: Instant)
      requires Valid() && managed.checkedOutAt.None?
      modifies this, idle, instrumentation, instrumentation.flavour, oneshots
      ensures Valid()
      ensures AsView() == Fulfil(old(AsView()), managed, now).Completed()
      ensures instrumentation.Others() == old(instrumentation.Others())
    {
      ghost var v := AsView();
      ghost var offered := 0;
      while reservations != []
        invariant offered <= FirstOpen(v.cells, v.reservations)
        invariant AsView() == Skipped(v, offered)
        invariant instrumentation.Others() == old(instrumentation.Others())
        decreases |reservations|
      {
        assert reservations[0] == v.reservations[offered];
        var fulfilled := OfferToFirst(managed, now);
        if fulfilled {
          assert v.reservations[offered..][1..] == v.reservations[offered + 1..];
          return;
        }
        offered := offered + 1;
      }
      DoPutIdle(managed);
    }

    /** Take the first reservation off the queue and try to fulfil it. */
    method OfferToFirst(managed: Managed, now: Instant) returns (fulfilled: bool)
      requires Valid() && managed.checkedOutAt.None? && reservations != []
      modifies this, instrumentation, instrumentation.flavour, oneshots
      ensures Valid()
      ensures fulfilled == Open(old(oneshots.cells), old(reservations[0]))
      ensures var v := Skipped(old(AsView()), 1);
              AsView() == if fulfilled
                          then v.(gauges := v.gauges.(inFlight := v.gauges.inFlight + 1),
                                  cells := Answer(v.cells, old(reservations[0]),
                                                  Delivered(managed.(checkedOutAt := Some(now)))))
                          else v
      ensures instrumentation.Others() == old(instrumentation.Others())
    {
      var waiting := reservations[0];
      reservations := reservations[1..];
      var fulfillment := TryFulfill(waiting, managed, now);
      if fulfillment.Fulfilled? {
        instrumentation.Record(ReservationFulfilled);
        instrumentation.Record(InFlightInc);
      } else {
        instrumentation.Record(ReservationNotFulfilled);
      }
      fulfilled := fulfillment.Fulfilled?;
    }

    method TryFulfill(waiting: nat, managed: Managed, now: Instant) returns (r: Fulfillment)
      requires managed.checkedOutAt.None?
      modifies oneshots
      ensures oneshots.cells == Answer(old(oneshots.cells), waiting, Delivered(managed.(checkedOutAt := Some(now))))
      ensures r == if old(Open(oneshots.cells, waiting)) then Fulfilled else NotFulfilled(managed)
    {
      var stamped := managed.(checkedOutAt := Some(now));
      var sent := oneshots.SendAnswer(waiting, Delivered(stamped));
      r := if sent then Fulfilled else NotFulfilled(stamped.(checkedOutAt := None));
    }

    method DoCheckOut(request: Request, now: Instant, races: bool)
      requires Valid()
      modifies this, idle, instrumentation, instrumentation.flavour, oneshots
      ensures Valid()
      ensures AsView() == OnCheckOut(cfg, old(AsView()), request, now, races).Completed()
      ensures instrumentation.Others() == old(instrumentation.Others())
    {
      var closed := oneshots.IsClosed(request.id);
      if closed {
        return;
      }
      oneshots.Meanwhile(request.id, races);
      var available := DoGetIdle();
      if available.Some? {
        var managed := available.value.(checkedOutAt := Some(now));
        var sent := oneshots.SendAnswer(request.id, Delivered(managed));
        if sent {
          instrumentation.Record(InFlightInc);
        } else {
          DoPutIdle(managed);
        }
      } else if request.reservationAllowed {
        DoCreateReservation(request.id, now);
      } else {
        var sent := oneshots.SendAnswer(request.id, Refused(NoConnection));
      }
    }

    method DoCreateReservation(id: nat, now: Instant)
      requires Valid()
      modifies this, idle, instrumentation, instrumentation.flavour, oneshots
      ensures Valid()
      ensures AsView() == CreateReservation(cfg.capacity, old(AsView()), id, now)
      ensures instrumentation.Others() == old(instrumentation.Others())
    {
      if cfg.capacity == 0 {
        var sent := oneshots.SendAnswer(id, Refused(NoConnection));
        return;
      }
      if |reservations| == cfg.capacity {
        DoCleanup(now);
        if |reservations| == cfg.capacity {
          var sent := oneshots.SendAnswer(id, Refused(ReservationLimitReached));
          return;
        }
      }
      reservations := reservations + [id];
      instrumentation.Record(ReservationAdded);
    }

    method DoGetIdle() returns (managed: Option<Managed>)
      requires Valid()
      modifies idle, instrumentation, instrumentation.flavour
      ensures Valid()
      ensures if old(idle.slots) == [] then managed == None && AsView() == old(AsView())
              else managed == Some(old(idle.slots)[NextIdle(cfg.order, old(idle.slots))])
                   && AsView() == TakeIdle(cfg.order, old(AsView()))
      ensures instrumentation.Others() == old(instrumentation.Others())
    {
      managed := idle.Get();
      if managed.Some? {
        instrumentation.Record(IdleDec);
      }
    }

    method DoPutIdle(conn: Managed)
      requires Valid()
      modifies idle, instrumentation, instrumentation.flavour
      ensures Valid()
      ensures AsView() == PutIdle(old(AsView()), conn)
      ensures instrumentation.Others() == old(instrumentation.Others())
    {
      instrumentation.Record(IdleInc);
      idle.Put(conn);
    }

    method DoCleanup(now: Instant)
      requires Valid()
      modifies this, idle, instrumentation, instrumentation.flavour, oneshots
      ensures Valid()
      ensures AsView() == OnCleanup(cfg.capacity, old(AsView()), now)
      ensures instrumentation.Others() == old(instrumentation.Others())
    {
      if reservations == [] {
        lastCleanup := now;
        return;
      }
      if |reservations| == cfg.capacity || now - lastCleanup > CLEANUP_INTERVAL {
        Retain();
      }
      lastCleanup := now;
    }

    /** Keep the reservations whose receivers still listen, and count out the others. */
    method Retain()
      requires Valid()
      modifies this, instrumentation, instrumentation.flavour
      ensures Valid()
      ensures var kept := Retained(oneshots.cells, old(reservations));
              AsView() == old(AsView()).(reservations := kept,
                gauges := old(AsView()).gauges.(reservations := old(AsView()).gauges.reservations
                                                                - (|old(reservations)| - |kept|)))
      ensures instrumentation.Others() == old(instrumentation.Others())
    {
      ghost var v := AsView();
      var kept: seq<nat> := [];
      for i := 0 to |reservations|
        invariant reservations == v.reservations
        invariant kept == Retained(v.cells, v.reservations[..i])
        invariant AsView() == v.(gauges := v.gauges.(reservations := v.gauges.reservations - (i - |kept|)))
        invariant instrumentation.Others() == old(instrumentation.Others())
      {
        RetainedPush(v.cells, v.reservations[..i], reservations[i]);
        assert v.reservations[..i + 1] == v.reservations[..i] + [reservations[i]];
        var closed := oneshots.IsClosed(reservations[i]);
        if closed {
          instrumentation.Record(ReservationNotFulfilled);
        } else {
          kept := kept + [reservations[i]];
        }
      }
      assert v.reservations[..|v.reservations|] == v.reservations;
      reservations := kept;
    }

    /** Dropping the inner pool: nothing is in flight or idle for it any more, and nobody is left waiting. */
    method Drop()
      requires Valid()
      modifies this, idle, instrumentation, instrumentation.flavour, oneshots
      ensures Valid()
      ensures AsView() == DropInnerPool(old(AsView()))
      ensures instrumentation.Others() == old(instrumentation.Others())
    {
      ghost var v := AsView();
      var inFlight := instrumentation.InFlight();
      for i := 0 to inFlight
        invariant AsView() == v.(gauges := v.gauges.(inFlight := v.gauges.inFlight - i))
        invariant instrumentation.Others() == old(instrumentation.Others())
      {
        instrumentation.Record(InFlightDec);
      }
      var drained := idle.Drain();
      for i := 0 to |drained|
        invariant AsView() == v.(idle := [],
                                 gauges := v.gauges.(inFlight := v.gauges.inFlight - inFlight,
                                                     idle := v.gauges.idle - i,
                                                     connections := v.gauges.connections - i))
        invariant instrumentation.Others() == old(instrumentation.Others())
      {
        instrumentation.Record(IdleDec);
        instrumentation.Record(ConnectionDropped);
      }
      oneshots.DropAll(reservations);
      reservations := [];
    }
  }
}
