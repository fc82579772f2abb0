/** What every station of a sub pool holds, and the invariant that ties it to the gauges. */
module Ledger {
  import opened Prelude
  import opened SubPool
  import opened System
  import opened Tally

  /** The things that circulate. Each station is weighed by how many of each it holds. */
  datatype Token =
    | Slot(slot: nat)     // the factory of one slot
    | Seat                // the factory of any slot
    | Link(conn: nat)     // one raw connection
    | Ticket(id: nat)     // the sender that has to answer one request
    | Flight              // a connection that `in_flight` has to count
    | Known               // a connection that `connections` has to count

  function One(condition: bool): nat {
    if condition then 1 else 0
  }

  function FactoryWeight(factory: Factory, t: Token): nat {
    match t
    case Slot(k) => One(factory.slot == k)
    case Seat => 1
    case _ => 0
  }

  function ManagedWeight(m: Managed, t: Token): nat {
    match t
    case Slot(k) => One(m.factory == Some(Factory(k)))
    case Seat => One(m.factory.Some?)
    case Link(c) => One(m.value.Some? && m.value.value.id == c)
    case _ => 0
  }

  function TaskWeight(task: Task, t: Token): nat {
    FactoryWeight(task.factory, t)
  }

  function MessageWeight(message: PoolMessage, t: Token): nat {
    match message
    case CheckIn(m) => ManagedWeight(m, t) + One((t.Known? || t.Flight?) && m.checkedOutAt.Some?)
    case CheckOut(request) => RequestWeight(request, t)
    case _ => 0
  }

  function EnvelopeWeight(envelope: Envelope, t: Token): nat {
    if envelope.Deliver? then MessageWeight(envelope.message, t) else 0
  }

  function IdleWeight(m: Managed, t: Token): nat {
    ManagedWeight(m, t) + One(t.Known?)
  }

  function RequestWeight(request: Request, t: Token): nat {
    One(t == Ticket(request.id))
  }

  function ReservationWeight(id: nat, t: Token): nat {
    One(t == Ticket(id))
  }

  function CellWeight(cell: Cell, t: Token): nat {
    match cell
    case Delivered(m) => ManagedWeight(m, t) + One(t.Known? || t.Flight?)
    case Held(conn, running) =>
      ManagedWeight(conn.managed, t) + One(t.Known? || t.Flight?)
      + One(running.Some? && t == Link(running.value.id))
    case Uncounted(factory) => FactoryWeight(factory, t) + One(t.Flight?)
    case Unspawned(factory) => FactoryWeight(factory, t)
    case _ => 0
  }

  ghost function HoldsView(v: View, t: Token): nat {
    Sum(v.idle, IdleWeight, t) + Sum(v.reservations, ReservationWeight, t) + Sum(v.cells, CellWeight, t)
  }

  /** How many of `t` there are in all stations together. */
  ghost function Holds(s: Sys, t: Token): nat {
    Sum(s.tasks, TaskWeight, t) + Sum(s.internal, EnvelopeWeight, t)
    + Sum(s.checkouts, RequestWeight, t) + HoldsView(s.view, t)
  }

  // ===== The shape of what is held =====

  /** Fit to be handed to a client. */
  predicate Reusable(m: Managed) {
    m.factory.Some? && m.value.Some? && !m.value.value.dirty
  }

  predicate CellShape(cell: Cell) {
    match cell
    case Delivered(m) => Reusable(m) && m.checkedOutAt.Some?
    case Held(conn, running) =>
      && conn.managed.factory.Some? && conn.managed.checkedOutAt.Some?
      && (conn.stateOk <==> conn.managed.value.Some?)
      && (conn.stateOk <==> running.None?)
      && (conn.stateOk ==> Reusable(conn.managed))
      && (running.Some? ==> running.value.dirty)
    case _ => true
  }

  predicate EnvelopeShape(envelope: Envelope) {
    envelope.Deliver? ==> !envelope.message.CheckOut?
                          && (envelope.message.CheckIn? ==> Reusable(envelope.message.conn))
  }

  predicate ViewShape(cfg: Config, v: View, asked: seq<bool>) {
    && |asked| == |v.cells|
    && (forall m :: m in v.idle ==> Reusable(m))
    && (forall cell :: cell in v.cells ==> CellShape(cell))
    && (forall id :: id in v.reservations ==> id < |asked| && asked[id])
    && |v.reservations| <= cfg.capacity
    && (v.idle == [] || v.reservations == [])
    && v.gauges.idle == |v.idle|
  }

  predicate Shape(cfg: Config, s: Sys) {
    && ViewShape(cfg, s.view, s.asked)
    && s.view.lastCleanup <= s.now
    && (forall envelope :: envelope in s.internal ==> EnvelopeShape(envelope))
    && (forall request :: request in s.checkouts ==>
          request.id < |s.asked| && s.asked[request.id] == request.reservationAllowed)
    && |s.checkouts| <= cfg.checkoutQueueSize
    && (s.owed != Nothing ==> s.alive)
    && |s.view.reservations| + One(s.owed.ReservationAndFlight?) <= cfg.capacity
    && s.view.gauges.pools == One(s.handle)
    && (if s.alive
        then s.orphaned == 0 && s.inFlightAtStop == 0 && s.reservedAtStop == 0
             && (s.handle <==> Stop !in s.internal)
        else !s.handle && s.view.idle == [] && s.view.reservations == [] && s.internal == [] && s.checkouts == [])
  }

  // ===== The ledger =====

  /** A request is answered as long as its sender exists exactly once, and afterwards there is no sender left. */
  predicate TicketRule(cells: seq<Cell>, id: nat, senders: nat) {
    if id >= |cells| then senders == 0
    else if cells[id].Waiting? then senders == 1
    else if cells[id].HungUp? then senders <= 1
    else senders == 0
  }

  ghost predicate Balanced(cfg: Config, s: Sys) {
    && (forall k: nat :: if s.alive then Holds(s, Slot(k)) == One(k < cfg.desiredPoolSize)
                         else Holds(s, Slot(k)) <= One(k < cfg.desiredPoolSize))
    && (if s.alive then Holds(s, Seat) == cfg.desiredPoolSize else Holds(s, Seat) <= cfg.desiredPoolSize)
    && (forall c: nat :: if s.alive then Holds(s, Link(c)) + One(c in s.lost) == One(c < s.nextConn)
                         else Holds(s, Link(c)) + One(c in s.lost) <= One(c < s.nextConn))
    && (forall id: nat :: TicketRule(s.view.cells, id, Holds(s, Ticket(id))))
    && Holds(s, Flight) + s.orphaned == s.view.gauges.inFlight + One(s.owed != Nothing) + s.inFlightAtStop
    && Holds(s, Known) + s.orphaned == s.view.gauges.connections
    && s.view.gauges.reservations == |s.view.reservations| + One(s.owed.ReservationAndFlight?) + s.reservedAtStop
  }

  ghost predicate Inv(cfg: Config, s: Sys) {
    Shape(cfg, s) && Balanced(cfg, s)
  }

  // ===== The beginning =====

  lemma {:induction false} FirstTasksHold(n: nat, t: Token)
    ensures Sum(FirstTasks(n), TaskWeight, t)
         == match t
            case Slot(k) => One(k < n)
            case Seat => n
            case _ => 0
  {
    if n > 0 {
      FirstTasksHold(n - 1, t);
      SumPush(FirstTasks(n - 1), Probing(Factory(n - 1), 1), TaskWeight);
    }
  }

  lemma {:induction false} StartKeepsInv(cfg: Config)
    requires cfg.Valid()
    ensures Inv(cfg, Start(cfg))
  {
    var s := Start(cfg);
    forall t ensures Holds(s, t) == match t
                                    case Slot(k) => One(k < cfg.desiredPoolSize)
                                    case Seat => cfg.desiredPoolSize
                                    case _ => 0
    {
      FirstTasksHold(cfg.desiredPoolSize, t);
    }
  }
}
