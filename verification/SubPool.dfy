/** The values that travel through a sub pool, and what its inner pool does with one message. */
module SubPool {
  import opened Prelude

  /** A raw connection. It is dirty from the moment a command is written until its reply was read. */
  datatype Conn = Conn(id: nat, dirty: bool)

  /** A factory moves along with the connection it made, so owning it is owning one slot of the pool. */
  datatype Factory = Factory(slot: nat)

  /** A connection as the pool manages it, see `OwnedManaged` for its life as an object. */
  datatype Managed = Managed(checkedOutAt: Option<Instant>, value: Option<Conn>, factory: Option<Factory>)

  datatype PoolConn = PoolConn(stateOk: bool, managed: Managed)

  /** A checkout request: which oneshot answers it, and whether it may wait in the reservation queue. */
  datatype Request = Request(id: nat, reservationAllowed: bool)

  /**
   The life of one checkout request, as seen through its oneshot and then through the
   client that received the connection.
   */
  datatype Cell =
    | Waiting                                    // sender not used yet, receiver listening
    | HungUp                                     // the receiver is gone and there was no answer
    | Refused(kind: CheckoutErrorKind)           // answered with an error
    | Delivered(managed: Managed)                // answered with a connection nobody picked up yet
    | Held(conn: PoolConn, running: Option<Conn>)  // the client owns it; `running` is inside a command
    | Uncounted(factory: Factory)                // broken drop: `connections` decremented, `in_flight` not yet
    | Unspawned(factory: Factory)                // broken drop: gauges done, create loop not yet spawned
    | Finished                                   // the client has nothing left

  datatype PoolMessage =
    | CheckIn(conn: Managed)
    | CheckOut(request: Request)
    | CleanupReservations
    | CheckAlive

  datatype Envelope = Deliver(message: PoolMessage) | Stop

  datatype ActivationOrder = FiFo | LiFo

  /** `capacity` is what the reservation deque reports once it was built for `reservationLimit` entries. */
  datatype Config = Config(
    desiredPoolSize: nat,
    reservationLimit: nat,
    capacity: nat,
    order: ActivationOrder,
    checkoutQueueSize: nat)
  {
    predicate Valid() {
      && desiredPoolSize < USIZE_VALUES
      && reservationLimit <= capacity
      && 0 < checkoutQueueSize
    }
  }

  const CLEANUP_INTERVAL: nat := 100 * MILLISECOND

  /** Everything the consumer of a sub pool touches. Reservations are named by the oneshot they hold. */
  datatype View = View(
    idle: seq<Managed>,
    reservations: seq<nat>,
    lastCleanup: Instant,
    gauges: PoolState,
    cells: seq<Cell>)

  /** What the consumer still has to count for a connection that it has sent out. */
  datatype Owed =
    | Nothing
    | OneFlight               // the increment of `in_flight`
    | ReservationAndFlight  // the decrement of `reservations`, and after it that increment
  {
    function CountOne(gauges: PoolState): PoolState {
      match this
      case Nothing => gauges
      case OneFlight => gauges.(inFlight := gauges.inFlight + 1)
      case ReservationAndFlight => gauges.(reservations := gauges.reservations - 1)
    }

    function AfterOne(): Owed {
      if ReservationAndFlight? then OneFlight else Nothing
    }
  }

  datatype Processed = Processed(view: View, owed: Owed)
  {
    function Completed(): View {
      view.(gauges := owed.AfterOne().CountOne(owed.CountOne(view.gauges)))
    }
  }

  // ===== Oneshots =====

  predicate Open(cells: seq<Cell>, id: nat) {
    id < |cells| && cells[id].Waiting?
  }

  /** Sending on a oneshot whose receiver left has no effect. */
  function Answer(cells: seq<Cell>, id: nat, answer: Cell): seq<Cell> {
    if Open(cells, id) then cells[id := answer] else cells
  }

  // ===== Idle connections =====

  function PutIdle(v: View, managed: Managed): View {
    v.(idle := v.idle + [managed], gauges := v.gauges.(idle := v.gauges.idle + 1))
  }

  /** First in first out takes the front, last in first out the back. */
  function NextIdle(order: ActivationOrder, idle: seq<Managed>): nat
    requires idle != []
  {
    if order.FiFo? then 0 else |idle| - 1
  }

  function TakeIdle(order: ActivationOrder, v: View): View
    requires v.idle != []
  {
    var i := NextIdle(order, v.idle);
    v.(idle := v.idle[..i] + v.idle[i + 1..], gauges := v.gauges.(idle := v.gauges.idle - 1))
  }

  // ===== Checking in =====

  /** The position of the first reservation whose receiver still listens, or the length if there is none. */
  function FirstOpen(cells: seq<Cell>, queue: seq<nat>): (k: nat)
    ensures k <= |queue|
    ensures forall j :: 0 <= j < k ==> !Open(cells, queue[j])
    ensures k < |queue| ==> Open(cells, queue[k])
  {
    if queue == [] || Open(cells, queue[0]) then 0 else 1 + FirstOpen(cells, queue[1..])
  }

  /** A returned connection leaves the in flight gauge, a fresh one joins the connections gauge. */
  function Arrive(v: View, managed: Managed): View {
    if managed.checkedOutAt.Some?
    then v.(gauges := v.gauges.(inFlight := v.gauges.inFlight - 1))
    else v.(gauges := v.gauges.(connections := v.gauges.connections + 1))
  }

  /** Hand the connection to the first reservation that can take it, forgetting the closed ones before it. */
  function Fulfil(v: View, managed: Managed, now: Instant): Processed {
    var k := FirstOpen(v.cells, v.reservations);
    if k == |v.reservations| then
      Processed(PutIdle(v.(reservations := [],
                           gauges := v.gauges.(reservations := v.gauges.reservations - k)), managed), Nothing)
    else
      Processed(v.(reservations := v.reservations[k + 1..],
                   gauges := v.gauges.(reservations := v.gauges.reservations - k),
                   cells := Answer(v.cells, v.reservations[k],
                                   Delivered(managed.(checkedOutAt := Some(now))))), ReservationAndFlight)
  }

  function OnCheckIn(v: View, managed: Managed, now: Instant): Processed {
    Fulfil(Arrive(v, managed), managed.(checkedOutAt := None), now)
  }

  // ===== Reservations =====

  /** The reservations that are still worth keeping, in their order. */
  function Retained(cells: seq<Cell>, queue: seq<nat>): (kept: seq<nat>)
    ensures |kept| <= |queue|
  {
    if queue == [] then []
    else (if Open(cells, queue[0]) then [queue[0]] else []) + Retained(cells, queue[1..])
  }

  predicate CleanupDue(capacity: nat, v: View, now: Instant) {
    |v.reservations| == capacity || now - v.lastCleanup > CLEANUP_INTERVAL
  }

  function OnCleanup(capacity: nat, v: View, now: Instant): View {
    if v.reservations != [] && CleanupDue(capacity, v, now) then
      var kept := Retained(v.cells, v.reservations);
      v.(reservations := kept, lastCleanup := now,
         gauges := v.gauges.(reservations := v.gauges.reservations - (|v.reservations| - |kept|)))
    else
      v.(lastCleanup := now)
  }

  function Enqueue(v: View, id: nat): View {
    v.(reservations := v.reservations + [id],
       gauges := v.gauges.(reservations := v.gauges.reservations + 1))
  }

  function CreateReservation(capacity: nat, v: View, id: nat, now: Instant): View {
    if capacity == 0 then
      v.(cells := Answer(v.cells, id, Refused(NoConnection)))
    else
      var swept := if |v.reservations| == capacity then OnCleanup(capacity, v, now) else v;
      if |swept.reservations| == capacity then
        swept.(cells := Answer(swept.cells, id, Refused(ReservationLimitReached)))
      else
        Enqueue(swept, id)
  }

  // ===== Checking out =====

  /** The receiver may leave after the inner pool looked at it and before the inner pool answers. */
  function Race(cells: seq<Cell>, id: nat, races: bool): seq<Cell> {
    if races then Answer(cells, id, HungUp) else cells
  }

  function OnCheckOut(cfg: Config, v: View, request: Request, now: Instant, races: bool): Processed {
    if !Open(v.cells, request.id) then
      Processed(v, Nothing)
    else
      var raced := v.(cells := Race(v.cells, request.id, races));
      if v.idle != [] then
        var managed := v.idle[NextIdle(cfg.order, v.idle)].(checkedOutAt := Some(now));
        var taken := TakeIdle(cfg.order, raced);
        if races
        then Processed(PutIdle(taken, managed), Nothing)
        else Processed(taken.(cells := Answer(v.cells, request.id, Delivered(managed))), OneFlight)
      else if request.reservationAllowed then
        Processed(CreateReservation(cfg.capacity, raced, request.id, now), Nothing)
      else
        Processed(raced.(cells := Answer(raced.cells, request.id, Refused(NoConnection))), Nothing)
  }

  /** What the inner pool does with one message that it received at `now`. */
  function OnMessage(cfg: Config, v: View, message: PoolMessage, now: Instant, races: bool): Processed {
    match message
    case CheckIn(conn) => OnCheckIn(v, conn, now)
    case CheckOut(request) => OnCheckOut(cfg, v, request, now, races)
    case CleanupReservations => Processed(OnCleanup(cfg.capacity, v, now), Nothing)
    case CheckAlive => Processed(v, Nothing)
  }

  // ===== Dropping a managed connection =====

  /** What becomes of a `Managed` that is dropped while the internal channel is open or closed. */
  datatype DropEffect =
    | Vanishes                                          // an orphan, nothing follows
    | Returns(managed: Managed)                         // sent to the pool as a check in
    | Orphaned                                          // the pool is gone, the connection is closed
    | Breaks(factory: Factory, wasCheckedOut: bool)     // counted out and to be created again

  function EffectOfDrop(managed: Managed, channelOpen: bool): DropEffect {
    if managed.factory.None? then Vanishes
    else if managed.value.Some? then (if channelOpen then Returns(managed) else Orphaned)
    else Breaks(managed.factory.value, managed.checkedOutAt.Some?)
  }

  // ===== Commands on a pooled connection =====

  /** A command takes the connection out of the client's hands and marks the state as not ok. */
  function StartCommand(conn: PoolConn): PoolConn {
    PoolConn(false, conn.managed.(value := None))
  }

  /** A command that got its reply hands the connection back. */
  function FinishCommand(conn: PoolConn, running: Conn): PoolConn {
    PoolConn(true, conn.managed.(value := Some(running.(dirty := false))))
  }

  /** Dropping a pooled connection gives up the value unless its state is ok. */
  function ReleaseConn(conn: PoolConn): Managed {
    if conn.stateOk then conn.managed else conn.managed.(value := None)
  }

  // ===== Shutting down =====

  /** Dropping unused senders tells their receivers that there is no pool any more. */
  function DropSenders(cells: seq<Cell>, ids: seq<nat>): (r: seq<Cell>)
    ensures |r| == |cells|
    ensures forall i :: 0 <= i < |r| ==>
              r[i] == if cells[i].Waiting? && i in ids then Refused(NoPool) else cells[i]
  {
    seq(|cells|, i requires 0 <= i < |cells| =>
      if cells[i].Waiting? && i in ids then Refused(NoPool) else cells[i])
  }

  /** What dropping the inner pool leaves: no idle connection and no gauge for those in flight. */
  function DropInnerPool(v: View): View {
    v.(idle := [],
       reservations := [],
       cells := DropSenders(v.cells, v.reservations),
       gauges := v.gauges.(inFlight := v.gauges.inFlight - Usize(v.gauges.inFlight),
                           idle := v.gauges.idle - |v.idle|,
                           connections := v.gauges.connections - |v.idle|))
  }
}
