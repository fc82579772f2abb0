/**
 One complete sub pool as a state machine: the consumer with its inner pool, the two
 channels, the create loops, the clients and the handle whose drop stops the pool.
 Every step of every run is one `Step`; a step that is not enabled changes nothing.
 */
module System {
  import opened Prelude
  import opened SubPool

  /** A create loop either probes the channel next or waits for its connection attempt. */
  datatype Task = Probing(factory: Factory, attempt: nat) | Connecting(factory: Factory, attempt: nat)

  datatype Sys = Sys(
    view: View,
    internal: seq<Envelope>,    // the unbounded channel
    checkouts: seq<Request>,    // the bounded channel
    tasks: seq<Task>,
    owed: Owed,                 // what the consumer has not counted yet
    alive: bool,                // the consumer and its two receivers exist
    handle: bool,               // the `PoolInternal` exists
    now: Instant,
    nextConn: nat,
    // History: nothing below influences a step.
    asked: seq<bool>,           // per request, whether it may wait in the reservation queue
    lost: set<nat>,             // connections that were given up in the middle of a command
    orphaned: nat,              // counted connections that were closed because the pool was gone
    inFlightAtStop: int,
    reservedAtStop: int)

  /** What the owner of a request can do with its future, and then with its connection. */
  datatype Action =
    | Receive
    | HangUp
    | BeginCommand
    | CommandSucceeds
    | CommandIsLost       // the command failed, or its future was cancelled
    | DropConnection
    | CountOut            // second part of a broken drop
    | SpawnCreateLoop     // third part of a broken drop

  datatype Event = Probe | ConnectSucceeds | ConnectFails

  datatype Step =
    | RequestCheckOut(allowed: bool)
    | Client(id: nat, action: Action)
    | CreateLoop(task: nat, event: Event)
    | CleanupTick
    | DropHandle
    | TakeInternal                // the merged stream yields the front of the internal channel
    | TakeCheckout(races: bool)   // the merged stream yields the front of the checkout channel
    | CountOne                    // the consumer counts a part of what it owes
    | Pass(time: nat)

  /** One create loop for each slot, about to make its first attempt. */
  function FirstTasks(n: nat): (tasks: seq<Task>)
    ensures |tasks| == n
  {
    if n == 0 then [] else FirstTasks(n - 1) + [Probing(Factory(n - 1), 1)]
  }

  function Start(cfg: Config): Sys {
    Sys(View([], [], 0, ZERO_STATE.(pools := 1), []), [], [],
        FirstTasks(cfg.desiredPoolSize),
        Nothing, true, true, 0, 0, [], {}, 0, 0, 0)
  }

  // ===== Channels =====

  function Send(s: Sys, envelope: Envelope): Sys {
    if s.alive then s.(internal := s.internal + [envelope]) else s
  }

  function SetCell(s: Sys, id: nat, cell: Cell): Sys
    requires id < |s.view.cells|
  {
    s.(view := s.view.(cells := s.view.cells[id := cell]))
  }

  function SetGauges(s: Sys, gauges: PoolState): Sys {
    s.(view := s.view.(gauges := gauges))
  }

  // ===== Clients =====

  /** Enqueue a request, or refuse it because the channel is full or closed. */
  function OnRequest(cfg: Config, s: Sys, allowed: bool): Sys {
    var id := |s.view.cells|;
    var cell := if !s.alive then Refused(NoPool)
                else if |s.checkouts| >= cfg.checkoutQueueSize then Refused(CheckoutLimitReached)
                else Waiting;
    s.(view := s.view.(cells := s.view.cells + [cell]),
       asked := s.asked + [allowed],
       checkouts := if cell.Waiting? then s.checkouts + [Request(id, allowed)] else s.checkouts)
  }

  /** The owner of cell `id` drops its managed connection; a broken drop only counts the connection out here. */
  function Release(s: Sys, id: nat, managed: Managed): Sys
    requires id < |s.view.cells|
  {
    match EffectOfDrop(managed, s.alive)
    case Vanishes => SetCell(s, id, Finished)
    case Returns(m) => Send(SetCell(s, id, Finished), Deliver(CheckIn(m)))
    case Orphaned => SetCell(s, id, Finished).(orphaned := s.orphaned + 1)
    case Breaks(factory, wasCheckedOut) =>
      var counted := SetGauges(s, s.view.gauges.(connections := s.view.gauges.connections - 1));
      SetCell(counted, id, if wasCheckedOut then Uncounted(factory) else Unspawned(factory))
  }

  function OnClient(s: Sys, action: Action, id: nat): Sys
    requires id < |s.view.cells|
  {
    match (action, s.view.cells[id])
    case (Receive, Delivered(m)) => SetCell(s, id, Held(PoolConn(true, m), None))
    case (HangUp, Waiting) => SetCell(s, id, HungUp)
    case (HangUp, Delivered(m)) => Release(s, id, m)
    case (BeginCommand, Held(conn, None)) =>
      if conn.managed.value.Some?
      then SetCell(s, id, Held(StartCommand(conn), Some(conn.managed.value.value.(dirty := true))))
      else Release(s, id, ReleaseConn(conn))
    case (CommandSucceeds, Held(conn, Some(running))) =>
      SetCell(s, id, Held(FinishCommand(conn, running), None))
    case (CommandIsLost, Held(conn, Some(running))) =>
      Release(s.(lost := s.lost + {running.id}), id, ReleaseConn(conn))
    case (DropConnection, Held(conn, None)) => Release(s, id, ReleaseConn(conn))
    case (CountOut, Uncounted(factory)) =>
      SetCell(SetGauges(s, s.view.gauges.(inFlight := s.view.gauges.inFlight - 1)), id, Unspawned(factory))
    case (SpawnCreateLoop, Unspawned(factory)) =>
      SetCell(s, id, Finished).(tasks := s.tasks + [Probing(factory, 1)])
    case _ => s
  }

  // ===== Create loops =====

  function Without<T>(xs: seq<T>, i: nat): seq<T>
    requires i < |xs|
  {
    xs[..i] + xs[i + 1..]
  }

  /** The loop ends at a probe that fails; a connection made after the pool is gone is simply closed. */
  function OnTask(s: Sys, event: Event, i: nat): Sys
    requires i < |s.tasks|
  {
    match (event, s.tasks[i])
    case (Probe, Probing(factory, attempt)) =>
      if s.alive
      then Send(s.(tasks := s.tasks[i := Connecting(factory, attempt)]), Deliver(CheckAlive))
      else s.(tasks := Without(s.tasks, i))
    case (ConnectSucceeds, Connecting(factory, attempt)) =>
      var newborn := Managed(None, Some(Conn(s.nextConn, false)), Some(factory));
      Send(s.(tasks := Without(s.tasks, i), nextConn := s.nextConn + 1), Deliver(CheckIn(newborn)))
    case (ConnectFails, Connecting(factory, attempt)) =>
      s.(tasks := s.tasks[i := Probing(factory, attempt + 1)])
    case _ => s
  }

  // ===== The consumer =====

  function IdsOf(requests: seq<Request>): (ids: seq<nat>)
    ensures |ids| == |requests|
    ensures forall i :: 0 <= i < |ids| ==> ids[i] == requests[i].id
  {
    seq(|requests|, i requires 0 <= i < |requests| => requests[i].id)
  }

  /** How many connections in the channel are on their way back from a client. */
  function CountReturning(internal: seq<Envelope>): nat {
    if internal == [] then 0
    else (if internal[0].Deliver? && internal[0].message.CheckIn? && internal[0].message.conn.checkedOutAt.Some?
          then 1 else 0) + CountReturning(internal[1..])
  }

  /** The stream ends: both receivers are dropped with all they hold, then the inner pool is dropped. */
  function Shutdown(s: Sys): Sys {
    var v := s.view.(cells := DropSenders(s.view.cells, IdsOf(s.checkouts)));
    s.(view := DropInnerPool(v),
       internal := [],
       checkouts := [],
       alive := false,
       orphaned := CountReturning(s.internal),
       inFlightAtStop := s.view.gauges.inFlight,
       reservedAtStop := |s.view.reservations|)
  }

  function Consume(cfg: Config, s: Sys, message: PoolMessage, races: bool): Sys {
    var p := OnMessage(cfg, s.view, message, s.now, races);
    s.(view := p.view, owed := p.owed)
  }

  predicate ConsumerReady(s: Sys) {
    s.alive && s.owed == Nothing
  }

  // ===== Runs =====

  function Next(cfg: Config, s: Sys, step: Step): Sys {
    match step
    case RequestCheckOut(allowed) => if s.handle then OnRequest(cfg, s, allowed) else s
    case Client(id, action) => if id < |s.view.cells| then OnClient(s, action, id) else s
    case CreateLoop(i, event) => if i < |s.tasks| then OnTask(s, event, i) else s
    case CleanupTick => Send(s, Deliver(CleanupReservations))
    case DropHandle =>
      if s.handle
      then Send(SetGauges(s, s.view.gauges.(pools := s.view.gauges.pools - 1)), Stop).(handle := false)
      else s
    case TakeInternal =>
      if !ConsumerReady(s) || s.internal == [] then s
      else
        var rest := s.(internal := s.internal[1..]);
        (match s.internal[0]
         case Deliver(message) => Consume(cfg, rest, message, false)
         case Stop => Shutdown(rest))
    case TakeCheckout(races) =>
      if !ConsumerReady(s) || s.checkouts == [] then s
      else Consume(cfg, s.(checkouts := s.checkouts[1..]), CheckOut(s.checkouts[0]), races)
    case CountOne => SetGauges(s, s.owed.CountOne(s.view.gauges)).(owed := s.owed.AfterOne())
    case Pass(time) => s.(now := s.now + time)
  }

  function RunFrom(cfg: Config, s: Sys, steps: seq<Step>): Sys
    decreases |steps|
  {
    if steps == [] then s else RunFrom(cfg, Next(cfg, s, steps[0]), steps[1..])
  }

  /** The state after any sequence of steps; the reachable states are exactly these. */
  function Run(cfg: Config, steps: seq<Step>): Sys {
    RunFrom(cfg, Start(cfg), steps)
  }

  /** Taking a message, and counting what the connection that it sent out may owe. */
  function HandleSteps(take: Step): seq<Step> {
    [take, CountOne, CountOne]
  }

  lemma {:induction false} RunConcat(cfg: Config, s: Sys, first: seq<Step>, second: seq<Step>)
    ensures RunFrom(cfg, s, first + second) == RunFrom(cfg, RunFrom(cfg, s, first), second)
    decreases |first|
  {
    if first == [] {
      assert first + second == second;
    } else {
      assert (first + second)[1..] == first[1..] + second;
      RunConcat(cfg, Next(cfg, s, first[0]), first[1..], second);
    }
  }

  lemma {:induction false} FirstStep(cfg: Config, s: Sys, step: Step, rest: seq<Step>)
    ensures RunFrom(cfg, s, [step] + rest) == RunFrom(cfg, Next(cfg, s, step), rest)
  {
    assert ([step] + rest)[1..] == rest;
  }

  /** Taking a message and counting what it owes does what processing it completely does. */
  lemma {:induction false} ConsumedMessage(cfg: Config, s: Sys, take: Step, rest: Sys, message: PoolMessage,
                                           races: bool)
    requires Next(cfg, s, take) == Consume(cfg, rest, message, races)
    ensures RunFrom(cfg, s, HandleSteps(take))
         == rest.(view := OnMessage(cfg, rest.view, message, rest.now, races).Completed(), owed := Nothing)
  {
    var s1 := Next(cfg, s, take);
    FirstStep(cfg, s, take, [CountOne, CountOne]);
    FirstStep(cfg, s1, CountOne, [CountOne]);
    FirstStep(cfg, Next(cfg, s1, CountOne), CountOne, []);
  }

  lemma {:induction false} TakenStop(cfg: Config, s: Sys)
    requires ConsumerReady(s) && s.internal != [] && s.internal[0].Stop?
    ensures RunFrom(cfg, s, HandleSteps(TakeInternal)) == Shutdown(s.(internal := s.internal[1..]))
  {
    var s1 := Next(cfg, s, TakeInternal);
    FirstStep(cfg, s, TakeInternal, [CountOne, CountOne]);
    FirstStep(cfg, s1, CountOne, [CountOne]);
    FirstStep(cfg, s1, CountOne, []);
  }

  lemma {:induction false} RunOneMore(cfg: Config, steps: seq<Step>, step: Step)
    ensures Run(cfg, steps + [step]) == Next(cfg, Run(cfg, steps), step)
  {
    RunConcat(cfg, Start(cfg), steps, [step]);
    FirstStep(cfg, Run(cfg, steps), step, []);
  }
}
