/** The handle of a sub pool and its consumer, as the objects that carry out the steps of the state machine. */
module PoolInternals {
  import opened Prelude
  import opened SubPool
  import opened System
  import opened Constraints
  import opened Instrumentation
  import opened InnerPools
  import opened ManagedConnections
  import Dispatch

  /** The bounded channel that checkout requests come through. */
  class CheckoutChannel {
    const size: nat
    var queue: seq<Request>
    var isOpen: bool

    constructor (size: nat)
      ensures this.size == size && queue == [] && isOpen
    {
      this.size, queue, isOpen := size, [], true;
    }

    /** What an attempt to send finds. */
    function Condition(): Dispatch.Channel
      reads this
    {
      if !isOpen then Dispatch.Gone else if |queue| >= size then Dispatch.Full else Dispatch.Accepts
    }

    method TrySend(request: Request) returns (r: Result<(), CheckoutErrorKind>)
      modifies this
      ensures isOpen == old(isOpen)
      ensures r == if !isOpen then Err(NoPool) else if |old(queue)| >= size then Err(CheckoutLimitReached) else Ok(())
      ensures queue == if r.Ok? then old(queue) + [request] else old(queue)
    {
      if !isOpen {
        return Err(NoPool);
      }
      if |queue| >= size {
        return Err(CheckoutLimitReached);
      }
      queue := queue + [request];
      return Ok(());
    }
  }

  /** What a caller gets from a checkout: the oneshot to wait for, or a deadline that has passed already. */
  datatype CheckoutFuture = Listening(id: nat, deadline: Option<Instant>) | Elapsed

  /** The consumer of both channels, which owns the inner pool. */
  class Consumer {
    const pool: InnerPool
    const internal: InternalChannel
    const checkouts: CheckoutChannel

    constructor (pool: InnerPool, internal: InternalChannel, checkouts: CheckoutChannel)
      ensures this.pool == pool && this.internal == internal && this.checkouts == checkouts
    {
      this.pool, this.internal, this.checkouts := pool, internal, checkouts;
    }

    ghost function Footprint(): set<object> {
      {pool, pool.idle, pool.instrumentation, pool.instrumentation.flavour, pool.oneshots, internal, checkouts}
    }

    /** The objects are what the state machine says they are. */
    ghost predicate Shows(s: Sys)
      reads Footprint()
    {
      && pool.Valid() && pool.AsView() == s.view
      && internal.queue == s.internal && internal.isOpen == s.alive
      && checkouts.queue == s.checkouts && checkouts.isOpen == s.alive
    }

    /**
     Handle the next message of the merged stream, which comes from either channel. The objects take the step of the
     state machine, and those that count a connection that was sent out.
     */
    method HandleNext(takeInternal: bool, races: bool, now: Instant, ghost s: Sys)
      requires Shows(s) && ConsumerReady(s) && now == s.now
      requires if takeInternal then internal.queue != [] else checkouts.queue != []
      modifies Footprint()
      ensures Shows(RunFrom(pool.cfg, s, HandleSteps(if takeInternal then TakeInternal else TakeCheckout(races))))
    {
      if takeInternal {
        var envelope := internal.queue[0];
        internal.queue := internal.queue[1..];
        match envelope
        case Deliver(message) =>
          pool.Process(message, now, false);
          ConsumedMessage(pool.cfg, s, TakeInternal, s.(internal := s.internal[1..]), message, false);
        case Stop =>
          EndStream();
          TakenStop(pool.cfg, s);
      } else {
        var request := checkouts.queue[0];
        checkouts.queue := checkouts.queue[1..];
        pool.Process(CheckOut(request), now, races);
        ConsumedMessage(pool.cfg, s, TakeCheckout(races), s.(checkouts := s.checkouts[1..]), CheckOut(request), races);
      }
    }

    /** Both receivers are dropped with whatever they hold, then the inner pool is. */
    method EndStream()
      requires pool.Valid()
      modifies Footprint()
      ensures pool.Valid() && pool.AsView()
           == DropInnerPool(old(pool.AsView()).(cells := DropSenders(old(pool.oneshots.cells),
                                                                     IdsOf(old(checkouts.queue)))))
      ensures internal.queue == [] && !internal.isOpen && checkouts.queue == [] && !checkouts.isOpen
    {
      internal.isOpen, checkouts.isOpen := false, false;
      internal.queue := [];
      pool.oneshots.DropAll(IdsOf(checkouts.queue));
      checkouts.queue := [];
      pool.Drop();
    }
  }

  /** Build the channels and the inner pool. */
  method StartConsumer(cfg: Config, instrumentation: PoolInstrumentation) returns (consumer: Consumer)
    ensures consumer.pool.cfg == cfg && consumer.pool.instrumentation == instrumentation
    ensures consumer.checkouts.size == cfg.checkoutQueueSize
    ensures fresh(consumer) && fresh(consumer.internal) && fresh(consumer.checkouts)
    ensures fresh(consumer.pool) && fresh(consumer.pool.idle) && fresh(consumer.pool.oneshots)
    ensures consumer.pool.Valid() && consumer.pool.AsView() == View([], [], 0, instrumentation.State(), [])
    ensures consumer.internal.queue == [] && consumer.internal.isOpen
    ensures consumer.checkouts.queue == [] && consumer.checkouts.isOpen
  {
    var internal := new InternalChannel();
    var checkouts := new CheckoutChannel(cfg.checkoutQueueSize);
    var oneshots := new Oneshots();
    var pool := new InnerPool(cfg, instrumentation, oneshots, 0);
    consumer := new Consumer(pool, internal, checkouts);
  }

  /** Count a sub pool that has counted nothing yet. */
  method AddPool(instrumentation: PoolInstrumentation)
    requires instrumentation.State() == ZERO_STATE
    modifies instrumentation, instrumentation.flavour
    ensures instrumentation.State() == ZERO_STATE.(pools := 1)
    ensures instrumentation.Others() == old(instrumentation.Others())
  {
    instrumentation.Record(PoolAdded);
  }

  /** Start one create loop for each slot. */
  method StartLoops(n: nat, channel: InternalChannel, instrumentation: PoolInstrumentation, executor: Executor)
    modifies executor
    ensures executor.LoopsOf(channel) == old(executor.LoopsOf(channel)) + FirstTasks(n)
    ensures executor.OtherLoops(channel) == old(executor.OtherLoops(channel))
  {
    for i := 0 to n
      invariant executor.LoopsOf(channel) == old(executor.LoopsOf(channel)) + FirstTasks(i)
      invariant executor.OtherLoops(channel) == old(executor.OtherLoops(channel))
    {
      var factory := new ExtendedConnectionFactory(i, channel, instrumentation, executor);
      factory.CreateConnection();
    }
  }

  /** The handle that checkouts go through and whose drop stops the pool. */
  class PoolInternal {
    const internal: InternalChannel
    const checkouts: CheckoutChannel
    const oneshots: Oneshots
    const instrumentation: PoolInstrumentation
    const executor: Executor
    const consumer: Consumer

    ghost function Footprint(): set<object> {
      consumer.Footprint() + {executor}
    }

    /** The handle, the consumer and the clients mean the same channels, gauges and oneshots. */
    ghost predicate Wired() {
      && consumer.internal == internal && consumer.checkouts == checkouts
      && consumer.pool.oneshots == oneshots && consumer.pool.instrumentation == instrumentation
      && checkouts.size == consumer.pool.cfg.checkoutQueueSize
    }

    /** All objects of the sub pool are what the state machine says. */
    ghost predicate Shows(s: Sys)
      reads Footprint()
    {
      Wired() && consumer.Shows(s) && executor.LoopsOf(internal) == s.tasks
    }

    /** Build the channels and the inner pool, and start the create loops, on an executor that may run others. */
    constructor (cfg: Config, instrumentation: PoolInstrumentation, executor: Executor)
      requires instrumentation.State() == ZERO_STATE
      modifies instrumentation, instrumentation.flavour, executor
      ensures this.instrumentation == instrumentation && this.executor == executor
      ensures consumer.pool.cfg == cfg && fresh(internal)
      ensures Shows(Start(cfg))
      ensures executor.OtherLoops(internal) == old(executor.tasks)
      ensures instrumentation.Others() == old(instrumentation.Others())
    {
      var built := StartConsumer(cfg, instrumentation);
      assert built.internal !in executor.tasks;
      StartLoops(cfg.desiredPoolSize, built.internal, instrumentation, executor);
      AddPool(instrumentation);
      consumer := built;
      internal, checkouts, oneshots := built.internal, built.checkouts, built.pool.oneshots;
      this.instrumentation, this.executor := instrumentation, executor;
    }

    /**
     Ask for a connection. A deadline that has passed is noticed before anything else; otherwise the request gets a
     oneshot and goes to the channel, as the state machine says, and an error means it is not in the channel. To a
     dispatcher this is one attempt at a channel in the condition that this one is in.
     */
    method CheckOut2(constraint: CheckoutConstraint, now: Instant, ghost s: Sys)
      returns (r: Result<CheckoutFuture, CheckoutErrorKind>)
      requires Shows(s) && s.handle
      modifies oneshots, checkouts
      ensures var (deadline, allowed) := DeadlineAndReservationAllowed(constraint);
              if IsDeadlineElapsed(constraint, now) then r == Ok(Elapsed) && Shows(s)
              else
                var s' := Next(consumer.pool.cfg, s, RequestCheckOut(allowed));
                var id := |s.view.cells|;
                && Shows(s')
                && r == if s'.view.cells[id].Refused? then Err(s'.view.cells[id].kind) else Ok(Listening(id, deadline))
      ensures match Dispatch.CheckOut2(constraint, old(checkouts.Condition()), now)
              case Ok(AlreadyElapsed) => r == Ok(Elapsed)
              case Ok(InChannel(allowed)) => r.Ok? && r.value.Listening? && checkouts.queue[|checkouts.queue| - 1]
                                                                             == Request(r.value.id, allowed)
              case Err(kind) => r == Err(kind)
      ensures r == Ok(Elapsed) <==> constraint.Until? && constraint.deadline < now
      ensures r.Ok? && r.value.Listening? ==>
                && r.value.deadline == (if constraint.Until? then Some(constraint.deadline) else None)
                && checkouts.queue == old(checkouts.queue) + [Request(r.value.id, constraint != Immediately)]
    {
      if IsDeadlineElapsed(constraint, now) {
        return Ok(Elapsed);
      }
      var (deadline, allowed) := DeadlineAndReservationAllowed(constraint);
      var id := |oneshots.cells|;
      var sent := checkouts.TrySend(Request(id, allowed));
      match sent
      case Ok(_) =>
        oneshots.cells := oneshots.cells + [Waiting];
        r := Ok(Listening(id, deadline));
      case Err(kind) =>
        oneshots.cells := oneshots.cells + [Refused(kind)];
        r := Err(kind);
    }

    /**
     Ask for a connection in a checkout mode, at time `now`; the attempt is made `later`. The future that is handed out
     waits until the deadline that the mode or the default of the pool stands for.
     */
    method CheckOut(mode: CheckoutMode, default: DefaultPoolCheckoutMode, now: Instant, later: Instant, ghost s: Sys)
      returns (r: Result<CheckoutFuture, CheckoutErrorKind>)
      requires Shows(s) && s.handle
      modifies oneshots, checkouts
      ensures r == Ok(Elapsed) <==>
              || (mode.ModeUntil? && mode.deadline < later)
              || (mode.PoolDefault? && default.WaitAtMost? && now + default.duration < later)
      ensures r.Ok? && r.value.Listening? ==>
                var waits := if mode.PoolDefault? then !default.DefaultImmediately? else !mode.ModeImmediately?;
                && checkouts.queue == old(checkouts.queue) + [Request(r.value.id, waits)]
                && (mode.ModeUntil? ==> r.value.deadline == Some(mode.deadline))
                && (mode.PoolDefault? && default.WaitAtMost? ==> r.value.deadline == Some(now + default.duration))
                && (mode.ModeImmediately? || mode.ModeWait? ==> r.value.deadline == None)
                && (mode.PoolDefault? && !default.WaitAtMost? ==> r.value.deadline == None)
    {
      r := CheckOut2(FromModeAndDefault(mode, default, now), later, s);
    }

    /** Tell the consumer to stop, whether it still listens or not. */
    method Drop(ghost s: Sys)
      requires Shows(s) && s.handle
      modifies internal, instrumentation, instrumentation.flavour
      ensures Shows(Next(consumer.pool.cfg, s, DropHandle))
      ensures instrumentation.Others() == old(instrumentation.Others())
    {
      var sent := internal.TrySend(Stop);
      instrumentation.Record(PoolRemoved);
    }
  }
}
