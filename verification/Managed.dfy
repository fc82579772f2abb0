/** Managed connections, their factories and the channel they return through, as the objects they are. */
module ManagedConnections {
  import opened Prelude
  import opened SubPool
  import opened System
  import opened Instrumentation
  import opened Ledger

  /** The unbounded channel to the inner pool; it is closed once the receiver is gone. */
  class InternalChannel {
    var queue: seq<Envelope>
    var isOpen: bool

    constructor ()
      ensures queue == [] && isOpen
    {
      queue, isOpen := [], true;
    }

    method TrySend(envelope: Envelope) returns (sent: bool)
      modifies this
      ensures sent == isOpen == old(isOpen)
      ensures queue == if sent then old(queue) + [envelope] else old(queue)
    {
      sent := isOpen;
      if sent {
        queue := queue + [envelope];
      }
    }
  }

  /** Where create loops are spawned and run, by the channel that they probe. */
  class Executor {
    var tasks: map<InternalChannel, seq<Task>>

    constructor ()
      ensures tasks == map[]
    {
      tasks := map[];
    }

    function LoopsOf(channel: InternalChannel): seq<Task>
      reads this
    {
      if channel in tasks then tasks[channel] else []
    }

    function OtherLoops(channel: InternalChannel): map<InternalChannel, seq<Task>>
      reads this
    {
      tasks - {channel}
    }

    method SetLoops(channel: InternalChannel, loops: seq<Task>)
      modifies this
      ensures LoopsOf(channel) == loops && OtherLoops(channel) == old(OtherLoops(channel))
    {
      tasks := tasks[channel := loops];
    }
  }

  /** Makes connections for one slot and knows the way back to the pool. */
  class ExtendedConnectionFactory {
    const slot: nat
    const sendBack: InternalChannel
    const instrumentation: PoolInstrumentation
    const executor: Executor

    constructor (slot: nat, sendBack: InternalChannel, instrumentation: PoolInstrumentation, executor: Executor)
      ensures this.slot == slot && this.sendBack == sendBack
      ensures this.instrumentation == instrumentation && this.executor == executor
    {
      this.slot, this.sendBack, this.instrumentation, this.executor := slot, sendBack, instrumentation, executor;
    }

    ghost function Touches(): set<object> {
      {sendBack, instrumentation, instrumentation.flavour, executor}
    }

    /** Start a create loop that is about to probe the channel for its first attempt. */
    method CreateConnection()
      modifies executor
      ensures executor.LoopsOf(sendBack) == old(executor.LoopsOf(sendBack)) + [Probing(Factory(slot), 1)]
      ensures executor.OtherLoops(sendBack) == old(executor.OtherLoops(sendBack))
    {
      executor.SetLoops(sendBack, executor.LoopsOf(sendBack) + [Probing(Factory(slot), 1)]);
    }

    /** The first half of an iteration of loop `i`: probe the channel, and end if the pool is gone. */
    method Probe(i: nat)
      requires i < |executor.LoopsOf(sendBack)| && executor.LoopsOf(sendBack)[i].Probing?
      modifies sendBack, executor
      ensures sendBack.isOpen == old(sendBack.isOpen)
      ensures sendBack.queue == old(sendBack.queue) + if sendBack.isOpen then [Deliver(CheckAlive)] else []
      ensures var loops := old(executor.LoopsOf(sendBack));
              executor.LoopsOf(sendBack) == if sendBack.isOpen
                                            then loops[i := Connecting(loops[i].factory, loops[i].attempt)]
                                            else Without(loops, i)
      ensures executor.OtherLoops(sendBack) == old(executor.OtherLoops(sendBack))
    {
      var loops := executor.LoopsOf(sendBack);
      var sent := sendBack.TrySend(Deliver(CheckAlive));
      if sent {
        executor.SetLoops(sendBack, loops[i := Connecting(loops[i].factory, loops[i].attempt)]);
      } else {
        executor.SetLoops(sendBack, Without(loops, i));
      }
    }

    /** The second half: a new connection goes to the pool by being dropped, and a failure leads to the next attempt. */
    method AttemptEnds(i: nat, made: Option<Conn>)
      requires i < |executor.LoopsOf(sendBack)| && executor.LoopsOf(sendBack)[i].Connecting?
      requires executor.LoopsOf(sendBack)[i].factory == Factory(slot)
      modifies Touches()
      ensures sendBack.isOpen == old(sendBack.isOpen)
      ensures sendBack.queue
           == old(sendBack.queue) + if made.Some? && sendBack.isOpen
                                    then [Deliver(CheckIn(Managed(None, made, Some(Factory(slot)))))] else []
      ensures var loops := old(executor.LoopsOf(sendBack));
              executor.LoopsOf(sendBack) == if made.Some? then Without(loops, i)
                                            else loops[i := Probing(Factory(slot), loops[i].attempt + 1)]
      ensures executor.OtherLoops(sendBack) == old(executor.OtherLoops(sendBack))
      ensures instrumentation.State() == old(instrumentation.State())
      ensures instrumentation.Others() == old(instrumentation.Others())
    {
      var loops := executor.LoopsOf(sendBack);
      match made
      case Some(_) =>
        executor.SetLoops(sendBack, Without(loops, i));
        var managed := new OwnedManaged(None, made, this);
        managed.Drop();
      case None =>
        executor.SetLoops(sendBack, loops[i := Probing(Factory(slot), loops[i].attempt + 1)]);
    }
  }

  /** What an effect of a drop sends, spawns and counts out. */
  function SentBy(effect: DropEffect): seq<Envelope> {
    if effect.Returns? then [Deliver(CheckIn(effect.managed))] else []
  }

  function SpawnedBy(effect: DropEffect): seq<Task> {
    if effect.Breaks? then [Probing(effect.factory, 1)] else []
  }

  function CountedBy(effect: DropEffect): PoolState {
    if effect.Breaks?
    then ZERO_STATE.(connections := -1, inFlight := if effect.wasCheckedOut then -1 else 0)
    else ZERO_STATE
  }

  /** How many more drops a drop may cause. */
  function DropRank(managed: Managed): nat {
    if managed.factory.None? then 0 else 2
  }

  class OwnedManaged {
    var checkedOutAt: Option<Instant>
    var value: Option<Conn>
    var factory: ExtendedConnectionFactory?

    constructor (checkedOutAt: Option<Instant>, value: Option<Conn>, factory: ExtendedConnectionFactory?)
      ensures this.checkedOutAt == checkedOutAt && this.value == value && this.factory == factory
    {
      this.checkedOutAt, this.value, this.factory := checkedOutAt, value, factory;
    }

    function AsManaged(): Managed
      reads this
    {
      Managed(checkedOutAt, value, if factory == null then None else Some(Factory(factory.slot)))
    }

    ghost function Touches(): set<object>
      reads this
    {
      {this} + if factory == null then {} else factory.Touches()
    }

    /**
     Dropping has exactly the one effect that the value, the factory and the channel ask for, and leaves an orphan.
     It terminates because what it drops in turn is an orphan.
     */
    method Drop()
      modifies Touches()
      ensures factory == null && value == None
      ensures old(factory) != null ==>
                var f := old(factory);
                var effect := EffectOfDrop(old(AsManaged()), old(f.sendBack.isOpen));
                && f.sendBack.queue == old(f.sendBack.queue) + SentBy(effect)
                && f.sendBack.isOpen == old(f.sendBack.isOpen)
                && f.executor.LoopsOf(f.sendBack) == old(f.executor.LoopsOf(f.sendBack)) + SpawnedBy(effect)
                && f.executor.OtherLoops(f.sendBack) == old(f.executor.OtherLoops(f.sendBack))
                && f.instrumentation.State() == old(f.instrumentation.State()).Plus(CountedBy(effect))
                && f.instrumentation.Others() == old(f.instrumentation.Others())
      decreases DropRank(AsManaged())
    {
      if factory == null {
        value := None;
        return;
      }
      var f := factory;
      factory := null;
      if value.Some? {
        var conn := new OwnedManaged(checkedOutAt, value, f);
        value := None;
        var sent := f.sendBack.TrySend(Deliver(CheckIn(conn.AsManaged())));
        if !sent {
          conn.DropOrphanized();
        }
      } else {
        f.instrumentation.Record(ConnectionDropped);
        if checkedOutAt.Some? {
          f.instrumentation.Record(InFlightDec);
        }
        f.CreateConnection();
      }
    }

    /** Drop without coming back: the connection is closed and no new one is made. */
    method DropOrphanized()
      modifies this
      ensures factory == null && value == None
      decreases 1
    {
      factory := null;
      value := None;
      Drop();
    }
  }

  // ===== Dropping many =====

  /** What drops can change. */
  datatype Surroundings = Surroundings(isOpen: bool, queue: seq<Envelope>, tasks: seq<Task>, gauges: PoolState)

  ghost function Around(channel: InternalChannel, executor: Executor,
                        instrumentation: PoolInstrumentation): Surroundings
    reads channel, executor, instrumentation
  {
    Surroundings(channel.isOpen, channel.queue, executor.LoopsOf(channel), instrumentation.State())
  }

  function AfterDrop(around: Surroundings, managed: Managed): Surroundings {
    var effect := EffectOfDrop(managed, around.isOpen);
    Surroundings(around.isOpen, around.queue + SentBy(effect), around.tasks + SpawnedBy(effect),
                 around.gauges.Plus(CountedBy(effect)))
  }

  function AfterDrops(around: Surroundings, managed: seq<Managed>): Surroundings
    decreases |managed|
  {
    if managed == [] then around else AfterDrops(AfterDrop(around, managed[0]), managed[1..])
  }

  /** Dropping one connection of a given pool, orphan or not. */
  method DropOne(one: OwnedManaged, channel: InternalChannel, executor: Executor, instrumentation: PoolInstrumentation)
    requires one.factory != null ==>
               one.factory.sendBack == channel && one.factory.executor == executor
               && one.factory.instrumentation == instrumentation
    modifies one, channel, executor, instrumentation, instrumentation.flavour
    ensures one.factory == null
    ensures Around(channel, executor, instrumentation)
         == AfterDrop(old(Around(channel, executor, instrumentation)), old(one.AsManaged()))
  {
    one.Drop();
  }

  /** Drop all of them, one after the other. */
  method DropEach(all: seq<OwnedManaged>, ghost values: seq<Managed>,
                  channel: InternalChannel, executor: Executor, instrumentation: PoolInstrumentation)
    requires forall i, j :: 0 <= i < j < |all| ==> all[i] != all[j]
    requires |values| == |all| && forall i :: 0 <= i < |all| ==> all[i].AsManaged() == values[i]
    requires forall i :: 0 <= i < |all| && all[i].factory != null ==>
               && all[i].factory.sendBack == channel && all[i].factory.executor == executor
               && all[i].factory.instrumentation == instrumentation
    modifies all, channel, executor, instrumentation, instrumentation.flavour
    ensures Around(channel, executor, instrumentation)
         == AfterDrops(old(Around(channel, executor, instrumentation)), values)
    decreases |all|
  {
    if all != [] {
      DropOne(all[0], channel, executor, instrumentation);
      DropEach(all[1..], values[1..], channel, executor, instrumentation);
    }
  }

  function CountOwners(managed: seq<Managed>): nat {
    if managed == [] then 0 else One(managed[0].factory.Some?) + CountOwners(managed[1..])
  }

  function CountOrphaned(managed: seq<Managed>, isOpen: bool): nat {
    if managed == [] then 0 else One(EffectOfDrop(managed[0], isOpen).Orphaned?) + CountOrphaned(managed[1..], isOpen)
  }

  /**
   Each owner of a slot that is dropped ends in exactly one message, one closed connection or one create loop, and
   orphans end in nothing. While the channel is open no slot is lost, and every create loop replaces one connection
   that was counted out; once it is closed nothing is sent.
   */
  lemma {:induction false} EveryOwnerHasOneEffect(around: Surroundings, managed: seq<Managed>)
    ensures var after := AfterDrops(around, managed);
            && after.isOpen == around.isOpen
            && (|after.queue| - |around.queue|) + (|after.tasks| - |around.tasks|)
               + CountOrphaned(managed, around.isOpen) == CountOwners(managed)
            && around.gauges.connections - after.gauges.connections == |after.tasks| - |around.tasks|
            && (around.isOpen ==> CountOrphaned(managed, true) == 0)
            && (!around.isOpen ==> after.queue == around.queue)
    decreases |managed|
  {
    if managed != [] {
      EveryOwnerHasOneEffect(AfterDrop(around, managed[0]), managed[1..]);
    }
  }

  // ===== Pooled connections =====

  class PoolConnection {
    var stateOk: bool
    const managed: OwnedManaged

    constructor (managed: OwnedManaged)
      ensures this.managed == managed && stateOk
    {
      this.managed, stateOk := managed, true;
    }

    function AsConn(): PoolConn
      reads this, managed
    {
      PoolConn(stateOk, managed.AsManaged())
    }

    /** Start a command: the connection moves into the future of the command, unless there is none. */
    method ReqPackedCommand() returns (running: Option<Conn>)
      modifies this, managed
      ensures old(managed.value).None? ==> running == None && AsConn() == old(AsConn())
      ensures old(managed.value).Some? ==>
                running == Some(old(managed.value).value.(dirty := true)) && AsConn() == StartCommand(old(AsConn()))
      ensures managed.factory == old(managed.factory)
    {
      running := None;
      if managed.value.Some? {
        running := Some(managed.value.value.(dirty := true));
        managed.value := None;
        stateOk := false;
      }
    }

    /** The future of the command completed with a reply. */
    method CommandCompleted(running: Conn)
      modifies this, managed
      ensures AsConn() == FinishCommand(old(AsConn()), running)
      ensures managed.factory == old(managed.factory)
    {
      managed.value := Some(running.(dirty := false));
      stateOk := true;
    }

    /** A connection whose state is not ok is given up, any other goes back to the pool. */
    method Drop()
      modifies this, managed.Touches()
      ensures managed.factory == null && managed.value == None
      ensures old(managed.factory) != null ==>
                var f := old(managed.factory);
                var effect := EffectOfDrop(ReleaseConn(old(AsConn())), old(f.sendBack.isOpen));
                && f.sendBack.queue == old(f.sendBack.queue) + SentBy(effect)
                && f.sendBack.isOpen == old(f.sendBack.isOpen)
                && f.executor.LoopsOf(f.sendBack) == old(f.executor.LoopsOf(f.sendBack)) + SpawnedBy(effect)
                && f.executor.OtherLoops(f.sendBack) == old(f.executor.OtherLoops(f.sendBack))
                && f.instrumentation.State() == old(f.instrumentation.State()).Plus(CountedBy(effect))
                && f.instrumentation.Others() == old(f.instrumentation.Others())
    {
      if !stateOk {
        managed.value := None;
      }
      managed.Drop();
    }
  }
}
