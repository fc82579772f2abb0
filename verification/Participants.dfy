/** Those who move a sub pool besides its handle and its consumer, as the objects that carry out their steps. */
module Participants {
  import opened Prelude
  import opened SubPool
  import opened System
  import opened Ledger
  import opened ManagedConnections
  import opened PoolInternals
  import opened CleanConnections
  import opened Answers
  import opened Shapes

  predicate BelongsTo(factory: ExtendedConnectionFactory, pool: PoolInternal) {
    && factory.sendBack == pool.internal && factory.executor == pool.executor
    && factory.instrumentation == pool.instrumentation
  }

  // ===== The cleanup ticker =====

  class CleanupTicker {
    const pool: PoolInternal

    constructor (pool: PoolInternal)
      ensures this.pool == pool
    {
      this.pool := pool;
    }

    /** Every tick sends one message; the ticker goes on as long as somebody listens. */
    method Tick(ghost s: Sys) returns (goesOn: bool)
      requires pool.Shows(s)
      modifies pool.internal
      ensures pool.Shows(Next(pool.consumer.pool.cfg, s, CleanupTick))
      ensures goesOn <==> s.alive
    {
      goesOn := pool.internal.TrySend(Deliver(CleanupReservations));
    }
  }

  // ===== Create loops =====

  class CreateLoopRunner {
    const pool: PoolInternal
    const factory: ExtendedConnectionFactory

    constructor (pool: PoolInternal, factory: ExtendedConnectionFactory)
      requires BelongsTo(factory, pool)
      ensures this.pool == pool && this.factory == factory
    {
      this.pool, this.factory := pool, factory;
    }

    /** The loop of this slot is the `i`-th of its sub pool, and is where the state machine says. */
    ghost predicate IsAt(s: Sys, i: nat)
      reads pool.Footprint()
    {
      && BelongsTo(factory, pool) && pool.Shows(s)
      && i < |s.tasks| && s.tasks[i].factory == Factory(factory.slot)
    }

    method Probe(i: nat, ghost s: Sys)
      requires IsAt(s, i) && s.tasks[i].Probing?
      modifies pool.internal, pool.executor
      ensures pool.Shows(Next(pool.consumer.pool.cfg, s, CreateLoop(i, System.Probe)))
    {
      factory.Probe(i);
    }

    /** An attempt ends; connections are numbered in the order in which they are made. */
    method AttemptEnds(i: nat, made: Option<Conn>, ghost s: Sys)
      requires IsAt(s, i) && s.tasks[i].Connecting?
      requires made.Some? ==> made.value == Conn(s.nextConn, false)
      modifies factory.Touches()
      ensures pool.Shows(Next(pool.consumer.pool.cfg, s,
                              CreateLoop(i, if made.Some? then ConnectSucceeds else ConnectFails)))
    {
      factory.AttemptEnds(i, made);
    }
  }

  // ===== Clients =====

  /** Between two states a client keeps the connection that it owns, and gets none without receiving it. */
  predicate KeepsItsOwn(cells: seq<Cell>, cells': seq<Cell>, id: nat) {
    && id < |cells| && id < |cells'|
    && (if cells[id].Held? then cells'[id] == cells[id] else !cells'[id].Held?)
  }

  lemma {:induction false} MessageKeepsTheirOwn(cfg: Config, v: View, message: PoolMessage, now: Instant, races: bool,
                                                id: nat)
    requires id < |v.cells|
    ensures KeepsItsOwn(v.cells, OnMessage(cfg, v, message, now, races).view.cells, id)
  {
  }

  /** Only its own steps change what a client owns. */
  lemma {:induction false} NextKeepsTheirOwn(cfg: Config, s: Sys, step: Step, id: nat)
    requires Shape(cfg, s) && id < |s.view.cells| && !(step.Client? && step.id == id)
    ensures KeepsItsOwn(s.view.cells, Next(cfg, s, step).view.cells, id)
  {
    match step
    case TakeInternal =>
      if ConsumerReady(s) && s.internal != [] && s.internal[0].Deliver? {
        MessageKeepsTheirOwn(cfg, s.view, s.internal[0].message, s.now, false, id);
      }
    case TakeCheckout(races) =>
      if ConsumerReady(s) && s.checkouts != [] {
        MessageKeepsTheirOwn(cfg, s.view, CheckOut(s.checkouts[0]), s.now, races, id);
      }
    case Client(other, action) =>
      if other < |s.view.cells| {
        assert s.view.cells[other] in s.view.cells;
        ClientMovesCells(s, action, other);
      }
    case _ =>
  }

  lemma {:induction false} RunKeepsTheirOwn(cfg: Config, s: Sys, steps: seq<Step>, id: nat)
    requires Shape(cfg, s) && id < |s.view.cells|
    requires forall step :: step in steps ==> !(step.Client? && step.id == id)
    ensures Shape(cfg, RunFrom(cfg, s, steps)) && KeepsItsOwn(s.view.cells, RunFrom(cfg, s, steps).view.cells, id)
    decreases |steps|
  {
    if steps != [] {
      NextKeepsTheirOwn(cfg, s, steps[0], id);
      NextKeepsShape(cfg, s, steps[0]);
      RunKeepsTheirOwn(cfg, Next(cfg, s, steps[0]), steps[1..], id);
    }
  }

  lemma {:induction false} OwnCellStays(cfg: Config, s: Sys, steps: seq<Step>, id: nat)
    requires Shape(cfg, s) && id < |s.view.cells|
    requires forall step :: step in steps ==> !(step.Client? && step.id == id)
    ensures var cells := RunFrom(cfg, s, steps).view.cells;
            KeepsItsOwn(s.view.cells, cells, id) && CellShape(cells[id])
  {
    RunKeepsTheirOwn(cfg, s, steps, id);
    assert RunFrom(cfg, s, steps).view.cells[id] in RunFrom(cfg, s, steps).view.cells;
  }

  /** The owner of one request: of its receiver first, and then of the connection that it received. */
  class PoolClient {
    const pool: PoolInternal
    const id: nat
    var conn: PoolConnection?
    var running: Option<Conn>

    constructor (pool: PoolInternal, id: nat)
      ensures this.pool == pool && this.id == id && conn == null && running == None
    {
      this.pool, this.id, conn, running := pool, id, null, None;
    }

    ghost function ConnObjects(): set<object>
      reads this, conn, if conn == null then {} else {conn.managed}
    {
      if conn == null then {} else {conn} + conn.managed.Touches()
    }

    /** The state machine knows what this client owns. */
    ghost predicate IsAt(s: Sys)
      reads this, pool.Footprint(), conn, if conn == null then {} else {conn.managed}
    {
      && pool.Shows(s) && id < |s.view.cells| && CellShape(s.view.cells[id])
      && if s.view.cells[id].Held? then
           && conn != null && conn.managed.factory != null && BelongsTo(conn.managed.factory, pool)
           && s.view.cells[id] == Held(conn.AsConn(), running)
         else conn == null
    }

    method SetCell(cell: Cell)
      requires id < |pool.oneshots.cells|
      modifies pool.oneshots
      ensures pool.oneshots.cells == old(pool.oneshots.cells)[id := cell]
    {
      pool.oneshots.cells := pool.oneshots.cells[id := cell];
    }

    /** The connection that was delivered, as the object that the client gets. */
    method Unpack(delivered: Managed) returns (managed: OwnedManaged)
      requires delivered.factory.Some?
      ensures fresh(managed) && managed.factory != null && fresh(managed.factory)
      ensures BelongsTo(managed.factory, pool) && managed.AsManaged() == delivered
    {
      var factory := new ExtendedConnectionFactory(delivered.factory.value.slot, pool.internal,
                                                   pool.instrumentation, pool.executor);
      managed := new OwnedManaged(delivered.checkedOutAt, delivered.value, factory);
    }

    method Receive(ghost s: Sys)
      requires IsAt(s) && s.view.cells[id].Delivered?
      modifies this, pool.oneshots
      ensures IsAt(Next(pool.consumer.pool.cfg, s, Client(id, System.Receive)))
    {
      var delivered := pool.oneshots.cells[id].managed;
      var managed := Unpack(delivered);
      conn := new PoolConnection(managed);
      running := None;
      SetCell(Held(conn.AsConn(), None));
    }

    /** What dropping a connection that can be used again leaves, but for the cell of the request. */
    ghost predicate IsGivenBack(s: Sys, managed: Managed)
      reads pool.Footprint()
    {
      && pool.Wired() && pool.consumer.pool.Valid()
      && pool.consumer.pool.AsView() == s.view
      && pool.internal.queue == s.internal + (if s.alive then [Deliver(CheckIn(managed))] else [])
      && pool.internal.isOpen == s.alive
      && pool.checkouts.queue == s.checkouts && pool.checkouts.isOpen == s.alive
      && pool.executor.LoopsOf(pool.internal) == s.tasks
    }

    /** The client has nothing left, and the state machine knows. */
    method Finish(managed: Managed, action: Action, ghost s: Sys)
      requires id < |s.view.cells| && IsGivenBack(s, managed) && conn == null
      requires OnClient(s, action, id) == Release(s, id, managed) && Reusable(managed)
      modifies pool.oneshots
      ensures IsAt(Next(pool.consumer.pool.cfg, s, Client(id, action)))
    {
      SetCell(Finished);
    }

    method DropUnused(managed: OwnedManaged, ghost s: Sys)
      requires pool.Shows(s) && managed.factory != null && BelongsTo(managed.factory, pool)
      requires Reusable(managed.AsManaged())
      modifies managed, pool.internal, pool.instrumentation, pool.instrumentation.flavour, pool.executor
      ensures IsGivenBack(s, old(managed.AsManaged()))
    {
      managed.Drop();
    }

    /** Dropping the receiver drops what was delivered and not picked up. */
    method HangUp(ghost s: Sys)
      requires IsAt(s) && (s.view.cells[id].Waiting? || s.view.cells[id].Delivered?)
      modifies this, pool.Footprint()
      ensures IsAt(Next(pool.consumer.pool.cfg, s, Client(id, System.HangUp)))
    {
      if pool.oneshots.cells[id].Waiting? {
        SetCell(HungUp);
      } else {
        var delivered := pool.oneshots.cells[id].managed;
        var managed := Unpack(delivered);
        DropUnused(managed, s);
        Finish(delivered, System.HangUp, s);
      }
    }

    method BeginCommand(ghost s: Sys)
      requires IsAt(s) && s.view.cells[id].Held? && running.None?
      modifies this, conn, conn.managed, pool.oneshots
      ensures IsAt(Next(pool.consumer.pool.cfg, s, Client(id, System.BeginCommand)))
    {
      running := conn.ReqPackedCommand();
      SetCell(Held(conn.AsConn(), running));
    }

    method CommandSucceeds(ghost s: Sys)
      requires IsAt(s) && s.view.cells[id].Held? && running.Some?
      modifies this, conn, conn.managed, pool.oneshots
      ensures IsAt(Next(pool.consumer.pool.cfg, s, Client(id, System.CommandSucceeds)))
    {
      conn.CommandCompleted(running.value);
      running := None;
      SetCell(Held(conn.AsConn(), None));
    }

    /** What dropping a connection inside a command leaves, but for the cell of the request. */
    ghost predicate IsBroken(s: Sys)
      requires id < |s.view.cells| && s.view.cells[id].Held? && s.view.cells[id].conn.managed.factory.Some?
      reads pool.Footprint()
    {
      && pool.Wired() && pool.consumer.pool.Valid()
      && pool.consumer.pool.AsView()
         == s.view.(gauges := s.view.gauges.(connections := s.view.gauges.connections - 1,
                                             inFlight := s.view.gauges.inFlight - 1))
      && pool.internal.queue == s.internal && pool.internal.isOpen == s.alive
      && pool.checkouts.queue == s.checkouts && pool.checkouts.isOpen == s.alive
      && pool.executor.LoopsOf(pool.internal)
         == s.tasks + [Probing(s.view.cells[id].conn.managed.factory.value, 1)]
    }

    method DropBroken(ghost s: Sys)
      requires IsAt(s) && s.view.cells[id].Held? && running.Some?
      modifies conn, conn.managed.Touches()
      ensures IsBroken(s)
    {
      conn.Drop();
    }

    /** The command failed or was cancelled: its future drops the connection, which takes three steps. */
    method LoseCommand(ghost s: Sys)
      requires IsAt(s) && s.view.cells[id].Held? && running.Some?
      modifies this, ConnObjects(), pool.Footprint()
      ensures IsAt(RunFrom(pool.consumer.pool.cfg, s, BreakSteps(id)))
    {
      DropBroken(s);
      conn, running := null, None;
      BrokenDrop(pool.consumer.pool.cfg, s, id);
      SetCell(Finished);
    }

    method DropWhole(ghost s: Sys)
      requires IsAt(s) && s.view.cells[id].Held? && running.None?
      modifies conn, conn.managed.Touches()
      ensures IsGivenBack(s, s.view.cells[id].conn.managed)
    {
      conn.Drop();
    }

    /** The client is done with its connection, which goes back to the pool or is closed. */
    method DropConnection(ghost s: Sys)
      requires IsAt(s) && s.view.cells[id].Held? && running.None?
      modifies this, ConnObjects(), pool.Footprint()
      ensures IsAt(Next(pool.consumer.pool.cfg, s, Client(id, System.DropConnection)))
    {
      DropWhole(s);
      conn := null;
      Finish(pool.oneshots.cells[id].conn.managed, System.DropConnection, s);
    }

    /**
     Whatever steps others take, this client is where the state machine says afterwards, if nobody touched the objects
     that it owns.
     */
    twostate lemma {:induction false} StaysAt(s: Sys, steps: seq<Step>)
      requires old(IsAt(s)) && Shape(pool.consumer.pool.cfg, s)
      requires forall step :: step in steps ==> !(step.Client? && step.id == id)
      requires pool.Shows(RunFrom(pool.consumer.pool.cfg, s, steps))
      requires unchanged(this) && (conn != null ==> unchanged(conn) && unchanged(conn.managed))
      ensures IsAt(RunFrom(pool.consumer.pool.cfg, s, steps))
    {
      OwnCellStays(pool.consumer.pool.cfg, s, steps, id);
    }
  }
}
