/** What clients do with their requests and connections, in every reachable state, and where connections go then. */
module Returns {
  import opened Prelude
  import opened SubPool
  import opened System
  import opened Ledger
  import opened Conservation
  import opened Ticks

  // ===== Single steps =====

  predicate IsAt(s: Sys, id: nat, cell: Cell) {
    id < |s.view.cells| && s.view.cells[id] == cell
  }

  /** A connection that was delivered is owned, with its state ok; a receiver that is dropped before leaves for good. */
  lemma {:induction false} ReceiversReceiveOrLeave(cfg: Config, steps: seq<Step>, id: nat, m: Managed)
    ensures var s := Run(cfg, steps);
            && (IsAt(s, id, Delivered(m)) ==>
                  Run(cfg, steps + [Client(id, Receive)])
                  == s.(view := s.view.(cells := s.view.cells[id := Held(PoolConn(true, m), None)])))
            && (IsAt(s, id, Waiting) ==>
                  Run(cfg, steps + [Client(id, HangUp)]) == s.(view := s.view.(cells := s.view.cells[id := HungUp])))
  {
    RunOneMore(cfg, steps, Client(id, Receive));
    RunOneMore(cfg, steps, Client(id, HangUp));
  }

  /** A command takes the connection out of the client's hands, dirty, and a reply gives it back, clean. */
  lemma {:induction false} CommandsTakeAndGiveBack(cfg: Config, steps: seq<Step>, id: nat,
                                                   conn: PoolConn, running: Conn)
    ensures var s := Run(cfg, steps);
            && (IsAt(s, id, Held(conn, None)) && conn.managed.value == Some(running) ==>
                  Run(cfg, steps + [Client(id, BeginCommand)])
                  == s.(view := s.view.(
                          cells := s.view.cells[id := Held(PoolConn(false, conn.managed.(value := None)),
                                                           Some(running.(dirty := true)))])))
            && (IsAt(s, id, Held(conn, Some(running))) ==>
                  Run(cfg, steps + [Client(id, CommandSucceeds)])
                  == s.(view := s.view.(
                          cells := s.view.cells[id := Held(PoolConn(true, conn.managed.(value :=
                                                             Some(Conn(running.id, false)))), None)])))
  {
    RunOneMore(cfg, steps, Client(id, BeginCommand));
    RunOneMore(cfg, steps, Client(id, CommandSucceeds));
  }

  /** A command that gets its reply leaves no trace. */
  lemma {:induction false} CommandsLeaveNoTrace(cfg: Config, steps: seq<Step>, id: nat)
    requires cfg.Valid() && id < |Run(cfg, steps).view.cells|
    requires Run(cfg, steps).view.cells[id].Held? && Run(cfg, steps).view.cells[id].running.None?
    ensures Run(cfg, steps + [Client(id, BeginCommand)] + [Client(id, CommandSucceeds)]) == Run(cfg, steps)
  {
    var s := Run(cfg, steps);
    var begun := steps + [Client(id, BeginCommand)];
    HeldIsFit(cfg, steps, id);
    var conn := s.view.cells[id].conn;
    CommandsTakeAndGiveBack(cfg, steps, id, conn, conn.managed.value.value);
    var taken := PoolConn(false, conn.managed.(value := None));
    CommandsTakeAndGiveBack(cfg, begun, id, taken, conn.managed.value.value.(dirty := true));
    assert s.view.cells[id := Held(taken, Some(conn.managed.value.value.(dirty := true)))][id := s.view.cells[id]]
        == s.view.cells;
  }

  lemma {:induction false} HeldIsFit(cfg: Config, steps: seq<Step>, id: nat)
    requires cfg.Valid() && id < |Run(cfg, steps).view.cells|
    requires Run(cfg, steps).view.cells[id].Held? && Run(cfg, steps).view.cells[id].running.None?
    ensures var conn := Run(cfg, steps).view.cells[id].conn;
            conn.stateOk && Reusable(conn.managed) && conn.managed.checkedOutAt.Some?
  {
    EveryRunKeepsInv(cfg, steps);
    assert Run(cfg, steps).view.cells[id] in Run(cfg, steps).view.cells;
  }

  lemma {:induction false} DeliveredIsFit(cfg: Config, steps: seq<Step>, id: nat)
    requires cfg.Valid() && id < |Run(cfg, steps).view.cells| && Run(cfg, steps).view.cells[id].Delivered?
    ensures Reusable(Run(cfg, steps).view.cells[id].managed)
    ensures Run(cfg, steps).view.cells[id].managed.checkedOutAt.Some?
  {
    EveryRunKeepsInv(cfg, steps);
    assert Run(cfg, steps).view.cells[id] in Run(cfg, steps).view.cells;
  }

  /**
   A healthy connection that its client drops is sent to the pool as it is, with its raw connection, its slot and the
   time at which it was checked out, or closed if the pool is gone. The client has nothing left and nothing else
   changes.
   */
  lemma {:induction false} DroppedConnectionReturns(cfg: Config, steps: seq<Step>, id: nat)
    requires cfg.Valid() && id < |Run(cfg, steps).view.cells|
    requires Run(cfg, steps).view.cells[id].Held? && Run(cfg, steps).view.cells[id].running.None?
    ensures var s := Run(cfg, steps);
            var m := s.view.cells[id].conn.managed;
            && m.value.Some? && m.factory.Some? && m.checkedOutAt.Some?
            && Run(cfg, steps + [Client(id, DropConnection)])
               == (if s.alive
                   then s.(internal := s.internal + [Deliver(CheckIn(m))],
                           view := s.view.(cells := s.view.cells[id := Finished]))
                   else s.(orphaned := s.orphaned + 1, view := s.view.(cells := s.view.cells[id := Finished])))
  {
    HeldIsFit(cfg, steps, id);
    RunOneMore(cfg, steps, Client(id, DropConnection));
  }

  /** A connection that was delivered and never received returns in the same way. */
  lemma {:induction false} UnreceivedConnectionReturns(cfg: Config, steps: seq<Step>, id: nat)
    requires cfg.Valid() && id < |Run(cfg, steps).view.cells| && Run(cfg, steps).view.cells[id].Delivered?
    ensures var s := Run(cfg, steps);
            var m := s.view.cells[id].managed;
            && m.value.Some? && m.factory.Some? && m.checkedOutAt.Some?
            && Run(cfg, steps + [Client(id, HangUp)])
               == (if s.alive
                   then s.(internal := s.internal + [Deliver(CheckIn(m))],
                           view := s.view.(cells := s.view.cells[id := Finished]))
                   else s.(orphaned := s.orphaned + 1, view := s.view.(cells := s.view.cells[id := Finished])))
  {
    DeliveredIsFit(cfg, steps, id);
    RunOneMore(cfg, steps, Client(id, HangUp));
  }

  /** What can be done with a request in each situation. */
  predicate IsPossible(action: Action, cell: Cell) {
    match cell
    case Waiting => action.HangUp?
    case Delivered(_) => action.Receive? || action.HangUp?
    case Held(_, None) => action.BeginCommand? || action.DropConnection?
    case Held(_, Some(_)) => action.CommandSucceeds? || action.CommandIsLost?
    case Uncounted(_) => action.CountOut?
    case Unspawned(_) => action.SpawnCreateLoop?
    case _ => false
  }

  /** The step changes the situation of the request if it is possible, and nothing otherwise. */
  predicate ChangesIfPossible(s: Sys, s': Sys, action: Action, id: nat)
    requires id < |s.view.cells|
  {
    if IsPossible(action, s.view.cells[id])
    then |s'.view.cells| == |s.view.cells| && s'.view.cells[id] != s.view.cells[id]
    else s' == s
  }

  lemma {:induction false} ReleaseEndsOwning(s: Sys, id: nat, managed: Managed)
    requires id < |s.view.cells|
    ensures var cells := Release(s, id, managed).view.cells;
            |cells| == |s.view.cells| && !cells[id].Held? && !cells[id].Delivered?
  {
  }

  lemma {:induction false} RestingIsPossible(s: Sys, action: Action, id: nat)
    requires id < |s.view.cells| && CellShape(s.view.cells[id])
    requires s.view.cells[id].Held? && s.view.cells[id].running.None?
    ensures ChangesIfPossible(s, OnClient(s, action, id), action, id)
  {
    if action.DropConnection? {
      ReleaseEndsOwning(s, id, ReleaseConn(s.view.cells[id].conn));
    }
  }

  lemma {:induction false} RunningIsPossible(s: Sys, action: Action, id: nat)
    requires id < |s.view.cells| && CellShape(s.view.cells[id])
    requires s.view.cells[id].Held? && s.view.cells[id].running.Some?
    ensures ChangesIfPossible(s, OnClient(s, action, id), action, id)
  {
    if action.CommandIsLost? {
      var lost := s.(lost := s.lost + {s.view.cells[id].running.value.id});
      ReleaseEndsOwning(lost, id, ReleaseConn(s.view.cells[id].conn));
    }
  }

  lemma {:induction false} OthersArePossible(s: Sys, action: Action, id: nat)
    requires id < |s.view.cells| && !s.view.cells[id].Held?
    ensures ChangesIfPossible(s, OnClient(s, action, id), action, id)
  {
    if action.HangUp? && s.view.cells[id].Delivered? {
      ReleaseEndsOwning(s, id, s.view.cells[id].managed);
    }
  }

  /** Each of these changes the situation of the request, and everything else leaves the whole pool as it is. */
  lemma {:induction false} NothingElseIsPossible(cfg: Config, steps: seq<Step>, id: nat, action: Action)
    requires cfg.Valid() && id < |Run(cfg, steps).view.cells|
    ensures ChangesIfPossible(Run(cfg, steps), Run(cfg, steps + [Client(id, action)]), action, id)
  {
    var s := Run(cfg, steps);
    EveryRunKeepsInv(cfg, steps);
    RunOneMore(cfg, steps, Client(id, action));
    assert s.view.cells[id] in s.view.cells;
    match s.view.cells[id]
    case Held(_, None) => RestingIsPossible(s, action, id);
    case Held(_, Some(_)) => RunningIsPossible(s, action, id);
    case _ => OthersArePossible(s, action, id);
  }

  // ===== The way back =====

  predicate Carries(m: Managed, c: nat) {
    m.value.Some? && m.value.value.id == c
  }

  /** The raw connection is on its way to the pool. */
  predicate IsReturning(s: Sys, c: nat) {
    exists i :: 0 <= i < |s.internal|
      && s.internal[i].Deliver? && s.internal[i].message.CheckIn? && Carries(s.internal[i].message.conn, c)
  }

  predicate IsIdleAt(v: View, i: nat, c: nat) {
    i < |v.idle| && Carries(v.idle[i], c)
  }

  predicate IsDeliveredAt(v: View, id: nat, c: nat) {
    id < |v.cells| && v.cells[id].Delivered? && Carries(v.cells[id].managed, c)
  }

  /** The raw connection is idle, or sent to a client. */
  ghost predicate IsAvailable(v: View, c: nat) {
    (exists i :: IsIdleAt(v, i, c)) || (exists id :: IsDeliveredAt(v, id, c))
  }

  /** No internal message takes a connection away from where it is. */
  lemma {:induction false} MessagesKeepAvailable(cfg: Config, v: View, message: PoolMessage, now: Instant, c: nat)
    requires !message.CheckOut? && IsAvailable(v, c)
    ensures IsAvailable(OnMessage(cfg, v, message, now, false).Completed(), c)
  {
    var v' := OnMessage(cfg, v, message, now, false).Completed();
    if i :| IsIdleAt(v, i, c) {
      assert IsIdleAt(v', i, c);
    } else {
      var id :| IsDeliveredAt(v, id, c);
      assert IsDeliveredAt(v', id, c);
    }
  }

  /** A connection that comes in is idle, or sent to a client. */
  lemma {:induction false} CheckInMakesAvailable(cfg: Config, v: View, m: Managed, now: Instant, c: nat)
    requires Carries(m, c)
    ensures IsAvailable(OnMessage(cfg, v, CheckIn(m), now, false).Completed(), c)
  {
    var v' := OnMessage(cfg, v, CheckIn(m), now, false).Completed();
    var k := FirstOpen(v.cells, v.reservations);
    if k == |v.reservations| {
      assert IsIdleAt(v', |v.idle|, c);
    } else {
      assert IsDeliveredAt(v', v.reservations[k], c);
    }
  }

  /** The channel holds no stop and no checkout. */
  predicate OnlyMessages(internal: seq<Envelope>) {
    forall i :: 0 <= i < |internal| ==> internal[i].Deliver? && !internal[i].message.CheckOut?
  }

  lemma {:induction false} HandlingBringsNearer(cfg: Config, s: Sys, c: nat)
    requires ConsumerReady(s) && s.internal != [] && OnlyMessages(s.internal)
    requires IsReturning(s, c) || IsAvailable(s.view, c)
    ensures var s' := Handled(cfg, s);
            && ConsumerReady(s') && s'.internal == s.internal[1..] && OnlyMessages(s'.internal)
            && (IsReturning(s', c) || IsAvailable(s'.view, c))
  {
    var s' := Handled(cfg, s);
    if IsAvailable(s.view, c) {
      MessagesKeepAvailable(cfg, s.view, s.internal[0].message, s.now, c);
    } else {
      var i :| 0 <= i < |s.internal| && s.internal[i].message.CheckIn? && Carries(s.internal[i].message.conn, c);
      if i == 0 {
        CheckInMakesAvailable(cfg, s.view, s.internal[0].message.conn, s.now, c);
      } else {
        assert s'.internal[i - 1] == s.internal[i];
      }
    }
  }

  lemma {:induction false} DrainingMakesAvailable(cfg: Config, s: Sys, c: nat)
    requires ConsumerReady(s) && OnlyMessages(s.internal) && (IsReturning(s, c) || IsAvailable(s.view, c))
    ensures var s' := AllHandled(cfg, s, |s.internal|);
            s'.internal == [] && IsAvailable(s'.view, c)
    decreases |s.internal|
  {
    if s.internal != [] {
      HandlingBringsNearer(cfg, s, c);
      DrainingMakesAvailable(cfg, Handled(cfg, s), c);
    }
  }

  /**
   The way back, from every reachable state: once the internal channel is worked off, the very raw connection that a
   client has dropped is idle or delivered to another request, unless the pool was told to stop.
   */
  lemma {:induction false} ReturnedConnectionIsReused(cfg: Config, steps: seq<Step>, id: nat)
    requires cfg.Valid() && ConsumerReady(Run(cfg, steps)) && Run(cfg, steps).handle
    requires id < |Run(cfg, steps).view.cells|
    requires Run(cfg, steps).view.cells[id].Held? && Run(cfg, steps).view.cells[id].running.None?
    ensures var s := Run(cfg, steps);
            var value := s.view.cells[id].conn.managed.value;
            var s' := Run(cfg, steps + [Client(id, DropConnection)] + Drain(|s.internal| + 1));
            && value.Some? && s'.internal == [] && IsAvailable(s'.view, value.value.id)
  {
    var s := Run(cfg, steps);
    var dropped := steps + [Client(id, DropConnection)];
    var s1 := Run(cfg, dropped);
    var m := s.view.cells[id].conn.managed;
    DroppedConnectionReturns(cfg, steps, id);
    assert s1.internal[|s.internal|] == Deliver(CheckIn(m));
    assert IsReturning(s1, m.value.value.id);
    HandleMeansNoStop(cfg, dropped);
    DrainingMakesAvailable(cfg, s1, m.value.value.id);
    AllHandledIsRun(cfg, s1, |s1.internal|);
    RunConcat(cfg, Start(cfg), dropped, Drain(|s.internal| + 1));
  }

  lemma {:induction false} HandleMeansNoStop(cfg: Config, steps: seq<Step>)
    requires cfg.Valid() && Run(cfg, steps).handle
    ensures OnlyMessages(Run(cfg, steps).internal)
  {
    EveryRunKeepsInv(cfg, steps);
    var internal := Run(cfg, steps).internal;
    forall i | 0 <= i < |internal| ensures internal[i].Deliver? && !internal[i].message.CheckOut? {
      assert internal[i] in internal;
    }
  }
}
