/** What the cleanup ticker achieves in the end. */
module Ticks {
  import opened SubPool
  import opened System
  import opened Ledger
  import opened Conservation
  import opened Reservations
  import opened Fairness
  import opened Answers
  import opened Shapes

  /** Whoever is open afterwards was open before. */
  ghost predicate OnlyCloses(cells: seq<Cell>, cells': seq<Cell>) {
    forall id: nat :: Open(cells', id) ==> Open(cells, id)
  }

  lemma {:induction false} RetainedAgain(cells: seq<Cell>, cells': seq<Cell>, queue: seq<nat>)
    requires OnlyCloses(cells, cells')
    ensures Retained(cells', Retained(cells, queue)) == Retained(cells', queue)
  {
    if queue != [] {
      RetainedAgain(cells, cells', queue[1..]);
      if Open(cells, queue[0]) {
        assert Retained(cells, queue)[1..] == Retained(cells, queue[1..]);
      } else {
        assert Retained(cells, queue) == Retained(cells, queue[1..]);
      }
    }
  }

  lemma {:induction false} ClosedAreNotRetained(cells: seq<Cell>, queue: seq<nat>, n: nat)
    requires n <= |queue| && forall j :: 0 <= j < n ==> !Open(cells, queue[j])
    ensures Retained(cells, queue[n..]) == Retained(cells, queue)
  {
    if n == 0 {
      assert queue[0..] == queue;
    } else {
      ClosedAreNotRetained(cells, queue[1..], n - 1);
      assert queue[n..] == queue[1..][n - 1..];
    }
  }

  /**
   Of the reservations `queue` those are left that can still be answered; the closed ones among them are gone, too, if
   there was a cleanup after `last`.
   */
  predicate Filters(v: View, queue: seq<nat>, last: nat) {
    && Retained(v.cells, v.reservations) == Retained(v.cells, queue)
    && (v.lastCleanup <= last || v.reservations == Retained(v.cells, queue))
  }

  predicate NoneTwice(cells: seq<Cell>, queue: seq<nat>) {
    forall i, j :: 0 <= i < j < |queue| && Open(cells, queue[i]) ==> queue[i] != queue[j]
  }

  /** How many reservations a check in removes. */
  function Gone(v: View): (n: nat)
    ensures n <= |v.reservations|
  {
    var k := FirstOpen(v.cells, v.reservations);
    if k < |v.reservations| then k + 1 else k
  }

  lemma {:induction false} CheckInShortens(v: View, m: Managed, now: nat)
    ensures var v' := OnCheckIn(v, m, now).view;
            && v'.reservations == v.reservations[Gone(v)..] && v'.lastCleanup == v.lastCleanup
            && OnlyCloses(v.cells, v'.cells)
            && (forall j :: 0 <= j < Gone(v) ==> !Open(v'.cells, v.reservations[j]))
            && (forall j | Gone(v) <= j < |v.reservations| ::
                  Open(v.cells, v.reservations[j]) && v.reservations[j] != v.reservations[Gone(v) - 1]
                  ==> Open(v'.cells, v.reservations[j]))
  {
  }

  /** A queue without closed reservations has none afterwards. */
  lemma {:induction false} CheckInLeavesTheOpen(v: View, m: Managed, now: nat)
    requires forall j :: 0 <= j < |v.reservations| ==> Open(v.cells, v.reservations[j])
    requires NoneTwice(v.cells, v.reservations)
    ensures var v' := OnCheckIn(v, m, now).view;
            Retained(v'.cells, v'.reservations) == v'.reservations
  {
    var v' := OnCheckIn(v, m, now).view;
    CheckInShortens(v, m, now);
    if v.reservations != [] {
      assert Gone(v) == 1;
      forall i | 0 <= i < |v'.reservations| ensures Open(v'.cells, v'.reservations[i]) {
        assert v'.reservations[i] == v.reservations[i + 1];
      }
    }
    NothingToRemove(v'.cells, v'.reservations);
  }

  lemma {:induction false} CheckInFilters(v: View, m: Managed, now: nat, queue: seq<nat>, last: nat)
    requires Filters(v, queue, last) && NoneTwice(v.cells, v.reservations)
    ensures Filters(OnCheckIn(v, m, now).view, queue, last)
  {
    var v' := OnCheckIn(v, m, now).view;
    CheckInShortens(v, m, now);
    ClosedAreNotRetained(v'.cells, v.reservations, Gone(v));
    RetainedAgain(v.cells, v'.cells, v.reservations);
    RetainedAgain(v.cells, v'.cells, queue);
    if v.reservations == Retained(v.cells, queue) {
      RetainedAgain(v.cells, v.cells, queue);
      NothingToRemove(v.cells, v.reservations);
      CheckInLeavesTheOpen(v, m, now);
    }
  }

  lemma {:induction false} CleanupFilters(capacity: nat, v: View, now: nat, queue: seq<nat>, last: nat)
    requires Filters(v, queue, last) && now > last + CLEANUP_INTERVAL
    ensures var v' := OnCleanup(capacity, v, now);
            Filters(v', queue, last) && v'.reservations == Retained(v'.cells, queue)
  {
    RetainedAgain(v.cells, v.cells, queue);
    assert v.reservations == [] ==> Retained(v.cells, v.reservations) == [];
  }

  lemma {:induction false} InvNoneTwice(cfg: Config, s: Sys)
    requires Inv(cfg, s)
    ensures NoneTwice(s.view.cells, s.view.reservations)
  {
    forall i, j | 0 <= i < j < |s.view.reservations| && Open(s.view.cells, s.view.reservations[i])
      ensures s.view.reservations[i] != s.view.reservations[j]
    {
      if s.view.reservations[i] == s.view.reservations[j] {
        AtMostOneInQueue(cfg, s, s.view.reservations[i], i, j);
      }
    }
  }

  // ===== Working off the channel =====

  /** The consumer takes the next `n` messages of the internal channel and counts what it owes after each. */
  function Drain(n: nat): seq<Step> {
    if n == 0 then [] else HandleSteps(TakeInternal) + Drain(n - 1)
  }

  /** What taking one message and counting what it owes does. */
  function Handled(cfg: Config, s: Sys): Sys {
    if !ConsumerReady(s) || s.internal == [] then s
    else
      var rest := s.(internal := s.internal[1..]);
      match s.internal[0]
      case Deliver(message) => rest.(view := OnMessage(cfg, s.view, message, s.now, false).Completed())
      case Stop => Shutdown(rest)
  }

  lemma {:induction false} HandledIsRun(cfg: Config, s: Sys)
    requires s.owed == Nothing
    ensures RunFrom(cfg, s, HandleSteps(TakeInternal)) == Handled(cfg, s)
  {
    if !ConsumerReady(s) || s.internal == [] {
      FirstStep(cfg, s, TakeInternal, [CountOne, CountOne]);
      FirstStep(cfg, s, CountOne, [CountOne]);
      FirstStep(cfg, s, CountOne, []);
    } else if s.internal[0].Deliver? {
      ConsumedMessage(cfg, s, TakeInternal, s.(internal := s.internal[1..]), s.internal[0].message, false);
    } else {
      TakenStop(cfg, s);
    }
  }

  lemma {:induction false} HandledKeepsInv(cfg: Config, s: Sys)
    requires cfg.Valid() && Inv(cfg, s) && s.owed == Nothing
    ensures Inv(cfg, Handled(cfg, s)) && Handled(cfg, s).owed == Nothing
  {
    HandledIsRun(cfg, s);
    RunFromKeepsInv(cfg, s, HandleSteps(TakeInternal));
  }

  function AllHandled(cfg: Config, s: Sys, n: nat): Sys
    decreases n
  {
    if n == 0 then s else AllHandled(cfg, Handled(cfg, s), n - 1)
  }

  lemma {:induction false} AllHandledIsRun(cfg: Config, s: Sys, n: nat)
    requires s.owed == Nothing
    ensures RunFrom(cfg, s, Drain(n)) == AllHandled(cfg, s, n)
    decreases n
  {
    if n > 0 {
      var s' := Handled(cfg, s);
      HandledIsRun(cfg, s);
      AllHandledIsRun(cfg, s', n - 1);
      RunConcat(cfg, s, HandleSteps(TakeInternal), Drain(n - 1));
    }
  }

  lemma {:induction false} DeadHandlesNothing(cfg: Config, s: Sys, n: nat)
    requires !s.alive
    ensures AllHandled(cfg, s, n) == s
    decreases n
  {
    if n > 0 {
      DeadHandlesNothing(cfg, s, n - 1);
    }
  }

  lemma {:induction false} NobodyIsRetained(cells: seq<Cell>, queue: seq<nat>)
    requires forall id: nat :: !Open(cells, id)
    ensures Retained(cells, queue) == []
  {
    if queue != [] {
      NobodyIsRetained(cells, queue[1..]);
    }
  }

  /** Nothing is reserved any more that could not be answered, and everything that could is. */
  predicate IsClean(v: View, queue: seq<nat>) {
    v.reservations == Retained(v.cells, queue)
  }

  /** What the next message needs for its effect on the reservations. */
  ghost predicate IsSmooth(cfg: Config, s: Sys) {
    && NoneTwice(s.view.cells, s.view.reservations)
    && (s.internal != [] ==>
          match s.internal[0]
          case Deliver(message) => !message.CheckOut?
          case Stop => forall id: nat :: !Open(Handled(cfg, s).view.cells, id))
  }

  lemma {:induction false} InvIsSmooth(cfg: Config, s: Sys)
    requires Inv(cfg, s) && ConsumerReady(s)
    ensures IsSmooth(cfg, s)
  {
    InvNoneTwice(cfg, s);
    if s.internal != [] {
      assert s.internal[0] in s.internal;
      if s.internal[0].Stop? {
        ShutdownLeavesNobodyWaiting(cfg, s, s.(internal := s.internal[1..]));
      }
    }
  }

  /** So it is for all messages that are handled while the pool is alive. */
  ghost predicate StaysSmooth(cfg: Config, s: Sys, n: nat)
    decreases n
  {
    n > 0 && ConsumerReady(s) ==> IsSmooth(cfg, s) && StaysSmooth(cfg, Handled(cfg, s), n - 1)
  }

  lemma {:induction false} InvStaysSmooth(cfg: Config, s: Sys, n: nat)
    requires cfg.Valid() && Inv(cfg, s) && s.owed == Nothing
    ensures StaysSmooth(cfg, s, n)
    decreases n
  {
    if n > 0 && ConsumerReady(s) {
      InvIsSmooth(cfg, s);
      HandledKeepsInv(cfg, s);
      InvStaysSmooth(cfg, Handled(cfg, s), n - 1);
    }
  }

  lemma {:induction false} StopFilters(cfg: Config, s: Sys, queue: seq<nat>)
    requires IsSmooth(cfg, s) && ConsumerReady(s) && s.internal != [] && s.internal[0].Stop?
    ensures var s' := Handled(cfg, s);
            !s'.alive && s'.internal == [] && IsClean(s'.view, queue)
  {
    NobodyIsRetained(Handled(cfg, s).view.cells, queue);
  }

  /** What holds of the state of the consumer until the tick is worked off. */
  predicate Draining(s: Sys, queue: seq<nat>, last: nat) {
    && ConsumerReady(s)
    && Filters(s.view, queue, last) && s.now > last + CLEANUP_INTERVAL
    && s.internal != [] && s.internal[|s.internal| - 1] == Deliver(CleanupReservations)
  }

  lemma {:induction false} MessageFilters(cfg: Config, v: View, message: PoolMessage, now: nat, queue: seq<nat>,
                                          last: nat)
    requires NoneTwice(v.cells, v.reservations) && !message.CheckOut?
    requires Filters(v, queue, last) && now > last + CLEANUP_INTERVAL
    ensures var v' := OnMessage(cfg, v, message, now, false).Completed();
            Filters(v', queue, last) && (message == CleanupReservations ==> IsClean(v', queue))
  {
    match message
    case CheckIn(m) => CheckInFilters(v, m, now, queue, last);
    case CleanupReservations => CleanupFilters(cfg.capacity, v, now, queue, last);
    case CheckAlive =>
  }

  lemma {:induction false} MessageDrains(cfg: Config, s: Sys, queue: seq<nat>, last: nat)
    requires IsSmooth(cfg, s) && Draining(s, queue, last) && s.internal[0].Deliver?
    ensures var s' := Handled(cfg, s);
            && s'.internal == s.internal[1..]
            && (if s'.internal == [] then IsClean(s'.view, queue) else Draining(s', queue, last))
  {
    MessageFilters(cfg, s.view, s.internal[0].message, s.now, queue, last);
  }

  lemma {:induction false} DrainFilters(cfg: Config, s: Sys, queue: seq<nat>, last: nat)
    requires Draining(s, queue, last) && StaysSmooth(cfg, s, |s.internal|)
    ensures var s' := AllHandled(cfg, s, |s.internal|);
            s'.internal == [] && IsClean(s'.view, queue)
    decreases |s.internal|
  {
    var s' := Handled(cfg, s);
    if s.internal[0].Stop? {
      StopFilters(cfg, s, queue);
      DeadHandlesNothing(cfg, s', |s.internal| - 1);
    } else {
      MessageDrains(cfg, s, queue, last);
      if s'.internal != [] {
        DrainFilters(cfg, s', queue, last);
      }
    }
  }

  lemma {:induction false} TickArrives(cfg: Config, s: Sys, time: nat)
    requires Shape(cfg, s) && ConsumerReady(s) && time > CLEANUP_INTERVAL
    ensures var s' := RunFrom(cfg, s, [Pass(time), CleanupTick]);
            Draining(s', s.view.reservations, s.now) && |s'.internal| == |s.internal| + 1
  {
    FirstStep(cfg, s, Pass(time), [CleanupTick]);
    FirstStep(cfg, Next(cfg, s, Pass(time)), CleanupTick, []);
  }

  lemma {:induction false} TickCleans(cfg: Config, s: Sys, time: nat)
    requires cfg.Valid() && Inv(cfg, s) && ConsumerReady(s) && time > CLEANUP_INTERVAL
    ensures var s' := RunFrom(cfg, RunFrom(cfg, s, [Pass(time), CleanupTick]), Drain(|s.internal| + 1));
            s'.internal == [] && IsClean(s'.view, s.view.reservations)
  {
    var ticked := RunFrom(cfg, s, [Pass(time), CleanupTick]);
    TickArrives(cfg, s, time);
    RunFromKeepsInv(cfg, s, [Pass(time), CleanupTick]);
    InvStaysSmooth(cfg, ticked, |ticked.internal|);
    DrainFilters(cfg, ticked, s.view.reservations, s.now);
    AllHandledIsRun(cfg, ticked, |ticked.internal|);
  }

  /**
   From every reachable state, once the consumer has worked off what is in the internal channel and then a tick that
   came later than the interval, exactly those of the reservations are left, in their order, that can still be answered.
   */
  lemma {:induction false} TicksCleanTheQueue(cfg: Config, steps: seq<Step>, time: nat)
    requires cfg.Valid() && ConsumerReady(Run(cfg, steps)) && time > CLEANUP_INTERVAL
    ensures var s := Run(cfg, steps);
            var s' := Run(cfg, steps + [Pass(time), CleanupTick] + Drain(|s.internal| + 1));
            s'.internal == [] && s'.view.reservations == Retained(s'.view.cells, s.view.reservations)
  {
    var s := Run(cfg, steps);
    EveryRunKeepsInv(cfg, steps);
    TickCleans(cfg, s, time);
    RunConcat(cfg, Start(cfg), steps, [Pass(time), CleanupTick]);
    RunConcat(cfg, Start(cfg), steps + [Pass(time), CleanupTick], Drain(|s.internal| + 1));
  }

  // ===== Whatever happens in between =====

  /** The step makes the inner pool process a cleanup that is due. */
  predicate CleansUp(cfg: Config, s: Sys, step: Step) {
    && step.TakeInternal? && ConsumerReady(s)
    && s.internal != [] && s.internal[0] == Deliver(CleanupReservations) && CleanupDue(cfg.capacity, s.view, s.now)
  }

  /** The request was made and cannot be answered any more. */
  predicate IsClosed(cells: seq<Cell>, id: nat) {
    id < |cells| && !cells[id].Waiting?
  }

  lemma {:induction false} ClosedStaysClosed(cfg: Config, s: Sys, step: Step, id: nat)
    requires Shape(cfg, s) && IsClosed(s.view.cells, id)
    ensures IsClosed(Next(cfg, s, step).view.cells, id)
  {
    NextMovesCells(cfg, s, step);
    assert MayBecome(s.view.cells[id], Next(cfg, s, step).view.cells[id]);
  }

  lemma {:induction false} MessageLeavesTheClosedOut(cfg: Config, v: View, message: PoolMessage, now: nat,
                                                     races: bool, id: nat)
    requires IsClosed(v.cells, id) && id !in v.reservations
    ensures id !in OnMessage(cfg, v, message, now, races).view.reservations
  {
    OnlyTheOpenAreRetained(v.cells, v.reservations);
    if message.CheckOut? {
      OnlyTheOpenAreRetained(Race(v.cells, message.request.id, races), v.reservations);
    }
  }

  /** Who cannot be answered any more never gets into the queue again. */
  lemma {:induction false} ClosedStaysOut(cfg: Config, s: Sys, step: Step, id: nat)
    requires Shape(cfg, s) && IsClosed(s.view.cells, id) && id !in s.view.reservations
    ensures id !in Next(cfg, s, step).view.reservations
  {
    match step
    case TakeInternal =>
      if ConsumerReady(s) && s.internal != [] && s.internal[0].Deliver? {
        MessageLeavesTheClosedOut(cfg, s.view, s.internal[0].message, s.now, false, id);
      }
    case TakeCheckout(races) =>
      if ConsumerReady(s) && s.checkouts != [] {
        MessageLeavesTheClosedOut(cfg, s.view, CheckOut(s.checkouts[0]), s.now, races, id);
      }
    case Client(client, action) =>
      if client < |s.view.cells| {
        assert s.view.cells[client] in s.view.cells;
        ClientsLeaveTheQueue(s, action, client);
      }
    case _ =>
  }

  lemma {:induction false} ClientsLeaveTheQueue(s: Sys, action: Action, id: nat)
    requires id < |s.view.cells| && CellShape(s.view.cells[id])
    ensures OnClient(s, action, id).view.reservations == s.view.reservations
  {
    match s.view.cells[id]
    case Delivered(m) => if action.HangUp? { ReleaseLeavesTheQueue(s, id, m); }
    case Held(conn, None) => if action.DropConnection? { ReleaseLeavesTheQueue(s, id, ReleaseConn(conn)); }
    case Held(conn, Some(running)) =>
      if action.CommandIsLost? {
        ReleaseLeavesTheQueue(s.(lost := s.lost + {running.id}), id, ReleaseConn(conn));
      }
    case _ =>
  }

  predicate IsClosedOut(s: Sys, id: nat) {
    IsClosed(s.view.cells, id) && id !in s.view.reservations
  }

  lemma {:induction false} NextKeepsClosedOut(cfg: Config, s: Sys, step: Step, id: nat)
    requires Shape(cfg, s) && IsClosedOut(s, id)
    ensures IsClosedOut(Next(cfg, s, step), id)
  {
    ClosedStaysOut(cfg, s, step, id);
    ClosedStaysClosed(cfg, s, step, id);
  }

  lemma {:induction false} RunKeepsClosedOut(cfg: Config, s: Sys, steps: seq<Step>, id: nat)
    requires Shape(cfg, s) && IsClosedOut(s, id)
    ensures IsClosedOut(RunFrom(cfg, s, steps), id)
    decreases |steps|
  {
    if steps != [] {
      NextKeepsClosedOut(cfg, s, steps[0], id);
      NextKeepsShape(cfg, s, steps[0]);
      RunKeepsClosedOut(cfg, Next(cfg, s, steps[0]), steps[1..], id);
    }
  }

  lemma {:induction false} CleanupRemovesTheClosed(cfg: Config, s: Sys, step: Step, id: nat)
    requires CleansUp(cfg, s, step) && IsClosed(s.view.cells, id)
    ensures id !in Next(cfg, s, step).view.reservations
  {
    OnlyTheOpenAreRetained(s.view.cells, s.view.reservations);
  }

  /**
   Over every run, whatever else happens: once a cleanup that is due has been processed, no request is in the queue,
   then or later, that could not be answered any more before.
   */
  lemma {:induction false} DueCleanupsRemoveTheClosed(cfg: Config, before: seq<Step>, step: Step, after: seq<Step>,
                                                      id: nat)
    requires cfg.Valid() && CleansUp(cfg, Run(cfg, before), step) && IsClosed(Run(cfg, before).view.cells, id)
    ensures id !in Run(cfg, before + [step] + after).view.reservations
  {
    var s := Run(cfg, before);
    EveryRunKeepsInv(cfg, before);
    CleanupRemovesTheClosed(cfg, s, step, id);
    ClosedStaysClosed(cfg, s, step, id);
    NextKeepsShape(cfg, s, step);
    RunKeepsClosedOut(cfg, Next(cfg, s, step), after, id);
    FirstStep(cfg, s, step, after);
    RunConcat(cfg, Start(cfg), before, [step] + after);
    assert before + ([step] + after) == before + [step] + after;
  }
}
