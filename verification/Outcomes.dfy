/** What each message brings about, in every reachable state: who gets what, and what stays as it is. */
module Outcomes {
  import opened Prelude
  import opened SubPool
  import opened System
  import opened Conservation
  import opened Reservations
  import opened Fairness

  // ===== Checking out =====

  /** The next checkout request can still be answered. */
  predicate IsNext(s: Sys, request: Request) {
    ConsumerReady(s) && s.checkouts != [] && s.checkouts[0] == request && Open(s.view.cells, request.id)
  }

  /** The connection that is idle longest, or shortest, and the others. */
  function Given(order: ActivationOrder, idle: seq<Managed>): (Managed, seq<Managed>)
    requires idle != []
  {
    if order == FiFo then (idle[0], idle[1..]) else (idle[|idle| - 1], idle[..|idle| - 1])
  }

  lemma {:induction false} TakenIsGiven(order: ActivationOrder, v: View)
    requires v.idle != []
    ensures v.idle[NextIdle(order, v.idle)] == Given(order, v.idle).0
    ensures TakeIdle(order, v) == v.(idle := Given(order, v.idle).1, gauges := v.gauges.(idle := v.gauges.idle - 1))
  {
    var n := |v.idle|;
    assert v.idle[..0] + v.idle[1..] == v.idle[1..];
    assert v.idle[..n - 1] + v.idle[n..] == v.idle[..n - 1];
  }

  lemma {:induction false} HandsOut(cfg: Config, v: View, request: Request, now: Instant)
    requires Open(v.cells, request.id) && v.idle != []
    ensures var (given, left) := Given(cfg.order, v.idle);
            OnCheckOut(cfg, v, request, now, false)
            == Processed(v.(idle := left,
                            gauges := v.gauges.(idle := v.gauges.idle - 1),
                            cells := v.cells[request.id := Delivered(given.(checkedOutAt := Some(now)))]), OneFlight)
  {
    TakenIsGiven(cfg.order, v);
  }

  /**
   A request finds an idle connection: whether it may wait or not, it gets the one that is idle longest or shortest,
   according to the activation order, with its raw connection, its slot and the current time; that one is not
   idle any more, its flight is still to be counted, and nothing else changes.
   */
  lemma {:induction false} IdleIsHandedOut(cfg: Config, steps: seq<Step>, request: Request)
    requires cfg.Valid() && IsNext(Run(cfg, steps), request) && Run(cfg, steps).view.idle != []
    ensures var s := Run(cfg, steps);
            var (given, left) := if cfg.order == FiFo then (s.view.idle[0], s.view.idle[1..])
                                 else (s.view.idle[|s.view.idle| - 1], s.view.idle[..|s.view.idle| - 1]);
            && given.value.Some? && given.factory.Some? && !given.value.value.dirty
            && Run(cfg, steps + [TakeCheckout(false)])
               == s.(checkouts := s.checkouts[1..],
                     owed := OneFlight,
                     view := s.view.(
                       idle := left,
                       gauges := s.view.gauges.(idle := s.view.gauges.idle - 1),
                       cells := s.view.cells[request.id := Delivered(given.(checkedOutAt := Some(s.now)))]))
  {
    var s := Run(cfg, steps);
    RunOneMore(cfg, steps, TakeCheckout(false));
    HandsOut(cfg, s.view, request, s.now);
    IdleIsClean(cfg, steps, Given(cfg.order, s.view.idle).0);
  }

  lemma {:induction false} IdleIsClean(cfg: Config, steps: seq<Step>, m: Managed)
    requires cfg.Valid() && m in Run(cfg, steps).view.idle
    ensures m.value.Some? && m.factory.Some? && !m.value.value.dirty
  {
    EveryRunKeepsInv(cfg, steps);
  }

  /** A request whose receiver is gone is forgotten. */
  lemma {:induction false} ClosedRequestIsForgotten(cfg: Config, steps: seq<Step>, races: bool)
    requires ConsumerReady(Run(cfg, steps)) && Run(cfg, steps).checkouts != []
    requires !Open(Run(cfg, steps).view.cells, Run(cfg, steps).checkouts[0].id)
    ensures var s := Run(cfg, steps);
            Run(cfg, steps + [TakeCheckout(races)]) == s.(checkouts := s.checkouts[1..])
  {
    RunOneMore(cfg, steps, TakeCheckout(races));
  }

  /** All entries of the queue are still listening, and there is no room for more. */
  predicate IsFull(cfg: Config, v: View) {
    |v.reservations| == cfg.capacity && forall i :: 0 <= i < |v.reservations| ==> Open(v.cells, v.reservations[i])
  }

  lemma {:induction false} Refuses(cfg: Config, v: View, request: Request, now: Instant, races: bool)
    requires Open(v.cells, request.id) && v.idle == [] && request.id !in v.reservations
    requires !request.reservationAllowed || cfg.capacity == 0 || IsFull(cfg, v)
    ensures var limited := request.reservationAllowed && cfg.capacity > 0;
            OnCheckOut(cfg, v, request, now, races)
            == Processed(v.(cells := v.cells[request.id :=
                                       if races then HungUp
                                       else Refused(if limited then ReservationLimitReached else NoConnection)],
                            lastCleanup := if limited then now else v.lastCleanup), Nothing)
  {
    var raced := Race(v.cells, request.id, races);
    if request.reservationAllowed && cfg.capacity > 0 {
      assert forall i :: 0 <= i < |v.reservations| ==> v.reservations[i] in v.reservations;
      NothingToRemove(raced, v.reservations);
    }
  }

  /**
   A request finds no idle connection and is refused: because it may not wait, or there are no reservations, or the
   queue is full of others that still listen. Apart from the time of the last cleanup nothing else changes.
   */
  lemma {:induction false} RequestIsRefused(cfg: Config, steps: seq<Step>, request: Request, races: bool)
    requires cfg.Valid() && IsNext(Run(cfg, steps), request) && Run(cfg, steps).view.idle == []
    requires !request.reservationAllowed || cfg.capacity == 0 || IsFull(cfg, Run(cfg, steps).view)
    ensures var s := Run(cfg, steps);
            var limited := request.reservationAllowed && cfg.capacity > 0;
            Run(cfg, steps + [TakeCheckout(races)])
            == s.(checkouts := s.checkouts[1..],
                  view := s.view.(
                    cells := s.view.cells[request.id :=
                               if races then HungUp
                               else Refused(if limited then ReservationLimitReached else NoConnection)],
                    lastCleanup := if limited then s.now else s.view.lastCleanup))
  {
    var s := Run(cfg, steps);
    RequestIsNotQueued(cfg, steps, request);
    RunOneMore(cfg, steps, TakeCheckout(races));
    Refuses(cfg, s.view, request, s.now, races);
  }

  lemma {:induction false} RequestIsNotQueued(cfg: Config, steps: seq<Step>, request: Request)
    requires cfg.Valid() && IsNext(Run(cfg, steps), request)
    ensures request.id !in Run(cfg, steps).view.reservations
    ensures |Run(cfg, steps).view.reservations| <= cfg.capacity
  {
    var s := Run(cfg, steps);
    EveryRunKeepsInv(cfg, steps);
    assert s.checkouts[0] in s.checkouts;
    if request.id in s.view.reservations {
      QueuedOnce(cfg, s, request.id);
    }
  }

  /** The queue after a request has joined it: if it was full, without those that do not listen any more. */
  ghost predicate Joined(cfg: Config, v: View, queue: seq<nat>, at: seq<nat>, id: nat) {
    var before := v.reservations;
    && queue != [] && queue[|queue| - 1] == id && PicksInOrder(before, at, queue[..|queue| - 1])
    && (if |before| < cfg.capacity then queue[..|queue| - 1] == before
        else
          && (forall i :: 0 <= i < |at| ==> Open(v.cells, before[at[i]]))
          && (forall j :: 0 <= j < |before| && Open(v.cells, before[j]) ==> j in at))
  }

  lemma {:induction false} JoinsWithRoom(cfg: Config, v: View, id: nat) returns (at: seq<nat>)
    requires |v.reservations| < cfg.capacity
    ensures Joined(cfg, v, v.reservations + [id], at, id)
  {
    at := seq(|v.reservations|, i => i);
    assert (v.reservations + [id])[..|v.reservations|] == v.reservations;
  }

  lemma {:induction false} JoinsAfterCleanup(cfg: Config, v: View, raced: View, id: nat, now: Instant)
    returns (at: seq<nat>)
    requires |v.reservations| == cfg.capacity && 0 < cfg.capacity && id !in v.reservations && !IsFull(cfg, v)
    requires raced.reservations == v.reservations && |raced.cells| == |v.cells|
    requires forall k: nat :: k != id && k < |v.cells| ==> raced.cells[k] == v.cells[k]
    ensures var swept := OnCleanup(cfg.capacity, raced, now);
            && |swept.reservations| < cfg.capacity
            && Joined(cfg, v, swept.reservations + [id], at, id)
  {
    at := CleanupIsExact(cfg.capacity, raced, now);
    SameListeners(v.cells, raced.cells, v.reservations, id);
    NothingToRemove(raced.cells, v.reservations);
    var swept := OnCleanup(cfg.capacity, raced, now).reservations;
    assert (swept + [id])[..|swept|] == swept;
  }

  lemma {:induction false} Reserves(cfg: Config, v: View, request: Request, now: Instant, races: bool)
    returns (at: seq<nat>)
    requires Open(v.cells, request.id) && v.idle == [] && request.id !in v.reservations
    requires request.reservationAllowed && 0 < cfg.capacity && |v.reservations| <= cfg.capacity && !IsFull(cfg, v)
    ensures var p := OnCheckOut(cfg, v, request, now, races);
            var queue := p.view.reservations;
            && Joined(cfg, v, queue, at, request.id)
            && p == Processed(
                 v.(reservations := queue,
                    gauges := v.gauges.(reservations := v.gauges.reservations + |queue| - |v.reservations|),
                    cells := if races then v.cells[request.id := HungUp] else v.cells,
                    lastCleanup := if |v.reservations| == cfg.capacity then now else v.lastCleanup), Nothing)
  {
    var raced := v.(cells := Race(v.cells, request.id, races));
    if |v.reservations| < cfg.capacity {
      at := JoinsWithRoom(cfg, v, request.id);
      assert CreateReservation(cfg.capacity, raced, request.id, now) == Enqueue(raced, request.id);
    } else {
      at := JoinsAfterCleanup(cfg, v, raced, request.id, now);
      assert CreateReservation(cfg.capacity, raced, request.id, now)
          == Enqueue(OnCleanup(cfg.capacity, raced, now), request.id);
    }
  }

  lemma {:induction false} SameListeners(cells: seq<Cell>, raced: seq<Cell>, queue: seq<nat>, id: nat)
    requires id !in queue && |raced| == |cells| && forall k: nat :: k != id && k < |cells| ==> raced[k] == cells[k]
    ensures forall i :: 0 <= i < |queue| ==> (Open(raced, queue[i]) <==> Open(cells, queue[i]))
  {
    assert forall i :: 0 <= i < |queue| ==> queue[i] in queue;
  }

  /**
   A request finds no idle connection, may wait, and there is room for it, at least once those are gone that do not
   listen any more: it is the last in the queue, and apart from the gauge nothing else changes.
   */
  lemma {:induction false} RequestIsReserved(cfg: Config, steps: seq<Step>, request: Request, races: bool)
    returns (at: seq<nat>)
    requires cfg.Valid() && IsNext(Run(cfg, steps), request) && Run(cfg, steps).view.idle == []
    requires request.reservationAllowed && cfg.capacity > 0 && !IsFull(cfg, Run(cfg, steps).view)
    ensures var s := Run(cfg, steps);
            var s' := Run(cfg, steps + [TakeCheckout(races)]);
            var queue := s'.view.reservations;
            && Joined(cfg, s.view, queue, at, request.id)
            && s' == s.(checkouts := s.checkouts[1..],
                        view := s.view.(
                          reservations := queue,
                          gauges := s.view.gauges.(
                            reservations := s.view.gauges.reservations + |queue| - |s.view.reservations|),
                          cells := if races then s.view.cells[request.id := HungUp] else s.view.cells,
                          lastCleanup := if |s.view.reservations| == cfg.capacity then s.now else s.view.lastCleanup))
  {
    var s := Run(cfg, steps);
    RequestIsNotQueued(cfg, steps, request);
    RunOneMore(cfg, steps, TakeCheckout(races));
    at := Reserves(cfg, s.view, request, s.now, races);
  }

  // ===== Checking in =====

  /** The message is next. */
  predicate IsNextMessage(s: Sys, message: PoolMessage) {
    ConsumerReady(s) && s.internal != [] && s.internal[0] == Deliver(message)
  }

  /** A connection comes in and the first request in the queue that still listens gets it. */
  lemma {:induction false} CheckInServes(cfg: Config, steps: seq<Step>, m: Managed, k: nat)
    requires IsNextMessage(Run(cfg, steps), CheckIn(m)) && k < |Run(cfg, steps).view.reservations|
    requires Open(Run(cfg, steps).view.cells, Run(cfg, steps).view.reservations[k])
    requires forall j :: 0 <= j < k ==> !Open(Run(cfg, steps).view.cells, Run(cfg, steps).view.reservations[j])
    ensures var s := Run(cfg, steps);
            var gauges := if m.checkedOutAt.Some? then s.view.gauges.(inFlight := s.view.gauges.inFlight - 1)
                          else s.view.gauges.(connections := s.view.gauges.connections + 1);
            Run(cfg, steps + [TakeInternal])
            == s.(internal := s.internal[1..],
                  owed := ReservationAndFlight,
                  view := s.view.(
                    reservations := s.view.reservations[k + 1..],
                    gauges := gauges.(reservations := gauges.reservations - k),
                    cells := s.view.cells[s.view.reservations[k] := Delivered(m.(checkedOutAt := Some(s.now)))]))
  {
    var s := Run(cfg, steps);
    RunOneMore(cfg, steps, TakeInternal);
    assert FirstOpen(s.view.cells, s.view.reservations) == k;
  }

  /** A connection comes in and nobody in the queue listens: it is the last of the idle ones, without a stamp. */
  lemma {:induction false} CheckInGoesIdle(cfg: Config, steps: seq<Step>, m: Managed)
    requires IsNextMessage(Run(cfg, steps), CheckIn(m))
    requires var v := Run(cfg, steps).view;
             forall j :: 0 <= j < |v.reservations| ==> !Open(v.cells, v.reservations[j])
    ensures var s := Run(cfg, steps);
            var gauges := if m.checkedOutAt.Some? then s.view.gauges.(inFlight := s.view.gauges.inFlight - 1)
                          else s.view.gauges.(connections := s.view.gauges.connections + 1);
            Run(cfg, steps + [TakeInternal])
            == s.(internal := s.internal[1..],
                  view := s.view.(
                    idle := s.view.idle + [m.(checkedOutAt := None)],
                    reservations := [],
                    gauges := gauges.(idle := gauges.idle + 1,
                                      reservations := gauges.reservations - |s.view.reservations|)))
  {
    var s := Run(cfg, steps);
    RunOneMore(cfg, steps, TakeInternal);
    assert FirstOpen(s.view.cells, s.view.reservations) == |s.view.reservations|;
  }

  // ===== The other messages =====

  /** A cleanup of a full queue, or more than 100 milliseconds after the last one, keeps exactly those who listen. */
  lemma {:induction false} CleanupKeepsTheOpen(cfg: Config, steps: seq<Step>) returns (at: seq<nat>)
    requires IsNextMessage(Run(cfg, steps), CleanupReservations)
    ensures var s := Run(cfg, steps);
            var s' := Run(cfg, steps + [TakeInternal]);
            var (before, after) := (s.view.reservations, s'.view.reservations);
            && s' == s.(internal := s.internal[1..],
                        view := s.view.(
                          reservations := after,
                          lastCleanup := s.now,
                          gauges := s.view.gauges.(
                            reservations := s.view.gauges.reservations - (|before| - |after|))))
            && PicksInOrder(before, at, after)
            && (if |before| == cfg.capacity || s.now > s.view.lastCleanup + 100 * MILLISECOND then
                  && (forall i :: 0 <= i < |at| ==> Open(s.view.cells, before[at[i]]))
                  && (forall j :: 0 <= j < |before| && Open(s.view.cells, before[j]) ==> j in at)
                else after == before)
  {
    var s := Run(cfg, steps);
    RunOneMore(cfg, steps, TakeInternal);
    at := CleanupIsExact(cfg.capacity, s.view, s.now);
  }

  /** Probes have no effect, and what is owed is counted one by one: the reservation first and then the flight. */
  lemma {:induction false} CountsComeInOrder(cfg: Config, steps: seq<Step>)
    ensures var s := Run(cfg, steps);
            var gauges := s.view.gauges;
            && (IsNextMessage(s, CheckAlive) ==> Run(cfg, steps + [TakeInternal]) == s.(internal := s.internal[1..]))
            && Run(cfg, steps + [CountOne])
               == match s.owed
                  case Nothing => s
                  case OneFlight =>
                    s.(owed := Nothing, view := s.view.(gauges := gauges.(inFlight := gauges.inFlight + 1)))
                  case ReservationAndFlight =>
                    s.(owed := OneFlight, view := s.view.(gauges := gauges.(reservations := gauges.reservations - 1)))
  {
    RunOneMore(cfg, steps, TakeInternal);
    RunOneMore(cfg, steps, CountOne);
  }

  // ===== Requests, ticks and the handle =====

  /** A request is in the channel, under its own number and with its own permission to wait, or refused at once. */
  lemma {:induction false} RequestIsSent(cfg: Config, steps: seq<Step>, allowed: bool)
    requires cfg.Valid() && Run(cfg, steps).handle
    ensures var s := Run(cfg, steps);
            var id := |s.view.cells|;
            Run(cfg, steps + [RequestCheckOut(allowed)])
            == if |s.checkouts| < cfg.checkoutQueueSize
               then s.(checkouts := s.checkouts + [Request(id, allowed)], asked := s.asked + [allowed],
                       view := s.view.(cells := s.view.cells + [Waiting]))
               else s.(asked := s.asked + [allowed],
                       view := s.view.(cells := s.view.cells + [Refused(CheckoutLimitReached)]))
  {
    EveryRunKeepsInv(cfg, steps);
    RunOneMore(cfg, steps, RequestCheckOut(allowed));
  }

  /**
   Without a handle nothing is requested, ticks arrive while the pool is alive, the handle stops it once, and time
   changes nothing but the clock.
   */
  lemma {:induction false} TicksAndStopsAreSent(cfg: Config, steps: seq<Step>, allowed: bool, time: nat)
    requires cfg.Valid()
    ensures var s := Run(cfg, steps);
            && (!s.handle ==> Run(cfg, steps + [RequestCheckOut(allowed)]) == s)
            && Run(cfg, steps + [CleanupTick])
               == (if s.alive then s.(internal := s.internal + [Deliver(CleanupReservations)]) else s)
            && Run(cfg, steps + [DropHandle])
               == (if !s.handle then s
                   else s.(internal := s.internal + [Stop], handle := false,
                           view := s.view.(gauges := s.view.gauges.(pools := s.view.gauges.pools - 1))))
            && Run(cfg, steps + [Pass(time)]) == s.(now := s.now + time)
  {
    EveryRunKeepsInv(cfg, steps);
    RunOneMore(cfg, steps, RequestCheckOut(allowed));
    RunOneMore(cfg, steps, CleanupTick);
    RunOneMore(cfg, steps, DropHandle);
    RunOneMore(cfg, steps, Pass(time));
  }

  // ===== Create loops =====

  lemma {:induction false} LoopsComeFirst(n: nat, i: nat)
    requires i < n
    ensures FirstTasks(n)[i] == Probing(Factory(i), 1)
  {
    if i < n - 1 {
      LoopsComeFirst(n - 1, i);
    }
  }

  /** In a new pool there are only the create loops, one for each slot and all at their first attempt. */
  lemma {:induction false} PoolsStartWithLoops(cfg: Config)
    ensures var s := Run(cfg, []);
            && |s.tasks| == cfg.desiredPoolSize
            && (forall i :: 0 <= i < |s.tasks| ==> s.tasks[i] == Probing(Factory(i), 1))
            && s.internal == [] && s.checkouts == [] && s.view.cells == []
            && s.view.idle == [] && s.view.reservations == [] && s.view.gauges == PoolState(0, 0, 0, 0, 1)
            && s.handle && ConsumerReady(s) && s.nextConn == 0
  {
    forall i | 0 <= i < cfg.desiredPoolSize ensures FirstTasks(cfg.desiredPoolSize)[i] == Probing(Factory(i), 1) {
      LoopsComeFirst(cfg.desiredPoolSize, i);
    }
  }

  /** A create loop about to try probes the pool, and ends if it is gone. */
  lemma {:induction false} LoopProbes(cfg: Config, steps: seq<Step>, i: nat)
    requires i < |Run(cfg, steps).tasks| && Run(cfg, steps).tasks[i].Probing?
    ensures var s := Run(cfg, steps);
            Run(cfg, steps + [CreateLoop(i, Probe)])
            == if s.alive
               then s.(tasks := s.tasks[i := Connecting(s.tasks[i].factory, s.tasks[i].attempt)],
                       internal := s.internal + [Deliver(CheckAlive)])
               else s.(tasks := s.tasks[..i] + s.tasks[i + 1..])
  {
    RunOneMore(cfg, steps, CreateLoop(i, Probe));
  }

  /** A connection that was made is new and clean, goes to the pool with the slot of its loop, and the loop ends. */
  lemma {:induction false} LoopConnects(cfg: Config, steps: seq<Step>, i: nat)
    requires i < |Run(cfg, steps).tasks| && Run(cfg, steps).tasks[i].Connecting?
    ensures var s := Run(cfg, steps);
            var made := Managed(None, Some(Conn(s.nextConn, false)), Some(s.tasks[i].factory));
            && Run(cfg, steps + [CreateLoop(i, ConnectSucceeds)])
               == s.(tasks := s.tasks[..i] + s.tasks[i + 1..],
                     nextConn := s.nextConn + 1,
                     internal := if s.alive then s.internal + [Deliver(CheckIn(made))] else s.internal)
            && Run(cfg, steps + [CreateLoop(i, ConnectFails)])
               == s.(tasks := s.tasks[i := Probing(s.tasks[i].factory, s.tasks[i].attempt + 1)])
  {
    RunOneMore(cfg, steps, CreateLoop(i, ConnectSucceeds));
    RunOneMore(cfg, steps, CreateLoop(i, ConnectFails));
  }
}
