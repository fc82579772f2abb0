/** The reservation queue: what a cleanup removes, how long the queue can get, and who is served next. */
module Reservations {
  import opened Prelude
  import opened SubPool
  import opened System
  import opened Conservation

  // ===== Idle connections =====

  /**
   If the receiver leaves at the last moment the connection goes back to the idle ones, in the place of the one put
   back last and still stamped as checked out; nothing is counted and nobody else is affected.
   */
  lemma {:induction false} RacedConnectionGoesBack(cfg: Config, v: View, request: Request, now: Instant)
    requires Open(v.cells, request.id) && v.idle != []
    ensures var p := OnCheckOut(cfg, v, request, now, true);
            var taken := v.idle[NextIdle(cfg.order, v.idle)];
            && p.owed == Nothing && p.view.gauges == v.gauges && p.view.reservations == v.reservations
            && p.view.cells == v.cells[request.id := HungUp]
            && |p.view.idle| == |v.idle| && p.view.idle[|v.idle| - 1] == taken.(checkedOutAt := Some(now))
            && (cfg.order == LiFo ==> p.view.idle[..|v.idle| - 1] == v.idle[..|v.idle| - 1])
            && (cfg.order == FiFo ==> p.view.idle[..|v.idle| - 1] == v.idle[1..])
  {
  }

  predicate Unstamped(v: View) {
    forall m :: m in v.idle ==> m.checkedOutAt.None?
  }

  lemma {:induction false} ReleaseLeavesTheIdle(s: Sys, id: nat, managed: Managed)
    requires id < |s.view.cells|
    ensures Release(s, id, managed).view.idle == s.view.idle
  {
  }

  lemma {:induction false} ClientLeavesTheIdle(s: Sys, action: Action, id: nat)
    requires id < |s.view.cells|
    ensures OnClient(s, action, id).view.idle == s.view.idle
  {
    match (action, s.view.cells[id])
    case (HangUp, Delivered(m)) => ReleaseLeavesTheIdle(s, id, m);
    case (BeginCommand, Held(conn, None)) => ReleaseLeavesTheIdle(s, id, ReleaseConn(conn));
    case (CommandIsLost, Held(conn, Some(running))) =>
      ReleaseLeavesTheIdle(s.(lost := s.lost + {running.id}), id, ReleaseConn(conn));
    case (DropConnection, Held(conn, None)) => ReleaseLeavesTheIdle(s, id, ReleaseConn(conn));
    case _ =>
  }

  /** The next checkout request can still be answered with an idle connection. */
  predicate CanRace(s: Sys) {
    ConsumerReady(s) && s.checkouts != [] && Open(s.view.cells, s.checkouts[0].id) && s.view.idle != []
  }

  lemma {:induction false} NextKeepsUnstamped(cfg: Config, s: Sys, step: Step)
    requires Unstamped(s.view) && !(step == TakeCheckout(true) && CanRace(s))
    ensures Unstamped(Next(cfg, s, step).view)
  {
    if step.Client? && step.id < |s.view.cells| {
      ClientLeavesTheIdle(s, step.action, step.id);
    }
  }

  lemma {:induction false} StampNeedsRace(cfg: Config, s: Sys, steps: seq<Step>) returns (i: nat)
    requires Unstamped(s.view) && !Unstamped(RunFrom(cfg, s, steps).view)
    ensures i < |steps| && steps[i] == TakeCheckout(true) && CanRace(RunFrom(cfg, s, steps[..i]))
    decreases |steps|
  {
    if Unstamped(Next(cfg, s, steps[0]).view) {
      var rest := StampNeedsRace(cfg, Next(cfg, s, steps[0]), steps[1..]);
      i := rest + 1;
      assert steps[..i] == [steps[0]] + steps[1..][..rest];
      FirstStep(cfg, s, steps[0], steps[1..][..rest]);
    } else {
      i := 0;
      if !(steps[0] == TakeCheckout(true) && CanRace(s)) {
        NextKeepsUnstamped(cfg, s, steps[0]);
      }
    }
  }

  /**
   An idle connection is stamped as checked out only if at some moment a receiver, still there when the consumer looked,
   left before the idle connection for it could be sent.
   */
  lemma {:induction false} OnlyRacesLeaveStamps(cfg: Config, steps: seq<Step>, m: Managed) returns (i: nat)
    requires m in Run(cfg, steps).view.idle && m.checkedOutAt.Some?
    ensures i < |steps| && steps[i] == TakeCheckout(true) && CanRace(Run(cfg, steps[..i]))
  {
    i := StampNeedsRace(cfg, Start(cfg), steps);
  }

  // ===== Cleaning up =====

  /** Picking the elements at the given positions, which are in order. */
  predicate PicksInOrder(queue: seq<nat>, at: seq<nat>, kept: seq<nat>) {
    && |at| == |kept|
    && (forall i :: 0 <= i < |at| ==> at[i] < |queue| && kept[i] == queue[at[i]])
    && (forall i, j :: 0 <= i < j < |at| ==> at[i] < at[j])
  }

  lemma {:induction false} PickOneMore(queue: seq<nat>, start: nat, at: seq<nat>, kept: seq<nat>)
    requires start < |queue| && PicksInOrder(queue, at, kept) && forall i :: 0 <= i < |at| ==> start < at[i]
    ensures PicksInOrder(queue, [start] + at, [queue[start]] + kept)
  {
    var longer := [start] + at;
    forall i, j | 0 <= i < j < |longer| ensures longer[i] < longer[j] {
      assert longer[j] == at[j - 1];
    }
  }

  /** From `start` on, exactly the open reservations are kept, in their order. */
  lemma {:induction false} RetainedPicksTheOpen(cells: seq<Cell>, queue: seq<nat>, start: nat) returns (at: seq<nat>)
    requires start <= |queue|
    ensures PicksInOrder(queue, at, Retained(cells, queue[start..]))
    ensures forall i :: 0 <= i < |at| ==> start <= at[i] && Open(cells, queue[at[i]])
    ensures forall j :: start <= j < |queue| && Open(cells, queue[j]) ==> j in at
    decreases |queue| - start
  {
    at := [];
    if start < |queue| {
      at := RetainedPicksTheOpen(cells, queue, start + 1);
      assert queue[start..][1..] == queue[start + 1..];
      if Open(cells, queue[start]) {
        PickOneMore(queue, start, at, Retained(cells, queue[start + 1..]));
        at := [start] + at;
      } else {
        assert Retained(cells, queue[start..]) == Retained(cells, queue[start + 1..]);
      }
    }
  }

  /**
   A cleanup of a full queue, or one later than the interval after the previous cleanup, removes exactly the
   closed reservations and counts them out; any other cleanup only restarts the interval.
   */
  lemma {:induction false} CleanupIsExact(capacity: nat, v: View, now: Instant) returns (at: seq<nat>)
    ensures var v' := OnCleanup(capacity, v, now);
            && v'.lastCleanup == now && v'.idle == v.idle && v'.cells == v.cells
            && PicksInOrder(v.reservations, at, v'.reservations)
            && (CleanupDue(capacity, v, now) ==>
                  (forall i :: 0 <= i < |at| ==> Open(v.cells, v.reservations[at[i]]))
                  && (forall j :: 0 <= j < |v.reservations| && Open(v.cells, v.reservations[j]) ==> j in at))
            && (!CleanupDue(capacity, v, now) ==> v'.reservations == v.reservations)
            && v.gauges.reservations - v'.gauges.reservations == |v.reservations| - |v'.reservations|
  {
    if v.reservations != [] && CleanupDue(capacity, v, now) {
      at := RetainedPicksTheOpen(v.cells, v.reservations, 0);
      assert v.reservations[0..] == v.reservations;
    } else {
      at := seq(|v.reservations|, i => i);
      assert v.reservations == [] ==> at == [];
    }
  }

  /** One cleanup after the other. */
  function Cleanups(capacity: nat, v: View, times: seq<Instant>): View
    decreases |times|
  {
    if times == [] then v else Cleanups(capacity, OnCleanup(capacity, v, times[0]), times[1..])
  }

  /** No time is later than the interval after the one before it. */
  predicate WithinInterval(last: Instant, times: seq<Instant>)
    decreases |times|
  {
    times == [] || (times[0] <= last + CLEANUP_INTERVAL && WithinInterval(times[0], times[1..]))
  }

  /** Every cleanup restarts the interval, so cleanups that keep within it never clean a queue that is not full. */
  lemma {:induction false} FrequentCleanupsNeverClean(capacity: nat, v: View, times: seq<Instant>)
    requires |v.reservations| != capacity
    requires WithinInterval(v.lastCleanup, times)
    ensures Cleanups(capacity, v, times).reservations == v.reservations
    decreases |times|
  {
    if times != [] {
      FrequentCleanupsNeverClean(capacity, OnCleanup(capacity, v, times[0]), times[1..]);
    }
  }

  lemma {:induction false} OnlyTheOpenAreRetained(cells: seq<Cell>, queue: seq<nat>)
    ensures forall id :: id in Retained(cells, queue) <==> id in queue && Open(cells, id)
  {
    if queue != [] {
      OnlyTheOpenAreRetained(cells, queue[1..]);
      assert forall id :: id in queue <==> id == queue[0] || id in queue[1..];
    }
  }

  // ===== The limit =====

  lemma {:induction false} NothingToRemove(cells: seq<Cell>, queue: seq<nat>)
    ensures |Retained(cells, queue)| == |queue| <==> forall i :: 0 <= i < |queue| ==> Open(cells, queue[i])
    ensures |Retained(cells, queue)| == |queue| ==> Retained(cells, queue) == queue
  {
    if queue != [] {
      NothingToRemove(cells, queue[1..]);
      assert forall i :: 0 < i < |queue| ==> queue[i] == queue[1..][i - 1];
      if forall i :: 0 <= i < |queue| ==> Open(cells, queue[i]) {
        assert forall i :: 0 <= i < |queue[1..]| ==> Open(cells, queue[1..][i]);
      }
      if |Retained(cells, queue)| == |queue| {
        assert Open(cells, queue[0]);
        assert queue == [queue[0]] + queue[1..];
      }
    }
  }

  /**
   A request that may wait is told that the limit is reached exactly if the queue is full of receivers that still
   listen, and that there is no connection exactly if there are no reservations at all; otherwise it is the last in
   the queue.
   */
  lemma {:induction false} LimitIsReachedExactly(capacity: nat, v: View, id: nat, now: Instant)
    requires |v.reservations| <= capacity && Open(v.cells, id)
    ensures var v' := CreateReservation(capacity, v, id, now);
            && (v'.cells[id] == Refused(NoConnection) <==> capacity == 0)
            && (v'.cells[id] == Refused(ReservationLimitReached)
                <==> capacity > 0 && |v.reservations| == capacity
                     && forall i :: 0 <= i < capacity ==> Open(v.cells, v.reservations[i]))
            && (Open(v'.cells, id) ==>
                  0 < |v'.reservations| <= capacity && v'.reservations[|v'.reservations| - 1] == id)
            && (Open(v'.cells, id) || v'.cells[id].Refused?)
  {
    NothingToRemove(v.cells, v.reservations);
  }

  /** The queue never outgrows the capacity it was built with, and nothing waits in it next to an idle connection. */
  lemma {:induction false} QueueIsBoundedAndNeeded(cfg: Config, steps: seq<Step>)
    requires cfg.Valid()
    ensures var v := Run(cfg, steps).view;
            |v.reservations| <= cfg.capacity && (v.idle == [] || v.reservations == [])
  {
    EveryRunKeepsInv(cfg, steps);
  }

  /** Requests and their processing, `n` times. */
  function Crowd(n: nat): seq<Step> {
    if n == 0 then [] else Crowd(n - 1) + [RequestCheckOut(true), TakeCheckout(false)]
  }

  predicate Crowded(s: Sys, n: nat) {
    && |s.view.reservations| == n && s.view.idle == [] && s.checkouts == []
    && s.internal == [] && s.alive && s.handle && s.owed == Nothing
    && (forall cell :: cell in s.view.cells ==> cell.Waiting?)
    && s.view.gauges == PoolState(0, n, 0, 0, 1)
  }

  lemma {:induction false} OneMoreInTheQueue(cfg: Config, s: Sys, n: nat)
    requires cfg.Valid() && n < cfg.capacity && Crowded(s, n)
    ensures Crowded(RunFrom(cfg, s, [RequestCheckOut(true), TakeCheckout(false)]), n + 1)
  {
    var s1 := Next(cfg, s, RequestCheckOut(true));
    assert s1.view.cells == s.view.cells + [Waiting] && s1.checkouts == [Request(|s.view.cells|, true)];
    FirstStep(cfg, s, RequestCheckOut(true), [TakeCheckout(false)]);
    FirstStep(cfg, s1, TakeCheckout(false), []);
  }

  lemma {:induction false} CrowdFillsTheQueue(cfg: Config, n: nat)
    requires cfg.Valid() && n <= cfg.capacity
    ensures Crowded(Run(cfg, Crowd(n)), n)
  {
    if n > 0 {
      CrowdFillsTheQueue(cfg, n - 1);
      OneMoreInTheQueue(cfg, Run(cfg, Crowd(n - 1)), n - 1);
      RunConcat(cfg, Start(cfg), Crowd(n - 1), [RequestCheckOut(true), TakeCheckout(false)]);
    }
  }

  /**
   The limit that was configured is kept by every run exactly if the deque was built with no more room than
   asked for; a deque with more room lets more reservations wait.
   */
  lemma {:induction false} ConfiguredLimitHoldsExactly(cfg: Config)
    requires cfg.Valid()
    ensures (forall steps :: |Run(cfg, steps).view.reservations| <= cfg.reservationLimit)
        <==> cfg.capacity == cfg.reservationLimit
  {
    if cfg.capacity == cfg.reservationLimit {
      forall steps ensures |Run(cfg, steps).view.reservations| <= cfg.reservationLimit {
        QueueIsBoundedAndNeeded(cfg, steps);
      }
    } else {
      CrowdFillsTheQueue(cfg, cfg.capacity);
      assert |Run(cfg, Crowd(cfg.capacity)).view.reservations| > cfg.reservationLimit;
    }
  }
}
