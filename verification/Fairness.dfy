/** First come, first served: reservations are fulfilled in order and after a bounded number of check ins. */
module Fairness {
  import opened Prelude
  import opened SubPool
  import opened System
  import opened Ledger
  import opened Conservation
  import opened Stations
  import opened Gauges
  import opened Answers

  /** How many reservations are ahead of `id`. */
  function Ahead(queue: seq<nat>, id: nat): (k: nat)
    ensures k <= |queue|
    ensures id in queue ==> k < |queue| && queue[k] == id
  {
    if queue == [] || queue[0] == id then 0 else 1 + Ahead(queue[1..], id)
  }

  /** The step makes the inner pool process a check in. */
  predicate ProcessesCheckIn(s: Sys, step: Step) {
    step.TakeInternal? && ConsumerReady(s) && s.internal != [] && CarriesCheckIn(s.internal[0])
  }

  function CountProcessed(cfg: Config, s: Sys, steps: seq<Step>): nat
    decreases |steps|
  {
    if steps == [] then 0
    else One(ProcessesCheckIn(s, steps[0])) + CountProcessed(cfg, Next(cfg, s, steps[0]), steps[1..])
  }

  lemma {:induction false} AheadOfTheFirst(queue: seq<nat>, id: nat, j: nat)
    requires j < |queue| && queue[j] == id
    ensures Ahead(queue, id) <= j
  {
    if queue[0] != id {
      AheadOfTheFirst(queue[1..], id, j - 1);
    }
  }

  /** Dropping entries that are ahead moves `id` forward. */
  lemma {:induction false} AheadAfterDrop(queue: seq<nat>, id: nat, n: nat)
    requires id in queue && n <= Ahead(queue, id)
    ensures id in queue[n..] && Ahead(queue[n..], id) == Ahead(queue, id) - n
  {
    if n > 0 {
      assert queue[0] != id;
      AheadAfterDrop(queue[1..], id, n - 1);
      assert queue[n..] == queue[1..][n - 1..];
    }
  }

  lemma {:induction false} AheadIsElsewhere(queue: seq<nat>, id: nat, k: nat)
    requires k < Ahead(queue, id)
    ensures queue[k] != id
  {
    if k > 0 {
      AheadIsElsewhere(queue[1..], id, k - 1);
    }
  }

  lemma {:induction false} AheadAfterPush(queue: seq<nat>, id: nat, other: nat)
    requires id in queue
    ensures Ahead(queue + [other], id) == Ahead(queue, id)
  {
    if queue[0] != id {
      AheadAfterPush(queue[1..], id, other);
      assert (queue + [other])[1..] == queue[1..] + [other];
    }
  }

  lemma {:induction false} AheadAfterCleanup(cells: seq<Cell>, queue: seq<nat>, id: nat)
    requires id in queue && Open(cells, id)
    ensures id in Retained(cells, queue) && Ahead(Retained(cells, queue), id) <= Ahead(queue, id)
  {
    if queue[0] != id {
      AheadAfterCleanup(cells, queue[1..], id);
      if Open(cells, queue[0]) {
        assert Retained(cells, queue)[1..] == Retained(cells, queue[1..]);
      } else {
        assert Retained(cells, queue) == Retained(cells, queue[1..]);
      }
    }
  }

  /** Still waiting, and at least `progress` places further ahead. */
  predicate Advances(v: View, v': View, id: nat, progress: nat) {
    Open(v'.cells, id) && id in v'.reservations && Ahead(v'.reservations, id) + progress <= Ahead(v.reservations, id)
  }

  lemma {:induction false} ClosedOnesLeave(queue: seq<nat>, id: nat, k: nat)
    requires id in queue && k < Ahead(queue, id)
    ensures queue[k] != id && id in queue[k + 1..] && Ahead(queue[k + 1..], id) + 1 <= Ahead(queue, id)
  {
    AheadAfterDrop(queue, id, k + 1);
    AheadIsElsewhere(queue, id, k);
  }

  lemma {:induction false} FirstOpenIsAhead(cells: seq<Cell>, queue: seq<nat>, id: nat)
    requires Open(cells, id) && id in queue
    ensures var k := FirstOpen(cells, queue);
            k < |queue| && k <= Ahead(queue, id) && (k == Ahead(queue, id) ==> queue[k] == id)
  {
    assert queue[Ahead(queue, id)] == id;
  }

  lemma {:induction false} CheckInAdvances(v: View, m: Managed, now: Instant, id: nat)
    requires Open(v.cells, id) && id in v.reservations
    ensures var v' := OnCheckIn(v, m, now).view;
            v'.cells[id].Delivered? || Advances(v, v', id, 1)
  {
    var k := FirstOpen(v.cells, v.reservations);
    FirstOpenIsAhead(v.cells, v.reservations, id);
    if k < Ahead(v.reservations, id) {
      ClosedOnesLeave(v.reservations, id, k);
    }
  }

  lemma {:induction false} CleanupAdvances(capacity: nat, v: View, now: Instant, id: nat)
    requires Open(v.cells, id) && id in v.reservations
    ensures Advances(v, OnCleanup(capacity, v, now), id, 0)
  {
    AheadAfterCleanup(v.cells, v.reservations, id);
  }

  lemma {:induction false} CheckOutAdvances(cfg: Config, v: View, request: Request, now: Instant, races: bool, id: nat)
    requires Open(v.cells, id) && id in v.reservations && request.id != id
    ensures Advances(v, OnCheckOut(cfg, v, request, now, races).view, id, 0)
  {
    var raced := v.(cells := Race(v.cells, request.id, races));
    CleanupAdvances(cfg.capacity, raced, now, id);
    AheadAfterPush(v.reservations, id, request.id);
    AheadAfterPush(OnCleanup(cfg.capacity, raced, now).reservations, id, request.id);
  }

  /** Whoever waits in the queue is not waiting in the checkout channel as well. */
  lemma {:induction false} QueuedOnce(cfg: Config, s: Sys, id: nat)
    requires Inv(cfg, s) && Open(s.view.cells, id) && id in s.view.reservations
    ensures forall request :: request in s.checkouts ==> request.id != id
  {
    assert TicketRule(s.view.cells, id, Holds(s, Ticket(id)));
    forall request | request in s.checkouts ensures request.id != id {
      if request.id == id {
        var i :| 0 <= i < |s.checkouts| && s.checkouts[i] == request;
        var j :| 0 <= j < |s.view.reservations| && s.view.reservations[j] == id;
        AtMostOneStation(s, Ticket(id), InCheckouts(i), InQueue(j));
      }
    }
  }

  predicate HasHungUp(cells: seq<Cell>, id: nat) {
    id < |cells| && cells[id].HungUp?
  }

  /** The request has been answered with a connection. */
  predicate IsServed(cells: seq<Cell>, id: nat) {
    id < |cells| && Stage(cells[id]) >= 1
  }

  lemma {:induction false} ReleaseLeavesTheQueue(s: Sys, i: nat, managed: Managed)
    requires i < |s.view.cells|
    ensures Release(s, i, managed).view.reservations == s.view.reservations
  {
  }

  lemma {:induction false} ClientLeavesTheQueue(s: Sys, action: Action, i: nat, id: nat)
    requires i < |s.view.cells| && CellShape(s.view.cells[i]) && Open(s.view.cells, id)
    ensures var v := OnClient(s, action, i).view;
            v.reservations == s.view.reservations && (Open(v.cells, id) || HasHungUp(v.cells, id))
  {
    ClientMovesCells(s, action, i);
    match (action, s.view.cells[i])
    case (HangUp, Delivered(m)) => ReleaseLeavesTheQueue(s, i, m);
    case (BeginCommand, Held(conn, None)) => ReleaseLeavesTheQueue(s, i, ReleaseConn(conn));
    case (CommandIsLost, Held(conn, Some(running))) =>
      ReleaseLeavesTheQueue(s.(lost := s.lost + {running.id}), i, ReleaseConn(conn));
    case (DropConnection, Held(conn, None)) => ReleaseLeavesTheQueue(s, i, ReleaseConn(conn));
    case _ =>
  }

  /** Only the consumer touches the queue and answers requests. */
  lemma {:induction false} OthersLeaveTheQueue(cfg: Config, s: Sys, step: Step, id: nat)
    requires Shape(cfg, s) && Open(s.view.cells, id) && !step.TakeInternal? && !step.TakeCheckout?
    ensures Next(cfg, s, step).view.reservations == s.view.reservations
    ensures Open(Next(cfg, s, step).view.cells, id) || HasHungUp(Next(cfg, s, step).view.cells, id)
  {
    if step.Client? && step.id < |s.view.cells| {
      assert s.view.cells[step.id] in s.view.cells;
      ClientLeavesTheQueue(s, step.action, step.id, id);
    }
  }

  lemma {:induction false} TakeCheckoutAdvances(cfg: Config, s: Sys, races: bool, id: nat)
    requires Open(s.view.cells, id) && id in s.view.reservations
    requires forall request :: request in s.checkouts ==> request.id != id
    ensures Advances(s.view, Next(cfg, s, TakeCheckout(races)).view, id, 0)
  {
    if ConsumerReady(s) && s.checkouts != [] {
      CheckOutAdvances(cfg, s.view, s.checkouts[0], s.now, races, id);
    }
  }

  lemma {:induction false} TakeInternalAdvances(cfg: Config, s: Sys, id: nat)
    requires Open(s.view.cells, id) && id in s.view.reservations
    requires s.internal != [] ==> EnvelopeShape(s.internal[0])
    ensures var s' := Next(cfg, s, TakeInternal);
            || (!s'.alive && !IsServed(s'.view.cells, id))
            || (ProcessesCheckIn(s, TakeInternal) && IsServed(s'.view.cells, id))
            || Advances(s.view, s'.view, id, One(ProcessesCheckIn(s, TakeInternal)))
  {
    if ConsumerReady(s) && s.internal != [] && s.internal[0].Deliver? {
      match s.internal[0].message
      case CheckIn(m) => CheckInAdvances(s.view, m, s.now, id);
      case CleanupReservations => CleanupAdvances(cfg.capacity, s.view, s.now, id);
      case CheckAlive =>
    }
  }

  /** One step: a queued request advances, is served by a check in, or hangs up, unless the pool stops. */
  lemma {:induction false} NextAdvances(cfg: Config, s: Sys, step: Step, id: nat)
    requires Inv(cfg, s) && Open(s.view.cells, id) && id in s.view.reservations
    ensures var s' := Next(cfg, s, step);
            || (!s'.alive && !IsServed(s'.view.cells, id)) || HasHungUp(s'.view.cells, id)
            || (ProcessesCheckIn(s, step) && IsServed(s'.view.cells, id))
            || Advances(s.view, s'.view, id, One(ProcessesCheckIn(s, step)))
  {
    QueuedOnce(cfg, s, id);
    if step.TakeInternal? {
      assert s.internal != [] ==> s.internal[0] in s.internal;
      TakeInternalAdvances(cfg, s, id);
    } else if step.TakeCheckout? {
      TakeCheckoutAdvances(cfg, s, step.races, id);
    } else {
      OthersLeaveTheQueue(cfg, s, step, id);
    }
  }

  lemma {:induction false} DeadStaysDead(cfg: Config, s: Sys, steps: seq<Step>)
    requires !s.alive
    ensures !RunFrom(cfg, s, steps).alive
    decreases |steps|
  {
    if steps != [] {
      assert !Next(cfg, s, steps[0]).alive;
      DeadStaysDead(cfg, Next(cfg, s, steps[0]), steps[1..]);
    }
  }

  /** A dead pool processes no check in. */
  lemma {:induction false} DeadProcessesNothing(cfg: Config, s: Sys, steps: seq<Step>)
    requires !s.alive
    ensures CountProcessed(cfg, s, steps) == 0
    decreases |steps|
  {
    if steps != [] {
      DeadStaysDead(cfg, s, [steps[0]]);
      FirstStep(cfg, s, steps[0], []);
      DeadProcessesNothing(cfg, Next(cfg, s, steps[0]), steps[1..]);
    }
  }

  lemma {:induction false} OutcomeIsFinal(cfg: Config, s: Sys, steps: seq<Step>, id: nat)
    requires Shape(cfg, s) && (HasHungUp(s.view.cells, id) || IsServed(s.view.cells, id))
    ensures HasHungUp(s.view.cells, id) ==> HasHungUp(RunFrom(cfg, s, steps).view.cells, id)
    ensures IsServed(s.view.cells, id) ==> IsServed(RunFrom(cfg, s, steps).view.cells, id)
  {
    CellsMoveOn(cfg, s, steps);
    assert MayBecome(s.view.cells[id], RunFrom(cfg, s, steps).view.cells[id]);
  }

  lemma {:induction false} ServedEventually(cfg: Config, s: Sys, steps: seq<Step>, id: nat)
    requires cfg.Valid() && Inv(cfg, s) && Open(s.view.cells, id) && id in s.view.reservations
    requires CountProcessed(cfg, s, steps) > Ahead(s.view.reservations, id)
    ensures var s' := RunFrom(cfg, s, steps);
            HasHungUp(s'.view.cells, id) || IsServed(s'.view.cells, id)
    decreases |steps|
  {
    var s1 := Next(cfg, s, steps[0]);
    NextAdvances(cfg, s, steps[0], id);
    NextKeepsInv(cfg, s, steps[0]);
    if HasHungUp(s1.view.cells, id) || IsServed(s1.view.cells, id) {
      OutcomeIsFinal(cfg, s1, steps[1..], id);
    } else if !s1.alive {
      DeadProcessesNothing(cfg, s1, steps[1..]);
    } else {
      ServedEventually(cfg, s1, steps[1..], id);
    }
  }

  /**
   Bounded waiting. In every reachable state a request with `k` others ahead of it in the queue has got its connection
   after at most `k + 1` processed check ins, whatever else happens, unless it hangs up.
   */
  lemma {:induction false} ServedWithinBound(cfg: Config, before: seq<Step>, after: seq<Step>, id: nat)
    requires cfg.Valid()
    requires Open(Run(cfg, before).view.cells, id) && id in Run(cfg, before).view.reservations
    requires CountProcessed(cfg, Run(cfg, before), after) > Ahead(Run(cfg, before).view.reservations, id)
    ensures var s := Run(cfg, before + after);
            HasHungUp(s.view.cells, id) || IsServed(s.view.cells, id)
  {
    EveryRunKeepsInv(cfg, before);
    ServedEventually(cfg, Run(cfg, before), after, id);
    RunConcat(cfg, Start(cfg), before, after);
  }

  lemma {:induction false} AtMostOneInQueue(cfg: Config, s: Sys, id: nat, i: nat, j: nat)
    requires Inv(cfg, s) && Open(s.view.cells, id)
    requires i < |s.view.reservations| && j < |s.view.reservations|
    requires s.view.reservations[i] == id && s.view.reservations[j] == id
    ensures i == j
  {
    assert TicketRule(s.view.cells, id, Holds(s, Ticket(id)));
    AtMostOneStation(s, Ticket(id), InQueue(i), InQueue(j));
  }

  lemma {:induction false} CheckInServesTheFirstOpen(v: View, m: Managed, now: Instant, id: nat)
    requires Open(v.cells, id) && IsServed(OnCheckIn(v, m, now).view.cells, id)
    ensures var k := FirstOpen(v.cells, v.reservations);
            k < |v.reservations| && v.reservations[k] == id
  {
  }

  lemma {:induction false} ServedByCheckIn(cfg: Config, s: Sys, step: Step, id: nat)
    requires Inv(cfg, s) && Open(s.view.cells, id) && id in s.view.reservations
    requires IsServed(Next(cfg, s, step).view.cells, id)
    ensures ProcessesCheckIn(s, step)
  {
    NextAdvances(cfg, s, step, id);
  }

  lemma {:induction false} FirstOpenIsServed(cfg: Config, s: Sys, step: Step, k: nat)
    requires Inv(cfg, s)
    requires k < |s.view.reservations| && Open(s.view.cells, s.view.reservations[k])
    requires IsServed(Next(cfg, s, step).view.cells, s.view.reservations[k])
    ensures ProcessesCheckIn(s, step)
    ensures forall j :: 0 <= j < k ==> !Open(s.view.cells, s.view.reservations[j])
  {
    var id := s.view.reservations[k];
    ServedByCheckIn(cfg, s, step, id);
    CheckInServesTheFirstOpen(s.view, s.internal[0].message.conn, s.now, id);
    AtMostOneInQueue(cfg, s, id, FirstOpen(s.view.cells, s.view.reservations), k);
  }

  /**
   First come, first served: in every reachable state, the step that serves a queued request processes a check in,
   and nobody ahead of that request was still listening.
   */
  lemma {:induction false} ServedInOrder(cfg: Config, steps: seq<Step>, step: Step, k: nat)
    requires cfg.Valid() && k < |Run(cfg, steps).view.reservations|
    requires Open(Run(cfg, steps).view.cells, Run(cfg, steps).view.reservations[k])
    requires IsServed(Next(cfg, Run(cfg, steps), step).view.cells, Run(cfg, steps).view.reservations[k])
    ensures var s := Run(cfg, steps);
            && ProcessesCheckIn(s, step)
            && forall j :: 0 <= j < k ==> !Open(s.view.cells, s.view.reservations[j])
  {
    EveryRunKeepsInv(cfg, steps);
    FirstOpenIsServed(cfg, Run(cfg, steps), step, k);
  }
}
