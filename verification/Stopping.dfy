/** What stopping a pool leaves behind, at once and in the end. */
module Stopping {
  import opened Prelude
  import opened SubPool
  import opened System
  import opened Ledger
  import opened Conservation
  import opened Gauges
  import opened Answers
  import opened Fairness
  import opened Reservations
  import opened Shapes
  import opened Tally

  predicate TakesStop(s: Sys, step: Step) {
    step.TakeInternal? && ConsumerReady(s) && s.internal != [] && s.internal[0].Stop?
  }

  lemma {:induction false} ReleaseKeepsThePool(s: Sys, id: nat, managed: Managed)
    requires id < |s.view.cells|
    ensures var s' := Release(s, id, managed);
            s'.alive == s.alive && s'.handle == s.handle && s'.asked == s.asked
  {
  }

  lemma {:induction false} ClientsKeepThePool(s: Sys, action: Action, id: nat)
    requires id < |s.view.cells|
    ensures var s' := OnClient(s, action, id);
            s'.alive == s.alive && s'.handle == s.handle && s'.asked == s.asked
  {
    match (action, s.view.cells[id])
    case (HangUp, Delivered(m)) => ReleaseKeepsThePool(s, id, m);
    case (BeginCommand, Held(conn, None)) => ReleaseKeepsThePool(s, id, ReleaseConn(conn));
    case (CommandIsLost, Held(conn, Some(running))) =>
      ReleaseKeepsThePool(s.(lost := s.lost + {running.id}), id, ReleaseConn(conn));
    case (DropConnection, Held(conn, None)) => ReleaseKeepsThePool(s, id, ReleaseConn(conn));
    case _ =>
  }

  /** Taking the stop message is the one step that ends a pool. */
  lemma {:induction false} OnlyStopEndsThePool(cfg: Config, s: Sys, step: Step)
    requires s.alive
    ensures !Next(cfg, s, step).alive <==> TakesStop(s, step)
  {
    if step.Client? && step.id < |s.view.cells| {
      ClientsKeepThePool(s, step.action, step.id);
    }
  }

  lemma {:induction false} ShutdownEffect(s: Sys)
    ensures var s' := Shutdown(s);
            && s'.view.gauges
               == s.view.gauges.(inFlight := s.view.gauges.inFlight - Usize(s.view.gauges.inFlight),
                                 idle := s.view.gauges.idle - |s.view.idle|,
                                 connections := s.view.gauges.connections - |s.view.idle|)
            && !s'.alive && s'.tasks == s.tasks
            && s'.view.idle == [] && s'.view.reservations == [] && s'.internal == [] && s'.checkouts == []
  {
  }

  lemma {:induction false} GaugesAtTheStop(cfg: Config, s: Sys)
    requires Inv(cfg, s) && ConsumerReady(s) && Stop in s.internal
    ensures s.view.gauges
         == PoolState(s.view.gauges.inFlight, |s.view.reservations|,
                      Census(s.view.cells, OwnsConnection) + CountReturning(s.internal) + |s.view.idle|,
                      |s.view.idle|, 0)
  {
    WhereFlightsAre(s);
    CellsInFigures(cfg, s);
  }

  lemma {:induction false} StopInFigures(cfg: Config, s: Sys)
    requires cfg.Valid() && Inv(cfg, s) && TakesStop(s, TakeInternal)
    ensures var s' := Next(cfg, s, TakeInternal);
            && s'.view.gauges == PoolState(0, |s.view.reservations|,
                                           Census(s.view.cells, OwnsConnection) + CountReturning(s.internal), 0, 0)
            && !s'.alive && s'.tasks == s.tasks
            && s'.view.idle == [] && s'.view.reservations == [] && s'.internal == [] && s'.checkouts == []
  {
    assert s.internal[0] in s.internal;
    GaugesAtTheStop(cfg, s);
    StopReadsTrueGauge(cfg, s);
    ShutdownEffect(s.(internal := s.internal[1..]));
  }

  lemma {:induction false} StopAnswersEverybody(cfg: Config, s: Sys)
    requires Inv(cfg, s) && TakesStop(s, TakeInternal)
    ensures var cells := Next(cfg, s, TakeInternal).view.cells;
            && |cells| == |s.view.cells|
            && forall id: nat | id < |s.view.cells| ::
                 cells[id] == if s.view.cells[id].Waiting? then Refused(NoPool) else s.view.cells[id]
  {
    ShutdownLeavesNobodyWaiting(cfg, s, s.(internal := s.internal[1..]));
  }

  /**
   Exactness of the stop. No connection is idle any more and nothing counts as idle or in flight; the
   connections that clients own or have sent back still count as connections, and the reservations gauge
   stays; every waiting request learns that there is no pool and everybody else keeps what they have.
   */
  lemma {:induction false} StopIsExact(cfg: Config, steps: seq<Step>)
    requires cfg.Valid() && TakesStop(Run(cfg, steps), TakeInternal)
    ensures var s := Run(cfg, steps);
            var s' := Next(cfg, s, TakeInternal);
            && !s'.alive && s'.tasks == s.tasks
            && s'.view.idle == [] && s'.view.reservations == [] && s'.internal == [] && s'.checkouts == []
            && s'.view.gauges == PoolState(0, |s.view.reservations|,
                                           Census(s.view.cells, OwnsConnection) + CountReturning(s.internal), 0, 0)
            && |s'.view.cells| == |s.view.cells|
            && (forall id: nat | id < |s.view.cells| ::
                  s'.view.cells[id] == if s.view.cells[id].Waiting? then Refused(NoPool) else s.view.cells[id])
  {
    EveryRunKeepsInv(cfg, steps);
    StopInFigures(cfg, Run(cfg, steps));
    StopAnswersEverybody(cfg, Run(cfg, steps));
  }

  // ===== After the stop =====

  /** After the stop, `in_flight` only ever falls: each broken connection is counted out of a gauge that is zero. */
  lemma {:induction false} DeadGaugeFalls(cfg: Config, s: Sys, step: Step)
    requires Shape(cfg, s) && !s.alive
    ensures Next(cfg, s, step).view.gauges.inFlight <= s.view.gauges.inFlight
  {
  }

  ghost predicate NotAboveZero(s: Sys) {
    !s.alive ==> s.view.gauges.inFlight <= 0
  }

  lemma {:induction false} RunStaysBelow(cfg: Config, s: Sys, steps: seq<Step>)
    requires cfg.Valid() && Inv(cfg, s) && NotAboveZero(s)
    ensures NotAboveZero(RunFrom(cfg, s, steps))
    decreases |steps|
  {
    if steps != [] {
      var s' := Next(cfg, s, steps[0]);
      NextKeepsInv(cfg, s, steps[0]);
      if s.alive {
        OnlyStopEndsThePool(cfg, s, steps[0]);
        if TakesStop(s, steps[0]) {
          StopReadsTrueGauge(cfg, s);
        }
      } else {
        DeadGaugeFalls(cfg, s, steps[0]);
      }
      RunStaysBelow(cfg, s', steps[1..]);
    }
  }

  /**
   The gauges of a dead pool: connections are those that clients still own and those closed on their way back,
   and `in_flight` has fallen below zero by as many as broke since the stop.
   */
  lemma {:induction false} DeadGaugesAgree(cfg: Config, steps: seq<Step>)
    requires cfg.Valid() && !Run(cfg, steps).alive
    ensures var s := Run(cfg, steps);
            var gauges := s.view.gauges;
            && gauges.idle == 0 && gauges.pools == 0 && gauges.reservations == s.reservedAtStop
            && gauges.connections == Census(s.view.cells, OwnsConnection) + s.orphaned
            && gauges.inFlight == Census(s.view.cells, IsInFlight) + s.orphaned - s.inFlightAtStop <= 0
  {
    EveryRunKeepsInv(cfg, steps);
    var s := Run(cfg, steps);
    WhereFlightsAre(s);
    CellsInFigures(cfg, s);
    StartKeepsInv(cfg);
    RunStaysBelow(cfg, Start(cfg), steps);
  }

  /**
   Once every client is done with its connection, all gauges of a stopped pool read zero exactly if nothing was
   in flight and nothing reserved when the stop was taken. Otherwise they never do: a connection that comes back
   stays in `connections`, and one that breaks makes `in_flight` wrap around.
   */
  lemma {:induction false} GaugesEndAtZeroExactly(cfg: Config, steps: seq<Step>)
    requires cfg.Valid() && !Run(cfg, steps).alive
    requires forall cell :: cell in Run(cfg, steps).view.cells ==> !IsInFlight(cell)
    ensures var s := Run(cfg, steps);
            s.view.gauges == ZERO_STATE <==> s.inFlightAtStop == 0 && s.reservedAtStop == 0
  {
    var s := Run(cfg, steps);
    DeadGaugesAgree(cfg, steps);
    CensusEmpty(s.view.cells, IsInFlight);
    CensusEmpty(s.view.cells, OwnsConnection);
  }

  lemma {:induction false} StopACrowd(cfg: Config, s: Sys, n: nat)
    requires cfg.Valid() && Inv(cfg, s) && Crowded(s, n)
    ensures var s' := Next(cfg, Next(cfg, s, DropHandle), TakeInternal);
            && !s'.alive && (forall cell :: cell in s'.view.cells ==> cell == Refused(NoPool))
            && s'.view.gauges == ZERO_STATE.(reservations := n)
  {
    var s1 := Next(cfg, s, DropHandle);
    assert s1.internal == [Stop] && s1.view.cells == s.view.cells && s1.view.reservations == s.view.reservations;
    NextKeepsInv(cfg, s, DropHandle);
    StopInFigures(cfg, s1);
    CensusEmpty(s.view.cells, OwnsConnection);
    assert CountReturning([Stop]) == 0;
    StopAnswersEverybody(cfg, s1);
    var cells := Next(cfg, s1, TakeInternal).view.cells;
    forall cell | cell in cells ensures cell == Refused(NoPool) {
      var id: nat :| id < |cells| && cells[id] == cell;
      assert s.view.cells[id] in s.view.cells;
    }
  }

  /** And they do end otherwise: whatever is reserved at the stop is never counted out. */
  lemma {:induction false} ReservationsOutliveTheStop(cfg: Config, n: nat)
    requires cfg.Valid() && n <= cfg.capacity
    ensures var s := Run(cfg, Crowd(n) + [DropHandle, TakeInternal]);
            && !s.alive && (forall cell :: cell in s.view.cells ==> cell == Refused(NoPool))
            && s.view.gauges == ZERO_STATE.(reservations := n)
  {
    var s := Run(cfg, Crowd(n));
    CrowdFillsTheQueue(cfg, n);
    EveryRunKeepsInv(cfg, Crowd(n));
    StopACrowd(cfg, s, n);
    RunConcat(cfg, Start(cfg), Crowd(n), [DropHandle, TakeInternal]);
    FirstStep(cfg, s, DropHandle, [TakeInternal]);
    FirstStep(cfg, Next(cfg, s, DropHandle), TakeInternal, []);
  }

  lemma {:induction false} NobodyAsks(cfg: Config, s: Sys, step: Step)
    requires !s.handle
    ensures !Next(cfg, s, step).handle && Next(cfg, s, step).asked == s.asked
  {
    if step.Client? && step.id < |s.view.cells| {
      ClientsKeepThePool(s, step.action, step.id);
    }
  }

  lemma {:induction false} NobodyAsksWithoutHandle(cfg: Config, s: Sys, steps: seq<Step>)
    requires Shape(cfg, s) && !s.handle
    ensures |RunFrom(cfg, s, steps).view.cells| == |s.view.cells|
    decreases |steps|
  {
    if steps != [] {
      NobodyAsks(cfg, s, steps[0]);
      NextKeepsShape(cfg, s, steps[0]);
      NobodyAsksWithoutHandle(cfg, Next(cfg, s, steps[0]), steps[1..]);
    }
  }

  /** A dead pool hands out nothing: whoever had no connection at that time never gets one, and nobody else asks. */
  lemma {:induction false} NothingIsHandedOut(cfg: Config, before: seq<Step>, after: seq<Step>, id: nat)
    requires cfg.Valid() && !Run(cfg, before).alive
    requires !IsServed(Run(cfg, before).view.cells, id)
    ensures !IsServed(Run(cfg, before + after).view.cells, id)
  {
    EveryRunKeepsInv(cfg, before);
    RunConcat(cfg, Start(cfg), before, after);
    NobodyAsksWithoutHandle(cfg, Run(cfg, before), after);
    if id < |Run(cfg, before).view.cells| {
      NobodyWaitsForADeadPool(cfg, before, id);
      AnswersAreFinal(cfg, before, after);
    }
  }

  // ===== The create loops end =====

  function TaskWork(task: Task, unit: ()): nat {
    if task.Probing? then 1 else 2
  }

  function CellWork(cell: Cell, unit: ()): nat {
    match cell
    case Delivered(_) => 4
    case Held(_, _) => 4
    case Uncounted(_) => 3
    case Unspawned(_) => 2
    case _ => 0
  }

  /** An upper bound on what the create loops of a dead pool still do. */
  ghost function Work(s: Sys): nat {
    Sum(s.tasks, TaskWork, ()) + Sum(s.view.cells, CellWork, ())
  }

  lemma {:induction false} DeadTaskWorks(s: Sys, event: Event, i: nat)
    requires !s.alive && i < |s.tasks|
    ensures Work(OnTask(s, event, i)) < Work(s) || OnTask(s, event, i) == s
  {
    var task := s.tasks[i];
    SumRemove<Task, ()>(s.tasks, i, TaskWork);
    SumUpdate<Task, ()>(s.tasks, i, Probing(task.factory, task.attempt + 1), TaskWork);
  }

  lemma {:induction false} DeadClientWorks(s: Sys, action: Action, id: nat)
    requires !s.alive && id < |s.view.cells| && CellShape(s.view.cells[id])
    ensures Work(OnClient(s, action, id)) <= Work(s)
  {
    var s' := OnClient(s, action, id);
    ClientMovesCells(s, action, id);
    SumUpdate<Cell, ()>(s.view.cells, id, s'.view.cells[id], CellWork);
    if action.SpawnCreateLoop? && s.view.cells[id].Unspawned? {
      SumPush<Task, ()>(s.tasks, Probing(s.view.cells[id].factory, 1), TaskWork);
    }
  }

  /** How often a create loop does something along a run. */
  function CountLoopSteps(cfg: Config, s: Sys, steps: seq<Step>): nat
    decreases |steps|
  {
    if steps == [] then 0
    else
      One(steps[0].CreateLoop? && Next(cfg, s, steps[0]) != s)
      + CountLoopSteps(cfg, Next(cfg, s, steps[0]), steps[1..])
  }

  lemma {:induction false} DeadStepWorks(cfg: Config, s: Sys, step: Step)
    requires Shape(cfg, s) && !s.alive
    ensures Work(Next(cfg, s, step)) + One(step.CreateLoop? && Next(cfg, s, step) != s) <= Work(s)
  {
    match step
    case Client(id, action) =>
      if id < |s.view.cells| {
        assert CellShape(s.view.cells[id]);
        DeadClientWorks(s, action, id);
      }
    case CreateLoop(i, event) => if i < |s.tasks| { DeadTaskWorks(s, event, i); }
    case _ =>
  }

  lemma {:induction false} LoopStepsAreWork(cfg: Config, s: Sys, steps: seq<Step>)
    requires Shape(cfg, s) && !s.alive
    ensures CountLoopSteps(cfg, s, steps) + Work(RunFrom(cfg, s, steps)) <= Work(s)
    decreases |steps|
  {
    if steps != [] {
      var s' := Next(cfg, s, steps[0]);
      DeadStepWorks(cfg, s, steps[0]);
      NextKeepsShape(cfg, s, steps[0]);
      DeadStaysDead(cfg, s, [steps[0]]);
      FirstStep(cfg, s, steps[0], []);
      LoopStepsAreWork(cfg, s', steps[1..]);
    }
  }

  /**
   Whatever factories answer and clients do, the create loops of a dead pool end: all steps they ever take are bounded
   by the work that is left at that time.
   */
  lemma {:induction false} CreateLoopsEnd(cfg: Config, before: seq<Step>, after: seq<Step>)
    requires cfg.Valid() && !Run(cfg, before).alive
    ensures CountLoopSteps(cfg, Run(cfg, before), after) <= Work(Run(cfg, before))
  {
    EveryRunKeepsInv(cfg, before);
    LoopStepsAreWork(cfg, Run(cfg, before), after);
  }
}
