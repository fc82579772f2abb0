/** Over all runs of commands that succeed, fail or are cancelled, no client ever gets a dirty connection. */
module CleanConnections {
  import opened SubPool
  import opened System
  import opened Ledger
  import opened Balance
  import opened Conservation
  import opened Stations
  import opened Gauges

  lemma {:induction false} NextKeepsLost(cfg: Config, s: Sys, step: Step)
    ensures s.lost <= Next(cfg, s, step).lost
  {
    if step.Client? && step.id < |s.view.cells| {
      OnlyLossLoses(s, step.action, step.id);
    }
  }

  lemma {:induction false} RunKeepsLost(cfg: Config, s: Sys, steps: seq<Step>)
    ensures s.lost <= RunFrom(cfg, s, steps).lost
    decreases |steps|
  {
    if steps != [] {
      NextKeepsLost(cfg, s, steps[0]);
      RunKeepsLost(cfg, Next(cfg, s, steps[0]), steps[1..]);
    }
  }

  /** A connection given up in the middle of a command is never seen again, in no station of no later state. */
  lemma {:induction false} LostConnectionsStayLost(cfg: Config, before: seq<Step>, after: seq<Step>, c: nat,
                                                   station: Station)
    requires cfg.Valid() && c in Run(cfg, before).lost
    ensures !Has(Run(cfg, before + after), station, Link(c))
  {
    RunConcat(cfg, Start(cfg), before, after);
    RunKeepsLost(cfg, Run(cfg, before), after);
    EveryRunKeepsInv(cfg, before + after);
    var s := Run(cfg, before + after);
    assert Holds(s, Link(c)) + One(c in s.lost) <= One(c < s.nextConn);
    if Has(s, station, Link(c)) {
      StationIsWeighed(s, station, Link(c));
    }
  }

  lemma {:induction false} OnlyLossLoses(s: Sys, action: Action, id: nat)
    requires id < |s.view.cells|
    ensures OnClient(s, action, id).lost
         == if action.CommandIsLost? && s.view.cells[id].Held? && s.view.cells[id].running.Some?
            then s.lost + {s.view.cells[id].running.value.id} else s.lost
  {
  }

  /** Losing a connection is what a failed or cancelled command does, and nothing else does it. */
  lemma {:induction false} OnlyCommandsLose(cfg: Config, s: Sys, step: Step, c: nat)
    requires c !in s.lost
    ensures c in Next(cfg, s, step).lost
        <==> step.Client? && step.action.CommandIsLost? && step.id < |s.view.cells| && s.view.cells[step.id].Held?
             && s.view.cells[step.id].running.Some? && s.view.cells[step.id].running.value.id == c
  {
    if step.Client? && step.id < |s.view.cells| {
      OnlyLossLoses(s, step.action, step.id);
    }
  }

  /**
   Whatever is idle, on its way in or handed out is clean, and a client's connection has its value
   exactly when its state is ok, which is exactly when no command runs.
   */
  lemma {:induction false} OnlyCleanConnectionsAreOffered(cfg: Config, steps: seq<Step>)
    requires cfg.Valid()
    ensures var s := Run(cfg, steps);
            && (forall m :: m in s.view.idle ==> m.value.Some? && !m.value.value.dirty)
            && (forall envelope :: envelope in s.internal && CarriesCheckIn(envelope) ==>
                  envelope.message.conn.value.Some? && !envelope.message.conn.value.value.dirty)
            && (forall cell :: cell in s.view.cells && cell.Delivered? ==>
                  cell.managed.value.Some? && !cell.managed.value.value.dirty)
            && (forall cell :: cell in s.view.cells && cell.Held? ==>
                  && (cell.conn.managed.value.Some? <==> cell.conn.stateOk)
                  && (cell.conn.stateOk <==> cell.running.None?)
                  && (cell.conn.stateOk ==> !cell.conn.managed.value.value.dirty))
  {
    EveryRunKeepsInv(cfg, steps);
    var s := Run(cfg, steps);
    forall envelope | envelope in s.internal && CarriesCheckIn(envelope)
      ensures envelope.message.conn.value.Some? && !envelope.message.conn.value.value.dirty
    {
      assert EnvelopeShape(envelope);
    }
    forall cell | cell in s.view.cells ensures CellShape(cell) {
    }
  }

  /** No two stations ever share a connection. */
  lemma {:induction false} ConnectionsAreNotShared(cfg: Config, steps: seq<Step>, c: nat, one: Station, other: Station)
    requires cfg.Valid()
    requires Has(Run(cfg, steps), one, Link(c)) && Has(Run(cfg, steps), other, Link(c))
    ensures one == other
  {
    EveryRunKeepsInv(cfg, steps);
    var s := Run(cfg, steps);
    assert Holds(s, Link(c)) + One(c in s.lost) <= One(c < s.nextConn);
    AtMostOneStation(s, Link(c), one, other);
  }

  /**
   No connection gets lost otherwise: as long as the pool is alive, every connection that was ever made is in exactly
   one station, unless it was given up in the middle of a command.
   */
  lemma {:induction false} EveryConnectionIsSomewhere(cfg: Config, steps: seq<Step>, c: nat)
    requires cfg.Valid() && Run(cfg, steps).alive
    ensures var s := Run(cfg, steps);
            && ((exists home :: Has(s, home, Link(c))) <==> c < s.nextConn && c !in s.lost)
            && (forall one, other :: Has(s, one, Link(c)) && Has(s, other, Link(c)) ==> one == other)
  {
    EveryRunKeepsInv(cfg, steps);
    var s := Run(cfg, steps);
    assert Holds(s, Link(c)) + One(c in s.lost) == One(c < s.nextConn);
    if c < s.nextConn && c !in s.lost {
      var home := SomeStation(s, Link(c));
    }
    if home :| Has(s, home, Link(c)) {
      StationIsWeighed(s, home, Link(c));
    }
    forall one, other | Has(s, one, Link(c)) && Has(s, other, Link(c)) ensures one == other {
      ConnectionsAreNotShared(cfg, steps, c, one, other);
    }
  }

  /** A command is lost, and the drop of its connection runs to its end. */
  function BreakSteps(id: nat): seq<Step> {
    [Client(id, CommandIsLost), Client(id, CountOut), Client(id, SpawnCreateLoop)]
  }

  /** The connection of `id` left both gauges that counted it, its slot is to be filled anew, and that is all. */
  predicate IsReplaced(s: Sys, s': Sys, id: nat)
    requires id < |s.view.cells| && s.view.cells[id].Held?
  {
    && s.view.cells[id].conn.managed.factory.Some?
    && s'.tasks == s.tasks + [Probing(s.view.cells[id].conn.managed.factory.value, 1)]
    && s'.view == s.view.(gauges := s.view.gauges.(connections := s.view.gauges.connections - 1,
                                                   inFlight := s.view.gauges.inFlight - 1),
                          cells := s.view.cells[id := Finished])
    && s'.internal == s.internal && s'.checkouts == s.checkouts && s'.alive == s.alive
  }

  lemma {:induction false} BrokenDrop(cfg: Config, s: Sys, id: nat)
    requires id < |s.view.cells| && CellShape(s.view.cells[id])
    requires s.view.cells[id].Held? && s.view.cells[id].running.Some?
    ensures IsReplaced(s, RunFrom(cfg, s, BreakSteps(id)), id)
  {
    var s1 := Next(cfg, s, Client(id, CommandIsLost));
    LossEffect(s, id);
    var s2 := Next(cfg, s1, Client(id, CountOut));
    CountOutEffect(s1, id);
    FirstStep(cfg, s, Client(id, CommandIsLost), [Client(id, CountOut), Client(id, SpawnCreateLoop)]);
    FirstStep(cfg, s1, Client(id, CountOut), [Client(id, SpawnCreateLoop)]);
    FirstStep(cfg, s2, Client(id, SpawnCreateLoop), []);
  }

  /** In every reachable state, a broken drop counts the connection out and starts over with its slot. */
  lemma {:induction false} BrokenConnectionIsReplaced(cfg: Config, steps: seq<Step>, id: nat)
    requires cfg.Valid() && id < |Run(cfg, steps).view.cells|
    requires Run(cfg, steps).view.cells[id].Held? && Run(cfg, steps).view.cells[id].running.Some?
    ensures IsReplaced(Run(cfg, steps), Run(cfg, steps + BreakSteps(id)), id)
  {
    EveryRunKeepsInv(cfg, steps);
    var s := Run(cfg, steps);
    assert s.view.cells[id] in s.view.cells;
    BrokenDrop(cfg, s, id);
    RunConcat(cfg, Start(cfg), steps, BreakSteps(id));
  }
}
