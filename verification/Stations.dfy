/** Where slots, connections and senders are: everything that circulates is in one place at a time. */
module Stations {
  import opened SubPool
  import opened System
  import opened Ledger
  import opened Conservation
  import opened Tally

  /** A place where a slot, a connection or a sender can be. */
  datatype Station =
    | AtTask(i: nat)
    | InChannel(i: nat)
    | InCheckouts(i: nat)
    | AtIdle(i: nat)
    | InQueue(i: nat)
    | AtCell(i: nat)

  predicate Has(s: Sys, station: Station, t: Token) {
    match station
    case AtTask(i) => i < |s.tasks| && TaskWeight(s.tasks[i], t) > 0
    case InChannel(i) => i < |s.internal| && EnvelopeWeight(s.internal[i], t) > 0
    case InCheckouts(i) => i < |s.checkouts| && RequestWeight(s.checkouts[i], t) > 0
    case AtIdle(i) => i < |s.view.idle| && IdleWeight(s.view.idle[i], t) > 0
    case InQueue(i) => i < |s.view.reservations| && ReservationWeight(s.view.reservations[i], t) > 0
    case AtCell(i) => i < |s.view.cells| && CellWeight(s.view.cells[i], t) > 0
  }

  lemma {:induction false} OneInList<T>(xs: seq<T>, weight: (T, Token) -> nat, t: Token, i: nat, j: nat)
    requires i < |xs| && j < |xs| && weight(xs[i], t) > 0 && weight(xs[j], t) > 0
    requires Sum(xs, weight, t) <= 1
    ensures i == j
  {
    if i < j {
      SumPair<T, Token>(xs, i, j, weight, t);
    } else if j < i {
      SumPair<T, Token>(xs, j, i, weight, t);
    }
  }

  lemma {:induction false} StationIsWeighed(s: Sys, station: Station, t: Token)
    requires Has(s, station, t)
    ensures match station
            case AtTask(_) => Sum(s.tasks, TaskWeight, t) > 0
            case InChannel(_) => Sum(s.internal, EnvelopeWeight, t) > 0
            case InCheckouts(_) => Sum(s.checkouts, RequestWeight, t) > 0
            case AtIdle(_) => Sum(s.view.idle, IdleWeight, t) > 0
            case InQueue(_) => Sum(s.view.reservations, ReservationWeight, t) > 0
            case AtCell(_) => Sum(s.view.cells, CellWeight, t) > 0
  {
    SumPositive(s.tasks, TaskWeight, t);
    SumPositive(s.internal, EnvelopeWeight, t);
    SumPositive(s.checkouts, RequestWeight, t);
    SumPositive(s.view.idle, IdleWeight, t);
    SumPositive(s.view.reservations, ReservationWeight, t);
    SumPositive(s.view.cells, CellWeight, t);
  }

  /** What exists at most once is in at most one place. */
  lemma {:induction false} AtMostOneStation(s: Sys, t: Token, one: Station, other: Station)
    requires Holds(s, t) <= 1
    requires Has(s, one, t) && Has(s, other, t)
    ensures one == other
  {
    StationIsWeighed(s, one, t);
    StationIsWeighed(s, other, t);
    match (one, other)
    case (AtTask(i), AtTask(j)) => OneInList(s.tasks, TaskWeight, t, i, j);
    case (InChannel(i), InChannel(j)) => OneInList(s.internal, EnvelopeWeight, t, i, j);
    case (InCheckouts(i), InCheckouts(j)) => OneInList(s.checkouts, RequestWeight, t, i, j);
    case (AtIdle(i), AtIdle(j)) => OneInList(s.view.idle, IdleWeight, t, i, j);
    case (InQueue(i), InQueue(j)) => OneInList(s.view.reservations, ReservationWeight, t, i, j);
    case (AtCell(i), AtCell(j)) => OneInList(s.view.cells, CellWeight, t, i, j);
    case _ =>
  }

  /** What is held at all is held somewhere. */
  lemma {:induction false} SomeStation(s: Sys, t: Token) returns (station: Station)
    requires Holds(s, t) > 0
    ensures Has(s, station, t)
  {
    SumPositive(s.tasks, TaskWeight, t);
    SumPositive(s.internal, EnvelopeWeight, t);
    SumPositive(s.checkouts, RequestWeight, t);
    SumPositive(s.view.idle, IdleWeight, t);
    SumPositive(s.view.reservations, ReservationWeight, t);
    SumPositive(s.view.cells, CellWeight, t);
    if i :| 0 <= i < |s.tasks| && TaskWeight(s.tasks[i], t) > 0 {
      station := AtTask(i);
    } else if i :| 0 <= i < |s.internal| && EnvelopeWeight(s.internal[i], t) > 0 {
      station := InChannel(i);
    } else if i :| 0 <= i < |s.checkouts| && RequestWeight(s.checkouts[i], t) > 0 {
      station := InCheckouts(i);
    } else if i :| 0 <= i < |s.view.idle| && IdleWeight(s.view.idle[i], t) > 0 {
      station := AtIdle(i);
    } else if i :| 0 <= i < |s.view.reservations| && ReservationWeight(s.view.reservations[i], t) > 0 {
      station := InQueue(i);
    } else {
      var i :| 0 <= i < |s.view.cells| && CellWeight(s.view.cells[i], t) > 0;
      station := AtCell(i);
    }
  }

  /**
   Slot conservation. As long as the pool is alive every slot is in exactly one place, whatever
   factories fail, receivers leave or connections break; and no place ever invents a slot.
   */
  lemma {:induction false} EverySlotHasOneHome(cfg: Config, steps: seq<Step>, k: nat)
    requires cfg.Valid()
    ensures var s := Run(cfg, steps);
            && (s.alive && k < cfg.desiredPoolSize ==> exists home :: Has(s, home, Slot(k)))
            && (forall one, other :: Has(s, one, Slot(k)) && Has(s, other, Slot(k)) ==> one == other)
            && (k >= cfg.desiredPoolSize ==> forall home :: !Has(s, home, Slot(k)))
  {
    EveryRunKeepsInv(cfg, steps);
    var s := Run(cfg, steps);
    assert Holds(s, Slot(k)) <= One(k < cfg.desiredPoolSize);
    if s.alive && k < cfg.desiredPoolSize {
      var home := SomeStation(s, Slot(k));
    }
    forall one, other | Has(s, one, Slot(k)) && Has(s, other, Slot(k)) ensures one == other {
      AtMostOneStation(s, Slot(k), one, other);
    }
    if k >= cfg.desiredPoolSize {
      forall home ensures !Has(s, home, Slot(k)) {
        if Has(s, home, Slot(k)) {
          StationIsWeighed(s, home, Slot(k));
        }
      }
    }
  }
}
