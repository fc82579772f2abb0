/** A checkout from the dispatcher through one of several sub pools to its answer. */
module EndToEnd {
  import opened Prelude
  import opened SubPool
  import opened System
  import opened Conservation
  import opened Answers
  import opened Stopping
  import opened Constraints
  import D = Dispatch

  /** What an attempt finds at the checkout channel of a sub pool in a given state. */
  function ChannelOf(cfg: Config, s: Sys): D.Channel {
    if !s.alive then D.Gone else if |s.checkouts| >= cfg.checkoutQueueSize then D.Full else D.Accepts
  }

  lemma {:induction false} NextKeepsAsked(cfg: Config, s: Sys, step: Step)
    ensures s.asked <= Next(cfg, s, step).asked
  {
    if step.Client? && step.id < |s.view.cells| {
      ClientsKeepThePool(s, step.action, step.id);
    }
  }

  lemma {:induction false} RunKeepsAsked(cfg: Config, s: Sys, steps: seq<Step>)
    ensures s.asked <= RunFrom(cfg, s, steps).asked
    decreases |steps|
  {
    if steps != [] {
      NextKeepsAsked(cfg, s, steps[0]);
      RunKeepsAsked(cfg, Next(cfg, s, steps[0]), steps[1..]);
    }
  }

  /** Whether a request may be reserved is decided when it is made. */
  lemma {:induction false} StillAsked(cfg: Config, before: seq<Step>, allowed: bool, after: seq<Step>, id: nat)
    requires cfg.Valid() && Run(cfg, before).handle && id == |Run(cfg, before).view.cells|
    ensures var s := Run(cfg, before + [RequestCheckOut(allowed)] + after);
            forall request :: request in s.checkouts && request.id == id ==> request.reservationAllowed == allowed
  {
    var s := Run(cfg, before);
    var asked := before + [RequestCheckOut(allowed)];
    EveryRunKeepsInv(cfg, before);
    EveryRunKeepsInv(cfg, asked + after);
    FirstStep(cfg, s, RequestCheckOut(allowed), []);
    RunConcat(cfg, Start(cfg), before, [RequestCheckOut(allowed)]);
    RunConcat(cfg, Start(cfg), asked, after);
    assert Run(cfg, asked).asked == s.asked + [allowed];
    RunKeepsAsked(cfg, Run(cfg, asked), after);
  }

  /**
   Being willing to wait is not enough. A dispatch over several sub pools for a caller who waits, whose first sub pool
   accepts the request, ends when that sub pool takes the request: with NoConnection exactly if no connection is idle
   then, and with one otherwise.
   */
  lemma {:induction false} WaitingIsDecidedAtOnce(cfg: Config, before: seq<Step>, after: seq<Step>, n: nat,
                                                  position: nat, world: D.World, outcome: D.Outcome,
                                                  log: seq<D.Attempt>)
    requires cfg.Valid() && n >= 2 && Run(cfg, before).handle
    requires world.finds(0) == ChannelOf(cfg, Run(cfg, before)) == D.Accepts
    requires D.IsSweep(n, position, Wait, world, outcome, log)
    ensures outcome == D.Sent(position % n, false)
    ensures var id := |Run(cfg, before).view.cells|;
            var s := Run(cfg, before + [RequestCheckOut(outcome.reservationAllowed)] + after);
            ConsumerReady(s) && s.checkouts != [] && s.checkouts[0].id == id && Open(s.view.cells, id) ==>
              var cell := Next(cfg, s, TakeCheckout(false)).view.cells[id];
              && (cell == Refused(NoConnection) <==> s.view.idle == [])
              && (cell.Delivered? <==> s.view.idle != [])
  {
    D.WillingToWaitIsNotEnough(n, position, Wait, world, outcome, log);
    var id := |Run(cfg, before).view.cells|;
    StillAsked(cfg, before, false, after, id);
    var s := Run(cfg, before + [RequestCheckOut(false)] + after);
    if ConsumerReady(s) && s.checkouts != [] && s.checkouts[0].id == id && Open(s.view.cells, id) {
      assert s.checkouts[0] in s.checkouts;
      UnreservedIsSettledAtOnce(cfg, s, false);
    }
  }

  const WILLING: D.World := D.World(_ => D.Accepts, _ => 0, _ => 0)

  /** It does happen: while the first connections are being made, a caller who waits ends with NoConnection. */
  lemma {:induction false} WaitingEndsWithNothing(cfg: Config, n: nat, position: nat)
    requires cfg.Valid() && n >= 2
    ensures D.IsSweep(n, position, Wait, WILLING, D.Sent(position % n, false),
                      [D.Attempt(position % n, Immediately)])
    ensures ChannelOf(cfg, Start(cfg)) == D.Accepts
    ensures Run(cfg, [RequestCheckOut(false), TakeCheckout(false)]).view.cells == [Refused(NoConnection)]
  {
    assert D.Planned(n, position, Wait, 0) == D.Attempt(position % n, Immediately);
    var s1 := Next(cfg, Start(cfg), RequestCheckOut(false));
    assert s1.view.cells == [Waiting] && s1.checkouts == [Request(0, false)];
    FirstStep(cfg, Start(cfg), RequestCheckOut(false), [TakeCheckout(false)]);
    FirstStep(cfg, s1, TakeCheckout(false), []);
  }
}
