/** Retrying a checkout whose request did not fit into the checkout channel. */
module Retry {
  import opened Prelude
  import opened Constraints

  /** What a checkout ends with: a connection, by its number, or an error. */
  type Answer = Result<nat, CheckoutErrorKind>

  /**
   What happens to a checkout: how its i-th attempt ends, and what the clock shows when the loop decides about the
   i-th attempt, where the attempt before the loop has number zero.
   */
  datatype Trace = Trace(answers: nat -> Answer, decided: nat -> Instant)

  /** The clock does not run backwards, and the loop waits a millisecond before every decision but its first. */
  ghost predicate Plausible(trace: Trace) {
    && trace.decided(0) <= trace.decided(1)
    && forall i: nat :: i > 0 ==> trace.decided(i) + MILLISECOND <= trace.decided(i + 1)
  }

  /** `attempts` attempts were made, and the last of them did not fit into the channel; or it is over. */
  datatype Progress = Looping(attempts: nat) | Done(answer: Answer, attempts: nat)

  predicate DidNotFit(answer: Answer) {
    answer == Err(CheckoutLimitReached)
  }

  /** The attempt that is made before the loop, and the only one if retries are disabled. */
  function Begin(trace: Trace, retryEnabled: bool): Progress {
    var answer := trace.answers(0);
    if retryEnabled && DidNotFit(answer) then Looping(1) else Done(answer, 1)
  }

  /** One iteration of the loop: give up with the last error, or make another attempt. */
  function Iterate(progress: Progress, constraint: CheckoutConstraint, trace: Trace): Progress {
    match progress
    case Done(_, _) => progress
    case Looping(attempts) =>
      if !CanWaitForDispatch(constraint, trace.decided(attempts)) then Done(Err(CheckoutLimitReached), attempts)
      else
        var answer := trace.answers(attempts);
        if DidNotFit(answer) then Looping(attempts + 1) else Done(answer, attempts + 1)
  }

  /** The checkout after `n` iterations. */
  function After(n: nat, constraint: CheckoutConstraint, trace: Trace, retryEnabled: bool): Progress {
    if n == 0 then Begin(trace, retryEnabled)
    else Iterate(After(n - 1, constraint, trace, retryEnabled), constraint, trace)
  }

  /** Everything the loop has seen so far. */
  ghost predicate Story(progress: Progress, constraint: CheckoutConstraint, trace: Trace, retryEnabled: bool) {
    && progress.attempts > 0
    && (forall i :: 0 <= i < progress.attempts - 1 ==> DidNotFit(trace.answers(i)))
    && (forall i :: 0 < i < progress.attempts ==> CanWaitForDispatch(constraint, trace.decided(i)))
    && (progress.attempts > 1 ==> retryEnabled)
    && match progress
       case Looping(attempts) => retryEnabled && DidNotFit(trace.answers(attempts - 1))
       case Done(answer, attempts) =>
         && answer == trace.answers(attempts - 1)
         && (retryEnabled && DidNotFit(answer) ==> !CanWaitForDispatch(constraint, trace.decided(attempts)))
  }

  lemma {:induction false} EveryStory(n: nat, constraint: CheckoutConstraint, trace: Trace, retryEnabled: bool)
    ensures Story(After(n, constraint, trace, retryEnabled), constraint, trace, retryEnabled)
    ensures After(n, constraint, trace, retryEnabled).Looping? ==>
              After(n, constraint, trace, retryEnabled).attempts == n + 1
  {
    if n > 0 {
      EveryStory(n - 1, constraint, trace, retryEnabled);
    }
  }

  /**
   The answer of a checkout is the answer of its last attempt; all attempts before did not fit into the channel.
   So any other error ends the checkout at once and is passed on, and without retries there is one attempt.
   */
  lemma {:induction false} LastAttemptDecides(n: nat, constraint: CheckoutConstraint, trace: Trace, retryEnabled: bool)
    requires After(n, constraint, trace, retryEnabled).Done?
    ensures var Done(answer, attempts) := After(n, constraint, trace, retryEnabled);
            && attempts > 0 && answer == trace.answers(attempts - 1)
            && (forall i :: 0 <= i < attempts - 1 ==> trace.answers(i) == Err(CheckoutLimitReached))
            && (!retryEnabled ==> attempts == 1)
  {
    EveryStory(n, constraint, trace, retryEnabled);
  }

  /**
   With retries a full channel is reported only when there is no time left to wait: never to a caller who waits,
   after a single attempt to one who does not, and otherwise when the deadline has come that the caller has set, or
   the default of the pool counted from `now`.
   */
  lemma {:induction false} LimitReachedMeansNoTimeLeft(n: nat, mode: CheckoutMode, default: DefaultPoolCheckoutMode,
                                                       now: Instant, trace: Trace)
    requires var progress := After(n, FromModeAndDefault(mode, default, now), trace, true);
             progress.Done? && progress.answer == Err(CheckoutLimitReached)
    ensures var attempts := After(n, FromModeAndDefault(mode, default, now), trace, true).attempts;
            match mode
            case ModeWait => false
            case ModeImmediately => attempts == 1
            case ModeUntil(deadline) => IsFirstAfter(trace, attempts, deadline)
            case PoolDefault =>
              match default
              case DefaultWait => false
              case DefaultImmediately => attempts == 1
              case WaitAtMost(duration) => IsFirstAfter(trace, attempts, now + duration)
  {
    var constraint := FromModeAndDefault(mode, default, now);
    EveryStory(n, constraint, trace, true);
    var attempts := After(n, constraint, trace, true).attempts;
    assert attempts > 1 ==> CanWaitForDispatch(constraint, trace.decided(1));
  }

  /** The decision is the first in the loop that is made when the deadline has come. */
  ghost predicate IsFirstAfter(trace: Trace, attempts: nat, deadline: Instant) {
    attempts > 0 && deadline <= trace.decided(attempts) && forall i :: 0 < i < attempts ==> trace.decided(i) < deadline
  }

  /** Time passes between attempts. */
  lemma {:induction false} DecisionsTakeTime(trace: Trace, k: nat)
    requires Plausible(trace) && k > 0
    ensures trace.decided(0) + (k - 1) * MILLISECOND <= trace.decided(k)
  {
    if k > 1 {
      DecisionsTakeTime(trace, k - 1);
      assert trace.decided(k - 1) + MILLISECOND <= trace.decided(k - 1 + 1);
    }
  }

  /** Whole milliseconds, rounded up. */
  function MillisUpTo(time: nat): nat {
    (time + MILLISECOND - 1) / MILLISECOND
  }

  /** Whole milliseconds, rounded up, from the first attempt to the deadline. */
  function MillisLeft(trace: Trace, deadline: Instant): nat {
    MillisUpTo(if deadline <= trace.decided(0) then 0 else deadline - trace.decided(0))
  }

  lemma {:induction false} AttemptsAreBounded(n: nat, deadline: Instant, trace: Trace, retryEnabled: bool)
    requires Plausible(trace)
    ensures After(n, Until(deadline), trace, retryEnabled).attempts <= 1 + MillisLeft(trace, deadline)
    ensures n > MillisLeft(trace, deadline) ==> After(n, Until(deadline), trace, retryEnabled).Done?
  {
    EveryStory(n, Until(deadline), trace, retryEnabled);
    var attempts := After(n, Until(deadline), trace, retryEnabled).attempts;
    if attempts > 1 {
      assert CanWaitForDispatch(Until(deadline), trace.decided(attempts - 1));
      DecisionsTakeTime(trace, attempts - 1);
    }
  }

  /**
   A deadline bounds the attempts and ends the checkout, whatever the sub pools answer: besides the first attempt there
   is at most one for every millisecond begun between it and the deadline, and after as many iterations, or with
   `WaitAtMost` as many as that time has milliseconds, the checkout is over.
   */
  lemma {:induction false} DeadlineBoundsAttempts(n: nat, mode: CheckoutMode, default: DefaultPoolCheckoutMode,
                                                  now: Instant, trace: Trace, retryEnabled: bool)
    requires Plausible(trace) && now <= trace.decided(0)
    ensures var progress := After(n, FromModeAndDefault(mode, default, now), trace, retryEnabled);
            && (mode.ModeUntil? ==>
                  && progress.attempts <= 1 + MillisLeft(trace, mode.deadline)
                  && (n > MillisLeft(trace, mode.deadline) ==> progress.Done?))
            && (mode.PoolDefault? && default.WaitAtMost? ==>
                  && progress.attempts <= 1 + MillisUpTo(default.duration)
                  && (n > MillisUpTo(default.duration) ==> progress.Done?))
  {
    match FromModeAndDefault(mode, default, now)
    case Until(deadline) =>
      AttemptsAreBounded(n, deadline, trace, retryEnabled);
    case _ =>
  }

  /** A caller who waits is kept in the loop exactly as long as nothing fits. */
  lemma {:induction false} WaitingLoopsExactly(n: nat, trace: Trace)
    ensures After(n, Wait, trace, true).Looping? <==> forall i :: 0 <= i <= n ==> DidNotFit(trace.answers(i))
  {
    EveryStory(n, Wait, trace, true);
    if n > 0 {
      WaitingLoopsExactly(n - 1, trace);
      EveryStory(n - 1, Wait, trace, true);
    }
  }

  ghost predicate NeverEnds(constraint: CheckoutConstraint, trace: Trace) {
    forall n: nat :: After(n, constraint, trace, true).Looping?
  }

  ghost predicate NothingEverFits(trace: Trace) {
    forall i: nat :: trace.answers(i) == Err(CheckoutLimitReached)
  }

  lemma {:induction false} WaitingNeverEndsExactly(trace: Trace)
    ensures NeverEnds(Wait, trace) <==> NothingEverFits(trace)
  {
    if NothingEverFits(trace) {
      forall n: nat ensures After(n, Wait, trace, true).Looping? {
        WaitingLoopsExactly(n, trace);
      }
    }
    if NeverEnds(Wait, trace) {
      forall i: nat ensures DidNotFit(trace.answers(i)) {
        assert After(i, Wait, trace, true).Looping?;
        WaitingLoopsExactly(i, trace);
      }
    }
  }

  /**
   The loop never ends for exactly those callers who wait, be it by their own choice or by the default of the pool,
   while no attempt fits; everybody else gets an answer.
   */
  lemma {:induction false} NeverEndsExactly(mode: CheckoutMode, default: DefaultPoolCheckoutMode, now: Instant,
                                            trace: Trace)
    requires Plausible(trace)
    ensures NeverEnds(FromModeAndDefault(mode, default, now), trace)
        <==> (mode == ModeWait || (mode == PoolDefault && default == DefaultWait)) && NothingEverFits(trace)
  {
    match FromModeAndDefault(mode, default, now)
    case Wait => WaitingNeverEndsExactly(trace);
    case Immediately => assert After(1, Immediately, trace, true).Done?;
    case Until(deadline) =>
      AttemptsAreBounded(1 + MillisLeft(trace, deadline), deadline, trace, true);
      assert After(1 + MillisLeft(trace, deadline), Until(deadline), trace, true).Done?;
  }
}
