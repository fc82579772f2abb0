/** What a caller asks of a checkout. */
module Constraints {
  import opened Prelude

  datatype CheckoutConstraint = Immediately | Until(deadline: Instant) | Wait

  datatype CheckoutMode = ModeImmediately | ModeWait | ModeUntil(deadline: Instant) | PoolDefault

  datatype DefaultPoolCheckoutMode = DefaultImmediately | DefaultWait | WaitAtMost(duration: nat)

  predicate IsDeadlineElapsed(constraint: CheckoutConstraint, now: Instant) {
    constraint.Until? && constraint.deadline < now
  }

  /** May another attempt to dispatch be made? */
  predicate CanWaitForDispatch(constraint: CheckoutConstraint, now: Instant) {
    match constraint
    case Until(deadline) => deadline > now
    case Immediately => false
    case Wait => true
  }

  function DeadlineAndReservationAllowed(constraint: CheckoutConstraint): (Option<Instant>, bool) {
    match constraint
    case Until(deadline) => (Some(deadline), true)
    case Immediately => (None, false)
    case Wait => (None, true)
  }

  function FromModeAndDefault(mode: CheckoutMode, default: DefaultPoolCheckoutMode, now: Instant): CheckoutConstraint {
    match mode
    case ModeImmediately => Immediately
    case ModeWait => Wait
    case ModeUntil(deadline) => Until(deadline)
    case PoolDefault =>
      match default
      case DefaultImmediately => Immediately
      case DefaultWait => Wait
      case WaitAtMost(duration) => Until(now + duration)
  }
}
