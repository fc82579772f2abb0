/** Dispatching checkouts over the sub pools of several nodes. */
module Dispatch {
  import opened Prelude
  import opened Constraints

  // ===== One attempt at one sub pool =====

  /** What an attempt finds at the checkout channel of a sub pool. */
  datatype Channel = Accepts | Full | Gone

  /** A future that was handed out: a request in the channel, or nothing but an elapsed deadline. */
  datatype Dispatched = InChannel(reservationAllowed: bool) | AlreadyElapsed

  /** The request goes to the channel unless the deadline has elapsed; `Ok` means no more than that. */
  function CheckOut2(constraint: CheckoutConstraint, channel: Channel, now: Instant)
    : Result<Dispatched, CheckoutErrorKind>
  {
    if IsDeadlineElapsed(constraint, now) then Ok(AlreadyElapsed)
    else match channel
      case Accepts => Ok(InChannel(DeadlineAndReservationAllowed(constraint).1))
      case Full => Err(CheckoutLimitReached)
      case Gone => Err(NoPool)
  }

  // ===== The sweep =====

  /**
   The outside world as a dispatch meets it: what the i-th attempt finds, and what the clock shows before the
   i-th attempt and inside it. Other threads may change anything between two attempts.
   */
  datatype World = World(finds: nat -> Channel, before: nat -> Instant, inside: nat -> Instant)

  datatype Attempt = Attempt(pool: nat, constraint: CheckoutConstraint)

  /** How a dispatch ends: an accepted request, or an error. */
  datatype Outcome = Sent(pool: nat, reservationAllowed: bool) | Failed(kind: CheckoutErrorKind)

  function ResultOf(attempt: Attempt, i: nat, world: World): Result<Dispatched, CheckoutErrorKind> {
    CheckOut2(attempt.constraint, world.finds(i), world.inside(i))
  }

  /** The i-th attempt of a sweep over `n` sub pools: only the last one uses the caller's constraint. */
  function Planned(n: nat, position: nat, constraint: CheckoutConstraint, i: nat): Attempt
    requires n > 0
  {
    Attempt((position + i) % n, if i == n - 1 then constraint else Immediately)
  }

  function OutcomeOf(attempt: Attempt, result: Result<Dispatched, CheckoutErrorKind>): Outcome {
    match result
    case Ok(InChannel(allowed)) => Sent(attempt.pool, allowed)
    case Ok(AlreadyElapsed) => Failed(CheckoutTimeout)
    case Err(kind) => Failed(kind)
  }

  /**
   A sweep over `n` sub pools makes its planned attempts in order while they fail and the deadline has not passed
   in between, and ends as its last attempt did, or because the deadline passed before the next one.
   */
  ghost predicate IsSweep(n: nat, position: nat, constraint: CheckoutConstraint, world: World,
                          outcome: Outcome, log: seq<Attempt>)
  {
    && 0 < |log| <= n
    && (forall i :: 0 <= i < |log| ==> log[i] == Planned(n, position, constraint, i))
    && (forall i :: 0 <= i < |log| - 1 ==> ResultOf(log[i], i, world).Err?)
    && (forall i :: 0 < i < |log| ==> !IsDeadlineElapsed(constraint, world.before(i)))
    && (var last := |log| - 1;
        var result := ResultOf(log[last], last, world);
        || (outcome == OutcomeOf(log[last], result) && (result.Ok? || |log| == n))
        || (outcome == Failed(CheckoutTimeout) && result.Err? && |log| < n
            && IsDeadlineElapsed(constraint, world.before(|log|))))
  }

  /** Try one sub pool after the other, beginning at the round robin position. */
  method Sweep(n: nat, position: nat, constraint: CheckoutConstraint, world: World)
    returns (outcome: Outcome, log: seq<Attempt>)
    requires n > 0
    ensures IsSweep(n, position, constraint, world, outcome, log)
  {
    var first := Attempt(position % n, if n == 1 then constraint else Immediately);
    log := [first];
    var result := CheckOut2(first.constraint, world.finds(0), world.inside(0));
    if result.Ok? || n == 1 {
      outcome := OutcomeOf(first, result);
      return;
    }
    var lastFailed := result.error;
    for i := 1 to n
      invariant |log| == i
      invariant forall j :: 0 <= j < i ==> log[j] == Planned(n, position, constraint, j)
      invariant forall j :: 0 <= j < i ==> ResultOf(log[j], j, world).Err?
      invariant forall j :: 0 < j < i ==> !IsDeadlineElapsed(constraint, world.before(j))
      invariant ResultOf(log[i - 1], i - 1, world) == Err(lastFailed)
    {
      if IsDeadlineElapsed(constraint, world.before(i)) {
        outcome := Failed(CheckoutTimeout);
        return;
      }
      var current := Attempt((position + i) % n, if i >= n - 1 then constraint else Immediately);
      log := log + [current];
      result := CheckOut2(current.constraint, world.finds(i), world.inside(i));
      if result.Ok? {
        outcome := OutcomeOf(current, result);
        return;
      }
      lastFailed := result.error;
    }
    outcome := Failed(lastFailed);
  }

  /** What a caller asks of the dispatcher, and the world that the dispatch meets. */
  datatype Order = Order(constraint: CheckoutConstraint, world: World)

  datatype Reply = Reply(outcome: Outcome, log: seq<Attempt>)

  /** Nothing to dispatch to and a deadline that has passed are noticed before any attempt. */
  ghost predicate IsDispatch(n: nat, count: nat, order: Order, reply: Reply) {
    if n == 0 then reply == Reply(Failed(NoPool), [])
    else if IsDeadlineElapsed(order.constraint, order.world.before(0)) then reply == Reply(Failed(CheckoutTimeout), [])
    else IsSweep(n, count, order.constraint, order.world, reply.outcome, reply.log)
  }

  /** Only a dispatch that makes an attempt moves the counter, which wraps around. */
  function CountAfter(count: nat, reply: Reply): nat {
    if reply.log == [] then count else Usize(count + 1)
  }

  /** The dispatcher and its round robin counter. */
  class Inner {
    const pools: nat
    var count: nat

    constructor (pools: nat)
      ensures this.pools == pools && count == 0
    {
      this.pools, count := pools, 0;
    }

    method CheckOut(constraint: CheckoutConstraint, world: World) returns (outcome: Outcome, log: seq<Attempt>)
      requires count < USIZE_VALUES
      modifies this
      ensures IsDispatch(pools, old(count), Order(constraint, world), Reply(outcome, log))
      ensures count == CountAfter(old(count), Reply(outcome, log)) < USIZE_VALUES
      ensures pools == 0 ==> outcome == Failed(NoPool) && log == [] && count == old(count)
    {
      if pools == 0 {
        return Failed(NoPool), [];
      }
      if IsDeadlineElapsed(constraint, world.before(0)) {
        return Failed(CheckoutTimeout), [];
      }
      var position := count;
      count := Usize(count + 1);
      outcome, log := Sweep(pools, position, constraint, world);
    }
  }

  // ===== What every sweep guarantees =====

  /** The deadline passes at no point where the dispatch looks at the clock. */
  ghost predicate InTime(n: nat, constraint: CheckoutConstraint, world: World) {
    forall i :: 0 <= i < n ==>
      !IsDeadlineElapsed(constraint, world.before(i)) && !IsDeadlineElapsed(constraint, world.inside(i))
  }

  /** Adding less than `n` wraps around at most once. */
  lemma {:induction false} ModStep(a: nat, j: nat, n: nat)
    requires j < n
    ensures (a + j) % n == if a % n + j < n then a % n + j else a % n + j - n
  {
    var r := if a % n + j < n then a % n + j else a % n + j - n;
    var q := if a % n + j < n then a / n else a / n + 1;
    assert a + j == q * n + r;
    ModUnique(a + j, n, q, r);
  }

  lemma {:induction false} NextMultiple(x: nat, y: nat, n: nat)
    requires x < y
    ensures x * n + n <= y * n
    decreases y
  {
    if x + 1 < y {
      NextMultiple(x, y - 1, n);
    }
    assert y * n == (y - 1) * n + n;
  }

  lemma {:induction false} ModUnique(a: nat, n: nat, q: nat, r: nat)
    requires n > 0 && r < n && a == q * n + r
    ensures a % n == r && a / n == q
  {
    var d := a / n;
    assert a == d * n + a % n;
    if d < q {
      NextMultiple(d, q, n);
      assert false;
    } else if q < d {
      NextMultiple(q, d, n);
      assert false;
    }
  }

  /** No sub pool is tried twice. */
  lemma {:induction false} TriesAreDistinct(n: nat, position: nat, constraint: CheckoutConstraint, i: nat, j: nat)
    requires i < j < n
    ensures Planned(n, position, constraint, i).pool != Planned(n, position, constraint, j).pool
  {
    ModStep(position, i, n);
    ModStep(position, j, n);
  }

  /** Every sub pool has its turn among `n` attempts. */
  lemma {:induction false} EveryPoolHasItsTurn(n: nat, position: nat, constraint: CheckoutConstraint,
                                               pool: nat) returns (i: nat)
    requires pool < n
    ensures i < n && Planned(n, position, constraint, i).pool == pool
  {
    i := if pool >= position % n then pool - position % n else pool + n - position % n;
    ModStep(position, i, n);
  }

  predicate Tried(log: seq<Attempt>, pool: nat) {
    exists i :: 0 <= i < |log| && log[i].pool == pool
  }

  lemma {:induction false} RefusalsAreRefusals(n: nat, position: nat, constraint: CheckoutConstraint, world: World,
                                               outcome: Outcome, log: seq<Attempt>)
    requires IsSweep(n, position, constraint, world, outcome, log)
    ensures forall i :: 0 <= i < |log| - 1 ==> world.finds(i) != Accepts
  {
    forall i | 0 <= i < |log| - 1 ensures world.finds(i) != Accepts {
      assert log[i] == Planned(n, position, constraint, i);
      assert ResultOf(log[i], i, world).Err?;
    }
  }

  lemma {:induction false} AllTried(n: nat, position: nat, constraint: CheckoutConstraint, world: World,
                                    outcome: Outcome, log: seq<Attempt>)
    requires IsSweep(n, position, constraint, world, outcome, log) && |log| == n
    ensures forall pool: nat :: pool < n ==> Tried(log, pool)
  {
    forall pool: nat | pool < n ensures Tried(log, pool) {
      var i := EveryPoolHasItsTurn(n, position, constraint, pool);
      assert log[i].pool == pool;
    }
  }

  /**
   Sweep completeness. A sweep tries no sub pool twice; unless the deadline passes it fails only after it tried all
   of them in vain, and then with the error of the last one.
   */
  lemma {:induction false} SweepIsComplete(n: nat, position: nat, constraint: CheckoutConstraint, world: World,
                                           outcome: Outcome, log: seq<Attempt>)
    requires IsSweep(n, position, constraint, world, outcome, log)
    ensures forall i, j :: 0 <= i < j < |log| ==> log[i].pool != log[j].pool
    ensures InTime(n, constraint, world) && outcome.Failed? ==>
              && (forall pool: nat :: pool < n ==> Tried(log, pool))
              && (forall i :: 0 <= i < n ==> world.finds(i) != Accepts)
              && outcome.kind == if world.finds(n - 1) == Full then CheckoutLimitReached else NoPool
  {
    forall i, j | 0 <= i < j < |log| ensures log[i].pool != log[j].pool {
      TriesAreDistinct(n, position, constraint, i, j);
    }
    RefusalsAreRefusals(n, position, constraint, world, outcome, log);
    if InTime(n, constraint, world) && outcome.Failed? {
      assert |log| == n;
      AllTried(n, position, constraint, world, outcome, log);
    }
  }

  /** A sweep in time sends the request to the first sub pool, in its order, that accepts it. */
  lemma {:induction false} SweepFindsTheFirst(n: nat, position: nat, constraint: CheckoutConstraint, world: World,
                                              outcome: Outcome, log: seq<Attempt>, k: nat)
    requires IsSweep(n, position, constraint, world, outcome, log) && InTime(n, constraint, world)
    requires k < n && world.finds(k) == Accepts && forall i :: 0 <= i < k ==> world.finds(i) != Accepts
    ensures outcome.Sent? && outcome.pool == (position + k) % n && |log| == k + 1
  {
    RefusalsAreRefusals(n, position, constraint, world, outcome, log);
    var last := |log| - 1;
    assert log[last] == Planned(n, position, constraint, last);
  }

  /**
   The caller's constraint counts only in the last resort: a request that is sent may be reserved exactly if the
   caller is willing to wait and all other sub pools have refused before.
   */
  lemma {:induction false} ReservedOnlyInLastResort(n: nat, position: nat, constraint: CheckoutConstraint,
                                                    world: World, outcome: Outcome, log: seq<Attempt>)
    requires IsSweep(n, position, constraint, world, outcome, log) && outcome.Sent?
    ensures outcome.reservationAllowed <==> constraint != Immediately && |log| == n
    ensures outcome.reservationAllowed ==> forall i :: 0 <= i < n - 1 ==> world.finds(i) != Accepts
  {
    RefusalsAreRefusals(n, position, constraint, world, outcome, log);
    assert log[|log| - 1] == Planned(n, position, constraint, |log| - 1);
  }

  /** In particular, if the first of several sub pools takes the request, it does so for a caller who will not wait. */
  lemma {:induction false} WillingToWaitIsNotEnough(n: nat, position: nat, constraint: CheckoutConstraint,
                                                    world: World, outcome: Outcome, log: seq<Attempt>)
    requires n >= 2 && world.finds(0) == Accepts
    requires IsSweep(n, position, constraint, world, outcome, log)
    ensures outcome == Sent(position % n, false)
  {
    RefusalsAreRefusals(n, position, constraint, world, outcome, log);
    assert log[0] == Planned(n, position, constraint, 0);
  }

  // ===== Deadlines =====

  /**
   Sub pool number `k` in the order of a dispatch is the first that accepts, and whenever the dispatch looks at the
   clock until then, the deadline has not passed.
   */
  ghost predicate ReachedInTime(n: nat, deadline: Instant, world: World, k: nat) {
    && k < n && world.finds(k) == Accepts
    && (forall i :: 0 <= i < k ==> world.finds(i) != Accepts)
    && (forall i :: 0 <= i <= k ==> world.before(i) <= deadline)
    && (k == n - 1 ==> world.inside(k) <= deadline)
  }

  /** When a dispatch looks at the clock: before each attempt, and once more inside the last one. */
  function ClockAt(n: nat, world: World, k: nat): Instant
    requires 0 < n && k <= n
  {
    if k < n then world.before(k) else world.inside(n - 1)
  }

  /** A look at the clock is too late, and no sub pool has accepted before it. */
  ghost predicate MissedAt(n: nat, deadline: Instant, world: World, k: nat)
    requires 0 < n
  {
    k <= n && deadline < ClockAt(n, world, k) && forall i :: 0 <= i < k && i < n - 1 ==> world.finds(i) != Accepts
  }

  lemma {:induction false} SweepMisses(n: nat, position: nat, deadline: Instant, world: World,
                                       outcome: Outcome, log: seq<Attempt>) returns (k: nat)
    requires IsSweep(n, position, Until(deadline), world, outcome, log) && outcome == Failed(CheckoutTimeout)
    ensures MissedAt(n, deadline, world, k)
  {
    RefusalsAreRefusals(n, position, Until(deadline), world, outcome, log);
    k := |log|;
    assert log[k - 1] == Planned(n, position, Until(deadline), k - 1);
  }

  lemma {:induction false} MissedSweepTimesOut(n: nat, position: nat, deadline: Instant, world: World,
                                               outcome: Outcome, log: seq<Attempt>, k: nat)
    requires IsSweep(n, position, Until(deadline), world, outcome, log)
    requires MissedAt(n, deadline, world, k) && world.before(0) <= deadline
    ensures outcome == Failed(CheckoutTimeout)
  {
    var last := |log| - 1;
    RefusalsAreRefusals(n, position, Until(deadline), world, outcome, log);
    assert log[last] == Planned(n, position, Until(deadline), last);
    assert k <= last ==> k == 0 || !IsDeadlineElapsed(Until(deadline), world.before(k));
  }

  /**
   Deadlines are kept: a dispatch makes no attempt exactly if its deadline is earlier than the clock, and it ends with
   `CheckoutTimeout` exactly if, on one of its looks at the clock, the deadline is earlier than the clock before any
   sub pool has accepted. A caller without a deadline never gets that answer.
   */
  lemma {:induction false} TimesOutExactly(n: nat, count: nat, order: Order, reply: Reply)
    requires n > 0 && IsDispatch(n, count, order, reply)
    ensures reply.log == [] <==> order.constraint.Until? && order.constraint.deadline < order.world.before(0)
    ensures reply.outcome == Failed(CheckoutTimeout)
        <==> order.constraint.Until? && exists k :: MissedAt(n, order.constraint.deadline, order.world, k)
  {
    if order.constraint.Until? {
      var deadline := order.constraint.deadline;
      if deadline < order.world.before(0) {
        assert MissedAt(n, deadline, order.world, 0);
      } else if reply.outcome == Failed(CheckoutTimeout) {
        var k := SweepMisses(n, count, deadline, order.world, reply.outcome, reply.log);
      } else if k :| MissedAt(n, deadline, order.world, k) {
        MissedSweepTimesOut(n, count, deadline, order.world, reply.outcome, reply.log, k);
      }
    } else {
      NoDeadlineNoTimeout(n, count, order, reply);
    }
  }

  lemma {:induction false} NoDeadlineNoTimeout(n: nat, count: nat, order: Order, reply: Reply)
    requires n > 0 && IsDispatch(n, count, order, reply) && !order.constraint.Until?
    ensures reply.log != [] && reply.outcome != Failed(CheckoutTimeout)
  {
    assert reply.log[|reply.log| - 1] == Planned(n, count, order.constraint, |reply.log| - 1);
  }

  /** And a request is sent exactly to a sub pool that is reached before the deadline. */
  lemma {:induction false} SentExactlyInTime(n: nat, count: nat, order: Order, reply: Reply, pool: nat)
    requires n > 0 && IsDispatch(n, count, order, reply) && order.constraint.Until?
    ensures reply.outcome.Sent? && reply.outcome.pool == pool
        <==> exists k :: ReachedInTime(n, order.constraint.deadline, order.world, k) && pool == (count + k) % n
  {
    var deadline := order.constraint.deadline;
    if deadline >= order.world.before(0) {
      var last := |reply.log| - 1;
      RefusalsAreRefusals(n, count, order.constraint, order.world, reply.outcome, reply.log);
      assert reply.log[last] == Planned(n, count, order.constraint, last);
      if reply.outcome.Sent? {
        assert ReachedInTime(n, deadline, order.world, last);
      }
      if k :| ReachedInTime(n, deadline, order.world, k) {
        assert k == last;
      }
    }
  }

  // ===== Round robin =====

  /** A run of the dispatcher from a counter value: the orders and the replies, one after the other. */
  ghost predicate IsRun(n: nat, count: nat, orders: seq<Order>, replies: seq<Reply>)
    decreases |replies|
  {
    && |orders| == |replies|
    && (replies != [] ==>
          && IsDispatch(n, count, orders[0], replies[0])
          && IsRun(n, CountAfter(count, replies[0]), orders[1..], replies[1..]))
  }

  /** The sub pools that the dispatches of a run chose first. */
  function Picks(replies: seq<Reply>): (picks: seq<nat>)
    ensures |picks| <= |replies|
  {
    if replies == [] then []
    else (if replies[0].log == [] then [] else [replies[0].log[0].pool]) + Picks(replies[1..])
  }

  function CountIn<T(==)>(xs: seq<T>, x: T): nat {
    if xs == [] then 0 else CountIn(xs[..|xs| - 1], x) + if xs[|xs| - 1] == x then 1 else 0
  }

  /** Every sub pool is the first choice of its share of the dispatches, rounded down or up. */
  ghost predicate IsBalanced(picks: seq<nat>, n: nat)
    requires n > 0
  {
    forall pool: nat :: pool < n ==> |picks| / n <= CountIn(picks, pool) <= (|picks| + n - 1) / n
  }

  lemma {:induction false} FirstAttempt(n: nat, count: nat, order: Order, reply: Reply)
    requires n > 0 && count < USIZE_VALUES && IsDispatch(n, count, order, reply) && reply.log != []
    ensures reply.log[0].pool == PickAt(n, count, 0)
  {
    assert reply.log[0] == Planned(n, count, order.constraint, 0);
  }

  /** The i-th choice from a counter value on, if the counter wraps around. */
  function PickAt(n: nat, count: nat, i: nat): nat
    requires n > 0
  {
    Usize(count + i) % n
  }

  lemma {:induction false} NextWraps(count: nat, i: nat)
    requires i > 0 && count < USIZE_VALUES
    ensures Usize(Usize(count + 1) + (i - 1)) == Usize(count + i)
  {
    if count == USIZE_VALUES - 1 {
      assert count + i == USIZE_VALUES + (i - 1);
    }
  }

  lemma {:induction false} NextPick(n: nat, count: nat, i: nat)
    requires n > 0 && i > 0 && count < USIZE_VALUES
    ensures PickAt(n, Usize(count + 1), i - 1) == PickAt(n, count, i)
  {
    NextWraps(count, i);
  }

  lemma {:induction false} OnePickMore(n: nat, count: nat, first: nat, rest: seq<nat>)
    requires n > 0 && count < USIZE_VALUES && first == PickAt(n, count, 0)
    requires forall i :: 0 <= i < |rest| ==> rest[i] == PickAt(n, Usize(count + 1), i)
    ensures forall i :: 0 <= i <= |rest| ==> ([first] + rest)[i] == PickAt(n, count, i)
  {
    forall i | 0 <= i <= |rest| ensures ([first] + rest)[i] == PickAt(n, count, i) {
      if i > 0 {
        NextPick(n, count, i);
      }
    }
  }

  /** The first choices of a run follow the counter, which wraps around. */
  lemma {:induction false} PicksFollowTheCounter(n: nat, count: nat, orders: seq<Order>, replies: seq<Reply>)
    requires n > 0 && count < USIZE_VALUES && IsRun(n, count, orders, replies)
    ensures forall i :: 0 <= i < |Picks(replies)| ==> Picks(replies)[i] == PickAt(n, count, i)
    decreases |replies|
  {
    if replies != [] {
      PicksFollowTheCounter(n, CountAfter(count, replies[0]), orders[1..], replies[1..]);
      if replies[0].log == [] {
        assert Picks(replies) == Picks(replies[1..]);
      } else {
        FirstAttempt(n, count, orders[0], replies[0]);
        OnePickMore(n, count, replies[0].log[0].pool, Picks(replies[1..]));
      }
    }
  }

  /** How many of the `k` dispatches that begin with counter value `c` choose `pool` first. */
  function FirstChoices(c: nat, k: nat, pool: nat, n: nat): nat
    requires n > 0
  {
    if k == 0 then 0
    else FirstChoices(c, k - 1, pool, n) + if (c + k - 1) % n == pool then 1 else 0
  }

  /** Within one round a sub pool is chosen once, after a fixed number of other choices. */
  lemma {:induction false} WithinOneRound(c: nat, k: nat, pool: nat, n: nat)
    requires pool < n && k <= n
    ensures var turn := if pool >= c % n then pool - c % n else pool + n - c % n;
            FirstChoices(c, k, pool, n) == if k > turn then 1 else 0
  {
    if k > 0 {
      WithinOneRound(c, k - 1, pool, n);
      ModStep(c, k - 1, n);
    }
  }

  lemma {:induction false} ChoicesAddUp(c: nat, k: nat, more: nat, pool: nat, n: nat)
    requires n > 0
    ensures FirstChoices(c, k + more, pool, n) == FirstChoices(c, k, pool, n) + FirstChoices(c + k, more, pool, n)
  {
    if more > 0 {
      ChoicesAddUp(c, k, more - 1, pool, n);
    }
  }

  lemma {:induction false} FullRounds(c: nat, rounds: nat, k: nat, pool: nat, n: nat)
    requires pool < n && k == rounds * n
    ensures FirstChoices(c, k, pool, n) == rounds
    decreases rounds
  {
    if rounds > 0 {
      var before := (rounds - 1) * n;
      assert k == before + n;
      FullRounds(c, rounds - 1, before, pool, n);
      ChoicesAddUp(c, before, n, pool, n);
      WithinOneRound(c + before, n, pool, n);
    }
  }

  lemma {:induction false} ChoicesAreCounted(c: nat, picks: seq<nat>, pool: nat, n: nat)
    requires n > 0 && forall i :: 0 <= i < |picks| ==> picks[i] == (c + i) % n
    ensures CountIn(picks, pool) == FirstChoices(c, |picks|, pool, n)
  {
    if picks != [] {
      ChoicesAreCounted(c, picks[..|picks| - 1], pool, n);
    }
  }

  lemma {:induction false} RotatingIsBalanced(c: nat, picks: seq<nat>, n: nat)
    requires n > 0 && forall i :: 0 <= i < |picks| ==> picks[i] == (c + i) % n
    ensures IsBalanced(picks, n)
  {
    forall pool: nat | pool < n
      ensures |picks| / n <= CountIn(picks, pool) <= (|picks| + n - 1) / n
    {
      ChoicesAreCounted(c, picks, pool, n);
      ChoicesAreShared(c, |picks|, pool, n);
    }
  }

  lemma {:induction false} ChoicesAreShared(c: nat, k: nat, pool: nat, n: nat)
    requires pool < n
    ensures k / n <= FirstChoices(c, k, pool, n) <= (k + n - 1) / n
  {
    var rounds, rest := k / n, k % n;
    var whole := rounds * n;
    assert k == whole + rest;
    FullRounds(c, rounds, whole, pool, n);
    ChoicesAddUp(c, whole, rest, pool, n);
    WithinOneRound(c + whole, rest, pool, n);
    RoundUp(k, n);
  }

  lemma {:induction false} RoundUp(k: nat, n: nat)
    requires n > 0
    ensures (k + n - 1) / n == k / n + if k % n > 0 then 1 else 0
  {
    var q, r := k / n, k % n;
    assert k == q * n + r;
    if r > 0 {
      assert k + n - 1 == (q + 1) * n + (r - 1);
      ModUnique(k + n - 1, n, q + 1, r - 1);
    } else {
      ModUnique(k + n - 1, n, q, n - 1);
    }
  }

  lemma {:induction false} DivisorKeepsRest(c: nat, multiplier: nat, nodes: nat, n: nat)
    requires nodes > 0 && n == multiplier * nodes && n > 0
    ensures c % n % nodes == c % nodes
  {
    var q, r := c / n, c % n;
    var q', r' := r / nodes, r % nodes;
    DivMod(c, n);
    DivMod(r, nodes);
    var whole := multiplier * q + q';
    Regroup(multiplier, nodes, n, q, q', whole);
    ModUnique(c, nodes, whole, r');
  }

  lemma {:induction false} DivMod(a: nat, n: nat)
    requires n > 0
    ensures a == (a / n) * n + a % n
  {
  }

  lemma {:induction false} Regroup(multiplier: nat, nodes: nat, n: nat, q: nat, q': nat, whole: nat)
    requires n == multiplier * nodes && whole == multiplier * q + q'
    ensures whole * nodes == q * n + q' * nodes
  {
    var product := multiplier * q;
    assert whole * nodes == product * nodes + q' * nodes;
    Associative(multiplier, q, nodes);
  }

  lemma {:induction false} Associative(a: nat, b: nat, c: nat)
    ensures (a * b) * c == b * (a * c)
  {
  }

  /** The counter does not wrap around, or does not jump when it does. */
  predicate NoJump(n: nat, count: nat, k: nat)
    requires n > 0
  {
    count + k <= USIZE_VALUES || USIZE_VALUES % n == 0
  }

  lemma {:induction false} WrappingKeepsRest(n: nat, x: nat)
    requires n > 0 && (x < USIZE_VALUES || USIZE_VALUES % n == 0)
    ensures Usize(x) % n == x % n
  {
    if USIZE_VALUES % n == 0 {
      DivMod(USIZE_VALUES, n);
      DivisorKeepsRest(x, USIZE_VALUES / n, n, USIZE_VALUES);
    }
  }

  lemma {:induction false} PicksRotate(n: nat, count: nat, orders: seq<Order>, replies: seq<Reply>)
    requires n > 0 && count < USIZE_VALUES && IsRun(n, count, orders, replies)
    requires NoJump(n, count, |Picks(replies)|)
    ensures forall i :: 0 <= i < |Picks(replies)| ==> Picks(replies)[i] == (count + i) % n
  {
    PicksFollowTheCounter(n, count, orders, replies);
    var picks := Picks(replies);
    forall i | 0 <= i < |picks| ensures picks[i] == (count + i) % n {
      WrappingKeepsRest(n, count + i);
    }
  }

  /**
   Round robin balance: over every run of dispatches, whatever their deadlines and whatever they meet, each of the
   `n` sub pools is the first choice of its share of them, unless the counter jumps.
   */
  lemma {:induction false} FirstChoicesAreBalanced(n: nat, count: nat, orders: seq<Order>, replies: seq<Reply>)
    requires n > 0 && count < USIZE_VALUES && IsRun(n, count, orders, replies)
    requires NoJump(n, count, |Picks(replies)|)
    ensures IsBalanced(Picks(replies), n)
  {
    PicksRotate(n, count, orders, replies);
    RotatingIsBalanced(count, Picks(replies), n);
  }

  // ===== When the counter jumps =====

  /** Orders that are accepted at once. */
  function EasyOrders(k: nat): (orders: seq<Order>)
    ensures |orders| == k
  {
    seq(k, _ => Order(Immediately, World(_ => Accepts, _ => 0, _ => 0)))
  }

  function EasyReplies(n: nat, count: nat, k: nat): (replies: seq<Reply>)
    requires n > 0
    ensures |replies| == k
    decreases k
  {
    if k == 0 then []
    else [Reply(Sent(count % n, false), [Attempt(count % n, Immediately)])] + EasyReplies(n, Usize(count + 1), k - 1)
  }

  lemma {:induction false} EasyRun(n: nat, count: nat, k: nat)
    requires n > 0
    ensures IsRun(n, count, EasyOrders(k), EasyReplies(n, count, k))
    ensures |Picks(EasyReplies(n, count, k))| == k
    decreases k
  {
    if k > 0 {
      var replies := EasyReplies(n, count, k);
      EasyRun(n, Usize(count + 1), k - 1);
      assert EasyOrders(k)[1..] == EasyOrders(k - 1);
      assert replies[1..] == EasyReplies(n, Usize(count + 1), k - 1);
      assert Planned(n, count, Immediately, 0) == replies[0].log[0];
    }
  }

  lemma {:induction false} CountedTwice<T>(xs: seq<T>, i: nat, j: nat)
    requires i < j < |xs| && xs[i] == xs[j]
    ensures CountIn(xs, xs[i]) >= 2
  {
    if j == |xs| - 1 {
      CountedOnce(xs[..j], i);
    } else {
      CountedTwice(xs[..|xs| - 1], i, j);
    }
  }

  lemma {:induction false} CountedOnce<T>(xs: seq<T>, i: nat)
    requires i < |xs|
    ensures CountIn(xs, xs[i]) >= 1
  {
    if i < |xs| - 1 {
      CountedOnce(xs[..|xs| - 1], i);
    }
  }

  lemma {:induction false} LastMultiple(n: nat, q: nat, rest: nat)
    requires rest < n && USIZE_VALUES == q * n + rest
    ensures PickAt(n, USIZE_VALUES - rest, 0) == 0
  {
    ModUnique(USIZE_VALUES - rest, n, q, 0);
    if rest == 0 {
      ModUnique(0, n, 0, 0);
    }
  }

  lemma {:induction false} FirstAfterJump(n: nat, rest: nat)
    requires n > 0 && rest <= USIZE_VALUES
    ensures PickAt(n, USIZE_VALUES - rest, rest) == 0
  {
    assert USIZE_VALUES - rest + rest == USIZE_VALUES;
    ModUnique(0, n, 0, 0);
  }

  lemma {:induction false} PicksAtTheJump(n: nat, rest: nat, picks: seq<nat>)
    requires 0 < rest < n && rest == USIZE_VALUES % n && |picks| == rest + 1
    requires forall i :: 0 <= i < |picks| ==> picks[i] == PickAt(n, USIZE_VALUES - rest, i)
    ensures picks[0] == 0 && picks[rest] == 0
  {
    DivMod(USIZE_VALUES, n);
    LastMultiple(n, USIZE_VALUES / n, rest);
    FirstAfterJump(n, rest);
  }

  lemma {:induction false} TwiceIsTooOften(n: nat, picks: seq<nat>)
    requires 0 < |picks| <= n && CountIn(picks, 0) >= 2
    ensures !IsBalanced(picks, n)
  {
    ModUnique(|picks| + n - 1, n, 1, |picks| - 1);
  }

  /** From the last value that is a multiple of `n` to the jump, the first sub pool is chosen once too often. */
  lemma {:induction false} JumpUnbalances(n: nat) returns (count: nat, orders: seq<Order>, replies: seq<Reply>)
    requires 0 < n && USIZE_VALUES % n != 0
    ensures count < USIZE_VALUES && IsRun(n, count, orders, replies) && !IsBalanced(Picks(replies), n)
  {
    var rest := USIZE_VALUES % n;
    count, orders, replies := USIZE_VALUES - rest, EasyOrders(rest + 1), EasyReplies(n, USIZE_VALUES - rest, rest + 1);
    EasyRun(n, count, rest + 1);
    PicksFollowTheCounter(n, count, orders, replies);
    PicksAtTheJump(n, rest, Picks(replies));
    CountedTwice(Picks(replies), 0, rest);
    TwiceIsTooOften(n, Picks(replies));
  }

  ghost predicate IsAlwaysBalanced(n: nat)
    requires n > 0
  {
    forall count: nat, orders, replies ::
      count < USIZE_VALUES && IsRun(n, count, orders, replies) ==> IsBalanced(Picks(replies), n)
  }

  lemma {:induction false} DivisorsAreBalanced(n: nat)
    requires n > 0 && USIZE_VALUES % n == 0
    ensures IsAlwaysBalanced(n)
  {
    forall count: nat, orders, replies | count < USIZE_VALUES && IsRun(n, count, orders, replies)
      ensures IsBalanced(Picks(replies), n)
    {
      FirstChoicesAreBalanced(n, count, orders, replies);
    }
  }

  /** Every run from every counter value is balanced exactly if the number of sub pools divides 2^64. */
  lemma {:induction false} BalanceHoldsExactly(n: nat)
    requires n > 0
    ensures IsAlwaysBalanced(n) <==> USIZE_VALUES % n == 0
  {
    if USIZE_VALUES % n == 0 {
      DivisorsAreBalanced(n);
    } else {
      var count, orders, replies := JumpUnbalances(n);
    }
  }
}
