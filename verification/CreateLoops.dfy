/** What one create loop does while its factory fails: it probes the pool, counts its attempts and waits longer. */
module CreateLoops {
  import opened Prelude
  import opened SubPool
  import opened System
  import opened Backoff

  /** The next `n` attempts of a create loop fail. */
  function Failures(task: nat, n: nat): seq<Step> {
    if n == 0 then [] else Failures(task, n - 1) + [CreateLoop(task, Probe), CreateLoop(task, ConnectFails)]
  }

  function Probes(n: nat): (probes: seq<Envelope>)
    ensures |probes| == n && forall i :: 0 <= i < n ==> probes[i] == Deliver(CheckAlive)
  {
    seq(n, _ => Deliver(CheckAlive))
  }

  lemma {:induction false} OneFailure(cfg: Config, s: Sys, task: nat)
    requires s.alive && task < |s.tasks| && s.tasks[task].Probing?
    ensures RunFrom(cfg, s, Failures(task, 1))
         == s.(tasks := s.tasks[task := Probing(s.tasks[task].factory, s.tasks[task].attempt + 1)],
               internal := s.internal + Probes(1))
  {
    var s1 := Next(cfg, s, CreateLoop(task, Probe));
    assert Failures(task, 1) == [CreateLoop(task, Probe), CreateLoop(task, ConnectFails)];
    FirstStep(cfg, s, CreateLoop(task, Probe), [CreateLoop(task, ConnectFails)]);
    FirstStep(cfg, s1, CreateLoop(task, ConnectFails), []);
    assert Probes(1) == [Deliver(CheckAlive)];
  }

  /**
   A create loop never gives up while the pool is alive: each failed attempt leaves it with its slot and the next
   attempt number, costs one probe message, and changes nothing else.
   */
  lemma {:induction false} FailuresAreRetried(cfg: Config, s: Sys, task: nat, n: nat)
    requires s.alive && task < |s.tasks| && s.tasks[task].Probing?
    ensures RunFrom(cfg, s, Failures(task, n))
         == s.(tasks := s.tasks[task := Probing(s.tasks[task].factory, s.tasks[task].attempt + n)],
               internal := s.internal + Probes(n))
  {
    if n == 0 {
      assert s.internal + Probes(0) == s.internal;
    } else {
      var s' := RunFrom(cfg, s, Failures(task, n - 1));
      FailuresAreRetried(cfg, s, task, n - 1);
      OneFailure(cfg, s', task);
      assert Failures(task, 1) == [CreateLoop(task, Probe), CreateLoop(task, ConnectFails)];
      RunConcat(cfg, s, Failures(task, n - 1), Failures(task, 1));
      assert s.internal + Probes(n) == s.internal + Probes(n - 1) + Probes(1);
    }
  }

  /** The first `n` delays together, from that after attempt one. */
  function Total(delay: nat -> nat, n: nat): nat {
    if n == 0 then 0 else Total(delay, n - 1) + delay(n)
  }

  /** How long a create loop waits after failed attempt number `attempt`. */
  function DelayAfter(strategy: BackoffStrategy, attempt: nat, random: nat): nat {
    match GetNextBackoff(strategy, attempt, random)
    case Some(delay) => delay
    case None => 0
  }

  function Delays(strategy: BackoffStrategy, draws: nat -> nat): nat -> nat {
    attempt => DelayAfter(strategy, attempt, draws(attempt))
  }

  /** How long a create loop has waited after `n` failed attempts in a row, with the random numbers it drew. */
  function Waited(strategy: BackoffStrategy, n: nat, draws: nat -> nat): nat {
    Total(Delays(strategy, draws), n)
  }

  lemma {:induction false} TotalIsCumulative(delay: nat -> nat, n: nat)
    requires forall attempt :: delay(attempt) == CalcBackoff(attempt)
    ensures Total(delay, n) == Cumulative(n)
  {
    if n > 0 {
      TotalIsCumulative(delay, n - 1);
    }
  }

  lemma {:induction false} TotalsCompare(delay: nat -> nat, longer: nat -> nat, n: nat)
    requires forall attempt :: delay(attempt) <= longer(attempt) && 3 * longer(attempt) <= 4 * delay(attempt)
    ensures Total(delay, n) <= Total(longer, n) && 3 * Total(longer, n) <= 4 * Total(delay, n)
  {
    if n > 0 {
      TotalsCompare(delay, longer, n - 1);
    }
  }

  /** The strategies that wait as the table says, such as the default with its cap of ten seconds, apart from jitter. */
  predicate FollowsTheTable(strategy: BackoffStrategy) {
    strategy.Incremental? || (strategy.IncrementalCapped? && strategy.cap >= 10_000 * MILLISECOND)
  }

  lemma {:induction false} PlainIsTable(strategy: BackoffStrategy, attempt: nat)
    requires FollowsTheTable(strategy)
    ensures Plain(strategy, attempt) == CalcBackoff(attempt)
  {
    CalcBackoffRises(attempt, attempt);
  }

  lemma {:induction false} DelayIsKnown(strategy: BackoffStrategy, attempt: nat, random: nat)
    requires FollowsTheTable(strategy)
    ensures CalcBackoff(attempt) <= DelayAfter(strategy, attempt, random)
    ensures 3 * DelayAfter(strategy, attempt, random) <= 4 * CalcBackoff(attempt)
    ensures !strategy.jitter ==> DelayAfter(strategy, attempt, random) == CalcBackoff(attempt)
  {
    var plain := CalcBackoff(attempt);
    PlainIsTable(strategy, attempt);
    CalcBackoffRises(0, attempt);
    BoundInMillis(plain);
    JitterOnlyAdds(plain, JitterBound(plain), random);
  }

  /** A loop has waited for the sum of the table, and jitter only prolongs the waiting, by at most a third. */
  lemma {:induction false} JitterProlongs(strategy: BackoffStrategy, n: nat, draws: nat -> nat)
    requires FollowsTheTable(strategy)
    ensures Cumulative(n) <= Waited(strategy, n, draws) && 3 * Waited(strategy, n, draws) <= 4 * Cumulative(n)
    ensures !strategy.jitter ==> Waited(strategy, n, draws) == Cumulative(n)
  {
    var table := attempt => CalcBackoff(attempt);
    var delays := Delays(strategy, draws);
    forall attempt: nat
      ensures table(attempt) <= delays(attempt) && 3 * delays(attempt) <= 4 * table(attempt)
      ensures !strategy.jitter ==> delays(attempt) == CalcBackoff(attempt)
    {
      DelayIsKnown(strategy, attempt, draws(attempt));
    }
    TotalIsCumulative(table, n);
    TotalsCompare(table, delays, n);
    if !strategy.jitter {
      TotalIsCumulative(delays, n);
    }
  }

  /** A slot whose factory keeps failing is tried again after a time that is known to within a third. */
  lemma {:induction false} WaitingIsKnown(strategy: BackoffStrategy, n: nat, draws: nat -> nat)
    requires FollowsTheTable(strategy) && n >= 26
    ensures var sum := (50_000 + 10_000 * (n - 26)) * MILLISECOND;
            && sum <= Waited(strategy, n, draws) && 3 * Waited(strategy, n, draws) <= 4 * sum
            && (!strategy.jitter ==> Waited(strategy, n, draws) == sum)
  {
    JitterProlongs(strategy, n, draws);
    CumulativeIsExact(n);
  }

  lemma {:induction false} TotalOfEqual(delay: nat -> nat, each: nat, n: nat)
    requires forall attempt: nat :: delay(attempt) == each
    ensures Total(delay, n) == n * each
  {
    if n > 0 {
      TotalOfEqual(delay, each, n - 1);
      assert (n - 1) * each + each == n * each;
    }
  }

  lemma {:induction false} TotalOfAtLeast(delay: nat -> nat, each: nat, n: nat)
    requires forall attempt: nat :: each <= delay(attempt)
    ensures n * each <= Total(delay, n)
  {
    if n > 0 {
      TotalOfAtLeast(delay, each, n - 1);
      assert (n - 1) * each + each == n * each;
    }
  }

  /** With a constant delay the waiting grows with each failure by that delay, or by more with jitter. */
  lemma {:induction false} ConstantWaitsEvenly(fixed: nat, jitter: bool, n: nat, draws: nat -> nat)
    ensures n * fixed <= Waited(Constant(fixed, jitter), n, draws)
    ensures !jitter ==> Waited(Constant(fixed, jitter), n, draws) == n * fixed
  {
    var delays := Delays(Constant(fixed, jitter), draws);
    forall attempt: nat
      ensures fixed <= delays(attempt) && (!jitter ==> delays(attempt) == fixed)
    {
      JitterIsBounded(Constant(fixed, jitter), attempt, draws(attempt));
    }
    TotalOfAtLeast(delays, fixed, n);
    if !jitter {
      TotalOfEqual(delays, fixed, n);
    }
  }

  /** Without a backoff strategy a create loop tries again at once. */
  lemma {:induction false} NoBackoffNeverWaits(n: nat, draws: nat -> nat)
    ensures Waited(NoBackoff, n, draws) == 0
  {
    var delays := Delays(NoBackoff, draws);
    forall attempt: nat ensures delays(attempt) == 0 {
      assert DelayAfter(NoBackoff, attempt, draws(attempt)) == 0;
    }
    TotalOfEqual(delays, 0, n);
  }

  /** The delay is that of the table unless the cap is less. */
  ghost predicate IsCut(delay: nat -> nat, table: nat -> nat, cap: nat, attempt: nat) {
    delay(attempt) == if table(attempt) < cap then table(attempt) else cap
  }

  lemma {:induction false} TotalOfCut(delay: nat -> nat, table: nat -> nat, cap: nat, n: nat)
    requires forall attempt: nat :: IsCut(delay, table, cap, attempt)
    ensures Total(delay, n) <= Total(table, n) && Total(delay, n) <= n * cap
    ensures (forall attempt: nat :: attempt <= n ==> table(attempt) <= cap) ==> Total(delay, n) == Total(table, n)
  {
    if n > 0 {
      TotalOfCut(delay, table, cap, n - 1);
      assert IsCut(delay, table, cap, n);
      assert (n - 1) * cap + cap == n * cap;
    }
  }

  /** A cap cuts every delay of the table that exceeds it and leaves the others as they are. */
  lemma {:induction false} CapCutsTheTable(cap: nat, n: nat, draws: nat -> nat)
    ensures Waited(IncrementalCapped(cap, false), n, draws) <= Cumulative(n)
    ensures Waited(IncrementalCapped(cap, false), n, draws) <= n * cap
    ensures CalcBackoff(n) <= cap ==> Waited(IncrementalCapped(cap, false), n, draws) == Cumulative(n)
  {
    var table := attempt => CalcBackoff(attempt);
    var delays := Delays(IncrementalCapped(cap, false), draws);
    forall attempt: nat ensures IsCut(delays, table, cap, attempt) {
      assert delays(attempt) == DelayAfter(IncrementalCapped(cap, false), attempt, draws(attempt));
    }
    forall attempt: nat | attempt <= n ensures table(attempt) <= CalcBackoff(n) {
      CalcBackoffRises(attempt, n);
    }
    TotalOfCut(delays, table, cap, n);
    TotalIsCumulative(table, n);
  }
}
