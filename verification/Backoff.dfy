/** Delays between the attempts to create a connection. */
module Backoff {
  import opened Prelude

  /** In milliseconds. */
  const NEW_CONN_BACKOFFS_MS: seq<nat> :=
    [5, 10, 10, 15, 30, 30, 50, 50, 100, 100, 100, 200, 300, 500, 500, 1_000, 1_000, 1_000,
     2_500, 2_500, 5_000, 5_000, 5_000, 7_500, 7_500, 10_000]

  const MAX_NEW_CONN_BACKOFF_MS: nat := 10_000

  /** Durations are in nanoseconds. */
  datatype BackoffStrategy =
    | NoBackoff
    | Constant(fixed: nat, jitter: bool)
    | Incremental(jitter: bool)
    | IncrementalCapped(cap: nat, jitter: bool)

  function CalcBackoff(attempt: nat): nat {
    var idx := if attempt == 0 then 0 else attempt - 1;
    (if idx < |NEW_CONN_BACKOFFS_MS| then NEW_CONN_BACKOFFS_MS[idx] else MAX_NEW_CONN_BACKOFF_MS) * MILLISECOND
  }

  /** The delay before jitter. */
  function Plain(strategy: BackoffStrategy, attempt: nat): nat
    requires !strategy.NoBackoff?
  {
    match strategy
    case Constant(fixed, _) => fixed
    case Incremental(_) => CalcBackoff(attempt)
    case IncrementalCapped(cap, _) => if CalcBackoff(attempt) < cap then CalcBackoff(attempt) else cap
  }

  predicate HasJitter(strategy: BackoffStrategy) {
    !strategy.NoBackoff? && strategy.jitter
  }

  /** Whole milliseconds of a delay, as they fit into 64 bits. */
  function WholeMillis(delay: nat): nat {
    Usize(delay / MILLISECOND)
  }

  /** Jitter is drawn below this many milliseconds; no jitter is drawn if it is zero. */
  function JitterBound(delay: nat): nat {
    var ms := WholeMillis(delay);
    if ms >= 100 then (if ms / 5 < 3_000 then ms / 5 else 3_000)
    else if ms == 1 then 1
    else ms / 3
  }

  /** What a random draw below `bound` yields for a random number. */
  function Draw(random: nat, bound: nat): (r: nat)
    requires bound > 0
    ensures r < bound
  {
    random % bound
  }

  /** The delay and a jitter below `bound` milliseconds. */
  function AddJitter(delay: nat, bound: nat, random: nat): nat {
    if bound == 0 then delay else delay + Draw(random, bound) * MILLISECOND
  }

  function GetNextBackoff(strategy: BackoffStrategy, attempt: nat, random: nat): Option<nat> {
    if strategy.NoBackoff? then None
    else
      var backoff := Plain(strategy, attempt);
      Some(if HasJitter(strategy) then AddJitter(backoff, JitterBound(backoff), random) else backoff)
  }

  // ===== The table =====

  /** The table never falls, and nothing in it exceeds the maximum that follows it. */
  lemma {:induction false} TableRises(i: nat, j: nat)
    requires i <= j < |NEW_CONN_BACKOFFS_MS|
    ensures NEW_CONN_BACKOFFS_MS[i] <= NEW_CONN_BACKOFFS_MS[j] <= MAX_NEW_CONN_BACKOFF_MS
  {
    if i < j {
      TableRises(i, j - 1);
    }
  }

  lemma {:induction false} CalcBackoffRises(attempt: nat, later: nat)
    requires attempt <= later
    ensures CalcBackoff(attempt) <= CalcBackoff(later) <= MAX_NEW_CONN_BACKOFF_MS * MILLISECOND
  {
    var i := if attempt == 0 then 0 else attempt - 1;
    var j := if later == 0 then 0 else later - 1;
    if j < |NEW_CONN_BACKOFFS_MS| {
      TableRises(i, j);
    } else if i < |NEW_CONN_BACKOFFS_MS| {
      TableRises(i, |NEW_CONN_BACKOFFS_MS| - 1);
    }
  }

  /** Incremental delays never fall from one attempt to the next, and keep below the cap and ten seconds. */
  lemma {:induction false} IncrementalRises(strategy: BackoffStrategy, attempt: nat, later: nat)
    requires strategy.Incremental? || strategy.IncrementalCapped?
    requires attempt <= later
    ensures Plain(strategy, attempt) <= Plain(strategy, later) <= 10_000 * MILLISECOND
    ensures strategy.IncrementalCapped? ==> Plain(strategy, later) <= strategy.cap
  {
    CalcBackoffRises(attempt, later);
  }

  // ===== The sum =====

  /** The delays after the first `n` failed attempts together, without jitter. */
  function Cumulative(n: nat): nat {
    if n == 0 then 0 else Cumulative(n - 1) + CalcBackoff(n)
  }

  lemma {:induction false} SumOfTheFirstSix()
    ensures Cumulative(6) == 100 * MILLISECOND
  {
    assert Cumulative(3) == 25 * MILLISECOND;
  }

  lemma {:induction false} SumsOfFastRetries()
    ensures Cumulative(6) == 100 * MILLISECOND && Cumulative(8) == 200 * MILLISECOND
  {
    SumOfTheFirstSix();
  }

  lemma {:induction false} SumsOfTheFirstHalf()
    ensures Cumulative(11) == 500 * MILLISECOND && Cumulative(13) == 1_000 * MILLISECOND
  {
    SumsOfFastRetries();
  }

  lemma {:induction false} SumsOfSlowRetries()
    ensures Cumulative(15) == 2_000 * MILLISECOND && Cumulative(18) == 5_000 * MILLISECOND
  {
    SumsOfTheFirstHalf();
  }

  /** The sums that the table is laid out for, up to twenty seconds. */
  lemma {:induction false} SumsOfTheTable()
    ensures Cumulative(6) == 100 * MILLISECOND && Cumulative(8) == 200 * MILLISECOND
    ensures Cumulative(11) == 500 * MILLISECOND && Cumulative(13) == 1_000 * MILLISECOND
    ensures Cumulative(15) == 2_000 * MILLISECOND && Cumulative(18) == 5_000 * MILLISECOND
    ensures Cumulative(20) == 10_000 * MILLISECOND && Cumulative(22) == 20_000 * MILLISECOND
  {
    SumsOfFastRetries();
    SumsOfTheFirstHalf();
    SumsOfSlowRetries();
  }

  lemma {:induction false} SumOfTheTable()
    ensures Cumulative(26) == 50_000 * MILLISECOND
  {
    SumsOfTheTable();
  }

  /** From the 26th attempt on the pool retries every ten seconds, after fifty seconds of faster retries. */
  lemma {:induction false} CumulativeIsExact(n: nat)
    requires n >= 26
    ensures Cumulative(n) == (50_000 + 10_000 * (n - 26)) * MILLISECOND
  {
    if n == 26 {
      SumOfTheTable();
    } else {
      CumulativeIsExact(n - 1);
    }
  }

  // ===== Jitter =====

  lemma {:induction false} SmallMillis(delay: nat)
    ensures WholeMillis(delay) <= delay / MILLISECOND
    ensures delay / MILLISECOND < USIZE_VALUES ==> WholeMillis(delay) == delay / MILLISECOND
  {
  }

  lemma {:induction false} BoundInMillis(delay: nat)
    ensures JitterBound(delay) <= 3_000
    ensures delay / MILLISECOND < USIZE_VALUES ==>
              && (delay >= 100 * MILLISECOND ==> 5 * JitterBound(delay) * MILLISECOND <= delay)
              && (delay >= 2 * MILLISECOND ==> 3 * JitterBound(delay) * MILLISECOND <= delay)
              && (JitterBound(delay) >= 2 <==> delay >= 6 * MILLISECOND)
  {
    SmallMillis(delay);
    var ms := delay / MILLISECOND;
    assert ms * MILLISECOND <= delay < (ms + 1) * MILLISECOND;
  }

  /** Jitter only adds, and less than its bound. */
  lemma {:induction false} JitterOnlyAdds(delay: nat, bound: nat, random: nat)
    ensures delay <= AddJitter(delay, bound, random) <= delay + bound * MILLISECOND
    ensures AddJitter(delay, bound, random) == delay || AddJitter(delay, bound, random) < delay + bound * MILLISECOND
  {
    if bound > 0 {
      assert Draw(random, bound) * MILLISECOND <= (bound - 1) * MILLISECOND;
    }
  }

  lemma {:induction false} JitterNeedsRoom(delay: nat, bound: nat)
    ensures (exists random: nat :: AddJitter(delay, bound, random) != delay) <==> bound >= 2
  {
    if bound >= 2 {
      assert Draw(1, bound) == 1;
      assert AddJitter(delay, bound, 1) != delay;
    } else if bound == 1 {
      assert forall random: nat :: Draw(random, bound) == 0;
    }
  }

  /**
   With jitter a delay gets longer by less than three seconds and, from 100 milliseconds on, by less than a fifth;
   without jitter it stays as it is.
   */
  lemma {:induction false} JitterIsBounded(strategy: BackoffStrategy, attempt: nat, random: nat)
    requires !strategy.NoBackoff?
    ensures var plain := Plain(strategy, attempt);
            var delay := GetNextBackoff(strategy, attempt, random).value;
            && plain <= delay < plain + 3_000 * MILLISECOND
            && (plain >= 100 * MILLISECOND && plain / MILLISECOND < USIZE_VALUES ==> 5 * (delay - plain) < plain)
            && (!HasJitter(strategy) ==> delay == plain)
  {
    var plain := Plain(strategy, attempt);
    BoundInMillis(plain);
    JitterOnlyAdds(plain, JitterBound(plain), random);
  }

  /** How much a delay of at least two milliseconds can be prolonged before whole milliseconds are cut off. */
  function Room(delay: nat): nat {
    if delay < 100 * MILLISECOND then delay / 3
    else if delay < 15_000 * MILLISECOND then delay / 5
    else 3_000 * MILLISECOND
  }

  lemma {:induction false} BoundFillsTheRoom(delay: nat)
    requires delay >= 2 * MILLISECOND && delay / MILLISECOND < USIZE_VALUES
    ensures JitterBound(delay) * MILLISECOND <= Room(delay) < (JitterBound(delay) + 1) * MILLISECOND
  {
    SmallMillis(delay);
    var ms := delay / MILLISECOND;
    assert ms * MILLISECOND <= delay < (ms + 1) * MILLISECOND;
  }

  /**
   Jitter uses its room, which is a third of a delay below 100 milliseconds, a fifth of a delay from there to 15
   seconds, and three seconds for any longer one: every draw stays below it, and some draw comes within two
   milliseconds of it.
   */
  lemma {:induction false} JitterUsesItsRoom(strategy: BackoffStrategy, attempt: nat, random: nat)
    requires HasJitter(strategy) && Plain(strategy, attempt) >= 6 * MILLISECOND
    requires Plain(strategy, attempt) / MILLISECOND < USIZE_VALUES
    ensures var plain := Plain(strategy, attempt);
            && GetNextBackoff(strategy, attempt, random).value < plain + Room(plain)
            && CanExceed(strategy, attempt, plain + Room(plain) - 2 * MILLISECOND)
  {
    var plain := Plain(strategy, attempt);
    BoundInMillis(plain);
    BoundFillsTheRoom(plain);
    JitterOnlyAdds(plain, JitterBound(plain), random);
    SomeDrawExceeds(strategy, attempt, plain + Room(plain) - 2 * MILLISECOND);
  }

  /** With jitter an incremental delay keeps below twelve seconds. */
  lemma {:induction false} IncrementalStaysBelowTwelveSeconds(strategy: BackoffStrategy, attempt: nat, random: nat)
    requires strategy.Incremental? || strategy.IncrementalCapped?
    ensures GetNextBackoff(strategy, attempt, random).value < 12_000 * MILLISECOND
  {
    var plain := Plain(strategy, attempt);
    IncrementalRises(strategy, attempt, attempt);
    BoundInMillis(plain);
    JitterOnlyAdds(plain, JitterBound(plain), random);
  }

  /** Jitter can change a delay exactly from six milliseconds on; below that its bound leaves only zero to draw. */
  lemma {:induction false} JitterMattersExactly(strategy: BackoffStrategy, attempt: nat)
    requires HasJitter(strategy) && Plain(strategy, attempt) / MILLISECOND < USIZE_VALUES
    ensures (exists random: nat :: GetNextBackoff(strategy, attempt, random) != Some(Plain(strategy, attempt)))
        <==> Plain(strategy, attempt) >= 6 * MILLISECOND
  {
    var plain := Plain(strategy, attempt);
    var bound := JitterBound(plain);
    BoundInMillis(plain);
    JitterNeedsRoom(plain, bound);
    if random: nat :| AddJitter(plain, bound, random) != plain {
      assert GetNextBackoff(strategy, attempt, random) != Some(plain);
    }
  }

  lemma {:induction false} LateAttempts(attempt: nat)
    ensures if attempt >= 26 then CalcBackoff(attempt) == 10_000 * MILLISECOND
            else CalcBackoff(attempt) <= 7_500 * MILLISECOND
  {
    if attempt < 26 {
      TableRises(if attempt == 0 then 0 else attempt - 1, 24);
    }
  }

  /** The most that jitter can add to a delay. */
  function LongestJitter(delay: nat): nat {
    if JitterBound(delay) == 0 then 0 else (JitterBound(delay) - 1) * MILLISECOND
  }

  lemma {:induction false} JitterReaches(delay: nat, bound: nat, limit: nat)
    ensures (exists random: nat :: AddJitter(delay, bound, random) > limit)
        <==> delay + (if bound == 0 then 0 else (bound - 1) * MILLISECOND) > limit
  {
    if bound == 0 {
      assert AddJitter(delay, bound, 0) == delay;
    } else {
      assert Draw(bound - 1, bound) == bound - 1;
      assert AddJitter(delay, bound, bound - 1) == delay + (bound - 1) * MILLISECOND;
      forall random: nat ensures AddJitter(delay, bound, random) <= delay + (bound - 1) * MILLISECOND {
        assert Draw(random, bound) * MILLISECOND <= (bound - 1) * MILLISECOND;
      }
    }
  }

  ghost predicate CanExceed(strategy: BackoffStrategy, attempt: nat, limit: nat)
    requires !strategy.NoBackoff?
  {
    exists random: nat :: GetNextBackoff(strategy, attempt, random).value > limit
  }

  lemma {:induction false} SomeDrawExceeds(strategy: BackoffStrategy, attempt: nat, limit: nat)
    requires !strategy.NoBackoff?
    ensures CanExceed(strategy, attempt, limit)
        <==> Plain(strategy, attempt) + (if strategy.jitter then LongestJitter(Plain(strategy, attempt)) else 0) > limit
  {
    var plain := Plain(strategy, attempt);
    var bound := JitterBound(plain);
    if strategy.jitter {
      JitterReaches(plain, bound, limit);
      if random: nat :| AddJitter(plain, bound, random) > limit {
        assert GetNextBackoff(strategy, attempt, random).value > limit;
      }
    } else {
      assert GetNextBackoff(strategy, attempt, 0) == Some(plain);
    }
  }

  lemma {:induction false} LongestOfSmall(delay: nat)
    requires delay <= 10_000 * MILLISECOND
    ensures delay + LongestJitter(delay) > 10_000 * MILLISECOND <==> delay >= 8_335 * MILLISECOND
    ensures LongestJitter(delay) > 0 <==> delay >= 6 * MILLISECOND
  {
    var ms := delay / MILLISECOND;
    SmallMillis(delay);
    assert ms * MILLISECOND <= delay < (ms + 1) * MILLISECOND;
    BoundInMillis(delay);
    if ms >= 100 {
      assert LongestJitter(delay) == (ms / 5 - 1) * MILLISECOND;
    }
  }

  /**
   The maximum of ten seconds that both incremental strategies announce is exceeded, for some draw, exactly with jitter
   and from attempt 26 on, unless the cap is below 8335 milliseconds.
   */
  lemma {:induction false} JitterExceedsTheMaximumExactly(strategy: BackoffStrategy, attempt: nat)
    requires strategy.Incremental? || strategy.IncrementalCapped?
    ensures CanExceed(strategy, attempt, 10_000 * MILLISECOND)
        <==> strategy.jitter && attempt >= 26 && (strategy.IncrementalCapped? ==> strategy.cap >= 8_335 * MILLISECOND)
  {
    LateAttempts(attempt);
    LongestOfSmall(Plain(strategy, attempt));
    SomeDrawExceeds(strategy, attempt, 10_000 * MILLISECOND);
  }

  /**
   The cap is exceeded, for some draw, exactly with jitter and either where it cuts the delay and is six milliseconds or
   more, or where it does not and the longest jitter leads beyond it.
   */
  lemma {:induction false} JitterExceedsTheCapExactly(cap: nat, jitter: bool, attempt: nat)
    ensures CanExceed(IncrementalCapped(cap, jitter), attempt, cap)
        <==> jitter && if CalcBackoff(attempt) >= cap then cap >= 6 * MILLISECOND
                       else CalcBackoff(attempt) + LongestJitter(CalcBackoff(attempt)) > cap
  {
    CalcBackoffRises(attempt, attempt);
    LongestOfSmall(Plain(IncrementalCapped(cap, jitter), attempt));
    SomeDrawExceeds(IncrementalCapped(cap, jitter), attempt, cap);
  }
}
