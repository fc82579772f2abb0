/** How a pool for several nodes is built from sub pools, and what that means for the nodes. */
module Layout {
  import opened Prelude
  import opened Dispatch

  datatype PoolConfig = PoolConfig(
    desiredPoolSize: nat,
    reservationLimit: nat,
    poolMultiplier: nat,
    nodes: seq<string>)

  datatype NodePool = NodePool(id: nat, node: string, desiredPoolSize: nat, reservationLimit: nat)

  /** The call for the connection factory of the i-th sub pool failed. */
  datatype InitializationError = MultiplierIsZero | FactoryFailed(i: nat)

  /** The share of each of `multiplier` sub pools of one node. */
  function Share(total: nat, multiplier: nat): nat
    requires multiplier > 0
  {
    if multiplier == 1 then total else total / multiplier + 1
  }

  function LimitShare(limit: nat, multiplier: nat): nat
    requires multiplier > 0
  {
    if limit == 0 then 0 else Share(limit, multiplier)
  }

  /** Sub pool `p` of the finished layout. */
  function PlannedPool(config: PoolConfig, p: nat): NodePool
    requires config.poolMultiplier > 0 && config.nodes != []
  {
    NodePool(p, config.nodes[p % |config.nodes|],
            Share(config.desiredPoolSize, config.poolMultiplier),
            LimitShare(config.reservationLimit, config.poolMultiplier))
  }

  lemma {:induction false} OneMore(x: nat, n: nat)
    ensures (x + 1) * n == x * n + n
  {
  }

  /** The sub pools that the configuration asks for, in their order. */
  predicate IsBuilt(config: PoolConfig, pools: seq<NodePool>)
    requires config.poolMultiplier > 0
  {
    && |pools| == config.poolMultiplier * |config.nodes|
    && (config.nodes != [] ==> forall p :: 0 <= p < |pools| ==> pools[p] == PlannedPool(config, p))
  }

  /** How many sub pools there are before a round. */
  ghost function RoundStart(round: nat, nodes: nat): nat {
    if round == 0 then 0 else RoundStart(round - 1, nodes) + nodes
  }

  lemma {:induction false} RoundStartIsProduct(round: nat, nodes: nat)
    ensures RoundStart(round, nodes) == round * nodes
  {
    if round > 0 {
      RoundStartIsProduct(round - 1, nodes);
      OneMore(round - 1, nodes);
    }
  }

  lemma {:induction false} PositionInRound(id: nat, nodes: nat, round: nat, i: nat, multiplier: nat)
    requires i < nodes && round < multiplier && id == RoundStart(round, nodes) + i
    ensures id % nodes == i && id < multiplier * nodes
  {
    RoundStartIsProduct(round, nodes);
    ModUnique(id, nodes, round, i);
    NextMultiple(round, multiplier, nodes);
  }

  /** The first sub pools are as planned, and no factory has failed so far. */
  predicate IsBuiltSoFar(config: PoolConfig, factoryFails: nat -> bool, pools: seq<NodePool>)
    requires config.poolMultiplier > 0
  {
    forall p :: 0 <= p < |pools| ==> config.nodes != [] && pools[p] == PlannedPool(config, p) && !factoryFails(p)
  }

  lemma {:induction false} OnePoolMore(config: PoolConfig, factoryFails: nat -> bool, pools: seq<NodePool>,
                                       pool: NodePool)
    requires config.poolMultiplier > 0 && IsBuiltSoFar(config, factoryFails, pools)
    requires config.nodes != [] && pool == PlannedPool(config, |pools|) && !factoryFails(|pools|)
    ensures IsBuiltSoFar(config, factoryFails, pools + [pool])
  {
    forall p | 0 <= p <= |pools|
      ensures (pools + [pool])[p] == PlannedPool(config, p) && !factoryFails(p)
    {
      assert p < |pools| ==> (pools + [pool])[p] == pools[p];
    }
  }

  /** The least share that makes more than `total` if there are `multiplier` of it. */
  predicate IsRoundedUp(share: nat, total: nat, multiplier: nat) {
    share > 0 && (share - 1) * multiplier <= total < share * multiplier
  }

  lemma {:induction false} SharesAreRoundedUp(config: PoolConfig)
    requires config.poolMultiplier > 0
    ensures config.poolMultiplier == 1 ==>
              && Share(config.desiredPoolSize, config.poolMultiplier) == config.desiredPoolSize
              && LimitShare(config.reservationLimit, config.poolMultiplier) == config.reservationLimit
    ensures config.poolMultiplier > 1 ==>
              var limit := LimitShare(config.reservationLimit, config.poolMultiplier);
              && IsRoundedUp(Share(config.desiredPoolSize, config.poolMultiplier), config.desiredPoolSize,
                             config.poolMultiplier)
              && (if config.reservationLimit == 0 then limit == 0
                  else IsRoundedUp(limit, config.reservationLimit, config.poolMultiplier))
  {
    if config.poolMultiplier > 1 {
      DivisionLeavesLess(config.desiredPoolSize, config.poolMultiplier);
      DivisionLeavesLess(config.reservationLimit, config.poolMultiplier);
    }
  }

  lemma {:induction false} DivisionLeavesLess(total: nat, n: nat)
    requires n > 0
    ensures total / n * n <= total < (total / n + 1) * n
  {
    OneMore(total / n, n);
  }

  /** Build the sub pools, going around all nodes once for each unit of the multiplier. */
  method New(config: PoolConfig, factoryFails: nat -> bool) returns (r: Result<seq<NodePool>, InitializationError>)
    ensures config.poolMultiplier == 0 ==> r == Err(MultiplierIsZero)
    ensures config.poolMultiplier > 0 && r.Ok? ==>
              IsBuilt(config, r.value) && forall p :: 0 <= p < |r.value| ==> !factoryFails(p)
    ensures r.Ok? ==> forall p :: 0 <= p < |r.value| ==>
                config.nodes != [] && r.value[p].id == p && r.value[p].node == config.nodes[p % |config.nodes|]
    ensures r.Ok? && config.poolMultiplier == 1 ==> forall p :: 0 <= p < |r.value| ==>
                r.value[p].desiredPoolSize == config.desiredPoolSize
                && r.value[p].reservationLimit == config.reservationLimit
    ensures r.Ok? && config.poolMultiplier > 1 ==> forall p :: 0 <= p < |r.value| ==>
                && IsRoundedUp(r.value[p].desiredPoolSize, config.desiredPoolSize, config.poolMultiplier)
                && (if config.reservationLimit == 0 then r.value[p].reservationLimit == 0
                    else IsRoundedUp(r.value[p].reservationLimit, config.reservationLimit, config.poolMultiplier))
    ensures config.poolMultiplier > 0 && r.Err? ==>
              && r.error.FactoryFailed? && r.error.i < config.poolMultiplier * |config.nodes|
              && factoryFails(r.error.i) && forall p :: 0 <= p < r.error.i ==> !factoryFails(p)
  {
    if config.poolMultiplier == 0 {
      return Err(MultiplierIsZero);
    }
    var multiplier := config.poolMultiplier;
    var desiredPoolSize, reservationLimit := config.desiredPoolSize, config.reservationLimit;
    if multiplier != 1 {
      var newReservationLimit := if reservationLimit == 0 then reservationLimit else reservationLimit / multiplier + 1;
      desiredPoolSize := desiredPoolSize / multiplier + 1;
      reservationLimit := newReservationLimit;
    }
    var pools: seq<NodePool> := [];
    var id := 0;
    for round := 0 to multiplier
      invariant id == |pools| == RoundStart(round, |config.nodes|)
      invariant IsBuiltSoFar(config, factoryFails, pools)
    {
      for i := 0 to |config.nodes|
        invariant id == |pools| == RoundStart(round, |config.nodes|) + i
        invariant IsBuiltSoFar(config, factoryFails, pools)
      {
        PositionInRound(id, |config.nodes|, round, i, multiplier);
        if factoryFails(id) {
          return Err(FactoryFailed(id));
        }
        var pool := NodePool(id, config.nodes[i], desiredPoolSize, reservationLimit);
        OnePoolMore(config, factoryFails, pools, pool);
        pools := pools + [pool];
        id := id + 1;
      }
    }
    RoundStartIsProduct(multiplier, |config.nodes|);
    SharesAreRoundedUp(config);
    r := Ok(pools);
  }

  /**
   The multiplier splits a node's connections and reservations so that its sub pools together have what was asked
   for, and at most one more each; a limit of zero stays zero.
   */
  lemma {:induction false} SharesCover(total: nat, multiplier: nat)
    requires multiplier > 0
    ensures total <= multiplier * Share(total, multiplier) <= total + multiplier
    ensures multiplier * LimitShare(0, multiplier) == 0
    ensures total > 0 ==> total <= multiplier * LimitShare(total, multiplier) <= total + multiplier
  {
    if multiplier > 1 {
      var q := total / multiplier;
      assert total == q * multiplier + total % multiplier;
      assert multiplier * (q + 1) == q * multiplier + multiplier;
    }
  }

  // ===== The nodes =====

  predicate AreIndices(picks: seq<nat>, n: nat) {
    forall i :: 0 <= i < |picks| ==> picks[i] < n
  }

  /** The sub pools that the dispatches of a run over them chose first. */
  function Chosen(pools: seq<NodePool>, picks: seq<nat>): (chosen: seq<NodePool>)
    requires AreIndices(picks, |pools|)
    ensures |chosen| == |picks| && forall i :: 0 <= i < |picks| ==> chosen[i] == pools[picks[i]]
  {
    seq(|picks|, i requires 0 <= i < |picks| => pools[picks[i]])
  }

  /** The nodes of some sub pools, by name. */
  function NodesOf(pools: seq<NodePool>): (names: seq<string>)
    ensures |names| == |pools| && forall i :: 0 <= i < |pools| ==> names[i] == pools[i].node
  {
    seq(|pools|, i requires 0 <= i < |pools| => pools[i].node)
  }

  /** A run of dispatches over the sub pools that were built, while the counter does not jump. */
  ghost predicate Dispatches(config: PoolConfig, pools: seq<NodePool>, count: nat,
                             orders: seq<Order>, replies: seq<Reply>)
  {
    && config.poolMultiplier > 0 && config.nodes != [] && IsBuilt(config, pools)
    && count < USIZE_VALUES && IsRun(|pools|, count, orders, replies)
    && |pools| > 0 && NoJump(|pools|, count, |Picks(replies)|)
  }

  lemma {:induction false} BuiltIsNotEmpty(config: PoolConfig, pools: seq<NodePool>)
    requires config.poolMultiplier > 0 && config.nodes != [] && IsBuilt(config, pools)
    ensures |pools| >= |config.nodes| > 0
  {
    NextMultiple(0, config.poolMultiplier, |config.nodes|);
  }

  /** Going around the sub pools goes around the nodes. */
  lemma {:induction false} ChosenGoAround(config: PoolConfig, pools: seq<NodePool>, count: nat, orders: seq<Order>,
                                          replies: seq<Reply>)
    requires Dispatches(config, pools, count, orders, replies)
    ensures var picks := Picks(replies);
            && AreIndices(picks, |pools|)
            && (forall i :: 0 <= i < |picks| ==> picks[i] == (count + i) % |pools|)
            && (forall i :: 0 <= i < |picks| ==> picks[i] % |config.nodes| == (count + i) % |config.nodes|)
            && (forall i :: 0 <= i < |picks| ==> pools[picks[i]].node == config.nodes[(count + i) % |config.nodes|])
  {
    PicksRotate(|pools|, count, orders, replies);
    var picks := Picks(replies);
    forall i | 0 <= i < |picks|
      ensures picks[i] < |pools| && picks[i] % |config.nodes| == (count + i) % |config.nodes|
    {
      DivisorKeepsRest(count + i, config.poolMultiplier, |config.nodes|, |pools|);
    }
  }

  /** How often the entries of `nodes` with this name were hit, if entry `i` was hit as often as `i` is in `hits`. */
  function NameHits(nodes: seq<string>, hits: seq<nat>, name: string, upTo: nat): nat
    requires upTo <= |nodes|
  {
    if upTo == 0 then 0
    else NameHits(nodes, hits, name, upTo - 1) + if nodes[upTo - 1] == name then CountIn<nat>(hits, upTo - 1) else 0
  }

  lemma {:induction false} OneMoreHit(nodes: seq<string>, hits: seq<nat>, name: string, upTo: nat)
    requires upTo <= |nodes| && hits != [] && hits[|hits| - 1] < |nodes|
    ensures var last := hits[|hits| - 1];
            NameHits(nodes, hits, name, upTo)
            == NameHits(nodes, hits[..|hits| - 1], name, upTo) + if last < upTo && nodes[last] == name then 1 else 0
  {
    if upTo > 0 {
      OneMoreHit(nodes, hits, name, upTo - 1);
    }
  }

  lemma {:induction false} NoHits(nodes: seq<string>, name: string, upTo: nat)
    requires upTo <= |nodes|
    ensures NameHits(nodes, [], name, upTo) == 0
  {
    if upTo > 0 {
      NoHits(nodes, name, upTo - 1);
    }
  }

  /** A name is hit as often as its entries are. */
  lemma {:induction false} HitsAddUp(nodes: seq<string>, hits: seq<nat>, names: seq<string>, name: string)
    requires |names| == |hits|
    requires forall i :: 0 <= i < |hits| ==> hits[i] < |nodes| && names[i] == nodes[hits[i]]
    ensures CountIn(names, name) == NameHits(nodes, hits, name, |nodes|)
  {
    if hits == [] {
      NoHits(nodes, name, |nodes|);
    } else {
      HitsAddUp(nodes, hits[..|hits| - 1], names[..|hits| - 1], name);
      OneMoreHit(nodes, hits, name, |nodes|);
    }
  }

  /** The share of each entry with this name, added up. */
  function NameShare(nodes: seq<string>, name: string, upTo: nat, share: nat): nat
    requires upTo <= |nodes|
  {
    if upTo == 0 then 0
    else NameShare(nodes, name, upTo - 1, share) + if nodes[upTo - 1] == name then share else 0
  }

  lemma {:induction false} NameShareIsProduct(nodes: seq<string>, name: string, upTo: nat, share: nat)
    requires upTo <= |nodes|
    ensures NameShare(nodes, name, upTo, share) == CountIn(nodes[..upTo], name) * share
  {
    if upTo > 0 {
      NameShareIsProduct(nodes, name, upTo - 1, share);
      OneMoreName(nodes, name, upTo);
      OneMore(CountIn(nodes[..upTo - 1], name), share);
    }
  }

  lemma {:induction false} HitsAreShared(nodes: seq<string>, hits: seq<nat>, name: string, upTo: nat, low: nat,
                                         high: nat)
    requires upTo <= |nodes|
    requires forall i: nat :: i < |nodes| ==> low <= CountIn(hits, i) <= high
    ensures NameShare(nodes, name, upTo, low) <= NameHits(nodes, hits, name, upTo) <= NameShare(nodes, name, upTo, high)
  {
    if upTo > 0 {
      HitsAreShared(nodes, hits, name, upTo - 1, low, high);
    }
  }

  lemma {:induction false} OneMoreName(nodes: seq<string>, name: string, upTo: nat)
    requires 0 < upTo <= |nodes|
    ensures CountIn(nodes[..upTo], name)
         == CountIn(nodes[..upTo - 1], name) + if nodes[upTo - 1] == name then 1 else 0
  {
    assert nodes[..upTo][..upTo - 1] == nodes[..upTo - 1];
  }

  /** Going around `m` places from a counter value. */
  function Around(count: nat, k: nat, m: nat): (hits: seq<nat>)
    requires m > 0
    ensures |hits| == k && forall i :: 0 <= i < k ==> hits[i] == (count + i) % m
  {
    seq(k, i requires 0 <= i < k => (count + i) % m)
  }

  lemma {:induction false} NamesAreShared(nodes: seq<string>, hits: seq<nat>, names: seq<string>, name: string,
                                          low: nat, high: nat)
    requires |names| == |hits|
    requires forall i :: 0 <= i < |hits| ==> hits[i] < |nodes| && names[i] == nodes[hits[i]]
    requires forall i: nat :: i < |nodes| ==> low <= CountIn(hits, i) <= high
    ensures CountIn(nodes, name) * low <= CountIn(names, name) <= CountIn(nodes, name) * high
  {
    HitsAddUp(nodes, hits, names, name);
    HitsAreShared(nodes, hits, name, |nodes|, low, high);
    NameShareIsProduct(nodes, name, |nodes|, low);
    NameShareIsProduct(nodes, name, |nodes|, high);
    assert nodes[..|nodes|] == nodes;
  }

  lemma {:induction false} NodesAreShared(config: PoolConfig, pools: seq<NodePool>, count: nat, orders: seq<Order>,
                                          replies: seq<Reply>, name: string, low: nat, high: nat)
    requires Dispatches(config, pools, count, orders, replies)
    requires var hits := Around(count, |Picks(replies)|, |config.nodes|);
             forall i: nat :: i < |config.nodes| ==> low <= CountIn(hits, i) <= high
    ensures var picks := Picks(replies);
            && AreIndices(picks, |pools|)
            && CountIn(config.nodes, name) * low <= CountIn(NodesOf(Chosen(pools, picks)), name)
            && CountIn(NodesOf(Chosen(pools, picks)), name) <= CountIn(config.nodes, name) * high
  {
    var picks := Picks(replies);
    var hits := Around(count, |picks|, |config.nodes|);
    ChosenGoAround(config, pools, count, orders, replies);
    var names := NodesOf(Chosen(pools, picks));
    NamesAreShared(config.nodes, hits, names, name, low, high);
  }

  /**
   Round robin is as fair to the nodes as it is to the sub pools, whatever the multiplier: over every run a node is the
   first choice of its share of the dispatches, once for each time that it is configured.
   */
  lemma {:induction false} NodesAreBalanced(config: PoolConfig, pools: seq<NodePool>, count: nat, orders: seq<Order>,
                                            replies: seq<Reply>, name: string)
    requires Dispatches(config, pools, count, orders, replies)
    ensures var picks := Picks(replies);
            var times := CountIn(config.nodes, name);
            && AreIndices(picks, |pools|)
            && times * (|picks| / |config.nodes|) <= CountIn(NodesOf(Chosen(pools, picks)), name)
            && CountIn(NodesOf(Chosen(pools, picks)), name) <= times * ((|picks| + |config.nodes| - 1) / |config.nodes|)
  {
    var k, m := |Picks(replies)|, |config.nodes|;
    RotatingIsBalanced(count, Around(count, k, m), m);
    NodesAreShared(config, pools, count, orders, replies, name, k / m, (k + m - 1) / m);
  }

  /** As many consecutive dispatches as there are nodes choose different nodes first, if none is configured twice. */
  lemma {:induction false} ConsecutiveChoicesDiffer(config: PoolConfig, pools: seq<NodePool>, count: nat,
                                                    orders: seq<Order>, replies: seq<Reply>, i: nat, j: nat)
    requires Dispatches(config, pools, count, orders, replies)
    requires forall a, b :: 0 <= a < b < |config.nodes| ==> config.nodes[a] != config.nodes[b]
    requires i < j < |Picks(replies)| && j - i < |config.nodes|
    ensures Picks(replies)[i] < |pools| && Picks(replies)[j] < |pools|
    ensures pools[Picks(replies)[i]].node != pools[Picks(replies)[j]].node
  {
    ChosenGoAround(config, pools, count, orders, replies);
    ModStep(count + i, 0, |config.nodes|);
    ModStep(count + i, j - i, |config.nodes|);
  }

  /** And once around all nodes, the same node is chosen again, by the next one of its sub pools. */
  lemma {:induction false} VisitsToANodeRotate(config: PoolConfig, pools: seq<NodePool>, count: nat,
                                               orders: seq<Order>, replies: seq<Reply>, i: nat)
    requires Dispatches(config, pools, count, orders, replies)
    requires i + |config.nodes| < |Picks(replies)|
    ensures var pick, next := Picks(replies)[i], Picks(replies)[i + |config.nodes|];
            && pick < |pools| && next < |pools| && pools[next].node == pools[pick].node
            && next == if pick + |config.nodes| < |pools| then pick + |config.nodes| else pick % |config.nodes|
  {
    var m, n := |config.nodes|, |pools|;
    BuiltIsNotEmpty(config, pools);
    ChosenGoAround(config, pools, count, orders, replies);
    SameRest(count + i, m);
    NextAround(config.poolMultiplier, m, n, count + i);
  }

  lemma {:induction false} SameRest(a: nat, m: nat)
    requires m > 0
    ensures (a + m) % m == a % m
  {
    DivMod(a, m);
    assert a + m == (a / m + 1) * m + a % m;
    ModUnique(a + m, m, a / m + 1, a % m);
  }

  lemma {:induction false} NextAround(multiplier: nat, m: nat, n: nat, a: nat)
    requires m > 0 && multiplier > 0 && n == multiplier * m
    ensures n >= m && n > 0
    ensures (a + m) % n == if a % n + m < n then a % n + m else a % n % m
  {
    NextMultiple(0, multiplier, m);
    if m == n {
      SameRest(a, n);
      ModUnique(a % n, m, 0, a % n);
    } else {
      ModStep(a, m, n);
      if a % n + m >= n {
        LastRound(multiplier, m, n, a % n);
      }
    }
  }

  /** In the last round a position is as far from the beginning of that round as its rest says. */
  lemma {:induction false} LastRound(multiplier: nat, m: nat, n: nat, position: nat)
    requires m > 0 && multiplier > 0 && n == multiplier * m && n - m <= position < n
    ensures position % m == position + m - n
  {
    assert (multiplier - 1) * m == n - m;
    ModUnique(position, m, multiplier - 1, position + m - n);
  }
}
