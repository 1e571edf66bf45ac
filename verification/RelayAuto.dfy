/** The most attempts the relay loop can make with auto groups, for any fallback chain. */
module RelayAuto {
  import opened Prelude
  import opened Routing
  import opened Relay
  import opened RelayLaws

  /** Groups from an index on that can still answer. */
  function GroupsFrom(cfg: Config, index: nat): nat {
    if cfg.autoEnabled && index < |cfg.autoGroups| then |cfg.autoGroups| - index else 0
  }

  /** What a swap inside a group can gain: the retries made before it. */
  function SwapGain(cfg: Config): int {
    if cfg.crossGroupRetry then cfg.retryTimes - 1 else cfg.retryTimes
  }

  /** Attempts with n >= 1 groups left, the current one at a retry count. */
  function GroupRoom(cfg: Config, n: nat, retry: int): int {
    if cfg.crossGroupRetry then n * (cfg.retryTimes + 1) - retry
    else n * cfg.retryTimes + 1 - retry
  }

  /** The most attempts of a request that starts at a group index with a chain of a length. */
  function AutoMax(cfg: Config, index: nat, hops: nat): int {
    var n := GroupsFrom(cfg, index);
    if cfg.retryTimes == 0 || n == 0 then 1
    else GroupRoom(cfg, n, 0) + hops * SwapGain(cfg)
  }

  // ---- no world makes more ------------------------------------------------------------------------

  function Potential(cfg: Config, s: State): int {
    var n := GroupsFrom(cfg, s.groupIndex);
    if n == 0 then if s.hasMeta then 0 else 1
    else GroupRoom(cfg, n, s.retry) + |s.fallback| * SwapGain(cfg)
  }

  /** With retries; without cross-group retry the counter never goes below zero. */
  ghost predicate Fit(cfg: Config, s: State) {
    && Auto(cfg) && cfg.retryTimes >= 1 && Ready(cfg, s)
    && (!cfg.crossGroupRetry ==> s.retry >= 0)
  }

  lemma RoomAtLeast(cfg: Config, n: nat, retry: int)
    requires cfg.retryTimes >= 1 && n >= 1 && retry <= cfg.retryTimes + 1
    ensures GroupRoom(cfg, n, retry) >= 0
    ensures retry <= cfg.retryTimes ==> GroupRoom(cfg, n, retry) >= 1
  {
    if n > 1 {
      MulLess(1, n, cfg.retryTimes + 1);
      MulLess(1, n, cfg.retryTimes);
    }
  }

  /** A later group has less room, by at least one group's worth. */
  lemma RoomLater(cfg: Config, n: nat, m: nat, retry: int)
    requires cfg.retryTimes >= 1 && 1 <= m < n
    ensures GroupRoom(cfg, m, retry) + (if cfg.crossGroupRetry then cfg.retryTimes + 1 else cfg.retryTimes) <= GroupRoom(cfg, n, retry)
  {
    MulLess(m, n, cfg.retryTimes + 1);
    MulLess(m, n, cfg.retryTimes);
  }

  lemma ChainWeight(cfg: Config, k: nat)
    requires cfg.retryTimes >= 1
    ensures k * SwapGain(cfg) >= 0
    ensures k >= 1 ==> (k - 1) * SwapGain(cfg) == k * SwapGain(cfg) - SwapGain(cfg)
  {
  }

  lemma PotentialNonNegative(cfg: Config, s: State)
    requires Fit(cfg, s)
    ensures Potential(cfg, s) >= 0
  {
    var n := GroupsFrom(cfg, s.groupIndex);
    ChainWeight(cfg, |s.fallback|);
    if n >= 1 {
      RoomAtLeast(cfg, n, s.retry);
    }
  }

  lemma AttemptCosts(cfg: Config, s: State, c: Choice, t: State)
    requires Fit(cfg, s) && s.retry <= cfg.retryTimes && Placed(cfg, s, c, t) && t.fallback == s.fallback
    ensures Fit(cfg, IncreaseRetry(t)) && Potential(cfg, IncreaseRetry(t)) <= Potential(cfg, s) - 1
  {
    var n, m := GroupsFrom(cfg, s.groupIndex), GroupsFrom(cfg, t.groupIndex);
    ChainWeight(cfg, |s.fallback|);
    if n >= 1 {
      RoomAtLeast(cfg, n, s.retry);
      if 1 <= m < n {
        RoomLater(cfg, n, m, s.retry);
      }
    }
  }

  lemma SwapCosts(cfg: Config, s: State, t: State, u: State)
    requires Fit(cfg, s) && s.retry <= cfg.retryTimes && Swapped(cfg, s, t, u)
    ensures Fit(cfg, u) && Potential(cfg, u) <= Potential(cfg, s)
  {
    var n, m := GroupsFrom(cfg, s.groupIndex), GroupsFrom(cfg, t.groupIndex);
    ChainWeight(cfg, |s.fallback|);
    if n >= 1 {
      RoomAtLeast(cfg, n, s.retry);
      if 1 <= m < n {
        RoomLater(cfg, n, m, s.retry);
      }
    }
  }

  lemma IterateCosts(cfg: Config, w: World, n: nat, s: State)
    requires Fit(cfg, s) && s.retry <= cfg.retryTimes
    ensures var next := Iterate(cfg, w, n, s);
      && (next.Stop? ==> |next.state.log| <= |s.log| + Potential(cfg, s))
      && (next.Again? ==> Fit(cfg, next.state) && |next.state.log| + Potential(cfg, next.state) <= |s.log| + Potential(cfg, s))
  {
    var next := Iterate(cfg, w, n, s);
    IterateCases(cfg, w, n, s);
    if Swap(cfg, s, next) {
      var t :| Swapped(cfg, s, t, next.state);
      SwapCosts(cfg, s, t, next.state);
    } else if Idle(s, next) {
      PotentialNonNegative(cfg, s);
    } else {
      var c, t :| AttemptOn(cfg, w, n, s, c, t) && After(t, next);
      AttemptCosts(cfg, s, c, t);
      PotentialNonNegative(cfg, IncreaseRetry(t));
    }
  }

  lemma {:induction false} RunCosts(cfg: Config, w: World, n: nat, s: State)
    requires Fit(cfg, s)
    ensures |Run(cfg, w, n, s).log| <= |s.log| + Potential(cfg, s)
    decreases |s.fallback|, GroupsLeft(cfg, s), Slack(cfg, s)
  {
    if s.retry > cfg.retryTimes {
      PotentialNonNegative(cfg, s);
    } else {
      IterateCosts(cfg, w, n, s);
      IterateDescends(cfg, w, n, s);
      if Iterate(cfg, w, n, s).Again? {
        RunCosts(cfg, w, n + 1, Iterate(cfg, w, n, s).state);
      }
    }
  }

  /** No world makes more attempts than AutoMax. */
  lemma AttemptsAuto(cfg: Config, w: World, groupIndex: nat, chain: seq<string>, model: string)
    requires Auto(cfg) && cfg.retryTimes >= 0
    ensures |Run(cfg, w, 0, Start(groupIndex, chain, model)).log| <= AutoMax(cfg, groupIndex, |chain|)
  {
    var s := Start(groupIndex, chain, model);
    if cfg.retryTimes == 0 {
      IterateDescends(cfg, w, 0, s);
    } else {
      RunCosts(cfg, w, 0, s);
    }
  }

  // ---- some world makes that many ------------------------------------------------------------------

  /** Retried whatever the counter says. */
  const CHANNEL_ERROR := Error("channel:invalid_key", 500, false)

  lemma ChannelErrorRetries(cfg: Config, left: int)
    ensures ShouldRetry(cfg, false, CHANNEL_ERROR, left)
  {
    assert "channel:" <= CHANNEL_ERROR.code;
  }

  /** How often it pays to swap: with a single retry and cross-group retry a swap gains nothing. */
  function Swaps(cfg: Config, hops: nat): nat {
    if cfg.crossGroupRetry && cfg.retryTimes == 1 then 0 else hops
  }

  /** Passes from one swap to the next: the swap takes the place of the last attempt that does not leave the group. */
  function Cycle(cfg: Config): nat
    requires cfg.retryTimes >= 1
  {
    if cfg.crossGroupRetry then cfg.retryTimes else cfg.retryTimes + 1
  }

  /**
    First every chain entry is used up by swaps in the starting group; then every group is used to the
    end, left by a missing channel at the last priority if the loop would stop there.
   */
  function Costliest(cfg: Config, hops: nat): World
    requires cfg.retryTimes >= 1
  {
    var phase, cycle := Swaps(cfg, hops) * Cycle(cfg), Cycle(cfg);
    World(
      (q: Query) =>
        if !cfg.crossGroupRetry && q.iteration >= phase && q.priority == cfg.retryTimes && q.slot + 1 < |cfg.autoGroups|
        then Nothing else Found(1),
      n => if n < phase && (n + 1) % cycle == 0 then Some(EXHAUSTED) else None,
      n => None,
      n => Some(CHANNEL_ERROR),
      n => false)
  }

  ghost predicate At(cfg: Config, index: nat, s: State) {
    && Auto(cfg) && cfg.autoEnabled && cfg.retryTimes >= 1 && index < |cfg.autoGroups|
    && s.hasMeta && !s.resetNextTry && s.groupIndex == index && 0 <= s.retry <= cfg.retryTimes
  }

  /** A pass that finds a channel in the current group and sets it up. */
  lemma PassAttempts(cfg: Config, w: World, n: nat, index: nat, s: State)
    requires At(cfg, index, s) && w.body(n).None? && w.setup(n).None? && w.reply(n) == Some(CHANNEL_ERROR) && !w.affinitySkip(n)
    requires w.pick(Query(n, index, cfg.autoGroups[index], s.model, s.retry)) == Found(1)
    ensures var next := Iterate(cfg, w, n, s);
      && next.Again? && |next.state.log| == |s.log| + 1 && next.state.hasMeta && !next.state.resetNextTry
      && next.state.fallback == s.fallback && next.state.hop == s.hop
      && if cfg.crossGroupRetry && s.retry >= cfg.retryTimes
         then next.state.groupIndex == index + 1 && next.state.retry == 0
         else next.state.groupIndex == index && next.state.retry == s.retry + 1
  {
    forall left ensures ShouldRetry(cfg, false, CHANNEL_ERROR, left) {
      ChannelErrorRetries(cfg, left);
    }
  }

  /** A pass that finds a channel in the current group, whose set-up reports exhaustion, before the last priority counts. */
  lemma PassSwaps(cfg: Config, w: World, n: nat, index: nat, s: State)
    requires At(cfg, index, s) && s.fallback != [] && w.setup(n) == Some(EXHAUSTED)
    requires !(cfg.crossGroupRetry && s.retry >= cfg.retryTimes)
    requires w.pick(Query(n, index, cfg.autoGroups[index], s.model, s.retry)) == Found(1)
    ensures var next := Iterate(cfg, w, n, s);
      && next.Again? && next.state.log == s.log && next.state.hasMeta && !next.state.resetNextTry
      && |next.state.fallback| == |s.fallback| - 1 && next.state.hop == s.hop + 1
      && next.state.groupIndex == index && next.state.retry == 0
  {
  }

  /** A pass that misses in the current group and finds a channel in the next. */
  lemma PassMovesOn(cfg: Config, w: World, n: nat, index: nat, s: State)
    requires At(cfg, index, s) && index + 1 < |cfg.autoGroups| && !cfg.crossGroupRetry
    requires w.body(n).None? && w.setup(n).None? && w.reply(n) == Some(CHANNEL_ERROR) && !w.affinitySkip(n)
    requires w.pick(Query(n, index, cfg.autoGroups[index], s.model, s.retry)) == Nothing
    requires w.pick(Query(n, index + 1, cfg.autoGroups[index + 1], s.model, 0)) == Found(1)
    ensures var next := Iterate(cfg, w, n, s);
      && next.Again? && |next.state.log| == |s.log| + 1 && next.state.hasMeta && !next.state.resetNextTry
      && next.state.groupIndex == index + 1 && next.state.retry == 1
  {
    forall left ensures ShouldRetry(cfg, false, CHANNEL_ERROR, left) {
      ChannelErrorRetries(cfg, left);
    }
    var u := s.(groupIndex := index + 1, retry := 0);
    assert AutoFrom(cfg, w, n, s, index, index) == AutoFrom(cfg, w, n, u, index, index + 1);
    assert AutoFrom(cfg, w, n, u, index, index + 1) == (Answered(cfg, u, index + 1, 0), Some(Choice(1, index + 1, 0)));
  }

  // ---- exhausted auto groups -----------------------------------------------------------------------

  predicate Spent(cfg: Config, s: State) {
    Auto(cfg) && s.hasMeta && !s.resetNextTry && (!cfg.autoEnabled || s.groupIndex >= |cfg.autoGroups|)
  }

  /**
    The group index never goes back, so once the auto groups are used up the whole fallback chain
    is consumed without one attempt: its models do not get a retry budget of their own.
   */
  lemma {:induction false} SpentGroupsNeverServe(cfg: Config, w: World, n: nat, s: State)
    requires Spent(cfg, s) && 0 <= cfg.retryTimes && s.retry <= cfg.retryTimes
    ensures var t := Run(cfg, w, n, s);
      t.log == s.log && t.fallback == [] && t.error == Some(EXHAUSTED)
    decreases |s.fallback|
  {
    IterateDescends(cfg, w, n, s);
    if s.fallback != [] {
      SpentGroupsNeverServe(cfg, w, n + 1, IncreaseRetry(Fallback(s)));
    }
  }

  // ---- the costliest world ------------------------------------------------------------------------

  lemma ModOfSum(q: nat, cycle: nat, x: nat)
    requires x < cycle
    ensures (q * cycle + x) % cycle == x
  {
    var y := q * cycle + x;
    var d, m := y / cycle, y % cycle;
    assert y == d * cycle + m;
    if d < q {
      MulLess(d, q, cycle);
    } else if q < d {
      MulLess(q, d, cycle);
    }
  }

  /** A pass number is the last of its cycle exactly when its place in the cycle is. */
  lemma EndOfCycle(hop: nat, cycle: nat, r: nat)
    requires r < cycle
    ensures (hop * cycle + r + 1) % cycle == 0 <==> r + 1 == cycle
  {
    if r + 1 < cycle {
      ModOfSum(hop, cycle, r + 1);
    } else {
      assert hop * cycle + r + 1 == (hop + 1) * cycle + 0;
      ModOfSum(hop + 1, cycle, 0);
    }
  }

  function AttemptsIn(cfg: Config, hops: nat, n: nat, s: State): nat
    requires cfg.retryTimes >= 1
  {
    |Run(cfg, Costliest(cfg, hops), n, s).log|
  }

  /** While there are swaps to make, the pass number tells hop and retry. */
  ghost predicate Swapping(cfg: Config, hops: nat, n: nat, index: nat, s: State) {
    && At(cfg, index, s) && s.hop < Swaps(cfg, hops) && s.hop + |s.fallback| == hops
    && s.retry < Cycle(cfg) && n == s.hop * Cycle(cfg) + s.retry
  }

  ghost predicate Settled(cfg: Config, hops: nat, n: nat, index: nat, s: State) {
    At(cfg, index, s) && s.hop == Swaps(cfg, hops) && s.hop + |s.fallback| == hops && n >= s.hop * Cycle(cfg)
  }

  lemma InsidePhase(hop: nat, k: nat, cycle: nat, r: nat)
    requires hop < k && r < cycle
    ensures hop * cycle + r < k * cycle && (hop + 1) * cycle == hop * cycle + cycle
  {
    MulLess(hop, k, cycle);
  }

  lemma SwappingAttempts(cfg: Config, hops: nat, n: nat, index: nat, s: State) returns (next: State)
    requires Swapping(cfg, hops, n, index, s) && s.retry + 1 < Cycle(cfg)
    ensures AttemptsIn(cfg, hops, n, s) == AttemptsIn(cfg, hops, n + 1, next)
    ensures
      && Swapping(cfg, hops, n + 1, index, next) && next.hop == s.hop && next.retry == s.retry + 1
      && |next.log| == |s.log| + 1
  {
    var w := Costliest(cfg, hops);
    next := Iterate(cfg, w, n, s).state;
    InsidePhase(s.hop, Swaps(cfg, hops), Cycle(cfg), s.retry);
    EndOfCycle(s.hop, Cycle(cfg), s.retry);
    PassAttempts(cfg, w, n, index, s);
    IterateDescends(cfg, w, n, s);
  }

  lemma SwappingSwaps(cfg: Config, hops: nat, n: nat, index: nat, s: State) returns (next: State)
    requires Swapping(cfg, hops, n, index, s) && s.retry + 1 == Cycle(cfg)
    ensures AttemptsIn(cfg, hops, n, s) == AttemptsIn(cfg, hops, n + 1, next)
    ensures
      && (Swapping(cfg, hops, n + 1, index, next) || Settled(cfg, hops, n + 1, index, next))
      && next.hop == s.hop + 1 && next.retry == 0 && |next.log| == |s.log|
  {
    var w := Costliest(cfg, hops);
    next := Iterate(cfg, w, n, s).state;
    InsidePhase(s.hop, Swaps(cfg, hops), Cycle(cfg), s.retry);
    EndOfCycle(s.hop, Cycle(cfg), s.retry);
    PassSwaps(cfg, w, n, index, s);
    IterateDescends(cfg, w, n, s);
  }

  /** Attempts of the remaining cycles. */
  function CyclesLeft(k: nat, hop: nat, cycle: int): int
    decreases k - hop
  {
    if hop >= k then 0 else cycle - 1 + CyclesLeft(k, hop + 1, cycle)
  }

  lemma {:induction false} CyclesLeftTotal(k: nat, hop: nat, cycle: int)
    requires hop <= k
    ensures CyclesLeft(k, hop, cycle) == (k - hop) * (cycle - 1)
    decreases k - hop
  {
    if hop < k {
      CyclesLeftTotal(k, hop + 1, cycle);
      assert (k - hop) * (cycle - 1) == (k - hop - 1) * (cycle - 1) + cycle - 1;
    }
  }

  /** The swaps: every cycle makes all its passes but one into attempts. */
  lemma {:induction false} SwapPhase(cfg: Config, hops: nat, n: nat, index: nat, s: State) returns (m: nat, t: State)
    requires Swapping(cfg, hops, n, index, s)
    ensures AttemptsIn(cfg, hops, n, s) == AttemptsIn(cfg, hops, m, t)
    ensures Settled(cfg, hops, m, index, t) && t.retry == 0
    ensures |t.log| == |s.log| + CyclesLeft(Swaps(cfg, hops), s.hop, Cycle(cfg)) - s.retry
    decreases Swaps(cfg, hops) - s.hop, Cycle(cfg) - s.retry
  {
    if s.retry + 1 < Cycle(cfg) {
      var next := SwappingAttempts(cfg, hops, n, index, s);
      m, t := SwapPhase(cfg, hops, n + 1, index, next);
    } else {
      var next := SwappingSwaps(cfg, hops, n, index, s);
      if Swapping(cfg, hops, n + 1, index, next) {
        m, t := SwapPhase(cfg, hops, n + 1, index, next);
      } else {
        m, t := n + 1, next;
      }
    }
  }

  lemma OneGroupLess(cfg: Config, n: nat, retry: int)
    requires n >= 1
    ensures GroupRoom(cfg, n, retry)
         == GroupRoom(cfg, n - 1, retry) + if cfg.crossGroupRetry then cfg.retryTimes + 1 else cfg.retryTimes
  {
  }

  /** One pass in a group after the swaps: an attempt, in this group or the next. */
  lemma GroupPass(cfg: Config, hops: nat, n: nat, index: nat, s: State) returns (next: State)
    requires At(cfg, index, s) && n >= Swaps(cfg, hops) * Cycle(cfg)
    ensures AttemptsIn(cfg, hops, n, s) == AttemptsIn(cfg, hops, n + 1, next)
    ensures
      && |next.log| == |s.log| + 1 && next.hasMeta && !next.resetNextTry
      && (s.retry < cfg.retryTimes ==> next.groupIndex == index && next.retry == s.retry + 1)
      && (s.retry == cfg.retryTimes && cfg.crossGroupRetry ==> next.groupIndex == index + 1 && next.retry == 0)
      && (s.retry == cfg.retryTimes && !cfg.crossGroupRetry ==>
            if index + 1 < |cfg.autoGroups| then next.groupIndex == index + 1 && next.retry == 1
            else next.retry == cfg.retryTimes + 1)
  {
    var w := Costliest(cfg, hops);
    next := Iterate(cfg, w, n, s).state;
    IterateDescends(cfg, w, n, s);
    if !cfg.crossGroupRetry && s.retry == cfg.retryTimes && index + 1 < |cfg.autoGroups| {
      PassMovesOn(cfg, w, n, index, s);
    } else {
      PassAttempts(cfg, w, n, index, s);
    }
  }

  lemma PastTheEnd(cfg: Config, hops: nat, n: nat, s: State)
    requires cfg.retryTimes >= 1
    requires s.retry > cfg.retryTimes || (Spent(cfg, s) && s.retry <= cfg.retryTimes)
    ensures AttemptsIn(cfg, hops, n, s) == |s.log|
  {
    if s.retry <= cfg.retryTimes {
      SpentGroupsNeverServe(cfg, Costliest(cfg, hops), n, s);
    }
  }

  /** The groups: each is used to its end. */
  lemma {:induction false} GroupPhase(cfg: Config, hops: nat, n: nat, index: nat, s: State)
    requires At(cfg, index, s) && n >= Swaps(cfg, hops) * Cycle(cfg)
    ensures AttemptsIn(cfg, hops, n, s) == |s.log| + GroupRoom(cfg, GroupsFrom(cfg, index), s.retry)
    decreases |cfg.autoGroups| - index, cfg.retryTimes - s.retry
  {
    var next := GroupPass(cfg, hops, n, index, s);
    OneGroupLess(cfg, GroupsFrom(cfg, index), s.retry);
    if s.retry < cfg.retryTimes {
      GroupPhase(cfg, hops, n + 1, index, next);
    } else if index + 1 < |cfg.autoGroups| {
      GroupPhase(cfg, hops, n + 1, index + 1, next);
    } else {
      PastTheEnd(cfg, hops, n + 1, next);
    }
  }

  lemma FirstPass(cfg: Config, w: World, groupIndex: nat, chain: seq<string>, model: string)
    requires cfg.retryTimes >= 0 && w.body(0).None? && w.reply(0) == Some(CHANNEL_ERROR) && !w.affinitySkip(0)
    ensures var next := Iterate(cfg, w, 0, Start(groupIndex, chain, model));
      && next.Again? && |next.state.log| == 1 && next.state.hasMeta && !next.state.resetNextTry
      && next.state.groupIndex == groupIndex && next.state.retry == 1 && next.state.hop == 0
      && next.state.fallback == chain && next.state.log[0].hop == 0 && next.state.log[0].choice.priority == 0
  {
    ChannelErrorRetries(cfg, cfg.retryTimes);
  }

  lemma StartsSwapping(cfg: Config, hops: nat, index: nat, s: State)
    requires At(cfg, index, s) && s.hop == 0 && s.retry == 1 && |s.fallback| == hops
    ensures if Swaps(cfg, hops) == 0 then hops * SwapGain(cfg) == 0
            else Swapping(cfg, hops, 1, index, s) && CyclesLeft(Swaps(cfg, hops), 0, Cycle(cfg)) == hops * SwapGain(cfg)
  {
    CyclesLeftTotal(Swaps(cfg, hops), 0, Cycle(cfg));
  }

  /** AutoMax is reached, for every RetryTimes, every number of groups and every chain. */
  lemma AutoMaxIsReached(cfg: Config, groupIndex: nat, chain: seq<string>, model: string)
    requires Auto(cfg) && cfg.retryTimes >= 1
    ensures |Run(cfg, Costliest(cfg, |chain|), 0, Start(groupIndex, chain, model)).log| == AutoMax(cfg, groupIndex, |chain|)
  {
    var hops, w, s := |chain|, Costliest(cfg, |chain|), Start(groupIndex, chain, model);
    FirstPass(cfg, w, groupIndex, chain, model);
    IterateDescends(cfg, w, 0, s);
    var next := Iterate(cfg, w, 0, s).state;
    if GroupsFrom(cfg, groupIndex) == 0 {
      SpentGroupsNeverServe(cfg, w, 1, next);
    } else {
      StartsSwapping(cfg, hops, groupIndex, next);
      if Swaps(cfg, hops) == 0 {
        GroupPhase(cfg, hops, 1, groupIndex, next);
      } else {
        var m, t := SwapPhase(cfg, hops, 1, groupIndex, next);
        GroupPhase(cfg, hops, m, groupIndex, t);
      }
    }
  }
}
