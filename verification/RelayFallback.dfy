/** When a model of the fallback chain is tried at all, and how often it can be. */
module RelayFallback {
  import opened Prelude
  import opened Routing
  import opened Relay
  import opened RelayLaws
  import opened RelayAuto
  import opened RelayTheorems
  import opened RelayPriority

  /** Set-up never reports that channels ran out; only selection does. */
  ghost predicate Calm(w: World) {
    forall n :: w.setup(n).Some? ==> !IsChannelExhaustion(w.setup(n).value)
  }

  ghost predicate NoHops(log: seq<Attempt>) {
    forall i :: 0 <= i < |log| ==> log[i].hop == 0
  }

  /** A pass that neither swaps nor fails to select makes at most one attempt, with the model as it is. */
  lemma CalmPass(cfg: Config, w: World, n: nat, s: State)
    requires Calm(w) && s.hop == 0 && NoHops(s.log) && (s.hasMeta ==> Choose(cfg, w, n, s).1.Some?)
    ensures var next := Iterate(cfg, w, n, s);
      NoHops(next.state.log) && next.state.hop == 0
  {
    ChooseKeeps(cfg, w, n, s);
    assert w.setup(n).Some? ==> !IsChannelExhaustion(w.setup(n).value);
  }

  /** With auto groups no fallback model is ever tried in a calm world. */
  lemma {:induction false} CalmAutoNeverHops(cfg: Config, w: World, n: nat, s: State)
    requires Auto(cfg) && cfg.retryTimes >= 0 && Calm(w) && Ready(cfg, s) && s.hop == 0 && NoHops(s.log)
    ensures NoHops(Run(cfg, w, n, s).log)
    decreases |s.fallback|, GroupsLeft(cfg, s), Slack(cfg, s)
  {
    if s.retry <= cfg.retryTimes {
      if s.hasMeta && Choose(cfg, w, n, s).1.None? {
        FailedAutoSelectionIsFinal(cfg, w, n, s);
      } else {
        CalmPass(cfg, w, n, s);
        IterateBudget(cfg, w, n, s);
        IterateDescends(cfg, w, n, s);
        if Iterate(cfg, w, n, s).Again? {
          CalmAutoNeverHops(cfg, w, n + 1, Iterate(cfg, w, n, s).state);
        }
      }
    }
  }

  /** Without retries the loop ends after the first attempt, with the chain untouched. */
  lemma NoRetriesNoHops(cfg: Config, w: World, groupIndex: nat, chain: seq<string>, model: string)
    requires cfg.retryTimes <= 0
    ensures var t := Run(cfg, w, 0, Start(groupIndex, chain, model));
      t.fallback == chain && t.hop == 0 && |t.log| <= 1 && NoHops(t.log)
  {
    if cfg.retryTimes == 0 {
      IterateDescends(cfg, w, 0, Start(groupIndex, chain, model));
    }
  }

  // ---- a fallback model's full budget --------------------------------------------------------------

  /** Selection fails until hop h, and then always succeeds. */
  function Reaching(h: nat): World {
    Failing((q: Query) => if q.iteration <= h then Nothing else Found(1))
  }

  ghost predicate Plain(cfg: Config, s: State) {
    !Auto(cfg) && cfg.retryTimes >= 1 && s.hasMeta && !s.resetNextTry && 0 <= s.retry
  }

  /** From pass n on, with n - 1 swaps made, the remaining swaps up to hop h. */
  lemma {:induction false} ReachHop(cfg: Config, h: nat, n: nat, s: State) returns (t: State)
    requires Plain(cfg, s) && s.retry <= cfg.retryTimes && 1 <= n <= h + 1 && s.hop == n - 1 && s.hop + |s.fallback| >= h
    ensures Run(cfg, Reaching(h), n, s) == Run(cfg, Reaching(h), h + 1, t)
    ensures Plain(cfg, t) && t.hop == h && t.log == s.log && t.retry == if n == h + 1 then s.retry else 0
    decreases h + 1 - n
  {
    t := s;
    if n <= h {
      HopStep(cfg, h, n, s);
      t := ReachHop(cfg, h, n + 1, IncreaseRetry(Fallback(s)));
    }
  }

  lemma HopStep(cfg: Config, h: nat, n: nat, s: State)
    requires Plain(cfg, s) && s.retry <= cfg.retryTimes && 1 <= n <= h && s.fallback != []
    ensures Run(cfg, Reaching(h), n, s) == Run(cfg, Reaching(h), n + 1, IncreaseRetry(Fallback(s)))
  {
    IterateDescends(cfg, Reaching(h), n, s);
    assert Iterate(cfg, Reaching(h), n, s) == Again(IncreaseRetry(Fallback(s)));
  }

  lemma TryStep(cfg: Config, h: nat, n: nat, s: State) returns (next: State)
    requires Plain(cfg, s) && s.retry <= cfg.retryTimes && n > h
    ensures Run(cfg, Reaching(h), n, s) == Run(cfg, Reaching(h), n + 1, next)
    ensures Plain(cfg, next) && next.hop == s.hop && next.retry == s.retry + 1
    ensures next.log == s.log + [Attempt(n, Choice(1, 0, s.retry), s.model, s.hop, false)]
  {
    var w := Reaching(h);
    ChannelErrorRetries(cfg, cfg.retryTimes - s.retry);
    IterateDescends(cfg, w, n, s);
    next := Iterate(cfg, w, n, s).state;
  }

  /** From entry k on: one attempt per priority from r on, all at hop h. */
  ghost predicate Tries(log: seq<Attempt>, k: nat, h: nat, r: int) {
    forall i :: k <= i < |log| ==> log[i].hop == h && log[i].choice.priority == r + i - k
  }

  lemma OneTryMore(log: seq<Attempt>, before: seq<Attempt>, now: seq<Attempt>, h: nat, r: int)
    requires |now| == |before| + 1 <= |log| && now[..|before|] == before && log[..|now|] == now
    requires now[|before|].hop == h && now[|before|].choice.priority == r && Tries(log, |now|, h, r + 1)
    ensures log[..|before|] == before && Tries(log, |before|, h, r)
  {
    assert log[|before|] == now[|before|];
    assert log[..|before|] == log[..|now|][..|before|];
  }

  lemma {:induction false} TryOut(cfg: Config, h: nat, n: nat, s: State)
    requires Plain(cfg, s) && s.retry <= cfg.retryTimes + 1 && n > h && s.hop == h
    ensures var log := Run(cfg, Reaching(h), n, s).log;
      |log| == |s.log| + cfg.retryTimes + 1 - s.retry && log[..|s.log|] == s.log && Tries(log, |s.log|, h, s.retry)
    decreases cfg.retryTimes + 1 - s.retry
  {
    if s.retry <= cfg.retryTimes {
      var next := TryStep(cfg, h, n, s);
      TryOut(cfg, h, n + 1, next);
      OneTryMore(Run(cfg, Reaching(h), n, s).log, s.log, next.log, h, s.retry);
    }
  }

  /** In a plain group with retries any fallback model can get all RetryTimes + 1 attempts, at priorities 0, 1, 2, ... */
  lemma FallbackGetsFullBudget(cfg: Config, groupIndex: nat, chain: seq<string>, model: string, h: nat)
    requires !Auto(cfg) && cfg.retryTimes >= 1 && 1 <= h <= |chain|
    ensures var log := Run(cfg, Reaching(h), 0, Start(groupIndex, chain, model)).log;
      |log| == cfg.retryTimes + 2 && Tries(log, 1, h, 0)
  {
    var w, s := Reaching(h), Start(groupIndex, chain, model);
    FirstPass(cfg, w, groupIndex, chain, model);
    IterateDescends(cfg, w, 0, s);
    var t := ReachHop(cfg, h, 1, Iterate(cfg, w, 0, s).state);
    TryOut(cfg, h, h + 1, t);
  }

  // ---- when a fallback model is tried ----------------------------------------------------------------

  /** Some attempt is made on a fallback model. */
  ghost predicate FallbackTried(cfg: Config, w: World, s: State) {
    !NoHops(Run(cfg, w, 0, s).log)
  }

  /** A fallback model can be tried, in a calm world, exactly when there is one, there are retries and the group is plain. */
  lemma FallbackTriedExactlyWhen(cfg: Config, groupIndex: nat, chain: seq<string>, model: string)
    ensures (exists w :: Calm(w) && FallbackTried(cfg, w, Start(groupIndex, chain, model)))
        <==> chain != [] && cfg.retryTimes >= 1 && !Auto(cfg)
  {
    var s := Start(groupIndex, chain, model);
    if chain != [] && cfg.retryTimes >= 1 && !Auto(cfg) {
      var w := Reaching(1);
      FallbackGetsFullBudget(cfg, groupIndex, chain, model, 1);
      assert Run(cfg, w, 0, s).log[1].hop == 1;
      assert Calm(w) && FallbackTried(cfg, w, s);
    } else {
      forall w | Calm(w) ensures !FallbackTried(cfg, w, s) {
        NeverTried(cfg, w, groupIndex, chain, model);
      }
    }
  }

  lemma NeverTried(cfg: Config, w: World, groupIndex: nat, chain: seq<string>, model: string)
    requires Calm(w) && !(chain != [] && cfg.retryTimes >= 1 && !Auto(cfg))
    ensures NoHops(Run(cfg, w, 0, Start(groupIndex, chain, model)).log)
  {
    if cfg.retryTimes <= 0 {
      NoRetriesNoHops(cfg, w, groupIndex, chain, model);
    } else if Auto(cfg) {
      CalmAutoNeverHops(cfg, w, 0, Start(groupIndex, chain, model));
    } else {
      NoChainNoHops(cfg, w, groupIndex, model);
    }
  }

  // ---- when set-up may report exhaustion ---------------------------------------------------------------

  /** Set-up reports exhaustion in the second pass; `skip` is a group in which that pass finds nothing. */
  function OneSwap(skip: Option<nat>): World {
    World((q: Query) => if q.iteration == 1 && skip == Some(q.slot) then Nothing else Found(1),
          n => if n == 1 then Some(EXHAUSTED) else None, n => None, n => Some(CHANNEL_ERROR), n => false)
  }

  /** The auto groups allow a swap that leaves a group to try. */
  predicate CanSwapAndTry(cfg: Config, groups: nat) {
    groups >= 2 || (groups == 1 && (!cfg.crossGroupRetry || cfg.retryTimes >= 2))
  }

  lemma SwapInNextGroup(cfg: Config, index: nat, s: State)
    requires At(cfg, index, s) && index + 1 < |cfg.autoGroups| && s.fallback != []
    ensures var next := Iterate(cfg, OneSwap(Some(index)), 1, s);
      && next.Again? && next.state.log == s.log && next.state.hop == s.hop + 1
      && At(cfg, index + 1, next.state) && next.state.retry == 0
  {
    var w, t := OneSwap(Some(index)), s.(groupIndex := index + 1, retry := 0);
    assert AutoFrom(cfg, w, 1, t, index, index + 1) == (Answered(cfg, t, index + 1, 0), Some(Choice(1, index + 1, 0)));
  }

  /** The attempt that follows is on record with its hop. */
  lemma HopTried(cfg: Config, w: World, n: nat, index: nat, s: State)
    requires At(cfg, index, s) && s.hop > 0 && w.body(n).None? && w.setup(n).None?
    requires w.pick(Query(n, index, cfg.autoGroups[index], s.model, s.retry)) == Found(1)
    ensures !NoHops(Run(cfg, w, n, s).log)
  {
    IterateDescends(cfg, w, n, s);
    ChooseMoves(cfg, w, n, s);
    var next := Iterate(cfg, w, n, s);
    assert next.state.log[|s.log|].hop == s.hop;
    if next.Again? {
      GetChannelMoves(cfg, w, n, s);
      RunExtendsLog(cfg, w, n + 1, next.state);
    }
  }

  lemma AutoTried(cfg: Config, groupIndex: nat, chain: seq<string>, model: string) returns (w: World)
    requires Auto(cfg) && chain != [] && cfg.retryTimes >= 1 && CanSwapAndTry(cfg, GroupsFrom(cfg, groupIndex))
    ensures FallbackTried(cfg, w, Start(groupIndex, chain, model))
  {
    var s := Start(groupIndex, chain, model);
    var inside := !cfg.crossGroupRetry || cfg.retryTimes >= 2;
    w := OneSwap(if inside then None else Some(groupIndex));
    FirstPass(cfg, w, groupIndex, chain, model);
    IterateDescends(cfg, w, 0, s);
    var t := Iterate(cfg, w, 0, s).state;
    IterateDescends(cfg, w, 1, t);
    if inside {
      PassSwaps(cfg, w, 1, groupIndex, t);
    } else {
      SwapInNextGroup(cfg, groupIndex, t);
    }
    var u := Iterate(cfg, w, 1, t).state;
    HopTried(cfg, w, 2, u.groupIndex, u);
  }

  lemma SpentAfterAll(cfg: Config, w: World, n: nat, s: State)
    requires Spent(cfg, s) && cfg.retryTimes >= 0 && NoHops(s.log)
    ensures NoHops(Run(cfg, w, n, s).log)
  {
    if s.retry <= cfg.retryTimes {
      SpentGroupsNeverServe(cfg, w, n, s);
    }
  }

  /** The only group at its only further priority: the pass uses it up. */
  lemma LastPass(cfg: Config, w: World, n: nat, index: nat, s: State)
    requires At(cfg, index, s) && index + 1 == |cfg.autoGroups| && cfg.crossGroupRetry && s.retry == cfg.retryTimes
    requires s.hop == 0 && NoHops(s.log)
    ensures var next := Iterate(cfg, w, n, s);
      NoHops(next.state.log) && (next.Again? ==> Spent(cfg, next.state))
  {
    ChooseMoves(cfg, w, n, s);
    var (t, choice) := Choose(cfg, w, n, s);
    assert t.groupIndex == |cfg.autoGroups| && !IncreaseRetry(t).resetNextTry;
  }

  lemma FirstPassHopless(cfg: Config, w: World, groupIndex: nat, chain: seq<string>, model: string)
    ensures var next := Iterate(cfg, w, 0, Start(groupIndex, chain, model));
      && NoHops(next.state.log)
      && (next.Again? ==> next.state.groupIndex == groupIndex && next.state.retry == 1 && next.state.hasMeta
                          && !next.state.resetNextTry && next.state.hop == 0)
  {
  }

  lemma AutoNeverTried(cfg: Config, w: World, groupIndex: nat, chain: seq<string>, model: string)
    requires Auto(cfg) && cfg.retryTimes >= 1 && !CanSwapAndTry(cfg, GroupsFrom(cfg, groupIndex))
    ensures NoHops(Run(cfg, w, 0, Start(groupIndex, chain, model)).log)
  {
    var s := Start(groupIndex, chain, model);
    FirstPassHopless(cfg, w, groupIndex, chain, model);
    IterateDescends(cfg, w, 0, s);
    var next := Iterate(cfg, w, 0, s);
    if next.Again? {
      var t := next.state;
      if GroupsFrom(cfg, groupIndex) == 0 {
        SpentAfterAll(cfg, w, 1, t);
      } else {
        LastPass(cfg, w, 1, groupIndex, t);
        IterateDescends(cfg, w, 1, t);
        if Iterate(cfg, w, 1, t).Again? {
          SpentAfterAll(cfg, w, 2, Iterate(cfg, w, 1, t).state);
        }
      }
    }
  }

  lemma NoChainNoHops(cfg: Config, w: World, groupIndex: nat, model: string)
    requires cfg.retryTimes >= 0
    ensures NoHops(Run(cfg, w, 0, Start(groupIndex, [], model)).log)
  {
    RelayOrder(cfg, w, groupIndex, [], model);
    assert |[model] + []| == 1;
  }

  /**
    In any world at all, a fallback model can be tried exactly when there is one, there are retries, and the
    group is plain or its auto groups allow a swap that leaves a group to try.
   */
  lemma FallbackTriedAtAllExactlyWhen(cfg: Config, groupIndex: nat, chain: seq<string>, model: string)
    ensures (exists w :: FallbackTried(cfg, w, Start(groupIndex, chain, model)))
        <==> chain != [] && cfg.retryTimes >= 1 && (!Auto(cfg) || CanSwapAndTry(cfg, GroupsFrom(cfg, groupIndex)))
  {
    var s := Start(groupIndex, chain, model);
    if chain == [] || cfg.retryTimes < 1 || (Auto(cfg) && !CanSwapAndTry(cfg, GroupsFrom(cfg, groupIndex))) {
      forall w ensures !FallbackTried(cfg, w, s) {
        if cfg.retryTimes <= 0 {
          NoRetriesNoHops(cfg, w, groupIndex, chain, model);
        } else if chain == [] {
          NoChainNoHops(cfg, w, groupIndex, model);
        } else {
          AutoNeverTried(cfg, w, groupIndex, chain, model);
        }
      }
    } else if Auto(cfg) {
      var w := AutoTried(cfg, groupIndex, chain, model);
    } else {
      FallbackTriedExactlyWhen(cfg, groupIndex, chain, model);
    }
  }
}
