/** When a channel selection asks for a negative priority. */
module RelayPriority {
  import opened Prelude
  import opened Routing
  import opened Relay
  import opened RelayLaws
  import opened RelayAuto

  /** The pass finds a channel at the last priority of an auto group, but its set-up reports exhaustion. */
  ghost predicate SwapsOnLeaving(cfg: Config, w: World, n: nat, s: State) {
    var choice := Choose(cfg, w, n, s).1;
    && Auto(cfg) && cfg.crossGroupRetry && s.hasMeta
    && choice.Some? && choice.value.priority >= cfg.retryTimes
    && w.setup(n).Some? && IsChannelExhaustion(w.setup(n).value)
  }

  /** A pass leaves the counter negative exactly when it swaps the model while leaving the group. */
  lemma TurnsNegativeExactlyWhen(cfg: Config, w: World, n: nat, s: State)
    requires Ready(cfg, s) && s.retry >= 0
    ensures var next := Iterate(cfg, w, n, s);
      next.Again? && next.state.retry < 0 <==> s.fallback != [] && SwapsOnLeaving(cfg, w, n, s)
  {
    ChooseMoves(cfg, w, n, s);
    var (t, choice) := Choose(cfg, w, n, s);
    if choice.Some? {
      assert Chosen(cfg, s, t, choice.value);
    } else {
      assert NotChosen(cfg, s, t);
    }
  }

  ghost predicate NonNegative(log: seq<Attempt>) {
    forall i :: 0 <= i < |log| ==> log[i].choice.priority >= 0
  }

  /** A swap while leaving a group could still be followed by a selection. */
  predicate Exposed(cfg: Config, s: State) {
    Auto(cfg) && cfg.autoEnabled && cfg.crossGroupRetry && s.fallback != [] && s.groupIndex + 1 < |cfg.autoGroups|
  }

  lemma PassStaysNonNegative(cfg: Config, w: World, n: nat, s: State)
    requires cfg.retryTimes >= 0 && Ready(cfg, s) && 0 <= s.retry <= cfg.retryTimes && !Exposed(cfg, s) && NonNegative(s.log)
    ensures var next := Iterate(cfg, w, n, s);
      && NonNegative(next.state.log)
      && (next.Again? ==> !Exposed(cfg, next.state) && (next.state.retry >= 0 || Spent(cfg, next.state)))
  {
    IterateCases(cfg, w, n, s);
    var next := Iterate(cfg, w, n, s);
    if Swap(cfg, s, next) {
      var t :| Swapped(cfg, s, t, next.state);
      if !NotChosen(cfg, s, t) {
        var c :| Chosen(cfg, s, t, c);
      }
    } else if !Idle(s, next) {
      var c, t :| AttemptOn(cfg, w, n, s, c, t) && After(t, next);
    }
  }

  lemma {:induction false} RunStaysNonNegative(cfg: Config, w: World, n: nat, s: State)
    requires cfg.retryTimes >= 0 && Ready(cfg, s) && s.retry >= 0 && !Exposed(cfg, s) && NonNegative(s.log)
    ensures NonNegative(Run(cfg, w, n, s).log)
    decreases |s.fallback|, GroupsLeft(cfg, s), Slack(cfg, s)
  {
    if s.retry <= cfg.retryTimes {
      PassStaysNonNegative(cfg, w, n, s);
      IterateBudget(cfg, w, n, s);
      IterateDescends(cfg, w, n, s);
      var next := Iterate(cfg, w, n, s);
      if next.Again? {
        if next.state.retry >= 0 {
          RunStaysNonNegative(cfg, w, n + 1, next.state);
        } else {
          SpentGroupsNeverServe(cfg, w, n + 1, next.state);
        }
      }
    }
  }

  /** What has been tried stays on record. */
  lemma {:induction false} RunExtendsLog(cfg: Config, w: World, n: nat, s: State)
    requires cfg.retryTimes >= 0 && Ready(cfg, s)
    ensures s.log <= Run(cfg, w, n, s).log
    decreases |s.fallback|, GroupsLeft(cfg, s), Slack(cfg, s)
  {
    if s.retry <= cfg.retryTimes {
      IterateCases(cfg, w, n, s);
      IterateBudget(cfg, w, n, s);
      IterateDescends(cfg, w, n, s);
      assert s.log <= Iterate(cfg, w, n, s).state.log;
      if Iterate(cfg, w, n, s).Again? {
        RunExtendsLog(cfg, w, n + 1, Iterate(cfg, w, n, s).state);
      }
    }
  }

  /** Every selection succeeds; set-up reports exhaustion once, at the last priority of the first group. */
  function LeavingSwap(cfg: Config): World {
    World((q: Query) => Found(1), n => if n == cfg.retryTimes then Some(EXHAUSTED) else None,
          n => None, n => Some(CHANNEL_ERROR), n => false)
  }

  ghost predicate EndsNegative(cfg: Config, n: nat, s: State) {
    !NonNegative(Run(cfg, LeavingSwap(cfg), n, s).log)
  }

  lemma AsksNegative(cfg: Config, n: nat, s: State)
    requires Auto(cfg) && cfg.autoEnabled && cfg.retryTimes >= 1 && s.groupIndex < |cfg.autoGroups| && n > cfg.retryTimes
    requires s.hasMeta && !s.resetNextTry && s.retry == -1
    ensures EndsNegative(cfg, n, s)
  {
    var w := LeavingSwap(cfg);
    forall left ensures ShouldRetry(cfg, false, CHANNEL_ERROR, left) {
      ChannelErrorRetries(cfg, left);
    }
    IterateDescends(cfg, w, n, s);
    var next := Iterate(cfg, w, n, s).state;
    assert next.log == s.log + [Attempt(n, Choice(1, s.groupIndex, -1), s.model, s.hop, false)];
    RunExtendsLog(cfg, w, n + 1, next);
    assert Run(cfg, w, n, s).log[|s.log|].choice.priority == -1;
  }

  lemma StayingPass(cfg: Config, n: nat, index: nat, s: State) returns (t: State)
    requires At(cfg, index, s) && n == s.retry < cfg.retryTimes
    ensures EndsNegative(cfg, n + 1, t) ==> EndsNegative(cfg, n, s)
    ensures At(cfg, index, t) && t.retry == s.retry + 1 && t.fallback == s.fallback
  {
    IterateDescends(cfg, LeavingSwap(cfg), n, s);
    PassAttempts(cfg, LeavingSwap(cfg), n, index, s);
    t := Iterate(cfg, LeavingSwap(cfg), n, s).state;
  }

  lemma LeavingPass(cfg: Config, index: nat, s: State)
    requires At(cfg, index, s) && cfg.crossGroupRetry && s.fallback != [] && s.retry == cfg.retryTimes
    requires index + 1 < |cfg.autoGroups|
    ensures EndsNegative(cfg, s.retry, s)
  {
    IterateDescends(cfg, LeavingSwap(cfg), s.retry, s);
    var t := Iterate(cfg, LeavingSwap(cfg), s.retry, s).state;
    assert t.hasMeta && !t.resetNextTry && t.groupIndex == index + 1 && t.retry == -1;
    AsksNegative(cfg, s.retry + 1, t);
  }

  /** From the first group through the swap to the negative priority. */
  lemma {:induction false} SwapEndsNegative(cfg: Config, n: nat, index: nat, s: State)
    requires At(cfg, index, s) && cfg.crossGroupRetry && s.fallback != [] && n == s.retry && index + 1 < |cfg.autoGroups|
    ensures EndsNegative(cfg, n, s)
    decreases cfg.retryTimes - s.retry
  {
    if s.retry < cfg.retryTimes {
      var next := StayingPass(cfg, n, index, s);
      SwapEndsNegative(cfg, n + 1, index, next);
    } else {
      LeavingPass(cfg, index, s);
    }
  }

  /**
    Some world has an attempt selected at a negative priority exactly when cross-group retry is on, there is a
    chain to swap to, there are retries, and a group is left after the current one.
   */
  lemma NegativePriorityExactlyWhen(cfg: Config, groupIndex: nat, chain: seq<string>, model: string)
    ensures (exists w :: !NonNegative(Run(cfg, w, 0, Start(groupIndex, chain, model)).log))
        <==> cfg.retryTimes >= 1 && Exposed(cfg, Start(groupIndex, chain, model))
  {
    var s := Start(groupIndex, chain, model);
    if cfg.retryTimes >= 1 && Exposed(cfg, s) {
      var w := LeavingSwap(cfg);
      FirstPass(cfg, w, groupIndex, chain, model);
      IterateDescends(cfg, w, 0, s);
      SwapEndsNegative(cfg, 1, groupIndex, Iterate(cfg, w, 0, s).state);
      assert !NonNegative(Run(cfg, w, 0, s).log);
    } else {
      forall w ensures NonNegative(Run(cfg, w, 0, s).log) {
        if cfg.retryTimes >= 1 {
          RunStaysNonNegative(cfg, w, 0, s);
        } else if cfg.retryTimes == 0 {
          IterateDescends(cfg, w, 0, s);
        }
      }
    }
  }
}
