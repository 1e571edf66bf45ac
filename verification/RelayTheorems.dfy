/** The relay loop's promises, for every world. */
module RelayTheorems {
  import opened Prelude
  import opened Routing
  import opened Relay
  import opened RelayLaws
  import opened RelayLog
  import opened RelayAuto

  // ---- order and outcome -------------------------------------------------------------------------

  /**
    Attempts walk the route (the model, then the fallback chain) in strictly increasing order of
    (model, auto group, priority), so no combination is tried twice; in a plain group every
    model is tried at priorities 0, 1, 2, ... without gaps. Only the last attempt can be served,
    and the request ends without an error exactly when it was.
   */
  lemma RelayOrder(cfg: Config, w: World, groupIndex: nat, chain: seq<string>, model: string)
    requires cfg.retryTimes >= 0
    ensures Done(cfg, [model] + chain, Run(cfg, w, 0, Start(groupIndex, chain, model)))
  {
    var route := [model] + chain;
    assert route[1..] == chain;
    RunTracked(cfg, w, 0, route, Start(groupIndex, chain, model));
  }

  /** A request ends served or with an error exactly when RetryTimes is not negative. */
  lemma ServedOrFailed(cfg: Config, w: World, groupIndex: nat, chain: seq<string>, model: string)
    ensures var t := Run(cfg, w, 0, Start(groupIndex, chain, model));
      LastServed(t.log) || t.error.Some? <==> cfg.retryTimes >= 0
  {
    if cfg.retryTimes >= 0 {
      RelayOrder(cfg, w, groupIndex, chain, model);
    }
  }

  /** A request pinned to a channel is tried once, unless the channel itself is at fault. */
  lemma SpecificChannelTriedOnce(cfg: Config, w: World, groupIndex: nat, chain: seq<string>, model: string)
    requires cfg.specificChannel && forall n :: w.reply(n).Some? ==> !IsChannelError(w.reply(n).value)
    ensures |Run(cfg, w, 0, Start(groupIndex, chain, model)).log| <= 1
  {
    if cfg.retryTimes >= 0 {
      IterateDescends(cfg, w, 0, Start(groupIndex, chain, model));
      assert w.reply(0).Some? ==> !IsChannelError(w.reply(0).value);
    }
  }

  /** The controller: run the loop, refund once if it failed with a billing session open. */
  method HandleRelay(cfg: Config, w: World, groupIndex: nat, chain: seq<string>, model: string, billingOpen: bool)
    returns (rq: Request, refunds: nat)
    ensures fresh(rq) && rq.View() == Run(cfg, w, 0, Start(groupIndex, chain, model))
    ensures cfg.retryTimes >= 0 && LastServed(rq.log) ==> rq.error.None? && refunds == 0
    ensures cfg.retryTimes >= 0 && !LastServed(rq.log) ==> rq.error.Some? && refunds == if billingOpen then 1 else 0
    ensures cfg.retryTimes < 0 ==> rq.log == [] && rq.error.None? && refunds == 0
  {
    rq := new Request(groupIndex, chain, model);
    refunds := RelayRequest(cfg, w, rq, billingOpen);
    if cfg.retryTimes >= 0 {
      RelayOrder(cfg, w, groupIndex, chain, model);
    }
  }

  // ---- exhausted auto groups -----------------------------------------------------------------------

  lemma FailedAutoSelectionIsFinal(cfg: Config, w: World, n: nat, s: State)
    requires Auto(cfg) && s.hasMeta && Ready(cfg, s) && 0 <= cfg.retryTimes && s.retry <= cfg.retryTimes
    requires Choose(cfg, w, n, s).1.None?
    ensures var t := Run(cfg, w, n, s);
      t.log == s.log && t.fallback == [] && t.error == Some(EXHAUSTED)
  {
    ChooseMoves(cfg, w, n, s);
    IterateDescends(cfg, w, n, s);
    var (t, choice) := Choose(cfg, w, n, s);
    if t.fallback != [] {
      SpentGroupsNeverServe(cfg, w, n + 1, IncreaseRetry(Fallback(t)));
    }
  }

  // ---- the bounds are sharp ------------------------------------------------------------------------

  function Failing(pick: Query -> Pick): World {
    World(pick, n => None, n => None, n => Some(CHANNEL_ERROR), n => false)
  }

  /** No channel at the last priority, except for the last model. */
  function Worst(cfg: Config, hops: nat): World {
    Failing((q: Query) => if q.priority == cfg.retryTimes && q.iteration < hops * (cfg.retryTimes + 1) then Nothing else Found(1))
  }

  lemma HopsLeft(hops: nat, hop: nat, n: nat, r: nat, retryTimes: nat)
    requires hop <= hops && n == hop * (retryTimes + 1) + r && r <= retryTimes
    ensures n < hops * (retryTimes + 1) <==> hop < hops
  {
    if hop < hops {
      MulLess(hop, hops, retryTimes + 1);
    }
  }

  ghost predicate WorstAt(cfg: Config, hops: nat, n: nat, s: State) {
    && !Auto(cfg) && cfg.retryTimes >= 1 && s.hasMeta && !s.resetNextTry
    && s.hop + |s.fallback| == hops && 0 <= s.retry <= cfg.retryTimes + 1
    && n == s.hop * (cfg.retryTimes + 1) + s.retry
    && (s.retry == cfg.retryTimes + 1 ==> s.fallback == [])
  }

  lemma WorstStep(cfg: Config, hops: nat, n: nat, s: State)
    requires WorstAt(cfg, hops, n, s) && s.retry <= cfg.retryTimes
    ensures var next := Iterate(cfg, Worst(cfg, hops), n, s);
      && next.Again?
      && if s.retry == cfg.retryTimes && s.fallback != []
         then next.state == IncreaseRetry(Fallback(s))
         else |next.state.log| == |s.log| + 1 && next.state == s.(retry := s.retry + 1,
                log := next.state.log, error := next.state.error, used := next.state.used)
  {
    HopsLeft(hops, s.hop, n, s.retry, cfg.retryTimes);
    ChannelErrorRetries(cfg, cfg.retryTimes - s.retry);
  }

  lemma {:induction false} WorstRun(cfg: Config, hops: nat, n: nat, s: State)
    requires WorstAt(cfg, hops, n, s)
    ensures |Run(cfg, Worst(cfg, hops), n, s).log|
         == |s.log| + |s.fallback| * cfg.retryTimes + cfg.retryTimes + 1 - s.retry
    decreases |s.fallback|, cfg.retryTimes + 1 - s.retry
  {
    if s.retry <= cfg.retryTimes {
      WorstStep(cfg, hops, n, s);
      var t := Iterate(cfg, Worst(cfg, hops), n, s).state;
      if |t.fallback| < |s.fallback| {
        assert |t.fallback| * cfg.retryTimes + cfg.retryTimes == |s.fallback| * cfg.retryTimes;
      }
      WorstRun(cfg, hops, n + 1, t);
    }
  }

  /** The bound for plain groups is reached, for every RetryTimes and every chain. */
  lemma PlainBoundIsSharp(cfg: Config, groupIndex: nat, chain: seq<string>, model: string)
    requires !Auto(cfg) && cfg.retryTimes >= 0
    ensures |Run(cfg, Worst(cfg, |chain|), 0, Start(groupIndex, chain, model)).log|
         == |chain| * cfg.retryTimes + cfg.retryTimes + 1
  {
    var w, s := Worst(cfg, |chain|), Start(groupIndex, chain, model);
    ChannelErrorRetries(cfg, cfg.retryTimes);
    IterateDescends(cfg, w, 0, s);
    var next := Iterate(cfg, w, 0, s);
    assert next.Again? && |next.state.log| == 1 && next.state.retry == 1;
    if cfg.retryTimes >= 1 {
      WorstRun(cfg, |chain|, 1, next.state);
    }
  }

  // ---- auto groups and the bound for plain ones ----------------------------------------------------

  /** No world makes more than `bound` attempts. */
  ghost predicate Within(cfg: Config, s: State, bound: int) {
    forall w :: |Run(cfg, w, 0, s).log| <= bound
  }

  /** AutoMax is the maximum over all worlds, for every RetryTimes, number of groups and chain. */
  lemma AutoMaxIsMax(cfg: Config, groupIndex: nat, chain: seq<string>, model: string)
    requires Auto(cfg) && cfg.retryTimes >= 0
    ensures var s := Start(groupIndex, chain, model);
      var most := AutoMax(cfg, groupIndex, |chain|);
      Within(cfg, s, most) && exists w :: |Run(cfg, w, 0, s).log| == most
  {
    var s := Start(groupIndex, chain, model);
    forall w ensures |Run(cfg, w, 0, s).log| <= AutoMax(cfg, groupIndex, |chain|) {
      AttemptsAuto(cfg, w, groupIndex, chain, model);
    }
    if cfg.retryTimes == 0 {
      var w := Failing((q: Query) => Nothing);
      FirstPass(cfg, w, groupIndex, chain, model);
      IterateDescends(cfg, w, 0, s);
      assert |Run(cfg, w, 0, s).log| == 1;
    } else {
      AutoMaxIsReached(cfg, groupIndex, chain, model);
    }
  }

  /** (1 + hops) * (retries + 1) against the auto maximum, as a condition on groups and chain. */
  predicate FewGroups(cfg: Config, groups: nat, hops: nat) {
    || cfg.retryTimes == 0 || groups == 0
    || if cfg.crossGroupRetry then (groups - 1) * (cfg.retryTimes + 1) <= 2 * hops
       else (groups - 1) * cfg.retryTimes <= hops
  }

  lemma CompareMax(cfg: Config, groupIndex: nat, hops: nat)
    requires cfg.retryTimes >= 0
    ensures AutoMax(cfg, groupIndex, hops) <= (1 + hops) * (cfg.retryTimes + 1)
        <==> FewGroups(cfg, GroupsFrom(cfg, groupIndex), hops)
  {
    var n, r := GroupsFrom(cfg, groupIndex), cfg.retryTimes;
    assert (1 + hops) * (r + 1) == hops * r + hops + r + 1;
    assert hops * r >= 0;
    assert n * (r + 1) == (n - 1) * (r + 1) + r + 1;
    assert n * r == (n - 1) * r + r;
    assert hops * (r - 1) == hops * r - hops;
  }

  /** The bound for plain groups holds for auto groups in all worlds exactly when there are few groups for the chain. */
  lemma AutoKeepsPlainBoundExactlyWhen(cfg: Config, groupIndex: nat, chain: seq<string>, model: string)
    requires Auto(cfg) && cfg.retryTimes >= 0
    ensures Within(cfg, Start(groupIndex, chain, model), (1 + |chain|) * (cfg.retryTimes + 1))
        <==> FewGroups(cfg, GroupsFrom(cfg, groupIndex), |chain|)
  {
    var s, most := Start(groupIndex, chain, model), AutoMax(cfg, groupIndex, |chain|);
    AutoMaxIsMax(cfg, groupIndex, chain, model);
    CompareMax(cfg, groupIndex, |chain|);
    var w :| |Run(cfg, w, 0, s).log| == most;
    if most <= (1 + |chain|) * (cfg.retryTimes + 1) {
      forall v ensures |Run(cfg, v, 0, s).log| <= (1 + |chain|) * (cfg.retryTimes + 1) {
        assert |Run(cfg, v, 0, s).log| <= most;
      }
    }
  }
}
