/** The retry loop of controller/relay.go (Relay) and its deferred refund. */
module Relay {
  import opened Prelude
  import opened Routing

  predicate IsChannelError(e: Error) {
    "channel:" <= e.code
  }

  predicate IsChannelExhaustion(e: Error) {
    e.code == GET_CHANNEL_FAILED
  }

  predicate ShouldRetry(cfg: Config, affinitySkip: bool, e: Error, retriesLeft: int) {
    if affinitySkip then false
    else if IsChannelError(e) then true
    else if e.skipRetry then false
    else if retriesLeft <= 0 then false
    else if cfg.specificChannel then false
    else if 200 <= e.status < 300 then false
    else if e.status < 100 || e.status > 599 then true
    else if cfg.alwaysSkip(e.code) then false
    else cfg.retryStatus(e.status)
  }

  datatype Next = Again(state: State) | Stop(state: State)

  function Fail(s: State, e: Error): State {
    s.(error := Some(e))
  }

  /** The upstream attempt of iteration n, on the chosen channel. */
  function Attempted(w: World, n: nat, s: State, choice: Choice): State {
    s.(hasMeta := true, log := s.log + [Attempt(n, choice, s.model, s.hop, w.reply(n).None?)], error := w.reply(n))
  }

  function Use(s: State, choice: Choice): State {
    s.(used := s.used + [choice.channel])
  }

  /** One pass through the loop body; a further pass starts with the advanced counter. */
  function Iterate(cfg: Config, w: World, n: nat, s: State): Next {
    var (t, r) := GetChannel(cfg, w, n, s);
    match r
    case Err(e) =>
      if IsChannelExhaustion(e) && t.fallback != [] then Again(IncreaseRetry(Fallback(t))) else Stop(Fail(t, e))
    case Ok(choice) =>
      var u := Use(t, choice);
      if w.body(n).Some? then Stop(Fail(u, w.body(n).value))
      else
        var v := Attempted(w, n, u, choice);
        if v.error.None? then Stop(v)
        else if ShouldRetry(cfg, w.affinitySkip(n), v.error.value, cfg.retryTimes - v.retry)
        then Again(IncreaseRetry(v))
        else Stop(v)
  }

  // ---- termination ---------------------------------------------------------------------------

  function GroupsLeft(cfg: Config, s: State): nat {
    if Auto(cfg) && s.groupIndex < |cfg.autoGroups| then |cfg.autoGroups| - s.groupIndex else 0
  }

  function Slack(cfg: Config, s: State): nat {
    if s.retry > cfg.retryTimes then 0 else cfg.retryTimes - s.retry + 1 + if s.resetNextTry then 1 else 0
  }

  /** The remaining chain, groups and retries go down lexicographically. */
  ghost predicate Below(cfg: Config, t: State, s: State) {
    || |t.fallback| < |s.fallback|
    || (t.fallback == s.fallback && GroupsLeft(cfg, t) < GroupsLeft(cfg, s))
    || (t.fallback == s.fallback && GroupsLeft(cfg, t) == GroupsLeft(cfg, s) && Slack(cfg, t) < Slack(cfg, s))
  }

  ghost predicate SameCursor(s: State, t: State) {
    t.retry == s.retry && t.resetNextTry == s.resetNextTry && t.groupIndex == s.groupIndex
  }

  lemma ChooseKeeps(cfg: Config, w: World, n: nat, s: State)
    ensures var (t, choice) := Choose(cfg, w, n, s);
      && SameButCursor(s, t)
      && (!Auto(cfg) ==> t == s)
      && (GroupsLeft(cfg, t) < GroupsLeft(cfg, s) || SameCursor(s, t))
  {
    if Auto(cfg) && cfg.autoEnabled {
      AutoEnds(cfg, w, n, s, s.groupIndex, s.groupIndex);
      var (t, choice) := AutoFrom(cfg, w, n, s, s.groupIndex, s.groupIndex);
      assert choice.Some? && choice.value.slot > s.groupIndex ==> t.groupIndex > s.groupIndex;
    }
  }

  lemma IterateDescends(cfg: Config, w: World, n: nat, s: State)
    requires s.retry <= cfg.retryTimes
    ensures Iterate(cfg, w, n, s).Again? ==> Below(cfg, Iterate(cfg, w, n, s).state, s)
  {
    ChooseKeeps(cfg, w, n, s);
  }

  /** The loop from iteration n on. */
  function Run(cfg: Config, w: World, n: nat, s: State): State
    decreases |s.fallback|, GroupsLeft(cfg, s), Slack(cfg, s)
  {
    if s.retry > cfg.retryTimes then s
    else
      IterateDescends(cfg, w, n, s);
      match Iterate(cfg, w, n, s)
      case Stop(t) => t
      case Again(t) => Run(cfg, w, n + 1, t)
  }

  // ---- the imperative loop ----------------------------------------------------------------------

  /** One pass; `more` tells whether the loop goes on (before its post statement). */
  method Pass(cfg: Config, w: World, n: nat, rq: Request) returns (more: bool)
    modifies rq
    ensures Iterate(cfg, w, n, old(rq.View())) == if more then Again(IncreaseRetry(rq.View())) else Stop(rq.View())
  {
    var r := rq.FetchChannel(cfg, w, n);
    if r.Err? {
      if r.error.code == GET_CHANNEL_FAILED {
        var swapped := rq.TryCrossModelFallback();
        if swapped {
          return true;
        }
      }
      rq.error := Some(r.error);
      return false;
    }
    rq.used := rq.used + [r.value.channel];
    var bodyError := w.body(n);
    if bodyError.Some? {
      rq.error := bodyError;
      return false;
    }
    rq.hasMeta := true;
    rq.error := w.reply(n);
    rq.log := rq.log + [Attempt(n, r.value, rq.model, rq.hop, rq.error.None?)];
    if rq.error.None? {
      return false;
    }
    return ShouldRetry(cfg, w.affinitySkip(n), rq.error.value, cfg.retryTimes - rq.retry);
  }

  /** The whole loop, then the deferred refund: once if the request failed and a billing session is open. */
  method RelayRequest(cfg: Config, w: World, rq: Request, billingOpen: bool) returns (refunds: nat)
    modifies rq
    ensures rq.View() == Run(cfg, w, 0, old(rq.View()))
    ensures refunds == if billingOpen && rq.error.Some? then 1 else 0
  {
    var n := 0;
    var more := true;
    while more && rq.retry <= cfg.retryTimes
      invariant (if more then Run(cfg, w, n, rq.View()) else rq.View()) == Run(cfg, w, 0, old(rq.View()))
      decreases more, |rq.fallback|, GroupsLeft(cfg, rq.View()), Slack(cfg, rq.View())
    {
      IterateDescends(cfg, w, n, rq.View());
      more := Pass(cfg, w, n, rq);
      if more {
        rq.AdvanceRetry();
      }
      n := n + 1;
    }
    refunds := if billingOpen && rq.error.Some? then 1 else 0;
  }
}
