/** Which failed attempt of the relay loop is followed by a further pass, and how a run ends. */
module RelayRetries {
  import opened Prelude
  import opened Lists
  import opened Routing
  import opened Relay
  import opened RelayLaws

  /** The number of passes made when the loop ends, counted from pass n on. */
  function Passes(cfg: Config, w: World, n: nat, s: State): (end: nat)
    ensures end >= n && (end > n <==> s.retry <= cfg.retryTimes)
    decreases |s.fallback|, GroupsLeft(cfg, s), Slack(cfg, s)
  {
    if s.retry > cfg.retryTimes then n
    else
      IterateDescends(cfg, w, n, s);
      match Iterate(cfg, w, n, s)
      case Stop(_) => n + 1
      case Again(t) => Passes(cfg, w, n + 1, t)
  }

  /** The attempt used an auto group up, so the counter starts over with the next one. */
  predicate LeavesGroup(cfg: Config, a: Attempt) {
    cfg.group == "auto" && cfg.crossGroupRetry && a.iteration > 0 && a.choice.priority >= cfg.retryTimes
  }

  /** The retry counter when the attempt failed. */
  function Counter(cfg: Config, a: Attempt): int {
    if LeavesGroup(cfg, a) then 0 else a.choice.priority
  }

  /** The counter of a pass that follows. */
  function NextCounter(cfg: Config, a: Attempt): int {
    if LeavesGroup(cfg, a) then 0 else a.choice.priority + 1
  }

  /** The rules of retrying, on the upstream's answer to the attempt. */
  predicate MayRetry(cfg: Config, w: World, a: Attempt) {
    var reply := w.reply(a.iteration);
    && reply.Some? && !w.affinitySkip(a.iteration)
    && var e := reply.value;
       || "channel:" <= e.code
       || (&& !e.skipRetry && cfg.retryTimes - Counter(cfg, a) > 0 && !cfg.specificChannel
           && !(200 <= e.status < 300)
           && (e.status < 100 || e.status > 599 || (!cfg.alwaysSkip(e.code) && cfg.retryStatus(e.status))))
  }

  predicate Followed(cfg: Config, w: World, a: Attempt) {
    MayRetry(cfg, w, a) && NextCounter(cfg, a) <= cfg.retryTimes
  }

  /** A state between passes: every recorded attempt used its channel, and the last one left its answer. */
  ghost predicate Recorded(w: World, n: nat, s: State) {
    && !s.resetNextTry && (s.hasMeta <==> n > 0)
    && |s.used| == |s.log| && (forall i :: 0 <= i < |s.log| ==> s.used[i] == s.log[i].choice.channel)
    && (forall i :: 0 <= i < |s.log| ==> s.log[i].iteration < n)
    && (s.log != [] && Last(s.log).iteration == n - 1 ==> s.error == w.reply(n - 1))
  }

  ghost predicate UsedAll(t: State) {
    |t.used| == |t.log| && forall i :: 0 <= i < |t.log| ==> t.used[i] == t.log[i].choice.channel
  }

  /** The loop ended in pass n without an attempt: no channel, no set-up, or an unreadable body. */
  ghost predicate Unattempted(w: World, n: nat, t: State) {
    || (|t.used| == |t.log| + 1 && t.error == w.body(n) && t.error.Some?)
    || (&& UsedAll(t) && (t.error == Some(Error("get_channel_failed", 500, true)) || (t.error == w.setup(n) && t.error.Some?))
        && (t.error.value.code == "get_channel_failed" ==> t.fallback == []))
  }

  /** How a run that was recorded up to pass n goes on and ends. */
  ghost predicate WellEnded(cfg: Config, w: World, n: nat, s: State, t: State, end: nat) {
    && end >= n && s.log <= t.log
    && (forall i :: |s.log| <= i < |t.log| ==>
          && n <= t.log[i].iteration < end
          && (t.log[i].iteration + 1 < end <==> Followed(cfg, w, t.log[i])))
    && if t.log != [] && Last(t.log).iteration == end - 1 then UsedAll(t) && t.error == w.reply(end - 1)
       else end > 0 ==> Unattempted(w, end - 1, t)
  }

  /** What a pass that starts in s and leads to u has done, `more` telling whether the loop goes on. */
  ghost predicate Passed(cfg: Config, w: World, n: nat, s: State, u: State, more: bool) {
    if u.log == s.log then
      if more then u.retry <= cfg.retryTimes else Unattempted(w, n, u)
    else
      && |u.log| == |s.log| + 1 && s.log == Front(u.log) && Last(u.log).iteration == n
      && (more <==> MayRetry(cfg, w, Last(u.log))) && (more ==> u.retry == NextCounter(cfg, Last(u.log)))
      && u.error == w.reply(n) && UsedAll(u)
  }

  /** A pass without a channel or a body ends the loop or swaps the model. */
  lemma IdlePassRecords(cfg: Config, w: World, n: nat, s: State)
    requires cfg.retryTimes >= 0 && Recorded(w, n, s) && (GetChannel(cfg, w, n, s).1.Err? || w.body(n).Some?)
    ensures var next := Iterate(cfg, w, n, s);
      Passed(cfg, w, n, s, next.state, next.Again?) && (next.Again? ==> Recorded(w, n + 1, next.state))
  {
    GetChannelMoves(cfg, w, n, s);
  }

  lemma AttemptPassRecords(cfg: Config, w: World, n: nat, s: State)
    requires cfg.retryTimes >= 0 && Recorded(w, n, s) && GetChannel(cfg, w, n, s).1.Ok? && w.body(n).None?
    ensures var next := Iterate(cfg, w, n, s);
      Passed(cfg, w, n, s, next.state, next.Again?) && (next.Again? ==> Recorded(w, n + 1, next.state))
  {
    GetChannelMoves(cfg, w, n, s);
    var (t, r) := GetChannel(cfg, w, n, s);
    assert t.retry == Counter(cfg, Attempt(n, r.value, t.model, t.hop, w.reply(n).None?));
  }

  /** A pass makes its attempt, which is followed exactly when the rules say so, or makes none. */
  lemma PassRecords(cfg: Config, w: World, n: nat, s: State)
    requires cfg.retryTimes >= 0 && Recorded(w, n, s)
    ensures var next := Iterate(cfg, w, n, s);
      Passed(cfg, w, n, s, next.state, next.Again?) && (next.Again? ==> Recorded(w, n + 1, next.state))
  {
    if GetChannel(cfg, w, n, s).1.Err? || w.body(n).Some? {
      IdlePassRecords(cfg, w, n, s);
    } else {
      AttemptPassRecords(cfg, w, n, s);
    }
  }

  lemma EndsHere(cfg: Config, w: World, n: nat, s: State, u: State)
    requires Recorded(w, n, s) && Passed(cfg, w, n, s, u, false)
    ensures WellEnded(cfg, w, n, s, u, n + 1)
  {
    if u.log != s.log {
      assert u.log[..|s.log|] == s.log;
    }
  }

  lemma GoesOn(cfg: Config, w: World, n: nat, s: State, u: State, t: State, end: nat)
    requires Recorded(w, n, s) && Passed(cfg, w, n, s, u, true)
    requires WellEnded(cfg, w, n + 1, u, t, end) && (end > n + 1 <==> u.retry <= cfg.retryTimes)
    ensures WellEnded(cfg, w, n, s, t, end)
  {
    if u.log != s.log {
      assert t.log[|s.log|] == u.log[|s.log|] == Last(u.log);
      assert s.log <= u.log;
    }
  }

  lemma {:induction false} RunRecords(cfg: Config, w: World, n: nat, s: State)
    requires cfg.retryTimes >= 0 && Recorded(w, n, s)
    requires s.retry > cfg.retryTimes ==> s.log != [] && Last(s.log).iteration == n - 1
    ensures WellEnded(cfg, w, n, s, Run(cfg, w, n, s), Passes(cfg, w, n, s))
    decreases |s.fallback|, GroupsLeft(cfg, s), Slack(cfg, s)
  {
    if s.retry <= cfg.retryTimes {
      PassRecords(cfg, w, n, s);
      IterateDescends(cfg, w, n, s);
      var next := Iterate(cfg, w, n, s);
      if next.Again? {
        RunRecords(cfg, w, n + 1, next.state);
        GoesOn(cfg, w, n, s, next.state, Run(cfg, w, n, s), Passes(cfg, w, n, s));
      } else {
        EndsHere(cfg, w, n, s, next.state);
      }
    }
  }

  /**
    In every run every failed attempt is followed by a further pass exactly when the rules of retrying, the
    counter and RetryTimes say so.
   */
  lemma FollowedExactlyWhen(cfg: Config, w: World, groupIndex: nat, chain: seq<string>, model: string, i: nat)
    requires cfg.retryTimes >= 0 && i < |Run(cfg, w, 0, Start(groupIndex, chain, model)).log|
    ensures var s := Start(groupIndex, chain, model);
      var a := Run(cfg, w, 0, s).log[i];
      a.iteration + 1 < Passes(cfg, w, 0, s) <==> MayRetry(cfg, w, a) && NextCounter(cfg, a) <= cfg.retryTimes
  {
    RunRecords(cfg, w, 0, Start(groupIndex, chain, model));
  }

  /**
    How every run ends: with the answer to the attempt of its last pass, or, if that made none, with the error of
    the body, of the set-up, or of a selection that found nothing; running out of channels only ends it with the
    chain used up. Every attempt used the channel recorded for it.
   */
  lemma RunsEnd(cfg: Config, w: World, groupIndex: nat, chain: seq<string>, model: string)
    requires cfg.retryTimes >= 0
    ensures var s := Start(groupIndex, chain, model);
      var t, end := Run(cfg, w, 0, s), Passes(cfg, w, 0, s);
      && end > 0
      && if t.log != [] && Last(t.log).iteration == end - 1 then UsedAll(t) && t.error == w.reply(end - 1)
         else Unattempted(w, end - 1, t)
  {
    RunRecords(cfg, w, 0, Start(groupIndex, chain, model));
  }
}
