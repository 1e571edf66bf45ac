/** In which order the relay loop tries models, groups and priorities, and how it ends. */
module RelayLog {
  import opened Lists
  import opened Routing
  import opened Relay
  import opened RelayLaws

  /** Lexicographic order of (model in the chain, auto group, priority). */
  predicate Before(hop: nat, slot: nat, priority: int, hop': nat, slot': nat, priority': int) {
    hop < hop' || (hop == hop' && (slot < slot' || (slot == slot' && priority < priority')))
  }

  /** In a plain group a model is tried at the next priority, and a new model from priority 0. */
  predicate Consecutive(hop: nat, priority: int, hop': nat, priority': int) {
    priority' == if hop == hop' then priority + 1 else 0
  }

  predicate Follows(cfg: Config, a: Attempt, b: Attempt) {
    && Before(a.hop, a.choice.slot, a.choice.priority, b.hop, b.choice.slot, b.choice.priority)
    && (!Auto(cfg) ==> Consecutive(a.hop, a.choice.priority, b.hop, b.choice.priority))
  }

  /** The attempt that the state would make next comes after `a`. */
  predicate Ahead(cfg: Config, a: Attempt, s: State) {
    && Before(a.hop, a.choice.slot, a.choice.priority, s.hop, SlotNow(cfg, s), s.retry)
    && (!Auto(cfg) ==> Consecutive(a.hop, a.choice.priority, s.hop, s.retry))
  }

  predicate Entry(cfg: Config, route: seq<string>, hop: nat, a: Attempt) {
    a.hop <= hop && a.hop < |route| && a.model == route[a.hop] && a.choice.priority <= cfg.retryTimes
  }

  ghost predicate EntriesOk(cfg: Config, route: seq<string>, hop: nat, log: seq<Attempt>) {
    forall i :: 0 <= i < |log| ==> Entry(cfg, route, hop, log[i])
  }

  ghost predicate Ordered(cfg: Config, log: seq<Attempt>) {
    && (forall i :: 0 < i < |log| ==> Follows(cfg, log[i - 1], log[i]))
    && (!Auto(cfg) && log != [] ==> log[0].choice.priority == 0)
  }

  /** No attempt but perhaps the last was served. */
  ghost predicate OnlyLastServed(log: seq<Attempt>) {
    forall i :: 0 <= i < |log| - 1 ==> !log[i].served
  }

  predicate LastServed(log: seq<Attempt>) {
    log != [] && Last(log).served
  }

  /** The models tried so far and still to come are the route. */
  ghost predicate OnRoute(route: seq<string>, s: State) {
    s.hop < |route| && s.model == route[s.hop] && s.fallback == route[s.hop + 1..]
  }

  ghost predicate Tracked(cfg: Config, route: seq<string>, s: State) {
    && Ready(cfg, s) && OnRoute(route, s)
    && EntriesOk(cfg, route, s.hop, s.log) && Ordered(cfg, s.log)
    && OnlyLastServed(s.log) && !LastServed(s.log)
    && (if s.log == [] then !Auto(cfg) ==> s.retry == 0 else Ahead(cfg, Last(s.log), s))
    && (s.retry > cfg.retryTimes ==> s.error.Some?)
  }

  /** What holds of a finished run. */
  ghost predicate Done(cfg: Config, route: seq<string>, t: State) {
    && OnRoute(route, t) && EntriesOk(cfg, route, t.hop, t.log) && Ordered(cfg, t.log)
    && OnlyLastServed(t.log)
    && (t.error.None? <==> LastServed(t.log))
  }

  lemma SwapTracked(cfg: Config, route: seq<string>, s: State, t: State, u: State)
    requires cfg.retryTimes >= 0 && Tracked(cfg, route, s) && s.retry <= cfg.retryTimes && Swapped(cfg, s, t, u)
    ensures Tracked(cfg, route, u)
  {
    assert u.log == s.log && u.hop == s.hop + 1;
    assert u.fallback == s.fallback[1..] == route[u.hop + 1..];
  }

  lemma AttemptFollows(cfg: Config, w: World, n: nat, s: State, c: Choice, t: State, a: Attempt)
    requires Ready(cfg, s) && s.retry <= cfg.retryTimes && AttemptOn(cfg, w, n, s, c, t)
    ensures Ahead(cfg, a, s) ==> Follows(cfg, a, Last(t.log))
    ensures cfg.retryTimes >= 0 ==> Ahead(cfg, Last(t.log), IncreaseRetry(t)) && Last(t.log).choice.priority <= cfg.retryTimes
    ensures !Auto(cfg) ==> Last(t.log).choice.priority == s.retry
  {
  }

  lemma AttemptLog(cfg: Config, w: World, n: nat, route: seq<string>, s: State, c: Choice, t: State)
    requires cfg.retryTimes >= 0 && Tracked(cfg, route, s) && s.retry <= cfg.retryTimes && AttemptOn(cfg, w, n, s, c, t)
    ensures OnRoute(route, t) && EntriesOk(cfg, route, t.hop, t.log) && Ordered(cfg, t.log) && OnlyLastServed(t.log)
    ensures LastServed(t.log) <==> w.reply(n).None?
  {
    AttemptFollows(cfg, w, n, s, c, t, if s.log == [] then Last(t.log) else Last(s.log));
    forall i | 0 < i < |t.log| ensures Follows(cfg, t.log[i - 1], t.log[i]) {
      if i < |s.log| {
        assert Follows(cfg, s.log[i - 1], s.log[i]);
      }
    }
  }

  lemma AttemptTracked(cfg: Config, w: World, n: nat, route: seq<string>, s: State, c: Choice, t: State)
    requires cfg.retryTimes >= 0 && Tracked(cfg, route, s) && s.retry <= cfg.retryTimes && AttemptOn(cfg, w, n, s, c, t)
    requires t.error.Some?
    ensures Tracked(cfg, route, IncreaseRetry(t))
  {
    AttemptLog(cfg, w, n, route, s, c, t);
    AttemptFollows(cfg, w, n, s, c, t, Last(t.log));
    AttemptRoom(cfg, s, c, t);
  }

  lemma EndsDone(cfg: Config, route: seq<string>, s: State, t: State)
    requires Tracked(cfg, route, s) && Ends(s, t)
    ensures Done(cfg, route, t)
  {
  }

  lemma AttemptDone(cfg: Config, w: World, n: nat, route: seq<string>, s: State, c: Choice, t: State)
    requires cfg.retryTimes >= 0 && Tracked(cfg, route, s) && s.retry <= cfg.retryTimes && AttemptOn(cfg, w, n, s, c, t)
    ensures Done(cfg, route, t)
  {
    AttemptLog(cfg, w, n, route, s, c, t);
  }

  lemma IterateTracked(cfg: Config, w: World, n: nat, route: seq<string>, s: State)
    requires cfg.retryTimes >= 0 && Tracked(cfg, route, s) && s.retry <= cfg.retryTimes
    ensures var next := Iterate(cfg, w, n, s);
      if next.Again? then Tracked(cfg, route, next.state) else Done(cfg, route, next.state)
  {
    var next := Iterate(cfg, w, n, s);
    IterateCases(cfg, w, n, s);
    if Swap(cfg, s, next) {
      var t :| Swapped(cfg, s, t, next.state);
      SwapTracked(cfg, route, s, t, next.state);
    } else if Idle(s, next) {
      EndsDone(cfg, route, s, next.state);
    } else {
      var c, t :| AttemptOn(cfg, w, n, s, c, t) && After(t, next);
      AttemptDone(cfg, w, n, route, s, c, t);
      if next.Again? {
        AttemptTracked(cfg, w, n, route, s, c, t);
      }
    }
  }

  lemma {:induction false} RunTracked(cfg: Config, w: World, n: nat, route: seq<string>, s: State)
    requires cfg.retryTimes >= 0 && Tracked(cfg, route, s)
    ensures Done(cfg, route, Run(cfg, w, n, s))
    decreases |s.fallback|, GroupsLeft(cfg, s), Slack(cfg, s)
  {
    if s.retry <= cfg.retryTimes {
      IterateTracked(cfg, w, n, route, s);
      IterateDescends(cfg, w, n, s);
      if Iterate(cfg, w, n, s).Again? {
        RunTracked(cfg, w, n + 1, route, Iterate(cfg, w, n, s).state);
      }
    }
  }
}
