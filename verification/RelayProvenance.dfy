/** Where the relay loop's attempts and swaps come from. */
module RelayProvenance {
  import opened Lists
  import opened Routing
  import opened Relay
  import opened RelayLaws

  function GroupAt(cfg: Config, slot: nat): string {
    if !Auto(cfg) then cfg.group else if slot < |cfg.autoGroups| then cfg.autoGroups[slot] else ""
  }

  /** The selection of that pass found the channel, for this group, model and priority. */
  predicate Found(cfg: Config, w: World, n: nat, model: string, c: Choice) {
    w.pick(Query(n, c.slot, GroupAt(cfg, c.slot), model, c.priority)) == Pick.Found(c.channel)
  }

  /** The attempt reports what the upstream said, on the distributor's channel or on one that was found and set up. */
  predicate Justified(cfg: Config, w: World, a: Attempt) {
    && w.body(a.iteration).None?
    && a.served == w.reply(a.iteration).None?
    && if a.iteration == 0 then a.choice.channel == cfg.contextChannel
       else w.setup(a.iteration).None? && Found(cfg, w, a.iteration, a.model, a.choice)
  }

  lemma {:induction false} AutoFinds(cfg: Config, w: World, n: nat, s: State, start: nat, slot: nat)
    requires Auto(cfg)
    ensures var choice := AutoFrom(cfg, w, n, s, start, slot).1;
      choice.Some? ==> Found(cfg, w, n, s.model, choice.value)
    decreases |cfg.autoGroups| - slot
  {
    if slot < |cfg.autoGroups| {
      var priority := PriorityAt(s, start, slot);
      if !w.pick(Query(n, slot, cfg.autoGroups[slot], s.model, priority)).Found? {
        AutoFinds(cfg, w, n, s.(groupIndex := slot + 1, retry := 0), start, slot + 1);
      }
    }
  }

  /** What the selection of pass n asks for in an auto group: the first group at the counter, later ones at 0. */
  predicate Offers(cfg: Config, w: World, n: nat, s: State, slot: nat)
    requires slot < |cfg.autoGroups|
  {
    w.pick(Query(n, slot, cfg.autoGroups[slot], s.model, if slot > s.groupIndex then 0 else s.retry)).Found?
  }

  lemma {:induction false} AutoIsFirst(cfg: Config, w: World, n: nat, s: State, t: State, slot: nat)
    requires s.groupIndex <= slot && t.model == s.model && (slot == s.groupIndex ==> t.retry == s.retry)
    ensures var choice := AutoFrom(cfg, w, n, t, s.groupIndex, slot).1;
      && (choice.Some? ==> slot <= choice.value.slot < |cfg.autoGroups| && Offers(cfg, w, n, s, choice.value.slot))
      && (forall k :: slot <= k < (if choice.Some? then choice.value.slot else |cfg.autoGroups|) && k < |cfg.autoGroups| ==>
            !Offers(cfg, w, n, s, k))
    decreases |cfg.autoGroups| - slot
  {
    if slot < |cfg.autoGroups| && !Offers(cfg, w, n, s, slot) {
      AutoIsFirst(cfg, w, n, s, t.(groupIndex := slot + 1, retry := 0), slot + 1);
    }
  }

  /** A selection takes the first group from the current one on that has a channel, and fails exactly when none has. */
  lemma ChoosesFirst(cfg: Config, w: World, n: nat, s: State)
    ensures var choice := Choose(cfg, w, n, s).1;
      if cfg.group != "auto" then choice.Some? <==> w.pick(Query(n, 0, cfg.group, s.model, s.retry)).Found?
      else
        && (choice.Some? <==> cfg.autoEnabled && exists k: nat :: s.groupIndex <= k < |cfg.autoGroups| && Offers(cfg, w, n, s, k))
        && (choice.Some? ==>
              forall k: nat :: s.groupIndex <= k < choice.value.slot && k < |cfg.autoGroups| ==> !Offers(cfg, w, n, s, k))
  {
    if Auto(cfg) && cfg.autoEnabled {
      AutoIsFirst(cfg, w, n, s, s, s.groupIndex);
    }
  }

  /** Every entry is justified, and no pass makes two attempts. */
  ghost predicate AllJustified(cfg: Config, w: World, n: nat, log: seq<Attempt>) {
    && (forall i :: 0 <= i < |log| ==> Justified(cfg, w, log[i]) && log[i].iteration < n)
    && (forall i :: 0 < i < |log| ==> log[i - 1].iteration < log[i].iteration)
  }

  lemma MoreJustified(cfg: Config, w: World, n: nat, log: seq<Attempt>, a: Attempt)
    requires AllJustified(cfg, w, n, log)
    ensures AllJustified(cfg, w, n + 1, log)
    ensures Justified(cfg, w, a) && a.iteration == n ==> AllJustified(cfg, w, n + 1, log + [a])
  {
  }

  lemma GetChannelFinds(cfg: Config, w: World, n: nat, s: State)
    ensures var (t, r) := GetChannel(cfg, w, n, s);
      && t.log == s.log && t.model == s.model && t.hop == s.hop && t.hasMeta == s.hasMeta
      && (r.Ok? ==> if s.hasMeta then w.setup(n).None? && Found(cfg, w, n, s.model, r.value)
                    else r.value.channel == cfg.contextChannel)
      && (r.Err? ==> s.hasMeta)
  {
    ChooseKeeps(cfg, w, n, s);
    if Auto(cfg) {
      AutoFinds(cfg, w, n, s, s.groupIndex, s.groupIndex);
    }
  }

  lemma IterateJustified(cfg: Config, w: World, n: nat, s: State)
    requires AllJustified(cfg, w, n, s.log) && (s.hasMeta <==> n > 0)
    ensures var next := Iterate(cfg, w, n, s);
      AllJustified(cfg, w, n + 1, next.state.log) && (next.Again? ==> next.state.hasMeta)
  {
    GetChannelFinds(cfg, w, n, s);
    var (t, r) := GetChannel(cfg, w, n, s);
    MoreJustified(cfg, w, n, s.log,
      Attempt(n, if r.Ok? then r.value else Choice(0, 0, 0), s.model, s.hop, w.reply(n).None?));
  }

  lemma {:induction false} RunJustified(cfg: Config, w: World, n: nat, s: State) returns (passes: nat)
    requires AllJustified(cfg, w, n, s.log) && (s.hasMeta <==> n > 0)
    ensures AllJustified(cfg, w, passes, Run(cfg, w, n, s).log)
    decreases |s.fallback|, GroupsLeft(cfg, s), Slack(cfg, s)
  {
    passes := n;
    if s.retry <= cfg.retryTimes {
      IterateJustified(cfg, w, n, s);
      IterateDescends(cfg, w, n, s);
      passes := n + 1;
      if Iterate(cfg, w, n, s).Again? {
        passes := RunJustified(cfg, w, n + 1, Iterate(cfg, w, n, s).state);
      }
    }
  }

  /** Whatever the world does: attempts come from selections of their own pass, for their own model and priority. */
  lemma EveryAttemptIsJustified(cfg: Config, w: World, groupIndex: nat, chain: seq<string>, model: string, i: nat)
    requires i < |Run(cfg, w, 0, Start(groupIndex, chain, model)).log|
    ensures var log := Run(cfg, w, 0, Start(groupIndex, chain, model)).log;
      Justified(cfg, w, log[i]) && (i > 0 ==> log[i - 1].iteration < log[i].iteration)
  {
    var passes := RunJustified(cfg, w, 0, Start(groupIndex, chain, model));
  }

  /** The upstream's error may be retried: the channel is at fault, or nothing about the error forbids it. */
  predicate Retryable(cfg: Config, w: World, a: Attempt) {
    var reply := w.reply(a.iteration);
    && reply.Some? && !w.affinitySkip(a.iteration)
    && (IsChannelError(reply.value)
        || (&& !reply.value.skipRetry && !cfg.specificChannel
            && !(200 <= reply.value.status < 300)
            && (100 <= reply.value.status <= 599 ==>
                  !cfg.alwaysSkip(reply.value.code) && cfg.retryStatus(reply.value.status))))
  }

  ghost predicate AllRetryable(cfg: Config, w: World, log: seq<Attempt>) {
    forall i :: 0 <= i < |log| ==> Retryable(cfg, w, log[i])
  }

  lemma IterateRetryable(cfg: Config, w: World, n: nat, s: State)
    requires AllRetryable(cfg, w, s.log)
    ensures var next := Iterate(cfg, w, n, s);
      && (next.Again? ==> AllRetryable(cfg, w, next.state.log))
      && (next.state.log == s.log || (next.state.log != [] && Front(next.state.log) == s.log))
  {
    GetChannelFinds(cfg, w, n, s);
  }

  /** Every attempt but the last failed with an error that may be retried. */
  lemma {:induction false} OnlyRetryableIsRetried(cfg: Config, w: World, n: nat, s: State)
    requires AllRetryable(cfg, w, s.log)
    ensures var t := Run(cfg, w, n, s); t.log == [] || AllRetryable(cfg, w, Front(t.log))
    decreases |s.fallback|, GroupsLeft(cfg, s), Slack(cfg, s)
  {
    if s.retry <= cfg.retryTimes {
      IterateRetryable(cfg, w, n, s);
      IterateDescends(cfg, w, n, s);
      if Iterate(cfg, w, n, s).Again? {
        OnlyRetryableIsRetried(cfg, w, n + 1, Iterate(cfg, w, n, s).state);
      }
    }
  }

  /** Channels never run out in a plain group: every query finds one, and no set-up reports exhaustion. */
  ghost predicate Plentiful(cfg: Config, w: World) {
    && !Auto(cfg)
    && (forall q :: w.pick(q).Found?)
    && (forall n :: w.setup(n).Some? ==> !IsChannelExhaustion(w.setup(n).value))
  }

  /** Only exhaustion swaps the model: other errors surface with the model and chain as they were. */
  lemma {:induction false} OnlyExhaustionSwaps(cfg: Config, w: World, n: nat, s: State)
    requires Plentiful(cfg, w)
    ensures var t := Run(cfg, w, n, s); t.model == s.model && t.fallback == s.fallback && t.hop == s.hop
    decreases |s.fallback|, GroupsLeft(cfg, s), Slack(cfg, s)
  {
    if s.retry <= cfg.retryTimes {
      IterateDescends(cfg, w, n, s);
      assert w.pick(Query(n, 0, cfg.group, s.model, s.retry)).Found?;
      assert w.setup(n).Some? ==> !IsChannelExhaustion(w.setup(n).value);
      if Iterate(cfg, w, n, s).Again? {
        OnlyExhaustionSwaps(cfg, w, n + 1, Iterate(cfg, w, n, s).state);
      }
    }
  }
}
