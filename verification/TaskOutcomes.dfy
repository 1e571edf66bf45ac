/** What a task request ends with: the quota it settles, the error it answers and the refund it owes, on the world and the log. */
module TaskOutcomes {
  import opened Prelude
  import opened Lists
  import opened Routing
  import opened RelayLaws
  import opened RelayTask
  import Relay
  import RelayProvenance

  /** The number of passes made when the loop ends, counted from pass n on. */
  function TaskPasses(cfg: Config, locked: Option<int>, w: TaskWorld, n: nat, s: TaskState): (end: nat)
    ensures end >= n && (end > n <==> s.at.retry <= cfg.retryTimes)
    decreases Relay.GroupsLeft(cfg, s.at), Relay.Slack(cfg, s.at)
  {
    if s.at.retry > cfg.retryTimes then n
    else
      TaskDescends(cfg, locked, w, n, s);
      match TaskIterate(cfg, locked, w, n, s)
      case Stop(_) => n + 1
      case Again(t) => TaskPasses(cfg, locked, w, n + 1, t)
  }

  /** The attempt used an auto group up, so the counter started over. */
  predicate LeavesGroup(cfg: Config, locked: Option<int>, a: Attempt) {
    && locked.None? && cfg.group == "auto" && cfg.crossGroupRetry
    && a.iteration > 0 && a.choice.priority >= cfg.retryTimes
  }

  function Counter(cfg: Config, locked: Option<int>, a: Attempt): int {
    if LeavesGroup(cfg, locked, a) then 0 else a.choice.priority
  }

  /** The rules of retrying a rejected submission. */
  predicate MayResubmit(cfg: Config, locked: Option<int>, w: TaskWorld, a: Attempt) {
    var reply := w.submit(a.iteration);
    && reply.Rejected? && !w.base.affinitySkip(a.iteration)
    && cfg.retryTimes - Counter(cfg, locked, a) > 0 && !cfg.specificChannel
    && var e := reply.error;
       if e.status == 429 || e.status == 307 then true
       else if 500 <= e.status <= 599 then !w.alwaysSkipStatus(e.status)
       else e.status != 400 && e.status != 408 && !e.isLocal && !(200 <= e.status <= 299)
  }

  /** Billing is open exactly when the submission of some attempt opened it. */
  ghost predicate BillingSeen(w: TaskWorld, t: TaskState) {
    t.billing <==> exists i :: 0 <= i < |t.at.log| && w.opens(t.at.log[i].iteration)
  }

  /** Every attempt reports whether it was submitted. */
  ghost predicate Reports(w: TaskWorld, n: nat, log: seq<Attempt>) {
    forall i :: 0 <= i < |log| ==> log[i].iteration < n && log[i].served == w.submit(log[i].iteration).Submitted?
  }

  ghost predicate UsedAll(t: State) {
    |t.used| == |t.log| && forall i :: 0 <= i < |t.log| ==> t.used[i] == t.log[i].choice.channel
  }

  /** The outcome is that of the submission in pass n. */
  ghost predicate Answered(w: TaskWorld, n: nat, t: TaskState) {
    match w.submit(n)
    case Submitted(quota) => t.result == Some(quota) && t.error.None?
    case Rejected(e) => t.result.None? && t.error == Some(e)
  }

  /** A state between passes. */
  ghost predicate Recorded(w: TaskWorld, n: nat, s: TaskState) {
    && !s.at.resetNextTry && (s.at.hasMeta <==> n > 0) && s.result.None?
    && UsedAll(s.at) && Reports(w, n, s.at.log) && BillingSeen(w, s)
    && (n > 0 ==> s.at.log != [] && Last(s.at.log).iteration == n - 1 && Answered(w, n - 1, s))
  }

  /** The loop ended in pass n without a submission: no channel, or an unreadable body. */
  ghost predicate Unsubmitted(w: TaskWorld, n: nat, t: TaskState) {
    && t.result.None? && Reports(w, n, t.at.log) && BillingSeen(w, t)
    && if |t.at.used| == |t.at.log| then t.error == Some(TaskError(500, true))
       else |t.at.used| == |t.at.log| + 1 && w.base.body(n).Some? && t.error == Some(TaskError(w.base.body(n).value.status, true))
  }

  lemma BillingStep(w: TaskWorld, s: TaskState, u: TaskState, a: Attempt)
    requires BillingSeen(w, s) && u.at.log == s.at.log + [a] && u.billing == (s.billing || w.opens(a.iteration))
    ensures BillingSeen(w, u)
  {
    assert u.at.log[|s.at.log|] == a;
    assert forall i :: 0 <= i < |s.at.log| ==> u.at.log[i] == s.at.log[i];
  }

  /** What a pass that starts in s and leads to u has done. */
  ghost predicate Passed(cfg: Config, locked: Option<int>, w: TaskWorld, n: nat, s: TaskState, u: TaskState, more: bool) {
    if u.at.log == s.at.log then !more && Unsubmitted(w, n, u)
    else
      && |u.at.log| == |s.at.log| + 1 && s.at.log == Front(u.at.log) && Last(u.at.log).iteration == n
      && Reports(w, n + 1, u.at.log) && BillingSeen(w, u) && UsedAll(u.at) && Answered(w, n, u)
      && (more <==> MayResubmit(cfg, locked, w, Last(u.at.log)))
  }

  lemma ChannelTaken(cfg: Config, locked: Option<int>, w: TaskWorld, n: nat, s: TaskState)
    requires Recorded(w, n, s)
    ensures var (t, r) := TaskChannel(cfg, locked, w.base, n, s.at);
      && SameButCursor(s.at, t)
      && (r.Ok? ==> t.retry == Counter(cfg, locked, Attempt(n, r.value, t.model, t.hop, w.submit(n).Submitted?)))
  {
    if locked.None? {
      GetChannelMoves(cfg, w.base, n, s.at);
    }
  }

  lemma IdlePassRecords(cfg: Config, locked: Option<int>, w: TaskWorld, n: nat, s: TaskState)
    requires Recorded(w, n, s) && (TaskChannel(cfg, locked, w.base, n, s.at).1.Err? || w.base.body(n).Some?)
    ensures var next := TaskIterate(cfg, locked, w, n, s);
      next.Stop? && next.state.at.log == s.at.log && Unsubmitted(w, n, next.state)
  {
    ChannelTaken(cfg, locked, w, n, s);
  }

  /** The state after a submission, before the counter advances. */
  lemma Submits(cfg: Config, locked: Option<int>, w: TaskWorld, n: nat, s: TaskState, t: State, c: Choice)
    requires Recorded(w, n, s) && SameButCursor(s.at, t)
    ensures var u := Submit(w, n, s, t, c);
      && u.at.log == s.at.log + [Attempt(n, c, t.model, t.hop, w.submit(n).Submitted?)] && u.at.hasMeta
      && Reports(w, n + 1, u.at.log) && BillingSeen(w, u) && UsedAll(u.at) && Answered(w, n, u)
  {
    BillingStep(w, s, Submit(w, n, s, t, c), Attempt(n, c, t.model, t.hop, w.submit(n).Submitted?));
  }

  lemma RetryMeans(cfg: Config, locked: Option<int>, w: TaskWorld, a: Attempt)
    requires w.submit(a.iteration).Rejected?
    ensures var e, left := w.submit(a.iteration).error, cfg.retryTimes - Counter(cfg, locked, a);
      ShouldRetryTaskRelay(cfg, w, w.base.affinitySkip(a.iteration), e, left) <==> MayResubmit(cfg, locked, w, a)
  {
  }

  lemma PassRecords(cfg: Config, locked: Option<int>, w: TaskWorld, n: nat, s: TaskState)
    requires Recorded(w, n, s)
    ensures var next := TaskIterate(cfg, locked, w, n, s);
      Passed(cfg, locked, w, n, s, next.state, next.Again?) && (next.Again? ==> Recorded(w, n + 1, next.state))
  {
    var (t, r) := TaskChannel(cfg, locked, w.base, n, s.at);
    if r.Err? || w.base.body(n).Some? {
      IdlePassRecords(cfg, locked, w, n, s);
    } else {
      ChannelTaken(cfg, locked, w, n, s);
      Submits(cfg, locked, w, n, s, t, r.value);
      var a := Attempt(n, r.value, t.model, t.hop, w.submit(n).Submitted?);
      assert Front(s.at.log + [a]) == s.at.log && Last(s.at.log + [a]) == a;
      if w.submit(n).Rejected? {
        RetryMeans(cfg, locked, w, a);
      }
    }
  }

  /** How a run that was recorded up to pass n goes on and ends. */
  ghost predicate WellEnded(cfg: Config, locked: Option<int>, w: TaskWorld, n: nat, s: TaskState, t: TaskState, end: nat) {
    && end >= n && s.at.log <= t.at.log && BillingSeen(w, t) && Reports(w, end, t.at.log)
    && (forall i :: |s.at.log| <= i < |t.at.log| ==>
          && n <= t.at.log[i].iteration
          && (t.at.log[i].iteration + 1 < end <==> MayResubmit(cfg, locked, w, t.at.log[i])))
    && if t.at.log != [] && Last(t.at.log).iteration == end - 1 then UsedAll(t.at) && Answered(w, end - 1, t)
       else end > 0 ==> Unsubmitted(w, end - 1, t)
  }

  lemma EndsHere(cfg: Config, locked: Option<int>, w: TaskWorld, n: nat, s: TaskState, u: TaskState)
    requires Recorded(w, n, s) && Passed(cfg, locked, w, n, s, u, false)
    ensures WellEnded(cfg, locked, w, n, s, u, n + 1)
  {
    if u.at.log != s.at.log {
      assert u.at.log[..|s.at.log|] == s.at.log;
    }
  }

  lemma GoesOn(cfg: Config, locked: Option<int>, w: TaskWorld, n: nat, s: TaskState, u: TaskState, t: TaskState, end: nat)
    requires Recorded(w, n, s) && Passed(cfg, locked, w, n, s, u, true)
    requires WellEnded(cfg, locked, w, n + 1, u, t, end) && end > n + 1
    ensures WellEnded(cfg, locked, w, n, s, t, end)
  {
    assert t.at.log[|s.at.log|] == u.at.log[|s.at.log|] == Last(u.at.log);
    assert s.at.log <= u.at.log;
  }

  /** A retried pass has retries left. */
  lemma RetriesLeft(cfg: Config, locked: Option<int>, w: TaskWorld, n: nat, s: TaskState)
    requires TaskIterate(cfg, locked, w, n, s).Again?
    ensures TaskIterate(cfg, locked, w, n, s).state.at.retry <= cfg.retryTimes
  {
  }

  lemma {:induction false} RunRecords(cfg: Config, locked: Option<int>, w: TaskWorld, n: nat, s: TaskState)
    requires cfg.retryTimes >= 0 && Recorded(w, n, s) && s.at.retry <= cfg.retryTimes
    ensures WellEnded(cfg, locked, w, n, s, TaskRun(cfg, locked, w, n, s), TaskPasses(cfg, locked, w, n, s))
    decreases Relay.GroupsLeft(cfg, s.at), Relay.Slack(cfg, s.at)
  {
    PassRecords(cfg, locked, w, n, s);
    TaskDescends(cfg, locked, w, n, s);
    var next := TaskIterate(cfg, locked, w, n, s);
    if next.Again? {
      RetriesLeft(cfg, locked, w, n, s);
      RunRecords(cfg, locked, w, n + 1, next.state);
      GoesOn(cfg, locked, w, n, s, next.state, TaskRun(cfg, locked, w, n, s), TaskPasses(cfg, locked, w, n, s));
    } else {
      EndsHere(cfg, locked, w, n, s, next.state);
    }
  }

  /** A rejected submission is followed by a further pass exactly when the rules say so. */
  lemma ResubmittedExactlyWhen(
    cfg: Config, locked: Option<int>, w: TaskWorld, groupIndex: nat, chain: seq<string>, model: string, i: nat)
    requires cfg.retryTimes >= 0 && i < |TaskRun(cfg, locked, w, 0, TaskStart(groupIndex, chain, model)).at.log|
    ensures var s := TaskStart(groupIndex, chain, model);
      var a := TaskRun(cfg, locked, w, 0, s).at.log[i];
      a.iteration + 1 < TaskPasses(cfg, locked, w, 0, s) <==> MayResubmit(cfg, locked, w, a)
  {
    RunRecords(cfg, locked, w, 0, TaskStart(groupIndex, chain, model));
  }

  /**
    How every run ends: with the answer to the submission of its last pass, the very quota or the very error, or,
    if that pass submitted nothing, with an error for the missing channel or the unreadable body. Billing is open
    exactly when some submission on record opened it.
   */
  lemma TasksEnd(cfg: Config, locked: Option<int>, w: TaskWorld, groupIndex: nat, chain: seq<string>, model: string)
    requires cfg.retryTimes >= 0
    ensures var s := TaskStart(groupIndex, chain, model);
      var t, end := TaskRun(cfg, locked, w, 0, s), TaskPasses(cfg, locked, w, 0, s);
      && end > 0 && BillingSeen(w, t) && Reports(w, end, t.at.log)
      && if t.at.log != [] && Last(t.at.log).iteration == end - 1 then UsedAll(t.at) && Answered(w, end - 1, t)
         else Unsubmitted(w, end - 1, t)
  {
    RunRecords(cfg, locked, w, 0, TaskStart(groupIndex, chain, model));
  }

  // ---- where the attempts come from ----------------------------------------------------------------

  /**
    The body was readable, and the channel is the locked one, set up again after the first pass, or else the
    distributor's in the first pass and later one that the selection of that pass found and that was set up.
   */
  predicate Justified(cfg: Config, locked: Option<int>, w: TaskWorld, a: Attempt) {
    && w.base.body(a.iteration).None?
    && if locked.Some? then a.choice.channel == locked.value && (a.iteration > 0 ==> w.base.setup(a.iteration).None?)
       else if a.iteration == 0 then a.choice.channel == cfg.contextChannel
       else w.base.setup(a.iteration).None? && RelayProvenance.Found(cfg, w.base, a.iteration, a.model, a.choice)
  }

  ghost predicate AllJustified(cfg: Config, locked: Option<int>, w: TaskWorld, log: seq<Attempt>) {
    forall i :: 0 <= i < |log| ==> Justified(cfg, locked, w, log[i])
  }

  /** A locked channel counts every pass. */
  ghost predicate InStep(locked: Option<int>, n: nat, s: TaskState) {
    locked.Some? ==> s.at.retry == n
  }

  lemma PassJustified(cfg: Config, locked: Option<int>, w: TaskWorld, n: nat, s: TaskState)
    requires Recorded(w, n, s) && AllJustified(cfg, locked, w, s.at.log) && InStep(locked, n, s)
    ensures var next := TaskIterate(cfg, locked, w, n, s);
      AllJustified(cfg, locked, w, next.state.at.log) && (next.Again? ==> InStep(locked, n + 1, next.state))
  {
    ChannelTaken(cfg, locked, w, n, s);
    if locked.None? {
      RelayProvenance.GetChannelFinds(cfg, w.base, n, s.at);
    }
  }

  lemma {:induction false} RunJustified(cfg: Config, locked: Option<int>, w: TaskWorld, n: nat, s: TaskState)
    requires cfg.retryTimes >= 0 && Recorded(w, n, s) && AllJustified(cfg, locked, w, s.at.log) && InStep(locked, n, s)
    ensures AllJustified(cfg, locked, w, TaskRun(cfg, locked, w, n, s).at.log)
    decreases Relay.GroupsLeft(cfg, s.at), Relay.Slack(cfg, s.at)
  {
    if s.at.retry <= cfg.retryTimes {
      PassRecords(cfg, locked, w, n, s);
      PassJustified(cfg, locked, w, n, s);
      TaskDescends(cfg, locked, w, n, s);
      if TaskIterate(cfg, locked, w, n, s).Again? {
        RunJustified(cfg, locked, w, n + 1, TaskIterate(cfg, locked, w, n, s).state);
      }
    }
  }

  /** Every submission of every run is justified. */
  lemma EveryTaskIsJustified(
    cfg: Config, locked: Option<int>, w: TaskWorld, groupIndex: nat, chain: seq<string>, model: string, i: nat)
    requires i < |TaskRun(cfg, locked, w, 0, TaskStart(groupIndex, chain, model)).at.log|
    ensures Justified(cfg, locked, w, TaskRun(cfg, locked, w, 0, TaskStart(groupIndex, chain, model)).at.log[i])
  {
    if cfg.retryTimes >= 0 {
      RunJustified(cfg, locked, w, 0, TaskStart(groupIndex, chain, model));
    }
  }

  /** With a locked channel a pass is missing its channel exactly when it is not the first and set-up fails. */
  lemma LockedFailsExactlyWhen(cfg: Config, locked: Option<int>, w: TaskWorld, n: nat, s: TaskState)
    requires Recorded(w, n, s) && InStep(locked, n, s) && locked.Some?
    ensures TaskChannel(cfg, locked, w.base, n, s.at).1.Err? <==> n > 0 && w.base.setup(n).Some?
  {
  }

  /** Crashed: the settlement reads the quota of a submission that does not exist. */
  datatype Outcome = Settled(quota: int) | Failed(error: TaskError, refunds: nat) | Crashed

  /** The controller: the log and the number of passes are those of the run. */
  method HandleTask(cfg: Config, locked: Option<int>, w: TaskWorld, groupIndex: nat, chain: seq<string>, model: string)
    returns (outcome: Outcome, ghost log: seq<Attempt>, ghost end: nat)
    ensures log == TaskRun(cfg, locked, w, 0, TaskStart(groupIndex, chain, model)).at.log
    ensures end == TaskPasses(cfg, locked, w, 0, TaskStart(groupIndex, chain, model))
    ensures outcome.Crashed? <==> cfg.retryTimes < 0
    ensures outcome.Settled? <==> log != [] && w.submit(Last(log).iteration).Submitted?
    ensures outcome.Settled? ==> w.submit(Last(log).iteration) == Submitted(outcome.quota)
    ensures outcome.Failed? ==>
      outcome.refunds == if exists i :: 0 <= i < |log| && w.opens(log[i].iteration) then 1 else 0
    ensures outcome.Failed? && log != [] && Last(log).iteration == end - 1 ==>
      w.submit(end - 1) == Rejected(outcome.error)
    ensures outcome.Failed? && (log == [] || Last(log).iteration < end - 1) ==>
      || outcome.error == TaskError(500, true)
      || (w.base.body(end - 1).Some? && outcome.error == TaskError(w.base.body(end - 1).value.status, true))
  {
    var rq := new Request(groupIndex, chain, model);
    var task := new TaskRequest(rq);
    task.Loop(cfg, locked, w);
    log, end := rq.log, TaskPasses(cfg, locked, w, 0, TaskStart(groupIndex, chain, model));
    if cfg.retryTimes >= 0 {
      TasksEnd(cfg, locked, w, groupIndex, chain, model);
      TaskConcludes(cfg, locked, w, 0, TaskStart(groupIndex, chain, model));
    }
    if task.error.Some? {
      outcome := Outcome.Failed(task.error.value, if task.billing then 1 else 0);
    } else if task.result.None? {
      outcome := Crashed;
    } else {
      outcome := Settled(task.result.value);
    }
  }
}
