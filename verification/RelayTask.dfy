/** The task submission loop of controller/relay.go (RelayTask), its settlement and its deferred refund. */
module RelayTask {
  import opened Prelude
  import opened Lists
  import opened Routing
  import opened RelayLaws
  import opened RelayAuto
  import Relay

  datatype TaskError = TaskError(status: int, isLocal: bool)

  datatype Submission = Submitted(quota: int) | Rejected(error: TaskError)

  /** `opens` tells whether submitting in iteration n opens the billing session. */
  datatype TaskWorld = TaskWorld(base: World, submit: nat -> Submission, opens: nat -> bool, alwaysSkipStatus: int -> bool)

  datatype TaskState = TaskState(at: State, billing: bool, result: Option<int>, error: Option<TaskError>)

  predicate ShouldRetryTaskRelay(cfg: Config, w: TaskWorld, affinitySkip: bool, e: TaskError, retriesLeft: int) {
    if affinitySkip then false
    else if retriesLeft <= 0 then false
    else if cfg.specificChannel then false
    else if e.status == 429 then true
    else if e.status == 307 then true
    else if 500 <= e.status < 600 then !w.alwaysSkipStatus(e.status)
    else if e.status == 400 then false
    else if e.status == 408 then false
    else if e.isLocal then false
    else !(200 <= e.status < 300)
  }

  datatype TaskNext = Again(state: TaskState) | Stop(state: TaskState)

  /** The channel of this pass: the locked one if the origin task has one. */
  function TaskChannel(cfg: Config, locked: Option<int>, w: World, n: nat, s: State): (State, Result<Choice>) {
    if locked.Some? then
      if s.retry > 0 && w.setup(n).Some? then (s, Err(w.setup(n).value))
      else (s, Ok(Choice(locked.value, SlotNow(cfg, s), s.retry)))
    else GetChannel(cfg, w, n, s)
  }

  function Submit(w: TaskWorld, n: nat, s: TaskState, t: State, choice: Choice): TaskState {
    var reply := w.submit(n);
    TaskState(
      t.(used := t.used + [choice.channel], hasMeta := true,
         log := t.log + [Attempt(n, choice, t.model, t.hop, reply.Submitted?)]),
      s.billing || w.opens(n),
      if reply.Submitted? then Some(reply.quota) else None,
      if reply.Submitted? then None else Some(reply.error))
  }

  function TaskIterate(cfg: Config, locked: Option<int>, w: TaskWorld, n: nat, s: TaskState): TaskNext {
    var (t, r) := TaskChannel(cfg, locked, w.base, n, s.at);
    match r
    case Err(_) => Stop(s.(at := t, error := Some(TaskError(500, true))))
    case Ok(choice) =>
      if w.base.body(n).Some?
      then Stop(s.(at := t.(used := t.used + [choice.channel]), error := Some(TaskError(w.base.body(n).value.status, true))))
      else
        var u := Submit(w, n, s, t, choice);
        if u.error.None? then Stop(u)
        else if ShouldRetryTaskRelay(cfg, w, w.base.affinitySkip(n), u.error.value, cfg.retryTimes - u.at.retry)
        then Again(u.(at := IncreaseRetry(u.at)))
        else Stop(u)
  }

  lemma TaskDescends(cfg: Config, locked: Option<int>, w: TaskWorld, n: nat, s: TaskState)
    requires s.at.retry <= cfg.retryTimes
    ensures TaskIterate(cfg, locked, w, n, s).Again? ==> var t := TaskIterate(cfg, locked, w, n, s).state.at;
      || Relay.GroupsLeft(cfg, t) < Relay.GroupsLeft(cfg, s.at)
      || (Relay.GroupsLeft(cfg, t) == Relay.GroupsLeft(cfg, s.at) && Relay.Slack(cfg, t) < Relay.Slack(cfg, s.at))
  {
    Relay.ChooseKeeps(cfg, w.base, n, s.at);
  }

  function TaskRun(cfg: Config, locked: Option<int>, w: TaskWorld, n: nat, s: TaskState): TaskState
    decreases Relay.GroupsLeft(cfg, s.at), Relay.Slack(cfg, s.at)
  {
    if s.at.retry > cfg.retryTimes then s
    else
      TaskDescends(cfg, locked, w, n, s);
      match TaskIterate(cfg, locked, w, n, s)
      case Stop(t) => t
      case Again(t) => TaskRun(cfg, locked, w, n + 1, t)
  }

  // ---- the imperative loop ---------------------------------------------------------------------

  class TaskRequest {
    const rq: Request
    var billing: bool
    var result: Option<int>
    var error: Option<TaskError>

    ghost function View(): TaskState
      reads this, rq
    {
      TaskState(rq.View(), billing, result, error)
    }

    constructor (rq: Request)
      ensures this.rq == rq && View() == TaskState(rq.View(), false, None, None)
    {
      this.rq := rq;
      billing, result, error := false, None, None;
    }

    method PickChannel(cfg: Config, locked: Option<int>, w: World, n: nat) returns (r: Result<Choice>)
      modifies rq
      ensures (rq.View(), r) == TaskChannel(cfg, locked, w, n, old(rq.View()))
    {
      if locked.Some? {
        if rq.retry > 0 && w.setup(n).Some? {
          return Err(w.setup(n).value);
        }
        return Ok(Choice(locked.value, if cfg.group == "auto" then rq.groupIndex else 0, rq.retry));
      }
      r := rq.FetchChannel(cfg, w, n);
    }

    method SubmitOnce(w: TaskWorld, n: nat, choice: Choice)
      modifies this, rq
      ensures View() == Submit(w, n, old(View()), old(rq.View()), choice)
    {
      rq.used := rq.used + [choice.channel];
      rq.hasMeta := true;
      billing := billing || w.opens(n);
      match w.submit(n) {
        case Submitted(quota) => result, error := Some(quota), None;
        case Rejected(e) => result, error := None, Some(e);
      }
      rq.log := rq.log + [Attempt(n, choice, rq.model, rq.hop, error.None?)];
    }

    method Pass(cfg: Config, locked: Option<int>, w: TaskWorld, n: nat) returns (more: bool)
      modifies this, rq
      ensures TaskIterate(cfg, locked, w, n, old(View()))
           == if more then Again(View().(at := IncreaseRetry(rq.View()))) else Stop(View())
    {
      var r := PickChannel(cfg, locked, w.base, n);
      if r.Err? {
        error := Some(TaskError(500, true));
        return false;
      }
      var bodyError := w.base.body(n);
      if bodyError.Some? {
        rq.used := rq.used + [r.value.channel];
        error := Some(TaskError(bodyError.value.status, true));
        return false;
      }
      SubmitOnce(w, n, r.value);
      if error.None? {
        return false;
      }
      return ShouldRetryTaskRelay(cfg, w, w.base.affinitySkip(n), error.value, cfg.retryTimes - rq.retry);
    }

    method Loop(cfg: Config, locked: Option<int>, w: TaskWorld)
      modifies this, rq
      ensures View() == TaskRun(cfg, locked, w, 0, old(View()))
    {
      var n := 0;
      var more := true;
      while more && rq.retry <= cfg.retryTimes
        invariant (if more then TaskRun(cfg, locked, w, n, View()) else View()) == TaskRun(cfg, locked, w, 0, old(View()))
        decreases more, Relay.GroupsLeft(cfg, rq.View()), Relay.Slack(cfg, rq.View())
      {
        TaskDescends(cfg, locked, w, n, View());
        more := Pass(cfg, locked, w, n);
        if more {
          rq.AdvanceRetry();
        }
        n := n + 1;
      }
    }
  }

  // ---- laws ------------------------------------------------------------------------------------

  function TaskStart(groupIndex: nat, chain: seq<string>, model: string): TaskState {
    TaskState(Start(groupIndex, chain, model), false, None, None)
  }

  predicate Settles(t: TaskState) {
    t.error.None? && t.result.Some?
  }

  predicate LastSubmitted(log: seq<Attempt>) {
    log != [] && Last(log).served
  }

  /** Until the loop ends nothing has been submitted; past the last retry there is an error. */
  ghost predicate Pending(cfg: Config, s: TaskState) {
    && Ready(cfg, s.at) && s.at.retry >= 0
    && s.result.None?
    && (forall i :: 0 <= i < |s.at.log| ==> !s.at.log[i].served)
    && (s.at.retry > cfg.retryTimes ==> s.error.Some?)
  }

  /** At the end: settled with the last attempt submitted, or failed with none submitted. */
  ghost predicate Concluded(t: TaskState) {
    && (forall i :: 0 <= i < |t.at.log| - 1 ==> !t.at.log[i].served)
    && (Settles(t) <==> LastSubmitted(t.at.log))
    && (t.error.Some? <==> !LastSubmitted(t.at.log))
  }

  /** The most attempts from a state on; a request that cannot retry makes one. */
  function TaskRoom(cfg: Config, locked: Option<int>, s: State): int {
    if cfg.retryTimes == 0 || cfg.specificChannel then 1
    else if locked.Some? || !Auto(cfg) then cfg.retryTimes + 1 - s.retry
    else Potential(cfg, s.(fallback := []))
  }

  /** The most attempts of a task that starts at a group index. */
  function TaskMax(cfg: Config, locked: Option<int>, groupIndex: nat): int {
    var n := GroupsFrom(cfg, groupIndex);
    if cfg.retryTimes == 0 || cfg.specificChannel then 1
    else if locked.Some? || !Auto(cfg) then cfg.retryTimes + 1
    else if n == 0 then 1
    else GroupRoom(cfg, n, 0)
  }

  lemma TaskRoomLeft(cfg: Config, locked: Option<int>, s: State)
    requires cfg.retryTimes >= 0 && Ready(cfg, s) && s.retry >= 0
    ensures TaskRoom(cfg, locked, s) >= 0
  {
    if cfg.retryTimes > 0 && Auto(cfg) && locked.None? {
      PotentialNonNegative(cfg, s.(fallback := []));
    }
  }

  lemma ChannelRoom(cfg: Config, locked: Option<int>, w: TaskWorld, n: nat, s: TaskState)
    requires cfg.retryTimes >= 0 && Ready(cfg, s.at) && 0 <= s.at.retry <= cfg.retryTimes
    ensures var (t, r) := TaskChannel(cfg, locked, w.base, n, s.at);
      && SameButCursor(s.at, t)
      && (r.Ok? ==> var u := IncreaseRetry(Submit(w, n, s, t, r.value).at);
            && Ready(cfg, u) && t.retry >= 0
            && (cfg.retryTimes > 0 && !cfg.specificChannel ==>
                  0 <= TaskRoom(cfg, locked, u) <= TaskRoom(cfg, locked, s.at) - 1))
      && (r.Ok? && locked.Some? ==> r.value.channel == locked.value)
  {
    var (t, r) := TaskChannel(cfg, locked, w.base, n, s.at);
    if locked.None? {
      GetChannelMoves(cfg, w.base, n, s.at);
      if r.Ok? {
        var u := Submit(w, n, s, t, r.value).at;
        if cfg.retryTimes > 0 && Auto(cfg) {
          AttemptCosts(cfg, s.at.(fallback := []), r.value, u.(fallback := []));
        }
        TaskRoomLeft(cfg, locked, IncreaseRetry(u));
      }
    }
  }

  /** What a pass does to the record: another pass only follows a rejected submission. */
  lemma TaskRecord(cfg: Config, locked: Option<int>, w: TaskWorld, n: nat, s: TaskState)
    requires cfg.retryTimes >= 0 && Pending(cfg, s) && s.at.retry <= cfg.retryTimes
    ensures var next := TaskIterate(cfg, locked, w, n, s);
      if next.Again? then Pending(cfg, next.state) else Concluded(next.state)
  {
    ChannelRoom(cfg, locked, w, n, s);
  }

  lemma TaskStep(cfg: Config, locked: Option<int>, w: TaskWorld, n: nat, s: TaskState)
    requires cfg.retryTimes >= 0 && Pending(cfg, s) && s.at.retry <= cfg.retryTimes
    ensures var next := TaskIterate(cfg, locked, w, n, s);
      && (if next.Again? then Pending(cfg, next.state) else Concluded(next.state))
      && |next.state.at.log| + (if next.Again? then TaskRoom(cfg, locked, next.state.at) else 0)
         <= |s.at.log| + TaskRoom(cfg, locked, s.at)
  {
    TaskRecord(cfg, locked, w, n, s);
    ChannelRoom(cfg, locked, w, n, s);
    TaskRoomLeft(cfg, locked, s.at);
  }

  lemma {:induction false} TaskConcludes(cfg: Config, locked: Option<int>, w: TaskWorld, n: nat, s: TaskState)
    requires cfg.retryTimes >= 0 && Pending(cfg, s)
    ensures var t := TaskRun(cfg, locked, w, n, s);
      Concluded(t) && |t.at.log| <= |s.at.log| + TaskRoom(cfg, locked, s.at)
    decreases Relay.GroupsLeft(cfg, s.at), Relay.Slack(cfg, s.at)
  {
    if s.at.retry > cfg.retryTimes {
      TaskRoomLeft(cfg, locked, s.at);
    } else {
      TaskStep(cfg, locked, w, n, s);
      TaskDescends(cfg, locked, w, n, s);
      if TaskIterate(cfg, locked, w, n, s).Again? {
        TaskConcludes(cfg, locked, w, n + 1, TaskIterate(cfg, locked, w, n, s).state);
      }
    }
  }

  ghost predicate AllOn(channel: int, s: State) {
    && (forall i :: 0 <= i < |s.log| ==> s.log[i].choice.channel == channel)
    && (forall i :: 0 <= i < |s.used| ==> s.used[i] == channel)
  }

  lemma LockedStep(cfg: Config, locked: Option<int>, w: TaskWorld, n: nat, s: TaskState)
    requires locked.Some? && AllOn(locked.value, s.at)
    ensures AllOn(locked.value, TaskIterate(cfg, locked, w, n, s).state.at)
  {
  }

  /** A locked channel serves every attempt, whatever the world does. */
  lemma {:induction false} LockedChannelServesAll(cfg: Config, locked: Option<int>, w: TaskWorld, n: nat, s: TaskState)
    requires locked.Some? && AllOn(locked.value, s.at)
    ensures AllOn(locked.value, TaskRun(cfg, locked, w, n, s).at)
    decreases Relay.GroupsLeft(cfg, s.at), Relay.Slack(cfg, s.at)
  {
    if s.at.retry <= cfg.retryTimes {
      LockedStep(cfg, locked, w, n, s);
      TaskDescends(cfg, locked, w, n, s);
      if TaskIterate(cfg, locked, w, n, s).Again? {
        LockedChannelServesAll(cfg, locked, w, n + 1, TaskIterate(cfg, locked, w, n, s).state);
      }
    }
  }

  /** A task request settles or fails, never both and never neither, exactly when RetryTimes is not negative. */
  lemma SettlesXorFails(cfg: Config, locked: Option<int>, w: TaskWorld, groupIndex: nat, chain: seq<string>, model: string)
    ensures var t := TaskRun(cfg, locked, w, 0, TaskStart(groupIndex, chain, model));
      Settles(t) != t.error.Some? <==> cfg.retryTimes >= 0
  {
    if cfg.retryTimes >= 0 {
      TaskConcludes(cfg, locked, w, 0, TaskStart(groupIndex, chain, model));
    }
  }

  /** No world makes more attempts than TaskMax. */
  lemma TaskAttempts(cfg: Config, locked: Option<int>, w: TaskWorld, groupIndex: nat, chain: seq<string>, model: string)
    requires cfg.retryTimes >= 0
    ensures |TaskRun(cfg, locked, w, 0, TaskStart(groupIndex, chain, model)).at.log| <= TaskMax(cfg, locked, groupIndex)
  {
    TaskConcludes(cfg, locked, w, 0, TaskStart(groupIndex, chain, model));
  }

  const BUSY := TaskError(429, false)

  /** Every submission is rejected as busy; an auto group that would stop at its last priority has no channel there. */
  function Dogged(cfg: Config): TaskWorld {
    TaskWorld(
      World((q: Query) => if !cfg.crossGroupRetry && Auto(cfg) && q.priority == cfg.retryTimes && q.slot + 1 < |cfg.autoGroups|
                          then Nothing else Found(1),
            n => None, n => None, n => None, n => false),
      n => Rejected(BUSY), n => false, status => false)
  }

  /** With retries left to make. */
  ghost predicate Keen(cfg: Config, s: TaskState) {
    cfg.retryTimes >= 1 && !cfg.specificChannel && !s.at.resetNextTry && 0 <= s.at.retry <= cfg.retryTimes
  }

  /** Locked or plain: one attempt per retry count. */
  lemma {:induction false} DoggedPlain(cfg: Config, locked: Option<int>, n: nat, s: TaskState)
    requires Keen(cfg, s) && (locked.Some? || !Auto(cfg))
    ensures |TaskRun(cfg, locked, Dogged(cfg), n, s).at.log| == |s.at.log| + cfg.retryTimes + 1 - s.at.retry
    decreases cfg.retryTimes - s.at.retry
  {
    TaskDescends(cfg, locked, Dogged(cfg), n, s);
    if s.at.retry < cfg.retryTimes {
      DoggedPlain(cfg, locked, n + 1, TaskIterate(cfg, locked, Dogged(cfg), n, s).state);
    }
  }

  ghost predicate InGroup(cfg: Config, index: nat, s: TaskState) {
    Keen(cfg, s) && At(cfg, index, s.at)
  }

  lemma DoggedChooses(cfg: Config, n: nat, index: nat, s: State)
    requires At(cfg, index, s)
    ensures Choose(cfg, Dogged(cfg).base, n, s) ==
      if !cfg.crossGroupRetry && s.retry == cfg.retryTimes && index + 1 < |cfg.autoGroups|
      then (s.(groupIndex := index + 1, retry := 0), Some(Choice(1, index + 1, 0)))
      else (Answered(cfg, s, index, s.retry), Some(Choice(1, index, s.retry)))
  {
    var w := Dogged(cfg).base;
    if !cfg.crossGroupRetry && s.retry == cfg.retryTimes && index + 1 < |cfg.autoGroups| {
      var t := s.(groupIndex := index + 1, retry := 0);
      assert AutoFrom(cfg, w, n, t, index, index + 1) == (Answered(cfg, t, index + 1, 0), Some(Choice(1, index + 1, 0)));
    }
  }

  /** One pass in a group: an attempt there, or past its last priority in the next. */
  lemma DoggedPass(cfg: Config, n: nat, index: nat, s: TaskState) returns (t: TaskState)
    requires InGroup(cfg, index, s)
    ensures TaskRun(cfg, None, Dogged(cfg), n, s) == TaskRun(cfg, None, Dogged(cfg), n + 1, t)
         || (s.at.retry == cfg.retryTimes && !cfg.crossGroupRetry && index + 1 == |cfg.autoGroups|
             && TaskRun(cfg, None, Dogged(cfg), n, s) == t)
    ensures |t.at.log| == |s.at.log| + 1 && t.at.hasMeta
    ensures s.at.retry < cfg.retryTimes ==> InGroup(cfg, index, t) && t.at.retry == s.at.retry + 1
    ensures s.at.retry == cfg.retryTimes && index + 1 < |cfg.autoGroups| ==>
      InGroup(cfg, index + 1, t) && t.at.retry == if cfg.crossGroupRetry then 0 else 1
    ensures s.at.retry == cfg.retryTimes && index + 1 == |cfg.autoGroups| && cfg.crossGroupRetry ==>
      Spent(cfg, t.at) && t.at.retry == 0
  {
    DoggedChooses(cfg, n, index, s.at);
    TaskDescends(cfg, None, Dogged(cfg), n, s);
    t := TaskIterate(cfg, None, Dogged(cfg), n, s).state;
  }

  lemma {:induction false} DoggedGroups(cfg: Config, n: nat, index: nat, s: TaskState)
    requires InGroup(cfg, index, s)
    ensures |TaskRun(cfg, None, Dogged(cfg), n, s).at.log|
         == |s.at.log| + GroupRoom(cfg, GroupsFrom(cfg, index), s.at.retry)
    decreases |cfg.autoGroups| - index, cfg.retryTimes - s.at.retry
  {
    var t := DoggedPass(cfg, n, index, s);
    if s.at.retry < cfg.retryTimes {
      DoggedGroups(cfg, n + 1, index, t);
    } else if index + 1 < |cfg.autoGroups| {
      DoggedGroups(cfg, n + 1, index + 1, t);
      OneGroupLess(cfg, GroupsFrom(cfg, index), s.at.retry);
    } else if cfg.crossGroupRetry {
      TaskDescends(cfg, None, Dogged(cfg), n + 1, t);
    }
  }

  /** TaskMax is the maximum over all worlds. */
  lemma TaskMaxIsMax(cfg: Config, locked: Option<int>, groupIndex: nat, chain: seq<string>, model: string)
    requires cfg.retryTimes >= 0
    ensures var s, most := TaskStart(groupIndex, chain, model), TaskMax(cfg, locked, groupIndex);
      && (forall w :: |TaskRun(cfg, locked, w, 0, s).at.log| <= most)
      && (exists w :: |TaskRun(cfg, locked, w, 0, s).at.log| == most)
  {
    var s := TaskStart(groupIndex, chain, model);
    forall w ensures |TaskRun(cfg, locked, w, 0, s).at.log| <= TaskMax(cfg, locked, groupIndex) {
      TaskAttempts(cfg, locked, w, groupIndex, chain, model);
    }
    DoggedReaches(cfg, locked, groupIndex, chain, model);
  }

  lemma DoggedReaches(cfg: Config, locked: Option<int>, groupIndex: nat, chain: seq<string>, model: string)
    requires cfg.retryTimes >= 0
    ensures |TaskRun(cfg, locked, Dogged(cfg), 0, TaskStart(groupIndex, chain, model)).at.log| == TaskMax(cfg, locked, groupIndex)
  {
    var s := TaskStart(groupIndex, chain, model);
    TaskDescends(cfg, locked, Dogged(cfg), 0, s);
    if cfg.retryTimes >= 1 && !cfg.specificChannel {
      if locked.Some? || !Auto(cfg) {
        DoggedPlain(cfg, locked, 0, s);
      } else {
        var t := TaskIterate(cfg, None, Dogged(cfg), 0, s).state;
        if GroupsFrom(cfg, groupIndex) == 0 {
          TaskDescends(cfg, None, Dogged(cfg), 1, t);
        } else {
          DoggedGroups(cfg, 1, groupIndex, t);
        }
      }
    }
  }
}
