/**
  Channel selection with a retry counter: service/channel_select.go, getChannel of
  controller/relay.go and controller/relay_cross_model.go. What the outside world
  answers (database, upstreams, affinity rules) is a function of the loop iteration,
  so a statement for all worlds covers every run.
 */
module Routing {
  import opened Prelude

  datatype Error = Error(code: string, status: int, skipRetry: bool)

  const GET_CHANNEL_FAILED := "get_channel_failed"

  datatype Result<T> = Ok(value: T) | Err(error: Error)

  /** GetRandomSatisfiedChannel: which channels exist for a group and model at a priority level. */
  datatype Query = Query(iteration: nat, slot: nat, group: string, model: string, priority: int)

  datatype Pick = Found(channel: int) | Nothing | Failed

  datatype World = World(
    pick: Query -> Pick,
    setup: nat -> Option<Error>,      // SetupContextForSelectedChannel
    body: nat -> Option<Error>,       // GetBodyStorage
    reply: nat -> Option<Error>,      // the upstream attempt
    affinitySkip: nat -> bool)

  datatype Config = Config(
    retryTimes: int,
    group: string,                    // the token's group, possibly "auto"
    autoEnabled: bool,
    autoGroups: seq<string>,
    crossGroupRetry: bool,
    contextChannel: int,              // chosen by the distributor for the first attempt
    specificChannel: bool,
    alwaysSkip: string -> bool,
    retryStatus: int -> bool)

  /** Who serves an attempt: the group's slot in the auto list (0 for a plain group) and the priority asked for. */
  datatype Choice = Choice(channel: int, slot: nat, priority: int)

  /** `iteration` is the pass of the loop, `hop` counts the cross-model swaps before the attempt. */
  datatype Attempt = Attempt(iteration: nat, choice: Choice, model: string, hop: nat, served: bool)

  datatype State = State(
    retry: int,
    resetNextTry: bool,
    groupIndex: nat,                  // ContextKeyAutoGroupIndex
    fallback: seq<string>,            // ContextKeySmartRouterFallback
    model: string,
    hasMeta: bool,                    // ChannelMeta is set by every attempt
    used: seq<int>,
    error: Option<Error>,
    hop: nat,
    log: seq<Attempt>)

  function IncreaseRetry(s: State): State {
    if s.resetNextTry then s.(resetNextTry := false) else s.(retry := s.retry + 1)
  }

  /** tryCrossModelFallback, for a non-empty chain. */
  function Fallback(s: State): State
    requires s.fallback != []
  {
    s.(fallback := s.fallback[1..], model := s.fallback[0], retry := -1, hop := s.hop + 1)
  }

  /** The auto group at `slot` answered; prepare the next retry. */
  function Answered(cfg: Config, s: State, slot: nat, priority: int): State {
    if cfg.crossGroupRetry && priority >= cfg.retryTimes
    then s.(groupIndex := slot + 1, retry := 0, resetNextTry := true)
    else s.(groupIndex := slot)
  }

  function PriorityAt(s: State, start: nat, slot: nat): int {
    if slot > start then 0 else s.retry
  }

  /** The loop over the auto groups, from `slot` on. */
  function AutoFrom(cfg: Config, w: World, n: nat, s: State, start: nat, slot: nat): (State, Option<Choice>)
    decreases |cfg.autoGroups| - slot
  {
    if slot >= |cfg.autoGroups| then (s, None)
    else
      var priority := PriorityAt(s, start, slot);
      match w.pick(Query(n, slot, cfg.autoGroups[slot], s.model, priority))
      case Found(c) => (Answered(cfg, s, slot, priority), Some(Choice(c, slot, priority)))
      case _ => AutoFrom(cfg, w, n, s.(groupIndex := slot + 1, retry := 0), start, slot + 1)
  }

  predicate Auto(cfg: Config) {
    cfg.group == "auto"
  }

  /** CacheGetRandomSatisfiedChannel; None covers "no channel" and "selection failed" alike. */
  function Choose(cfg: Config, w: World, n: nat, s: State): (State, Option<Choice>) {
    if Auto(cfg) then
      if !cfg.autoEnabled then (s, None) else AutoFrom(cfg, w, n, s, s.groupIndex, s.groupIndex)
    else
      match w.pick(Query(n, 0, cfg.group, s.model, s.retry))
      case Found(c) => (s, Some(Choice(c, 0, s.retry)))
      case _ => (s, None)
  }

  const EXHAUSTED := Error(GET_CHANNEL_FAILED, 500, true)

  function SlotNow(cfg: Config, s: State): nat {
    if Auto(cfg) then s.groupIndex else 0
  }

  /** getChannel: before the first attempt the distributor's channel is taken as it is. */
  function GetChannel(cfg: Config, w: World, n: nat, s: State): (State, Result<Choice>) {
    if !s.hasMeta then (s, Ok(Choice(cfg.contextChannel, SlotNow(cfg, s), s.retry)))
    else
      var (t, choice) := Choose(cfg, w, n, s);
      if choice.None? then (t, Err(EXHAUSTED))
      else if w.setup(n).Some? then (t, Err(w.setup(n).value))
      else (t, Ok(choice.value))
  }

  /** The retry counter, request context and relay info that the loops update. */
  class Request {
    var retry: int
    var resetNextTry: bool
    var groupIndex: nat
    var fallback: seq<string>
    var model: string
    var hasMeta: bool
    var used: seq<int>
    var error: Option<Error>
    ghost var hop: nat
    ghost var log: seq<Attempt>

    ghost function View(): State
      reads this
    {
      State(retry, resetNextTry, groupIndex, fallback, model, hasMeta, used, error, hop, log)
    }

    constructor (groupIndex: nat, fallback: seq<string>, model: string)
      ensures View() == State(0, false, groupIndex, fallback, model, false, [], None, 0, [])
    {
      this.retry, this.resetNextTry := 0, false;
      this.groupIndex, this.fallback, this.model := groupIndex, fallback, model;
      this.hasMeta, this.used, this.error := false, [], None;
      this.hop, this.log := 0, [];
    }

    method AdvanceRetry()
      modifies this
      ensures View() == IncreaseRetry(old(View()))
    {
      if resetNextTry {
        resetNextTry := false;
        return;
      }
      retry := retry + 1;
    }

    method TryCrossModelFallback() returns (swapped: bool)
      modifies this
      ensures swapped == (old(fallback) != [])
      ensures View() == if swapped then Fallback(old(View())) else old(View())
    {
      if fallback == [] {
        return false;
      }
      model := fallback[0];
      fallback := fallback[1..];
      retry := -1;
      hop := hop + 1;
      return true;
    }

    method SelectAuto(cfg: Config, w: World, n: nat) returns (choice: Option<Choice>)
      modifies this
      ensures (View(), choice) == AutoFrom(cfg, w, n, old(View()), old(groupIndex), old(groupIndex))
    {
      choice := None;
      var start := groupIndex;
      var slot := start;
      while slot < |cfg.autoGroups|
        invariant AutoFrom(cfg, w, n, View(), start, slot) == AutoFrom(cfg, w, n, old(View()), start, start)
      {
        var priority := if slot > start then 0 else retry;
        match w.pick(Query(n, slot, cfg.autoGroups[slot], model, priority)) {
          case Found(c) =>
            if cfg.crossGroupRetry && priority >= cfg.retryTimes {
              groupIndex, retry, resetNextTry := slot + 1, 0, true;
            } else {
              groupIndex := slot;
            }
            return Some(Choice(c, slot, priority));
          case _ =>
            groupIndex, retry := slot + 1, 0;
        }
        slot := slot + 1;
      }
    }

    method SelectChannel(cfg: Config, w: World, n: nat) returns (choice: Option<Choice>)
      modifies this
      ensures (View(), choice) == Choose(cfg, w, n, old(View()))
    {
      if cfg.group == "auto" {
        if !cfg.autoEnabled {
          return None;
        }
        choice := SelectAuto(cfg, w, n);
        return;
      }
      match w.pick(Query(n, 0, cfg.group, model, retry)) {
        case Found(c) => return Some(Choice(c, 0, retry));
        case _ => return None;
      }
    }

    method FetchChannel(cfg: Config, w: World, n: nat) returns (r: Result<Choice>)
      modifies this
      ensures (View(), r) == GetChannel(cfg, w, n, old(View()))
    {
      if !hasMeta {
        return Ok(Choice(cfg.contextChannel, if cfg.group == "auto" then groupIndex else 0, retry));
      }
      var choice := SelectChannel(cfg, w, n);
      if choice.None? {
        return Err(EXHAUSTED);
      }
      if w.setup(n).Some? {
        return Err(w.setup(n).value);
      }
      return Ok(choice.value);
    }
  }

  // ---- laws of selection ------------------------------------------------------------------------

  ghost predicate SameButCursor(s: State, t: State) {
    t == s.(retry := t.retry, resetNextTry := t.resetNextTry, groupIndex := t.groupIndex)
  }

  /** Where the auto loop stops: past the last group, or at the group that answered. */
  lemma {:induction false} AutoEnds(cfg: Config, w: World, n: nat, s: State, start: nat, slot: nat)
    requires start <= slot && (slot > start ==> s.retry == 0 && s.groupIndex == slot)
    ensures var (t, choice) := AutoFrom(cfg, w, n, s, start, slot);
      && SameButCursor(s, t)
      && (choice.Some? ==>
            && slot <= choice.value.slot < |cfg.autoGroups|
            && choice.value.priority == (if choice.value.slot > start then 0 else s.retry)
            && t == Answered(cfg, if choice.value.slot > slot then s.(retry := 0, groupIndex := t.groupIndex) else s,
                           choice.value.slot, choice.value.priority))
      && (choice.None? && slot < |cfg.autoGroups| ==>
            t == s.(groupIndex := |cfg.autoGroups|, retry := 0))
      && (choice.None? && slot >= |cfg.autoGroups| ==> t == s)
    decreases |cfg.autoGroups| - slot
  {
    if slot < |cfg.autoGroups| {
      var priority := PriorityAt(s, start, slot);
      if !w.pick(Query(n, slot, cfg.autoGroups[slot], s.model, priority)).Found? {
        AutoEnds(cfg, w, n, s.(groupIndex := slot + 1, retry := 0), start, slot + 1);
      }
    }
  }
}
