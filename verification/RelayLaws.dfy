/** Whole-run laws of the relay loop: how much it tries, in what order, and how it ends. */
module RelayLaws {
  import opened Prelude
  import opened Routing
  import opened Relay

  function Start(groupIndex: nat, chain: seq<string>, model: string): State {
    State(0, false, groupIndex, chain, model, false, [], None, 0, [])
  }

  /** Holds whenever the loop condition is evaluated. */
  ghost predicate Ready(cfg: Config, s: State) {
    && !s.resetNextTry
    && s.retry >= (if Auto(cfg) then -1 else 0)
    && s.retry <= cfg.retryTimes + 1
  }

  /** What a selection does to the cursor (retry counter, reset flag, group index). */
  ghost predicate Chosen(cfg: Config, s: State, t: State, c: Choice) {
    && c.slot >= SlotNow(cfg, s) && (Auto(cfg) ==> c.slot < |cfg.autoGroups|) && (!Auto(cfg) ==> c.slot == 0)
    && c.priority == (if c.slot > SlotNow(cfg, s) then 0 else s.retry)
    && (Auto(cfg) ==> cfg.autoEnabled)
    && t.resetNextTry == (Auto(cfg) && cfg.crossGroupRetry && c.priority >= cfg.retryTimes)
    && if t.resetNextTry then t.retry == 0 && t.groupIndex == c.slot + 1
       else t.retry == c.priority && SlotNow(cfg, t) == c.slot
  }

  ghost predicate NotChosen(cfg: Config, s: State, t: State) {
    && !t.resetNextTry
    && if Auto(cfg) && cfg.autoEnabled && s.groupIndex < |cfg.autoGroups|
       then t.retry == 0 && t.groupIndex == |cfg.autoGroups|
       else SameCursor(s, t)
  }

  lemma ChooseMoves(cfg: Config, w: World, n: nat, s: State)
    requires !s.resetNextTry
    ensures var (t, choice) := Choose(cfg, w, n, s);
      && SameButCursor(s, t)
      && (choice.Some? ==> Chosen(cfg, s, t, choice.value))
      && (choice.None? ==> NotChosen(cfg, s, t))
  {
    if Auto(cfg) && cfg.autoEnabled {
      AutoEnds(cfg, w, n, s, s.groupIndex, s.groupIndex);
      var (t, choice) := AutoFrom(cfg, w, n, s, s.groupIndex, s.groupIndex);
      assert choice.Some? && choice.value.slot > s.groupIndex ==> t.groupIndex > s.groupIndex;
    }
  }

  ghost predicate Moved(cfg: Config, s: State, t: State) {
    NotChosen(cfg, s, t) || exists c :: Chosen(cfg, s, t, c)
  }

  lemma GetChannelMoves(cfg: Config, w: World, n: nat, s: State)
    requires !s.resetNextTry
    ensures var (t, r) := GetChannel(cfg, w, n, s);
      && SameButCursor(s, t)
      && (r.Err? ==> s.hasMeta && Moved(cfg, s, t))
      && (r.Ok? ==> if s.hasMeta then Chosen(cfg, s, t, r.value)
                    else t == s && r.value == Choice(cfg.contextChannel, SlotNow(cfg, s), s.retry))
  {
    ChooseMoves(cfg, w, n, s);
    var (t, choice) := Choose(cfg, w, n, s);
    if choice.Some? {
      assert Chosen(cfg, s, t, choice.value);
    }
  }

  /** The things that can happen in one pass. */
  lemma IterateCases(cfg: Config, w: World, n: nat, s: State)
    requires !s.resetNextTry
    ensures var next := Iterate(cfg, w, n, s);
      || Idle(s, next)
      || Swap(cfg, s, next)
      || exists c, t :: AttemptOn(cfg, w, n, s, c, t) && After(t, next)
  {
    GetChannelMoves(cfg, w, n, s);
    var (t, r) := GetChannel(cfg, w, n, s);
    var next := Iterate(cfg, w, n, s);
    if r.Err? && next.Again? {
      assert Swapped(cfg, s, t, next.state);
    } else if r.Ok? && w.body(n).None? {
      var c := r.value;
      var u := Attempted(w, n, Use(t, c), c);
      assert AttemptOn(cfg, w, n, s, c, u);
    }
  }

  /** An attempt ends the loop or is retried; only a failed one is retried. */
  ghost predicate After(t: State, next: Next) {
    (next == Again(IncreaseRetry(t)) && t.error.Some?) || next == Stop(t)
  }

  ghost predicate Ends(s: State, t: State) {
    t.log == s.log && t.error.Some? && t.hop == s.hop && t.model == s.model && t.fallback == s.fallback
  }

  /** The loop ends without an attempt. */
  ghost predicate Idle(s: State, next: Next) {
    next.Stop? && Ends(s, next.state)
  }

  ghost predicate Swapped(cfg: Config, s: State, t: State, u: State) {
    Moved(cfg, s, t) && SameButCursor(s, t) && t.fallback != [] && s.hasMeta && u == IncreaseRetry(Fallback(t))
  }

  ghost predicate Swap(cfg: Config, s: State, next: Next) {
    next.Again? && exists t :: Swapped(cfg, s, t, next.state)
  }

  /** How the cursor moves when `c` serves an attempt. */
  ghost predicate Placed(cfg: Config, s: State, c: Choice, t: State) {
    && t.hasMeta
    && if s.hasMeta then Chosen(cfg, s, t, c)
       else SameCursor(s, t) && c == Choice(cfg.contextChannel, SlotNow(cfg, s), s.retry)
  }

  /** The state after an attempt, before the counter advances. */
  ghost predicate AttemptOn(cfg: Config, w: World, n: nat, s: State, c: Choice, t: State) {
    && Placed(cfg, s, c, t)
    && t.fallback == s.fallback && t.model == s.model && t.hop == s.hop
    && t.used == s.used + [c.channel]
    && t.error == w.reply(n)
    && t.log == s.log + [Attempt(n, c, s.model, s.hop, w.reply(n).None?)]
  }

  // ---- how many attempts ----------------------------------------------------------------------

  /** Attempts that the groups from the current one on still allow. */
  function Room(cfg: Config, s: State): int {
    if !Auto(cfg) then cfg.retryTimes + 1 - s.retry
    else if s.groupIndex >= |cfg.autoGroups| then if s.hasMeta then 0 else 1
    else (|cfg.autoGroups| - s.groupIndex) * (cfg.retryTimes + 1) - s.retry
  }

  function Budget(cfg: Config, s: State): int {
    |s.fallback| * cfg.retryTimes + Room(cfg, s)
  }

  lemma {:induction false} MulLess(a: nat, b: nat, n: nat)
    requires a < b
    ensures a * n + n <= b * n
  {
    assert (b - 1) * n + n == b * n;
    if a < b - 1 {
      MulLess(a, b - 1, n);
    }
  }

  lemma RoomLeft(cfg: Config, s: State)
    requires cfg.retryTimes >= 0 && Ready(cfg, s)
    ensures Room(cfg, s) >= 0
  {
    if Auto(cfg) && s.groupIndex < |cfg.autoGroups| {
      MulLess(0, |cfg.autoGroups| - s.groupIndex, cfg.retryTimes + 1);
    }
  }

  /** Room of a later group. */
  lemma RoomAt(cfg: Config, s: State, t: State)
    requires cfg.retryTimes >= 0 && Auto(cfg) && s.groupIndex < |cfg.autoGroups| && t.groupIndex > s.groupIndex && t.hasMeta
    ensures t.groupIndex < |cfg.autoGroups| ==> Room(cfg, t) <= Room(cfg, s) + s.retry - t.retry - cfg.retryTimes - 1
    ensures t.groupIndex >= |cfg.autoGroups| ==> Room(cfg, t) <= Room(cfg, s) + s.retry - cfg.retryTimes - 1
  {
    var later := if t.groupIndex < |cfg.autoGroups| then |cfg.autoGroups| - t.groupIndex else 0;
    MulLess(later, |cfg.autoGroups| - s.groupIndex, cfg.retryTimes + 1);
  }

  lemma AttemptRoom(cfg: Config, s: State, c: Choice, t: State)
    requires cfg.retryTimes >= 0 && Ready(cfg, s) && s.retry <= cfg.retryTimes && Placed(cfg, s, c, t)
    ensures Ready(cfg, IncreaseRetry(t)) && Room(cfg, IncreaseRetry(t)) <= Room(cfg, s) - 1
  {
    if Auto(cfg) && s.groupIndex < |cfg.autoGroups| && t.groupIndex > s.groupIndex {
      RoomAt(cfg, s, IncreaseRetry(t));
    }
  }

  lemma SwapRoom(cfg: Config, s: State, t: State, u: State)
    requires cfg.retryTimes >= 0 && Ready(cfg, s) && s.retry <= cfg.retryTimes && Swapped(cfg, s, t, u)
    ensures Ready(cfg, u) && Room(cfg, u) <= Room(cfg, s) + cfg.retryTimes
  {
    if Auto(cfg) && s.groupIndex < |cfg.autoGroups| && t.groupIndex > s.groupIndex {
      RoomAt(cfg, s, u);
    }
  }

  lemma SwapBudget(cfg: Config, s: State, t: State, u: State)
    requires cfg.retryTimes >= 0 && Ready(cfg, s) && s.retry <= cfg.retryTimes && Swapped(cfg, s, t, u)
    ensures Ready(cfg, u) && u.log == s.log && Budget(cfg, u) <= Budget(cfg, s)
  {
    SwapRoom(cfg, s, t, u);
    assert |u.fallback| == |s.fallback| - 1;
    assert |u.fallback| * cfg.retryTimes + cfg.retryTimes == |s.fallback| * cfg.retryTimes;
  }

  lemma AttemptBudget(cfg: Config, w: World, n: nat, s: State, c: Choice, t: State)
    requires cfg.retryTimes >= 0 && Ready(cfg, s) && s.retry <= cfg.retryTimes && AttemptOn(cfg, w, n, s, c, t)
    ensures Ready(cfg, IncreaseRetry(t)) && |t.log| == |s.log| + 1
    ensures 0 <= Budget(cfg, IncreaseRetry(t)) <= Budget(cfg, s) - 1
  {
    AttemptRoom(cfg, s, c, t);
    RoomLeft(cfg, IncreaseRetry(t));
  }

  lemma IterateBudget(cfg: Config, w: World, n: nat, s: State)
    requires cfg.retryTimes >= 0 && Ready(cfg, s) && s.retry <= cfg.retryTimes
    ensures var next := Iterate(cfg, w, n, s);
      && (next.Stop? ==> |next.state.log| <= |s.log| + Budget(cfg, s))
      && (next.Again? ==> Ready(cfg, next.state) && |next.state.log| + Budget(cfg, next.state) <= |s.log| + Budget(cfg, s))
  {
    var next := Iterate(cfg, w, n, s);
    IterateCases(cfg, w, n, s);
    if Swap(cfg, s, next) {
      var t :| Swapped(cfg, s, t, next.state);
      SwapBudget(cfg, s, t, next.state);
    } else if Idle(s, next) {
      RoomLeft(cfg, s);
    } else {
      var c, t :| AttemptOn(cfg, w, n, s, c, t) && After(t, next);
      AttemptBudget(cfg, w, n, s, c, t);
    }
  }

  lemma {:induction false} RunBudget(cfg: Config, w: World, n: nat, s: State)
    requires cfg.retryTimes >= 0 && Ready(cfg, s)
    ensures |Run(cfg, w, n, s).log| <= |s.log| + Budget(cfg, s)
    decreases |s.fallback|, GroupsLeft(cfg, s), Slack(cfg, s)
  {
    if s.retry > cfg.retryTimes {
      RoomLeft(cfg, s);
    } else {
      IterateBudget(cfg, w, n, s);
      IterateDescends(cfg, w, n, s);
      if Iterate(cfg, w, n, s).Again? {
        RunBudget(cfg, w, n + 1, Iterate(cfg, w, n, s).state);
      }
    }
  }

  /** Plain groups: every swap costs the pass that found no channel. */
  lemma AttemptsPlain(cfg: Config, w: World, groupIndex: nat, chain: seq<string>, model: string)
    requires cfg.retryTimes >= 0 && !Auto(cfg)
    ensures var attempts := |Run(cfg, w, 0, Start(groupIndex, chain, model)).log|;
      && attempts <= |chain| * cfg.retryTimes + cfg.retryTimes + 1
      && attempts <= (1 + |chain|) * (cfg.retryTimes + 1)
  {
    RunBudget(cfg, w, 0, Start(groupIndex, chain, model));
  }
}
