/**
  The in-memory sliding-window limiter of common/rate-limit.go: a bounded queue of
  timestamps per key, shifted in place, with a background cleaner that drops whole
  keys. Times and durations are in seconds.
 */
module RateLimiter {

  type Store = map<string, seq<int>>   // oldest timestamp first

  /** A request is answered, or it ends in a panic and changes nothing. */
  datatype Reply = Accepted | Refused | Panicked

  /** A queue cannot be allocated with a negative capacity. */
  predicate Panics(store: Store, key: string, maxRequestNum: int) {
    key !in store && maxRequestNum < 0
  }

  /** Whether a request is let through. */
  predicate Accepts(store: Store, key: string, maxRequestNum: int, duration: int, now: int)
    requires key in store ==> store[key] != []
  {
    if key !in store then maxRequestNum >= 0
    else |store[key]| < maxRequestNum || now - store[key][0] >= duration
  }

  function AfterRequest(store: Store, key: string, maxRequestNum: int, duration: int, now: int): Store
    requires key in store ==> store[key] != []
  {
    if Panics(store, key, maxRequestNum) then store
    else if key !in store then store[key := [now]]
    else if |store[key]| < maxRequestNum then store[key := store[key] + [now]]
    else if now - store[key][0] >= duration then store[key := store[key][1..] + [now]]
    else store
  }

  predicate Stale(queue: seq<int>, expiration: int, now: int) {
    queue == [] || now - queue[|queue| - 1] > expiration
  }

  /** What one pass of the cleaner leaves. */
  function AfterSweep(store: Store, expiration: int, now: int): Store {
    map k | k in store && !Stale(store[k], expiration, now) :: store[k]
  }

  class InMemoryRateLimiter {
    var ready: bool              // store != nil
    var store: Store
    var expiration: nat

    ghost predicate Valid()
      reads this
    {
      forall k :: k in store ==> store[k] != []
    }

    constructor ()
      ensures Valid() && !ready && store == map[] && expiration == 0
    {
      ready, store, expiration := false, map[], 0;
    }

    /** Only the first call counts. Reports whether the cleaner was started. */
    method Init(expirationDuration: nat) returns (cleaner: bool)
      requires Valid()
      modifies this
      ensures Valid() && ready
      ensures !old(ready) ==> store == map[] && expiration == expirationDuration && cleaner == (expirationDuration > 0)
      ensures old(ready) ==> store == old(store) && expiration == old(expiration) && !cleaner
    {
      cleaner := false;
      if !ready {
        ready, store, expiration := true, map[], expirationDuration;
        cleaner := expirationDuration > 0;
      }
    }

    /** One pass of clearExpiredItems; the map is visited in any order. */
    method ClearExpiredItems(now: int)
      requires Valid()
      modifies this`store
      ensures Valid() && store == AfterSweep(old(store), expiration, now)
    {
      var todo := store.Keys;
      while todo != {}
        invariant todo <= store.Keys <= old(store).Keys
        invariant forall k :: k in store ==> store[k] == old(store)[k]
        invariant forall k :: k in old(store) && k !in todo ==> (k in store <==> !Stale(old(store)[k], expiration, now))
        decreases todo
      {
        var key :| key in todo;
        todo := todo - {key};
        var queue := store[key];
        if |queue| == 0 || now - queue[|queue| - 1] > expiration {
          store := store - {key};
        }
      }
    }

    method Request(key: string, maxRequestNum: int, duration: int, now: int) returns (reply: Reply)
      requires Valid() && ready
      modifies this`store
      ensures Valid()
      ensures reply.Panicked? <==> Panics(old(store), key, maxRequestNum)
      ensures reply.Accepted? <==> Accepts(old(store), key, maxRequestNum, duration, now)
      ensures store == AfterRequest(old(store), key, maxRequestNum, duration, now)
    {
      if key in store {
        var queue := store[key];
        if |queue| < maxRequestNum {
          store := store[key := queue + [now]];
          return Accepted;
        } else if now - queue[0] >= duration {
          store := store[key := queue[1..] + [now]];
          return Accepted;
        } else {
          return Refused;
        }
      }
      if maxRequestNum < 0 {
        return Panicked;
      }
      store := store[key := [now]];
      return Accepted;
    }
  }

  // ---- runs -------------------------------------------------------------------

  /** A request for a key, or a pass of the cleaner. */
  datatype Event = Ask(key: string, now: int) | Sweep(now: int)

  /** Per-key settings, the same at every call. */
  datatype Limits = Limits(maxOf: string -> int, durationOf: string -> int)

  ghost predicate Nonempty(store: Store) {
    forall k :: k in store ==> store[k] != []
  }

  function StepStore(store: Store, e: Event, limits: Limits, expiration: nat): Store
    requires Nonempty(store)
    ensures Nonempty(StepStore(store, e, limits, expiration))
  {
    match e
    case Ask(k, now) => AfterRequest(store, k, limits.maxOf(k), limits.durationOf(k), now)
    case Sweep(now) => if expiration > 0 then AfterSweep(store, expiration, now) else store
  }

  /** Which requests of a run are let through; a cleaner pass answers nothing. */
  function Answers(store: Store, events: seq<Event>, limits: Limits, expiration: nat): seq<bool>
    requires Nonempty(store)
    decreases |events|
  {
    if events == [] then []
    else
      var e := events[0];
      (if e.Ask? then [Accepts(store, e.key, limits.maxOf(e.key), limits.durationOf(e.key), e.now)] else [])
      + Answers(StepStore(store, e, limits, expiration), events[1..], limits, expiration)
  }

  // ---- the specification: every accepted request is remembered forever ---------

  type Log = map<string, seq<int>>

  function LogOf(log: Log, key: string): seq<int> {
    if key in log then log[key] else []
  }

  /** Entries of a log younger than `duration`. */
  function Recent(times: seq<int>, now: int, duration: int): nat {
    if times == [] then 0
    else Recent(times[..|times| - 1], now, duration) + if now - times[|times| - 1] < duration then 1 else 0
  }

  /** The limit in force: a limit of zero still lets one request through, a negative one none. */
  function EffectiveMax(maxRequestNum: int): nat {
    if maxRequestNum < 0 then 0 else if maxRequestNum == 0 then 1 else maxRequestNum
  }

  predicate MayPass(log: Log, e: Event, limits: Limits)
    requires e.Ask?
  {
    Recent(LogOf(log, e.key), e.now, limits.durationOf(e.key)) < EffectiveMax(limits.maxOf(e.key))
  }

  function StepLog(log: Log, e: Event, limits: Limits): Log {
    if e.Ask? && MayPass(log, e, limits) then log[e.key := LogOf(log, e.key) + [e.now]] else log
  }

  function IdealAnswers(log: Log, events: seq<Event>, limits: Limits): seq<bool>
    decreases |events|
  {
    if events == [] then []
    else
      (if events[0].Ask? then [MayPass(log, events[0], limits)] else [])
      + IdealAnswers(StepLog(log, events[0], limits), events[1..], limits)
  }

  /** Every request the specification accepts, per key. */
  function IdealLog(log: Log, events: seq<Event>, limits: Limits): Log
    decreases |events|
  {
    if events == [] then log else IdealLog(StepLog(log, events[0], limits), events[1..], limits)
  }

  /** Every request the limiter accepts, per key. */
  function AcceptedLog(store: Store, log: Log, events: seq<Event>, limits: Limits, expiration: nat): Log
    requires Nonempty(store)
    decreases |events|
  {
    if events == [] then log
    else
      var e := events[0];
      var passed := e.Ask? && Accepts(store, e.key, limits.maxOf(e.key), limits.durationOf(e.key), e.now);
      AcceptedLog(StepStore(store, e, limits, expiration),
                  if passed then log[e.key := LogOf(log, e.key) + [e.now]] else log, events[1..], limits, expiration)
  }

  ghost predicate Ordered(events: seq<Event>, clock: int) {
    && (forall i :: 0 <= i < |events| ==> clock <= events[i].now)
    && (forall i, j :: 0 <= i < j < |events| ==> events[i].now <= events[j].now)
  }

  // ---- counting ----------------------------------------------------------------

  ghost predicate Sorted(times: seq<int>, clock: int) {
    && (forall i, j :: 0 <= i < j < |times| ==> times[i] <= times[j])
    && (forall i :: 0 <= i < |times| ==> times[i] <= clock)
  }

  /** At most the last k entries are recent if all others have expired. */
  lemma {:induction false} RecentAtMost(times: seq<int>, now: int, duration: int, k: nat)
    requires k <= |times| && (forall i :: 0 <= i < |times| - k ==> now - times[i] >= duration)
    ensures Recent(times, now, duration) <= k
  {
    if times != [] {
      RecentAtMost(times[..|times| - 1], now, duration, if k == 0 then 0 else k - 1);
    }
  }

  /** At least k entries are recent if the last k are. */
  lemma {:induction false} RecentAtLeast(times: seq<int>, now: int, duration: int, k: nat)
    requires k <= |times| && (forall i :: |times| - k <= i < |times| ==> now - times[i] < duration)
    ensures Recent(times, now, duration) >= k
  {
    if k > 0 {
      RecentAtLeast(times[..|times| - 1], now, duration, k - 1);
    }
  }

  // ---- refinement ----------------------------------------------------------------

  /** One key's queue against its full log, at time `clock`. */
  ghost predicate QueueAgrees(queue: seq<int>, times: seq<int>, limit: nat, duration: int, clock: int) {
    && queue != []
    && |queue| <= limit && |queue| <= |times|
    && queue == times[|times| - |queue|..]
    && (|queue| == limit || forall i :: 0 <= i < |times| - |queue| ==> clock - times[i] >= duration)
  }

  ghost predicate KeyAgrees(store: Store, log: Log, key: string, limits: Limits, clock: int) {
    && Sorted(LogOf(log, key), clock)
    && if key in store
       then QueueAgrees(store[key], LogOf(log, key), EffectiveMax(limits.maxOf(key)), limits.durationOf(key), clock)
       else forall i :: 0 <= i < |LogOf(log, key)| ==> clock - LogOf(log, key)[i] >= limits.durationOf(key)
  }

  ghost predicate Agrees(store: Store, log: Log, limits: Limits, clock: int) {
    forall key :: KeyAgrees(store, log, key, limits, clock)
  }

  /** The cleaner may forget a key only when nothing on it is recent. */
  ghost predicate CleanerHarmless(limits: Limits, expiration: nat) {
    expiration == 0 || forall key: string :: limits.maxOf(key) >= 0 ==> limits.durationOf(key) <= expiration + 1
  }

  lemma SameAnswer(store: Store, log: Log, e: Event, limits: Limits, clock: int)
    requires Nonempty(store) && KeyAgrees(store, log, if e.Ask? then e.key else "", limits, clock) && clock <= e.now && e.Ask?
    ensures Accepts(store, e.key, limits.maxOf(e.key), limits.durationOf(e.key), e.now) == MayPass(log, e, limits)
  {
    var times, d := LogOf(log, e.key), limits.durationOf(e.key);
    if e.key !in store {
      RecentAtMost(times, e.now, d, 0);
    } else {
      var queue := store[e.key];
      if |queue| < limits.maxOf(e.key) {
        RecentAtMost(times, e.now, d, |queue|);
      } else if e.now - queue[0] >= d {
        assert queue[0] == times[|times| - |queue|];
        RecentAtMost(times, e.now, d, |queue| - 1);
      } else {
        forall i | |times| - |queue| <= i < |times| ensures e.now - times[i] < d {
          assert times[|times| - |queue|] == queue[0];
        }
        RecentAtLeast(times, e.now, d, |queue|);
      }
    }
  }

  lemma PushKeeps(queue: seq<int>, times: seq<int>, limit: nat, duration: int, clock: int, now: int)
    requires QueueAgrees(queue, times, limit, duration, clock) && |queue| < limit && clock <= now
    ensures QueueAgrees(queue + [now], times + [now], limit, duration, now)
  {
  }

  lemma ShiftKeeps(queue: seq<int>, times: seq<int>, limit: nat, duration: int, clock: int, now: int)
    requires QueueAgrees(queue, times, limit, duration, clock) && |queue| == limit && clock <= now
    ensures QueueAgrees(queue[1..] + [now], times + [now], limit, duration, now)
  {
  }

  lemma AskKeepsOwn(store: Store, log: Log, e: Event, limits: Limits, expiration: nat, clock: int)
    requires Nonempty(store) && e.Ask? && KeyAgrees(store, log, e.key, limits, clock) && clock <= e.now
    ensures KeyAgrees(StepStore(store, e, limits, expiration), StepLog(log, e, limits), e.key, limits, e.now)
  {
    var times, d, limit := LogOf(log, e.key), limits.durationOf(e.key), EffectiveMax(limits.maxOf(e.key));
    var log' := StepLog(log, e, limits);
    SameAnswer(store, log, e, limits, clock);
    assert MayPass(log, e, limits) ==> LogOf(log', e.key) == times + [e.now];
    assert Sorted(LogOf(log', e.key), e.now);
    if e.key in store {
      if |store[e.key]| < limits.maxOf(e.key) {
        PushKeeps(store[e.key], times, limit, d, clock, e.now);
      } else {
        ShiftKeeps(store[e.key], times, limit, d, clock, e.now);
      }
    }
  }

  lemma AskKeepsOther(store: Store, log: Log, e: Event, limits: Limits, expiration: nat, clock: int, key: string)
    requires Nonempty(store) && e.Ask? && key != e.key && KeyAgrees(store, log, key, limits, clock) && clock <= e.now
    ensures KeyAgrees(StepStore(store, e, limits, expiration), StepLog(log, e, limits), key, limits, e.now)
  {
    var store' := StepStore(store, e, limits, expiration);
    assert key in store' <==> key in store;
    assert LogOf(StepLog(log, e, limits), key) == LogOf(log, key);
  }

  lemma SweepKeeps(store: Store, log: Log, e: Event, limits: Limits, expiration: nat, clock: int, key: string)
    requires Nonempty(store) && Agrees(store, log, limits, clock) && clock <= e.now && e.Sweep?
    requires CleanerHarmless(limits, expiration)
    ensures KeyAgrees(StepStore(store, e, limits, expiration), log, key, limits, e.now)
  {
    assert KeyAgrees(store, log, key, limits, clock);
    if key in store && expiration > 0 && Stale(store[key], expiration, e.now) {
      var times := LogOf(log, key);
      assert store[key][|store[key]| - 1] == times[|times| - 1];
    }
  }

  lemma StepKeeps(store: Store, log: Log, e: Event, limits: Limits, expiration: nat, clock: int)
    requires Nonempty(store) && Agrees(store, log, limits, clock) && clock <= e.now
    requires CleanerHarmless(limits, expiration)
    ensures Agrees(StepStore(store, e, limits, expiration), StepLog(log, e, limits), limits, e.now)
  {
    forall key ensures KeyAgrees(StepStore(store, e, limits, expiration), StepLog(log, e, limits), key, limits, e.now) {
      assert KeyAgrees(store, log, key, limits, clock);
      if e.Ask? {
        if key == e.key {
          AskKeepsOwn(store, log, e, limits, expiration, clock);
        } else {
          AskKeepsOther(store, log, e, limits, expiration, clock, key);
        }
      } else {
        SweepKeeps(store, log, e, limits, expiration, clock, key);
      }
    }
  }

  lemma {:induction false} RunsAgree(
    store: Store, log: Log, events: seq<Event>, limits: Limits, expiration: nat, clock: int)
    requires Nonempty(store) && Agrees(store, log, limits, clock) && Ordered(events, clock)
    requires CleanerHarmless(limits, expiration)
    ensures Answers(store, events, limits, expiration) == IdealAnswers(log, events, limits)
    ensures AcceptedLog(store, log, events, limits, expiration) == IdealLog(log, events, limits)
    decreases |events|
  {
    if events != [] {
      var e := events[0];
      if e.Ask? {
        assert KeyAgrees(store, log, e.key, limits, clock);
        SameAnswer(store, log, e, limits, clock);
      }
      StepKeeps(store, log, e, limits, expiration, clock);
      RunsAgree(StepStore(store, e, limits, expiration), StepLog(log, e, limits), events[1..], limits, expiration, e.now);
    }
  }

  // ---- no window holds more than the limit ------------------------------------------

  /** Any limit + 1 acceptances span at least the duration. */
  ghost predicate SpreadOut(times: seq<int>, limit: nat, duration: int) {
    forall i :: 0 <= i < |times| - limit ==> times[i + limit] - times[i] >= duration
  }

  ghost predicate KeySpread(log: Log, key: string, limits: Limits, clock: int) {
    && SpreadOut(LogOf(log, key), EffectiveMax(limits.maxOf(key)), limits.durationOf(key))
    && Sorted(LogOf(log, key), clock)
  }

  ghost predicate Spread(log: Log, limits: Limits, clock: int) {
    forall key :: KeySpread(log, key, limits, clock)
  }

  lemma AppendSpreads(times: seq<int>, limit: nat, duration: int, clock: int, now: int)
    requires SpreadOut(times, limit, duration) && Sorted(times, clock) && clock <= now
    requires limit > 0 && Recent(times, now, duration) < limit
    ensures SpreadOut(times + [now], limit, duration) && Sorted(times + [now], now)
  {
    if |times| >= limit {
      if now - times[|times| - limit] < duration {
        RecentAtLeast(times, now, duration, limit);
      }
    }
  }

  lemma StepSpreads(log: Log, e: Event, limits: Limits, clock: int)
    requires Spread(log, limits, clock) && clock <= e.now
    ensures Spread(StepLog(log, e, limits), limits, e.now)
  {
    var log' := StepLog(log, e, limits);
    forall key ensures KeySpread(log', key, limits, e.now) {
      assert KeySpread(log, key, limits, clock);
      if e.Ask? && key == e.key && MayPass(log, e, limits) {
        AppendSpreads(LogOf(log, key), EffectiveMax(limits.maxOf(key)), limits.durationOf(key), clock, e.now);
        assert LogOf(log', key) == LogOf(log, key) + [e.now];
      } else {
        assert LogOf(log', key) == LogOf(log, key);
      }
    }
  }

  lemma {:induction false} RunsSpread(log: Log, events: seq<Event>, limits: Limits, clock: int)
    requires Spread(log, limits, clock) && Ordered(events, clock)
    ensures Spread(IdealLog(log, events, limits), limits, if events == [] then clock else events[|events| - 1].now)
    decreases |events|
  {
    if events != [] {
      StepSpreads(log, events[0], limits, clock);
      RunsSpread(StepLog(log, events[0], limits), events[1..], limits, events[0].now);
    }
  }

  // ---- the exact condition ------------------------------------------------------------

  /** The limiter answers every run, with cleaner passes at any moments, like its specification. */
  ghost predicate Refines(limits: Limits, expiration: nat) {
    forall events, clock :: Ordered(events, clock) ==>
      Answers(map[], events, limits, expiration) == IdealAnswers(map[], events, limits)
  }

  function Zeros(n: nat): seq<int> {
    seq(n, i => 0)
  }

  lemma ZerosNext(n: nat)
    ensures Zeros(n) + [0] == Zeros(n + 1)
  {
  }

  /** Store, or log, after n accepted requests for `key` at time 0. */
  function AfterBurst(key: string, n: nat): map<string, seq<int>> {
    if n == 0 then map[] else map[key := Zeros(n)]
  }

  /** n requests at time 0, a cleaner pass as soon as it may drop the key, one more request. */
  function BurstThenSweep(key: string, n: nat, expiration: nat): seq<Event> {
    seq(n, i => Ask(key, 0)) + [Sweep(expiration + 1), Ask(key, expiration + 1)]
  }

  lemma BurstOrdered(key: string, n: nat, expiration: nat)
    ensures Ordered(BurstThenSweep(key, n, expiration), 0)
  {
  }

  lemma OneAsk(store: Store, log: Log, key: string, now: int, limits: Limits, expiration: nat)
    requires Nonempty(store)
    ensures Answers(store, [Ask(key, now)], limits, expiration) ==
            [Accepts(store, key, limits.maxOf(key), limits.durationOf(key), now)]
    ensures IdealAnswers(log, [Ask(key, now)], limits) == [MayPass(log, Ask(key, now), limits)]
  {
    assert [Ask(key, now)][1..] == [];
  }

  lemma SweptTooSoon(key: string, limits: Limits, expiration: nat)
    requires 0 < expiration && limits.maxOf(key) >= 0 && expiration + 1 < limits.durationOf(key)
    ensures var n := EffectiveMax(limits.maxOf(key));
      Answers(AfterBurst(key, n), BurstThenSweep(key, 0, expiration), limits, expiration)
      != IdealAnswers(AfterBurst(key, n), BurstThenSweep(key, 0, expiration), limits)
  {
    var n := EffectiveMax(limits.maxOf(key));
    var events := BurstThenSweep(key, 0, expiration);
    var full := AfterBurst(key, n);
    assert events[0] == Sweep(expiration + 1) && events[1..] == [Ask(key, expiration + 1)];
    assert StepStore(full, events[0], limits, expiration) == map[];
    OneAsk(map[], full, key, expiration + 1, limits, expiration);
    assert LogOf(full, key) == Zeros(n);
    RecentAtLeast(Zeros(n), expiration + 1, limits.durationOf(key), n);
    assert !MayPass(full, Ask(key, expiration + 1), limits);
    assert Answers(full, events, limits, expiration) == [true];
    assert IdealAnswers(full, events, limits) == [false];
  }

  lemma {:induction false} BurstDiverges(key: string, done: nat, limits: Limits, expiration: nat)
    requires 0 < expiration && limits.maxOf(key) >= 0 && expiration + 1 < limits.durationOf(key)
    requires done <= EffectiveMax(limits.maxOf(key))
    ensures var events := BurstThenSweep(key, EffectiveMax(limits.maxOf(key)) - done, expiration);
      Answers(AfterBurst(key, done), events, limits, expiration) != IdealAnswers(AfterBurst(key, done), events, limits)
    decreases EffectiveMax(limits.maxOf(key)) - done
  {
    var n := EffectiveMax(limits.maxOf(key));
    if done == n {
      SweptTooSoon(key, limits, expiration);
    } else {
      var events := BurstThenSweep(key, n - done, expiration);
      assert events[0] == Ask(key, 0) && events[1..] == BurstThenSweep(key, n - done - 1, expiration);
      BurstStep(key, done, limits, expiration);
      BurstDiverges(key, done + 1, limits, expiration);
      assert Answers(AfterBurst(key, done), events, limits, expiration)[1..] ==
             Answers(AfterBurst(key, done + 1), events[1..], limits, expiration);
      assert IdealAnswers(AfterBurst(key, done), events, limits)[1..] ==
             IdealAnswers(AfterBurst(key, done + 1), events[1..], limits);
    }
  }

  /** Below the limit, store and log grow alike. */
  lemma BurstStep(key: string, done: nat, limits: Limits, expiration: nat)
    requires done < EffectiveMax(limits.maxOf(key))
    ensures var s := AfterBurst(key, done);
      && StepStore(s, Ask(key, 0), limits, expiration) == AfterBurst(key, done + 1)
      && StepLog(s, Ask(key, 0), limits) == AfterBurst(key, done + 1)
  {
    var s := AfterBurst(key, done);
    ZerosNext(done);
    assert Zeros(0) == [] && Zeros(1) == [0];
    assert StepStore(s, Ask(key, 0), limits, expiration) == s[key := Zeros(done + 1)];
    assert s[key := Zeros(done + 1)] == map[key := Zeros(done + 1)];
    assert LogOf(s, key) == Zeros(done);
    RecentAtMost(Zeros(done), 0, limits.durationOf(key), done);
  }

  /**
    The limiter is exact for every run if and only if the cleaner, where there is one,
    keeps each key that can be accepted at least as long as its window less one second.
   */
  lemma RefinesExactlyWhenCleanerHarmless(limits: Limits, expiration: nat)
    ensures Refines(limits, expiration) <==> CleanerHarmless(limits, expiration)
  {
    if CleanerHarmless(limits, expiration) {
      forall events, clock | Ordered(events, clock)
        ensures Answers(map[], events, limits, expiration) == IdealAnswers(map[], events, limits)
      {
        RunsAgree(map[], map[], events, limits, expiration, clock);
      }
    } else {
      var key: string :| limits.maxOf(key) >= 0 && limits.durationOf(key) > expiration + 1;
      var events := BurstThenSweep(key, EffectiveMax(limits.maxOf(key)), expiration);
      BurstDiverges(key, 0, limits, expiration);
      BurstOrdered(key, EffectiveMax(limits.maxOf(key)), expiration);
      assert Ordered(events, 0) && AfterBurst(key, 0) == map[];
    }
  }

  /** Hence no window of a key's duration ever holds more accepted requests than the key's limit. */
  lemma NoWindowOverflows(events: seq<Event>, limits: Limits, expiration: nat, clock: int, key: string)
    requires Ordered(events, clock) && CleanerHarmless(limits, expiration)
    ensures SpreadOut(LogOf(AcceptedLog(map[], map[], events, limits, expiration), key),
                      EffectiveMax(limits.maxOf(key)), limits.durationOf(key))
  {
    RunsAgree(map[], map[], events, limits, expiration, clock);
    RunsSpread(map[], events, limits, clock);
    assert KeySpread(IdealLog(map[], events, limits), key, limits, if events == [] then clock else events[|events| - 1].now);
  }
}
