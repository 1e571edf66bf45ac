/** Every run of creating and closing storages: what the global counters say. */
module StoragePool {
  import opened Lists
  import opened StorageObjects

  datatype Store = Store(size: nat, disk: bool, closed: bool)

  datatype Pool = Pool(counters: Counters, stores: seq<Store>)

  datatype Event =
    | FromReader(len: nat, contentLength: int, maxBytes: int, diskOk: bool)
    | FromBytes(len: nat, diskOk: bool)
    | CloseAt(index: nat)

  const EMPTY := Pool(Counters(0, 0, 0, 0), [])

  function Add(p: Pool, disk: bool, len: nat): Pool {
    Pool(Opened(p.counters, disk, len), p.stores + [Store(len, disk, false)])
  }

  function Step(cfg: Config, p: Pool, e: Event): Pool {
    match e
    case FromReader(len, contentLength, maxBytes, diskOk) =>
      var placed := Placement(cfg, p.counters, len, contentLength, maxBytes, diskOk);
      if placed.Some? then Add(p, placed.value, len) else p
    case FromBytes(len, diskOk) =>
      Add(p, diskOk && FitsDisk(cfg, p.counters, len), len)
    case CloseAt(i) =>
      if i < |p.stores| && !p.stores[i].closed
      then Pool(Released(p.counters, p.stores[i].disk, p.stores[i].size), p.stores[i := p.stores[i].(closed := true)])
      else p
  }

  function Run(cfg: Config, p: Pool, events: seq<Event>): Pool
    decreases |events|
  {
    if events == [] then p else Run(cfg, Step(cfg, p, events[0]), events[1..])
  }

  // ---- counters are the open storages -----------------------------------------------------------

  predicate Live(s: Store, disk: bool) {
    !s.closed && s.disk == disk
  }

  function OpenCount(stores: seq<Store>, disk: bool): nat {
    if stores == [] then 0 else OpenCount(Front(stores), disk) + if Live(Last(stores), disk) then 1 else 0
  }

  function OpenBytes(stores: seq<Store>, disk: bool): nat {
    if stores == [] then 0 else OpenBytes(Front(stores), disk) + if Live(Last(stores), disk) then Last(stores).size else 0
  }

  ghost predicate Balanced(p: Pool) {
    p.counters == Counters(OpenCount(p.stores, true), OpenBytes(p.stores, true),
                           OpenCount(p.stores, false), OpenBytes(p.stores, false))
  }

  lemma AddCounts(stores: seq<Store>, s: Store, disk: bool)
    ensures OpenCount(stores + [s], disk) == OpenCount(stores, disk) + if Live(s, disk) then 1 else 0
    ensures OpenBytes(stores + [s], disk) == OpenBytes(stores, disk) + if Live(s, disk) then s.size else 0
  {
    assert Front(stores + [s]) == stores;
  }

  lemma {:induction false} CloseCounts(stores: seq<Store>, i: nat, disk: bool)
    requires i < |stores| && !stores[i].closed
    ensures var after := stores[i := stores[i].(closed := true)];
      && OpenCount(stores, disk) == OpenCount(after, disk) + (if stores[i].disk == disk then 1 else 0)
      && OpenBytes(stores, disk) == OpenBytes(after, disk) + (if stores[i].disk == disk then stores[i].size else 0)
  {
    var after := stores[i := stores[i].(closed := true)];
    if i == |stores| - 1 {
      assert Front(after) == Front(stores);
    } else {
      CloseCounts(Front(stores), i, disk);
      assert Front(after) == Front(stores)[i := stores[i].(closed := true)];
    }
  }

  lemma AddBalanced(p: Pool, disk: bool, len: nat)
    requires Balanced(p)
    ensures Balanced(Add(p, disk, len))
  {
    AddCounts(p.stores, Store(len, disk, false), true);
    AddCounts(p.stores, Store(len, disk, false), false);
  }

  lemma StepBalanced(cfg: Config, p: Pool, e: Event)
    requires Balanced(p)
    ensures Balanced(Step(cfg, p, e))
  {
    if !e.CloseAt? {
      AddBalanced(p, true, e.len);
      AddBalanced(p, false, e.len);
    } else if e.index < |p.stores| && !p.stores[e.index].closed {
      CloseCounts(p.stores, e.index, true);
      CloseCounts(p.stores, e.index, false);
    }
  }

  /** In every run the counters are the number and the total size of the open storages. */
  lemma {:induction false} RunsBalanced(cfg: Config, p: Pool, events: seq<Event>)
    requires Balanced(p)
    ensures Balanced(Run(cfg, p, events))
    decreases |events|
  {
    if events != [] {
      StepBalanced(cfg, p, events[0]);
      RunsBalanced(cfg, Step(cfg, p, events[0]), events[1..]);
    }
  }

  /** The clamp at zero never fires: releasing an open storage subtracts what opening it added. */
  lemma ClampNeverFires(p: Pool, i: nat)
    requires Balanced(p) && i < |p.stores| && Live(p.stores[i], true)
    ensures Released(p.counters, true, p.stores[i].size)
         == p.counters.(diskFiles := p.counters.diskFiles - 1, diskBytes := p.counters.diskBytes - p.stores[i].size)
    ensures Opened(Released(p.counters, true, p.stores[i].size), true, p.stores[i].size) == p.counters
  {
    CloseCounts(p.stores, i, true);
  }

  lemma {:induction false} AllClosed(stores: seq<Store>, disk: bool)
    requires forall i :: 0 <= i < |stores| ==> stores[i].closed
    ensures OpenCount(stores, disk) == 0 && OpenBytes(stores, disk) == 0
  {
    if stores != [] {
      AllClosed(Front(stores), disk);
    }
  }

  /** Once everything is closed nothing is left in the counters. */
  lemma NothingLeaks(cfg: Config, events: seq<Event>)
    requires forall s :: s in Run(cfg, EMPTY, events).stores ==> s.closed
    ensures Run(cfg, EMPTY, events).counters == Counters(0, 0, 0, 0)
  {
    RunsBalanced(cfg, EMPTY, events);
    AllClosed(Run(cfg, EMPTY, events).stores, true);
    AllClosed(Run(cfg, EMPTY, events).stores, false);
  }

  // ---- disk usage stays within the maximum -----------------------------------------------------

  /** A body is no longer than its declared length. */
  predicate Declared(e: Event) {
    e.FromReader? && e.contentLength > 0 ==> e.len <= e.contentLength
  }

  ghost predicate AllDeclared(events: seq<Event>) {
    forall i :: 0 <= i < |events| ==> Declared(events[i])
  }

  predicate WithinMax(cfg: Config, p: Pool) {
    p.counters.diskBytes <= cfg.maxSize
  }

  lemma StepWithinMax(cfg: Config, p: Pool, e: Event)
    requires Balanced(p) && WithinMax(cfg, p) && Declared(e)
    ensures WithinMax(cfg, Step(cfg, p, e))
  {
    if e.CloseAt? && e.index < |p.stores| && Live(p.stores[e.index], true) {
      ClampNeverFires(p, e.index);
    }
  }

  lemma {:induction false} RunsWithinMax(cfg: Config, p: Pool, events: seq<Event>)
    requires Balanced(p) && WithinMax(cfg, p) && AllDeclared(events)
    ensures WithinMax(cfg, Run(cfg, p, events))
    decreases |events|
  {
    if events != [] {
      StepWithinMax(cfg, p, events[0]);
      StepBalanced(cfg, p, events[0]);
      RunsWithinMax(cfg, Step(cfg, p, events[0]), events[1..]);
    }
  }

  /** The event keeps every pool of every configuration within its maximum. */
  ghost predicate KeepsWithinMax(e: Event) {
    forall cfg: Config, p: Pool :: Balanced(p) && WithinMax(cfg, p) ==> WithinMax(cfg, Step(cfg, p, e))
  }

  /** A body that would be stored if it streamed to disk. */
  predicate Storable(e: Event) {
    e.FromReader? && e.diskOk && e.len <= e.maxBytes
  }

  /** An event never takes disk usage past the maximum exactly when a storable body is no longer than declared. */
  lemma KeepsWithinMaxExactlyWhen(e: Event)
    ensures KeepsWithinMax(e) <==> (Storable(e) ==> Declared(e))
  {
    if Storable(e) && !Declared(e) {
      var cfg := Config(true, e.contentLength, e.contentLength);
      assert Balanced(EMPTY) && WithinMax(cfg, EMPTY) && !WithinMax(cfg, Step(cfg, EMPTY, e));
    } else {
      forall cfg: Config, p: Pool | Balanced(p) && WithinMax(cfg, p) ensures WithinMax(cfg, Step(cfg, p, e)) {
        if Declared(e) {
          StepWithinMax(cfg, p, e);
        }
      }
    }
  }

  lemma LongerThanDeclaredOverruns()
    ensures var cfg := Config(true, 1, 10);
      WithinMax(cfg, EMPTY) && !WithinMax(cfg, Step(cfg, EMPTY, FromReader(20, 5, 100, true)))
  {
  }
}
