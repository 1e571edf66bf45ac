/**
  The per-order reference-counted lock of controller/topup.go, as an interleaved
  step system: any number of threads, any set of trade numbers, one shared-memory
  operation per step.

  A thread runs LockOrder, a critical section, and UnlockOrder for one trade
  number. What the critical section does is left open here (see EpayCredit).
 */
module OrderLock {
  import opened Prelude

  /** A refCountedMutex; `holder` is the thread that has `mu` locked. */
  datatype Mutex = Mutex(refCount: int, holder: Option<nat>)

  /** Where a thread stands; `m` is the address held in the local variable rcm. */
  datatype Pc =
    | Start                  // LockOrder: about to lock createLock
    | Lookup                 // about to Load the map entry
    | Publish                // no entry: about to Store a new mutex
    | Count(m: nat)          // about to do refCount++
    | LeaveCreate(m: nat)    // about to unlock createLock
    | Acquire(m: nat)        // about to lock mu
    | Critical(m: nat)       // LockOrder has returned; UnlockOrder has not done its Load
    | Release(m: nat)        // UnlockOrder: about to unlock mu
    | Reenter(m: nat)        // about to lock createLock
    | Uncount(m: nat)        // about to do refCount--
    | Drop(m: nat)           // about to delete the entry if refCount == 0
    | LeaveUnlock            // about to unlock createLock
    | Done

  datatype Thread = Thread(trade: string, pc: Pc)

  datatype State = State(
    threads: seq<Thread>,
    create: Option<nat>,          // holder of createLock
    locks: map<string, nat>,      // orderLocks: trade number -> address of a mutex
    mutexes: seq<Mutex>           // every mutex allocated so far
  )

  datatype Action = Spawn(trade: string) | Run(thread: nat)

  function Init(): State {
    State([], None, map[], [])
  }

  // ---- the steps of LockOrder and UnlockOrder ------------------------------

  function Goto(s: State, i: nat, pc: Pc): State
    requires i < |s.threads|
  {
    s.(threads := s.threads[i := s.threads[i].(pc := pc)])
  }

  predicate Addressed(s: State, pc: Pc) {
    match pc
    case Count(m) => m < |s.mutexes|
    case LeaveCreate(m) => m < |s.mutexes|
    case Acquire(m) => m < |s.mutexes|
    case Critical(m) => m < |s.mutexes|
    case Release(m) => m < |s.mutexes|
    case Reenter(m) => m < |s.mutexes|
    case Uncount(m) => m < |s.mutexes|
    case Drop(m) => m < |s.mutexes|
    case _ => true
  }

  /** Thread i can take its next step: only the two lock operations can block. */
  predicate Enabled(s: State, i: nat) {
    && i < |s.threads|
    && Addressed(s, s.threads[i].pc)
    && match s.threads[i].pc
       case Start => s.create.None?
       case Reenter(_) => s.create.None?
       case Acquire(m) => s.mutexes[m].holder.None?
       case Done => false
       case _ => true
  }

  function SetMutex(s: State, m: nat, mu: Mutex): State
    requires m < |s.mutexes|
  {
    s.(mutexes := s.mutexes[m := mu])
  }

  function StepLock(s: State, i: nat): State
    requires Enabled(s, i)
  {
    var t := s.threads[i].trade;
    match s.threads[i].pc
    case Start => Goto(s, i, Lookup).(create := Some(i))
    case Lookup => Goto(s, i, if t in s.locks then Count(s.locks[t]) else Publish)
    case Publish =>
      Goto(s, i, Count(|s.mutexes|)).(
        mutexes := s.mutexes + [Mutex(0, None)], locks := s.locks[t := |s.mutexes|])
    case Count(m) =>
      Goto(SetMutex(s, m, s.mutexes[m].(refCount := s.mutexes[m].refCount + 1)), i, LeaveCreate(m))
    case LeaveCreate(m) => Goto(s, i, Acquire(m)).(create := None)
    case Acquire(m) => Goto(SetMutex(s, m, s.mutexes[m].(holder := Some(i))), i, Critical(m))
    case Critical(_) => Goto(s, i, if t in s.locks then Release(s.locks[t]) else Done)
    case Release(m) => Goto(SetMutex(s, m, s.mutexes[m].(holder := None)), i, Reenter(m))
    case Reenter(m) => Goto(s, i, Uncount(m)).(create := Some(i))
    case Uncount(m) =>
      Goto(SetMutex(s, m, s.mutexes[m].(refCount := s.mutexes[m].refCount - 1)), i, Drop(m))
    case Drop(m) =>
      Goto(s, i, LeaveUnlock).(locks := if s.mutexes[m].refCount == 0 then s.locks - {t} else s.locks)
    case LeaveUnlock => Goto(s, i, Done).(create := None)
    case Done => s
  }

  /** One action; a thread that is blocked or finished does not move. */
  function Step(s: State, a: Action): State {
    match a
    case Spawn(t) => s.(threads := s.threads + [Thread(t, Start)])
    case Run(i) => if Enabled(s, i) then StepLock(s, i) else s
  }

  function Exec(s: State, actions: seq<Action>): State
    decreases |actions|
  {
    if actions == [] then s else Exec(Step(s, actions[0]), actions[1..])
  }

  // ---- the invariant ---------------------------------------------------------

  predicate HoldsCreate(pc: Pc) {
    pc.Lookup? || pc.Publish? || pc.Count? || pc.LeaveCreate? || pc.Uncount? || pc.Drop? || pc.LeaveUnlock?
  }

  /** Between refCount++ and refCount--. */
  predicate Registered(pc: Pc) {
    pc.LeaveCreate? || pc.Acquire? || pc.Critical? || pc.Release? || pc.Reenter? || pc.Uncount?
  }

  /** Between LockOrder returning and UnlockOrder unlocking mu. */
  predicate InSection(pc: Pc) {
    pc.Critical? || pc.Release?
  }

  /** The thread's rcm must still be the map entry. */
  predicate Linked(pc: Pc) {
    Registered(pc) || pc.Count? || pc.Drop?
  }

  function Users(s: State, t: string): set<nat> {
    set i: nat | i < |s.threads| && s.threads[i].trade == t && Registered(s.threads[i].pc)
  }

  ghost predicate CreateOk(s: State) {
    && (forall i: nat :: i < |s.threads| ==> (HoldsCreate(s.threads[i].pc) <==> s.create == Some(i)))
    && (s.create.Some? ==> s.create.value < |s.threads|)
  }

  ghost predicate LinksOk(s: State) {
    forall i: nat :: i < |s.threads| && Linked(s.threads[i].pc) ==>
      s.threads[i].trade in s.locks && s.locks[s.threads[i].trade] == s.threads[i].pc.m
  }

  ghost predicate PublishOk(s: State) {
    forall i: nat :: i < |s.threads| && s.threads[i].pc.Publish? ==> s.threads[i].trade !in s.locks
  }

  ghost predicate MapOk(s: State) {
    && (forall t :: t in s.locks ==> s.locks[t] < |s.mutexes|)
    && (forall t, u :: t in s.locks && u in s.locks && t != u ==> s.locks[t] != s.locks[u])
  }

  ghost predicate CountsOk(s: State) {
    forall t :: t in s.locks && s.locks[t] < |s.mutexes| ==>
      s.mutexes[s.locks[t]].refCount == |Users(s, t)|
  }

  /** An entry nobody uses exists only while the createLock holder is about to use or delete it. */
  ghost predicate EntriesOk(s: State) {
    forall t :: t in s.locks && Users(s, t) == {} ==>
      && s.create.Some? && s.create.value < |s.threads|
      && s.threads[s.create.value].trade == t
      && (s.threads[s.create.value].pc.Count? || s.threads[s.create.value].pc.Drop?)
  }

  ghost predicate HoldersOk(s: State) {
    && (forall i: nat :: i < |s.threads| && InSection(s.threads[i].pc) ==>
          s.threads[i].pc.m < |s.mutexes| && s.mutexes[s.threads[i].pc.m].holder == Some(i))
    && (forall m: nat :: m < |s.mutexes| && s.mutexes[m].holder.Some? ==>
          var h := s.mutexes[m].holder.value;
          h < |s.threads| && InSection(s.threads[h].pc) && s.threads[h].pc.m == m)
  }

  ghost predicate Inv(s: State) {
    CreateOk(s) && LinksOk(s) && PublishOk(s) && MapOk(s) && CountsOk(s) && EntriesOk(s) && HoldersOk(s)
  }

  // ---- every step keeps the invariant ----------------------------------------

  /** A step of thread i changes no other thread, and no trade number. */
  ghost predicate OnlyMoves(s: State, s': State, i: nat) {
    && |s'.threads| == |s.threads|
    && (forall j: nat :: j < |s.threads| ==> s'.threads[j].trade == s.threads[j].trade)
    && (forall j: nat :: j < |s.threads| && j != i ==> s'.threads[j] == s.threads[j])
  }

  lemma StepMovesOne(s: State, i: nat)
    ensures OnlyMoves(s, Step(s, Run(i)), i)
  {
  }

  lemma CreateKept(s: State, i: nat)
    requires CreateOk(s) && Enabled(s, i)
    ensures CreateOk(StepLock(s, i))
  {
  }

  lemma PublishKept(s: State, i: nat)
    requires CreateOk(s) && PublishOk(s) && Enabled(s, i)
    ensures PublishOk(StepLock(s, i))
  {
  }

  lemma LinkKept(s: State, i: nat, j: nat)
    requires CreateOk(s) && LinksOk(s) && PublishOk(s) && MapOk(s) && CountsOk(s) && Enabled(s, i)
    requires j < |s.threads| && Linked(StepLock(s, i).threads[j].pc)
    ensures var s' := StepLock(s, i); var t := s'.threads[j].trade; t in s'.locks && s'.locks[t] == s'.threads[j].pc.m
  {
    if j == i {
      OwnLinkKept(s, i);
    } else {
      OtherLinkKept(s, i, j);
    }
  }

  lemma OwnLinkKept(s: State, i: nat)
    requires LinksOk(s) && Enabled(s, i) && Linked(StepLock(s, i).threads[i].pc)
    ensures var s' := StepLock(s, i); var t := s'.threads[i].trade; t in s'.locks && s'.locks[t] == s'.threads[i].pc.m
  {
  }

  lemma OtherLinkKept(s: State, i: nat, j: nat)
    requires CreateOk(s) && LinksOk(s) && PublishOk(s) && MapOk(s) && CountsOk(s) && Enabled(s, i)
    requires j < |s.threads| && j != i && Linked(s.threads[j].pc)
    ensures var s' := StepLock(s, i); var t := s.threads[j].trade; t in s'.locks && s'.locks[t] == s.threads[j].pc.m
  {
    if s.threads[i].pc.Drop? && s.threads[j].trade == s.threads[i].trade {
      assert Registered(s.threads[j].pc);
      assert j in Users(s, s.threads[j].trade);
    }
  }

  lemma LinksKept(s: State, i: nat)
    requires CreateOk(s) && LinksOk(s) && PublishOk(s) && MapOk(s) && CountsOk(s) && Enabled(s, i)
    ensures LinksOk(StepLock(s, i))
  {
    forall j: nat | j < |s.threads| && Linked(StepLock(s, i).threads[j].pc) { LinkKept(s, i, j); }
  }

  lemma MapKept(s: State, i: nat)
    requires MapOk(s) && Enabled(s, i)
    ensures MapOk(StepLock(s, i))
  {
  }

  lemma HolderKept(s: State, i: nat, j: nat)
    requires LinksOk(s) && MapOk(s) && HoldersOk(s) && Enabled(s, i)
    requires j < |s.threads| && InSection(StepLock(s, i).threads[j].pc)
    ensures var s' := StepLock(s, i);
      s'.threads[j].pc.m < |s'.mutexes| && s'.mutexes[s'.threads[j].pc.m].holder == Some(j)
  {
  }

  lemma HeldKept(s: State, i: nat, m: nat)
    requires LinksOk(s) && MapOk(s) && HoldersOk(s) && Enabled(s, i)
    requires m < |StepLock(s, i).mutexes| && StepLock(s, i).mutexes[m].holder.Some?
    ensures var s' := StepLock(s, i); var h := s'.mutexes[m].holder.value;
      h < |s'.threads| && InSection(s'.threads[h].pc) && s'.threads[h].pc.m == m
  {
    if m < |s.mutexes| && s.mutexes[m].holder.Some? {
      assert InSection(s.threads[s.mutexes[m].holder.value].pc);
    }
  }

  lemma HoldersKept(s: State, i: nat)
    requires LinksOk(s) && MapOk(s) && HoldersOk(s) && Enabled(s, i)
    ensures HoldersOk(StepLock(s, i))
  {
    forall j: nat | j < |s.threads| && InSection(StepLock(s, i).threads[j].pc) { HolderKept(s, i, j); }
    forall m: nat | m < |StepLock(s, i).mutexes| && StepLock(s, i).mutexes[m].holder.Some? { HeldKept(s, i, m); }
  }

  lemma UsersStep(s: State, i: nat, t: string)
    requires Enabled(s, i)
    ensures Users(StepLock(s, i), t) ==
        if t != s.threads[i].trade then Users(s, t)
        else if Registered(StepLock(s, i).threads[i].pc) then Users(s, t) + {i}
        else Users(s, t) - {i}
  {
  }

  lemma CountKept(s: State, i: nat, t: string)
    requires LinksOk(s) && PublishOk(s) && MapOk(s) && CountsOk(s) && EntriesOk(s)
    requires Enabled(s, i) && t in StepLock(s, i).locks
    ensures var s' := StepLock(s, i); s'.locks[t] < |s'.mutexes| && s'.mutexes[s'.locks[t]].refCount == |Users(s', t)|
  {
    UsersStep(s, i, t);
    if t == s.threads[i].trade {
      OwnCountKept(s, i);
    }
  }

  lemma OwnCountKept(s: State, i: nat)
    requires LinksOk(s) && PublishOk(s) && MapOk(s) && CountsOk(s) && EntriesOk(s)
    requires Enabled(s, i) && s.threads[i].trade in StepLock(s, i).locks
    ensures var s' := StepLock(s, i); var t := s.threads[i].trade;
      s'.locks[t] < |s'.mutexes| && s'.mutexes[s'.locks[t]].refCount == |Users(s', t)|
  {
    var t := s.threads[i].trade;
    UsersStep(s, i, t);
    assert i in Users(s, t) <==> Registered(s.threads[i].pc);
    if s.threads[i].pc.Publish? {
      NoneBeforePublish(s, i);
    } else {
      RefCountStep(s, i);
    }
  }

  lemma NoneBeforePublish(s: State, i: nat)
    requires LinksOk(s) && PublishOk(s) && i < |s.threads| && s.threads[i].pc.Publish?
    ensures Users(s, s.threads[i].trade) == {}
  {
    assert forall j :: j in Users(s, s.threads[i].trade) ==> Linked(s.threads[j].pc);
  }

  /** The entry's count goes up when the thread registers and down when it stops being registered. */
  lemma RefCountStep(s: State, i: nat)
    requires LinksOk(s) && MapOk(s) && Enabled(s, i) && !s.threads[i].pc.Publish? && s.threads[i].trade in StepLock(s, i).locks
    ensures var s', t := StepLock(s, i), s.threads[i].trade;
      && t in s.locks && s'.locks[t] == s.locks[t] < |s.mutexes| == |s'.mutexes|
      && s'.mutexes[s.locks[t]].refCount == s.mutexes[s.locks[t]].refCount +
           (if Registered(s'.threads[i].pc) then 1 else 0) - if Registered(s.threads[i].pc) then 1 else 0
  {
  }

  lemma EntryKept(s: State, i: nat, t: string)
    requires Inv(s) && Enabled(s, i) && t in StepLock(s, i).locks
    ensures var s' := StepLock(s, i); Users(s', t) == {} ==>
      && s'.create.Some? && s'.create.value < |s'.threads|
      && s'.threads[s'.create.value].trade == t
      && (s'.threads[s'.create.value].pc.Count? || s'.threads[s'.create.value].pc.Drop?)
  {
    CountKept(s, i, t);
    UsersStep(s, i, t);
    assert i in Users(s, t) <==> s.threads[i].trade == t && Registered(s.threads[i].pc);
  }

  lemma CountsKept(s: State, i: nat)
    requires Inv(s) && Enabled(s, i)
    ensures CountsOk(StepLock(s, i)) && EntriesOk(StepLock(s, i))
  {
    forall t | t in StepLock(s, i).locks { CountKept(s, i, t); }
    forall t | t in StepLock(s, i).locks { EntryKept(s, i, t); }
  }

  lemma StepKeepsInv(s: State, a: Action)
    requires Inv(s)
    ensures Inv(Step(s, a))
  {
    match a
    case Spawn(t) =>
      var s' := Step(s, a);
      assert forall u :: Users(s', u) == Users(s, u);
    case Run(i) =>
      if Enabled(s, i) {
        CreateKept(s, i);
        PublishKept(s, i);
        LinksKept(s, i);
        MapKept(s, i);
        HoldersKept(s, i);
        CountsKept(s, i);
      }
  }

  lemma {:induction false} RunsKeepInv(s: State, actions: seq<Action>)
    requires Inv(s)
    ensures Inv(Exec(s, actions))
    decreases |actions|
  {
    if actions != [] {
      StepKeepsInv(s, actions[0]);
      RunsKeepInv(Step(s, actions[0]), actions[1..]);
    }
  }

  // ---- what every run promises -------------------------------------------------

  /** At most one thread is inside the section of an order. */
  ghost predicate MutualExclusion(s: State) {
    forall i: nat, j: nat ::
      (&& i < |s.threads| && j < |s.threads| && s.threads[i].trade == s.threads[j].trade
       && InSection(s.threads[i].pc) && InSection(s.threads[j].pc)) ==> i == j
  }

  /**
    UnlockOrder's unguarded Load finds the very mutex LockOrder locked, so it
    never takes its early return and never unlocks a mutex it does not hold.
   */
  ghost predicate UnlockFindsOwnMutex(s: State) {
    && (forall i: nat :: i < |s.threads| && s.threads[i].pc.Critical? ==>
          s.threads[i].trade in s.locks && s.locks[s.threads[i].trade] == s.threads[i].pc.m)
    && (forall i: nat :: i < |s.threads| && s.threads[i].pc.Release? ==>
          s.threads[i].pc.m < |s.mutexes| && s.mutexes[s.threads[i].pc.m].holder == Some(i))
  }

  /** No entry outlives its users: once nobody is past the lookup for t, t is not in the map. */
  ghost predicate NoLeak(s: State) {
    forall t :: t in s.locks ==> exists i: nat :: i < |s.threads| && s.threads[i].trade == t && Linked(s.threads[i].pc)
  }

  lemma InvExcludes(s: State)
    requires Inv(s)
    ensures MutualExclusion(s) && UnlockFindsOwnMutex(s)
  {
  }

  lemma SafetyOfEveryRun(actions: seq<Action>)
    ensures var s := Exec(Init(), actions); MutualExclusion(s) && UnlockFindsOwnMutex(s) && NoLeak(s)
  {
    var s := Exec(Init(), actions);
    RunsKeepInv(Init(), actions);
    InvExcludes(s);
    forall t | t in s.locks
      ensures exists i: nat :: i < |s.threads| && s.threads[i].trade == t && Linked(s.threads[i].pc)
    {
      if Users(s, t) != {} {
        var i :| i in Users(s, t);
        assert Linked(s.threads[i].pc);
      } else {
        assert Linked(s.threads[s.create.value].pc);
      }
    }
  }

  ghost predicate Finished(s: State) {
    forall i: nat :: i < |s.threads| ==> s.threads[i].pc.Done?
  }

  /** Some thread can move in every reachable state that has an unfinished thread. */
  lemma SomeoneCanMove(s: State) returns (i: nat)
    requires Inv(s) && !Finished(s)
    ensures Enabled(s, i)
  {
    i :| i < |s.threads| && !s.threads[i].pc.Done?;
    if s.create.Some? {
      i := s.create.value;
    } else if s.threads[i].pc.Acquire? && s.mutexes[s.threads[i].pc.m].holder.Some? {
      i := s.mutexes[s.threads[i].pc.m].holder.value;
    }
  }

  lemma NoDeadlock(actions: seq<Action>)
    ensures var s := Exec(Init(), actions); Finished(s) || exists i: nat :: Enabled(s, i)
  {
    var s := Exec(Init(), actions);
    RunsKeepInv(Init(), actions);
    if !Finished(s) {
      var i := SomeoneCanMove(s);
    }
  }

  /** Steps a thread still has to take. */
  function Rank(pc: Pc): nat {
    match pc
    case Start => 12
    case Lookup => 11
    case Publish => 10
    case Count(_) => 9
    case LeaveCreate(_) => 8
    case Acquire(_) => 7
    case Critical(_) => 6
    case Release(_) => 5
    case Reenter(_) => 4
    case Uncount(_) => 3
    case Drop(_) => 2
    case LeaveUnlock => 1
    case Done => 0
  }

  function Work(threads: seq<Thread>): nat {
    if threads == [] then 0 else Rank(threads[0].pc) + Work(threads[1..])
  }

  lemma {:induction false} WorkUpdate(threads: seq<Thread>, i: nat, th: Thread)
    requires i < |threads|
    ensures Work(threads[i := th]) == Work(threads) - Rank(threads[i].pc) + Rank(th.pc)
  {
    if i == 0 {
      assert threads[i := th][1..] == threads[1..];
    } else {
      assert threads[i := th][1..] == threads[1..][i - 1 := th];
      WorkUpdate(threads[1..], i - 1, th);
    }
  }

  /** Every step that is taken brings the whole system strictly closer to the end. */
  lemma StepsUseUpWork(s: State, i: nat)
    requires Enabled(s, i)
    ensures Work(StepLock(s, i).threads) < Work(s.threads)
  {
    WorkUpdate(s.threads, i, StepLock(s, i).threads[i]);
  }

  /** So every state can be driven to the end, and then the map is empty. */
  lemma {:induction false} EveryRunCanFinish(s: State) returns (rest: seq<Action>)
    requires Inv(s)
    ensures Finished(Exec(s, rest)) && Exec(s, rest).locks == map[]
    decreases Work(s.threads)
  {
    if Finished(s) {
      rest := [];
      assert forall t :: Users(s, t) == {};
      assert s.create.None?;
    } else {
      var i := SomeoneCanMove(s);
      StepsUseUpWork(s, i);
      StepKeepsInv(s, Run(i));
      var more := EveryRunCanFinish(Step(s, Run(i)));
      rest := [Run(i)] + more;
    }
  }
}
