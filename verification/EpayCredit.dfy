/**
  Crediting of top-up orders (controller/topup.go, model/topup.go): concurrent,
  duplicated Epay success callbacks and administrator completions, each running
  its read-check-save-credit sequence inside the lock of OrderLock.
 */
module EpayCredit {
  import opened TopUpAmount
  import OrderLock

  const PROVIDER_EPAY := "epay"
  const PROVIDER_STRIPE := "stripe"

  datatype Status = Pending | Success | Failed | Expired

  datatype TopUp = TopUp(user: int, amount: int, money: real, provider: string, payType: string, status: Status)

  /** Who runs the section: EpayNotify (with the payment type it was told), or AdminCompleteTopUp. */
  datatype Caller = Notify(payType: string) | Admin

  /** Progress of the code between LockOrder and UnlockOrder. */
  datatype Body =
    | Fresh                    // about to read the order
    | Saving(order: TopUp)     // local topUp set to success, about to Update()
    | Crediting(order: TopUp)  // saved, about to IncreaseUserQuota
    | Finished

  datatype Worker = Worker(caller: Caller, body: Body)

  datatype Credit = Credit(trade: string, user: int, quota: int, caller: Caller)

  datatype State = State(
    lock: OrderLock.State,
    workers: seq<Worker>,          // one per thread of `lock`
    orders: map<string, TopUp>,
    quota: map<int, int>,          // user id -> quota
    credits: seq<Credit>           // every quota increase, oldest first
  )

  datatype Action =
    | Insert(trade: string, user: int, amount: int, money: real, payType: string)  // RequestEpay
    | Arrive(trade: string, caller: Caller)
    | Turn(thread: nat, ok: bool)  // `ok`: the store call of this step succeeds

  /** Quota an order is worth; `unit` is common.QuotaPerUnit. */
  function Owed(order: TopUp, unit: real, caller: Caller): int {
    if caller.Admin? && order.provider == PROVIDER_STRIPE then IntPart(order.money * unit)
    else IntPart(order.amount as real * unit)
  }

  function QuotaOf(quota: map<int, int>, user: int): int {
    if user in quota then quota[user] else 0
  }

  function SetBody(s: State, i: nat, body: Body): State
    requires i < |s.workers|
  {
    s.(workers := s.workers[i := s.workers[i].(body := body)])
  }

  function Pay(s: State, trade: string, order: TopUp, unit: real, caller: Caller): State {
    var q := Owed(order, unit, caller);
    s.(quota := s.quota[order.user := QuotaOf(s.quota, order.user) + q],
       credits := s.credits + [Credit(trade, order.user, q, caller)])
  }

  /** ManualCompleteTopUp: one database transaction. */
  function AdminStep(s: State, i: nat, ok: bool, unit: real): State
    requires i < |s.workers| && i < |s.lock.threads|
  {
    var t := s.lock.threads[i].trade;
    var s1 := SetBody(s, i, Finished);
    if ok && t in s.orders && s.orders[t].status == Pending && Owed(s.orders[t], unit, Admin) > 0 then
      Pay(s1.(orders := s.orders[t := s.orders[t].(status := Success)]), t, s.orders[t], unit, Admin)
    else s1
  }

  /** One step of the code between LockOrder and UnlockOrder. */
  function BodyStep(s: State, i: nat, ok: bool, unit: real): State
    requires i < |s.workers| && i < |s.lock.threads|
  {
    var t := s.lock.threads[i].trade;
    match s.workers[i].body
    case Fresh =>
      (match s.workers[i].caller
       case Admin => AdminStep(s, i, ok, unit)
       case Notify(payType) =>
         if ok && t in s.orders && s.orders[t].provider == PROVIDER_EPAY && s.orders[t].status == Pending then
           SetBody(s, i, Saving(s.orders[t].(payType := payType, status := Success)))
         else SetBody(s, i, Finished))
    case Saving(order) =>
      if ok then SetBody(s, i, Crediting(order)).(orders := s.orders[t := order])
      else SetBody(s, i, Finished)
    case Crediting(order) =>
      // IncreaseUserQuota refuses a negative amount
      if ok && Owed(order, unit, s.workers[i].caller) >= 0
      then Pay(SetBody(s, i, Finished), t, order, unit, s.workers[i].caller)
      else SetBody(s, i, Finished)
    case Finished => s
  }

  predicate InBody(s: State, i: nat) {
    && i < |s.workers| && i < |s.lock.threads|
    && s.lock.threads[i].pc.Critical? && !s.workers[i].body.Finished?
  }

  function Step(s: State, a: Action, unit: real): State {
    match a
    case Insert(t, user, amount, money, payType) =>
      if t in s.orders then s
      else s.(orders := s.orders[t := TopUp(user, amount, money, PROVIDER_EPAY, payType, Pending)])
    case Arrive(t, caller) =>
      s.(lock := OrderLock.Step(s.lock, OrderLock.Spawn(t)), workers := s.workers + [Worker(caller, Fresh)])
    case Turn(i, ok) =>
      if InBody(s, i) then BodyStep(s, i, ok, unit)
      else s.(lock := OrderLock.Step(s.lock, OrderLock.Run(i)))
  }

  function Exec(s: State, actions: seq<Action>, unit: real): State
    decreases |actions|
  {
    if actions == [] then s else Exec(Step(s, actions[0], unit), actions[1..], unit)
  }

  function Init(orders: map<string, TopUp>, quota: map<int, int>): State {
    State(OrderLock.Init(), [], orders, quota, [])
  }

  // ---- the invariant -----------------------------------------------------------

  ghost predicate Uncredited(s: State, t: string) {
    forall k :: 0 <= k < |s.credits| ==> s.credits[k].trade != t
  }

  ghost predicate SectionOk(s: State) {
    && |s.workers| == |s.lock.threads|
    && (forall i: nat :: i < |s.workers| && (s.workers[i].body.Saving? || s.workers[i].body.Crediting?) ==>
          s.lock.threads[i].pc.Critical?)
  }

  /** What a worker in the middle of its section may rely on. */
  ghost predicate BodyOk(s: State, i: nat)
    requires i < |s.workers| && i < |s.lock.threads|
  {
    var t := s.lock.threads[i].trade;
    match s.workers[i].body
    case Saving(o) =>
      && s.workers[i].caller.Notify?
      && t in s.orders && s.orders[t].status == Pending && s.orders[t].provider == PROVIDER_EPAY
      && o == s.orders[t].(payType := s.workers[i].caller.payType, status := Success)
      && Uncredited(s, t)
    case Crediting(o) =>
      && s.workers[i].caller.Notify?
      && t in s.orders && s.orders[t] == o && o.status == Success && o.provider == PROVIDER_EPAY
      && o.payType == s.workers[i].caller.payType
      && Uncredited(s, t)
    case _ => true
  }

  ghost predicate CreditOk(s: State, c: Credit, unit: real) {
    && c.trade in s.orders
    && s.orders[c.trade].status == Success
    && c.user == s.orders[c.trade].user
    && c.quota == Owed(s.orders[c.trade], unit, c.caller) >= 0
    && (c.caller.Admin? ==> c.quota > 0)
    && (c.caller.Notify? ==> s.orders[c.trade].provider == PROVIDER_EPAY)
  }

  ghost predicate CreditsOk(s: State, unit: real) {
    && (forall k :: 0 <= k < |s.credits| ==> CreditOk(s, s.credits[k], unit))
    && (forall j, k :: 0 <= j < k < |s.credits| ==> s.credits[j].trade != s.credits[k].trade)
  }

  ghost predicate Inv(s: State, unit: real) {
    && SectionOk(s)
    && (forall i: nat :: i < |s.workers| ==> BodyOk(s, i))
    && CreditsOk(s, unit)
  }

  ghost predicate Safe(s: State, unit: real) {
    OrderLock.Inv(s.lock) && Inv(s, unit)
  }

  lemma PendingIsUncredited(s: State, t: string, unit: real)
    requires CreditsOk(s, unit) && (t in s.orders ==> s.orders[t].status != Success)
    ensures Uncredited(s, t)
  {
  }

  lemma LockStepKeeps(s: State, i: nat, lock': OrderLock.State, unit: real)
    requires Inv(s, unit) && !InBody(s, i) && OrderLock.OnlyMoves(s.lock, lock', i)
    ensures Inv(s.(lock := lock'), unit)
  {
    var s' := s.(lock := lock');
    forall j: nat | j < |s.workers| ensures BodyOk(s', j) {
      assert BodyOk(s, j);
    }
  }

  /** Another worker inside a section works on another order. */
  lemma OthersElsewhere(s: State, i: nat, j: nat)
    requires SectionOk(s) && OrderLock.MutualExclusion(s.lock) && InBody(s, i)
    requires j < |s.workers| && j != i && (s.workers[j].body.Saving? || s.workers[j].body.Crediting?)
    ensures s.lock.threads[j].trade != s.lock.threads[i].trade
  {
    assert OrderLock.InSection(s.lock.threads[i].pc) && OrderLock.InSection(s.lock.threads[j].pc);
  }

  /** What a body step does: to its own order and worker only. */
  lemma BodyStepFrame(s: State, i: nat, ok: bool, unit: real)
    requires i < |s.workers| && i < |s.lock.threads|
    ensures var s' := BodyStep(s, i, ok, unit);
      && s'.lock == s.lock && |s'.workers| == |s.workers|
      && (forall j: nat :: j < |s.workers| && j != i ==> s'.workers[j] == s.workers[j])
      && (forall t :: t in s.orders ==> t in s'.orders)
      && (forall t :: t in s'.orders && t != s.lock.threads[i].trade ==> t in s.orders && s'.orders[t] == s.orders[t])
      && s.credits <= s'.credits
      && (forall k :: |s.credits| <= k < |s'.credits| ==> s'.credits[k].trade == s.lock.threads[i].trade)
  {
  }

  lemma OtherBodiesKept(s: State, s': State, i: nat, j: nat)
    requires i < |s.workers| && i < |s.lock.threads| && j < |s.workers| && j < |s.lock.threads| && j < |s'.workers|
    requires s'.lock == s.lock && s'.workers[j] == s.workers[j]
    requires forall t :: t in s.orders && t != s.lock.threads[i].trade ==> t in s'.orders && s'.orders[t] == s.orders[t]
    requires s.credits <= s'.credits
    requires forall k :: |s.credits| <= k < |s'.credits| ==> s'.credits[k].trade == s.lock.threads[i].trade
    requires s.workers[j].body.Saving? || s.workers[j].body.Crediting? ==> s.lock.threads[j].trade != s.lock.threads[i].trade
    requires BodyOk(s, j)
    ensures BodyOk(s', j)
  {
  }

  lemma BodyStepKeeps(s: State, i: nat, ok: bool, unit: real)
    requires Inv(s, unit) && OrderLock.MutualExclusion(s.lock) && InBody(s, i)
    ensures Inv(BodyStep(s, i, ok, unit), unit)
  {
    var s' := BodyStep(s, i, ok, unit);
    BodyStepFrame(s, i, ok, unit);
    forall j: nat | j < |s.workers| && j != i ensures BodyOk(s', j) {
      if s.workers[j].body.Saving? || s.workers[j].body.Crediting? {
        OthersElsewhere(s, i, j);
      }
      OtherBodiesKept(s, s', i, j);
    }
    OwnBodyKept(s, i, ok, unit);
  }

  lemma OwnBodyKept(s: State, i: nat, ok: bool, unit: real)
    requires CreditsOk(s, unit) && InBody(s, i) && BodyOk(s, i)
    ensures BodyOk(BodyStep(s, i, ok, unit), i) && CreditsOk(BodyStep(s, i, ok, unit), unit)
  {
    var t := s.lock.threads[i].trade;
    if t in s.orders && s.orders[t].status == Pending {
      PendingIsUncredited(s, t, unit);
    }
    match s.workers[i].body
    case Fresh => FreshKept(s, i, ok, unit);
    case Saving(_) => SavingKept(s, i, ok, unit);
    case Crediting(_) => CreditingKept(s, i, ok, unit);
  }

  lemma FreshKept(s: State, i: nat, ok: bool, unit: real)
    requires CreditsOk(s, unit) && InBody(s, i) && s.workers[i].body.Fresh?
    requires var t := s.lock.threads[i].trade; t in s.orders && s.orders[t].status == Pending ==> Uncredited(s, t)
    ensures BodyOk(BodyStep(s, i, ok, unit), i) && CreditsOk(BodyStep(s, i, ok, unit), unit)
  {
    if s.workers[i].caller.Admin? {
      AdminKept(s, i, ok, unit);
    }
  }

  lemma AdminKept(s: State, i: nat, ok: bool, unit: real)
    requires CreditsOk(s, unit) && InBody(s, i)
    requires var t := s.lock.threads[i].trade; t in s.orders && s.orders[t].status == Pending ==> Uncredited(s, t)
    ensures CreditsOk(AdminStep(s, i, ok, unit), unit)
  {
    var s' := AdminStep(s, i, ok, unit);
    forall k | 0 <= k < |s'.credits| ensures CreditOk(s', s'.credits[k], unit) {
      if k < |s.credits| {
        assert CreditOk(s, s.credits[k], unit);
      }
    }
  }

  lemma SavingKept(s: State, i: nat, ok: bool, unit: real)
    requires CreditsOk(s, unit) && InBody(s, i) && BodyOk(s, i) && s.workers[i].body.Saving?
    ensures BodyOk(BodyStep(s, i, ok, unit), i) && CreditsOk(BodyStep(s, i, ok, unit), unit)
  {
  }

  lemma CreditingKept(s: State, i: nat, ok: bool, unit: real)
    requires CreditsOk(s, unit) && InBody(s, i) && BodyOk(s, i) && s.workers[i].body.Crediting?
    ensures BodyOk(BodyStep(s, i, ok, unit), i) && CreditsOk(BodyStep(s, i, ok, unit), unit)
  {
  }

  lemma StepKeepsSafe(s: State, a: Action, unit: real)
    requires Safe(s, unit)
    ensures Safe(Step(s, a, unit), unit)
  {
    match a
    case Insert(t, user, amount, money, payType) =>
      InsertKeeps(s, Step(s, a, unit), unit);
    case Arrive(t, _) =>
      OrderLock.StepKeepsInv(s.lock, OrderLock.Spawn(t));
      ArriveKeeps(s, a, unit);
    case Turn(i, ok) =>
      OrderLock.InvExcludes(s.lock);
      if InBody(s, i) {
        BodyStepFrame(s, i, ok, unit);
        BodyStepKeeps(s, i, ok, unit);
      } else {
        OrderLock.StepKeepsInv(s.lock, OrderLock.Run(i));
        OrderLock.StepMovesOne(s.lock, i);
        LockStepKeeps(s, i, OrderLock.Step(s.lock, OrderLock.Run(i)), unit);
      }
  }

  lemma InsertKeeps(s: State, s': State, unit: real)
    requires Inv(s, unit)
    requires s' == s.(orders := s'.orders)
    requires forall t :: t in s.orders ==> t in s'.orders && s'.orders[t] == s.orders[t]
    ensures Inv(s', unit)
  {
    forall j: nat | j < |s.workers| ensures BodyOk(s', j) {
      assert BodyOk(s, j);
    }
  }

  lemma ArriveKeeps(s: State, a: Action, unit: real)
    requires Inv(s, unit) && a.Arrive?
    ensures Inv(Step(s, a, unit), unit)
  {
    var s' := Step(s, a, unit);
    forall j: nat | j < |s'.workers| ensures BodyOk(s', j) {
      if j < |s.workers| {
        assert BodyOk(s, j);
      }
    }
  }

  lemma {:induction false} RunsKeepSafe(s: State, actions: seq<Action>, unit: real)
    requires Safe(s, unit)
    ensures Safe(Exec(s, actions, unit), unit)
    decreases |actions|
  {
    if actions != [] {
      StepKeepsSafe(s, actions[0], unit);
      RunsKeepSafe(Step(s, actions[0], unit), actions[1..], unit);
    }
  }

  // ---- conservation ---------------------------------------------------------------

  /** Quota handed to `user` by a list of credits. */
  function Received(credits: seq<Credit>, user: int): int {
    if credits == [] then 0
    else
      var c := credits[|credits| - 1];
      Received(credits[..|credits| - 1], user) + if c.user == user then c.quota else 0
  }

  ghost predicate Balanced(s: State, quota: map<int, int>) {
    forall u :: QuotaOf(s.quota, u) == QuotaOf(quota, u) + Received(s.credits, u)
  }

  lemma ReceivedAppend(credits: seq<Credit>, c: Credit, user: int)
    ensures Received(credits + [c], user) == Received(credits, user) + if c.user == user then c.quota else 0
  {
    assert (credits + [c])[..|credits|] == credits;
  }

  lemma PayKeepsBalance(s: State, trade: string, order: TopUp, unit: real, caller: Caller, quota: map<int, int>)
    requires Balanced(s, quota)
    ensures Balanced(Pay(s, trade, order, unit, caller), quota)
  {
    var s' := Pay(s, trade, order, unit, caller);
    forall u ensures QuotaOf(s'.quota, u) == QuotaOf(quota, u) + Received(s'.credits, u) {
      ReceivedAppend(s.credits, Credit(trade, order.user, Owed(order, unit, caller), caller), u);
    }
  }

  lemma StepKeepsBalance(s: State, a: Action, unit: real, quota: map<int, int>)
    requires Balanced(s, quota)
    ensures Balanced(Step(s, a, unit), quota)
  {
    if a.Turn? && InBody(s, a.thread) {
      var i, t := a.thread, s.lock.threads[a.thread].trade;
      var s1 := SetBody(s, i, Finished);
      match s.workers[i].body
      case Fresh =>
        if t in s.orders {
          PayKeepsBalance(s1.(orders := s.orders[t := s.orders[t].(status := Success)]), t, s.orders[t], unit, Admin, quota);
        }
      case Crediting(order) =>
        PayKeepsBalance(s1, t, order, unit, s.workers[i].caller, quota);
      case _ =>
    }
  }

  lemma {:induction false} RunsKeepBalance(s: State, actions: seq<Action>, unit: real, quota: map<int, int>)
    requires Balanced(s, quota)
    ensures Balanced(Exec(s, actions, unit), quota)
    decreases |actions|
  {
    if actions != [] {
      StepKeepsBalance(s, actions[0], unit, quota);
      RunsKeepBalance(Step(s, actions[0], unit), actions[1..], unit, quota);
    }
  }

  lemma RunsKeepCredits(orders: map<string, TopUp>, quota: map<int, int>, actions: seq<Action>, unit: real)
    ensures CreditsOk(Exec(Init(orders, quota), actions, unit), unit)
    ensures Safe(Init(orders, quota), unit)
  {
    RunsKeepSafe(Init(orders, quota), actions, unit);
  }

  /**
    In every run, from every database: no order is credited twice, each credit
    belongs to an order that is now successful and is exactly what the order is
    worth, a callback only ever credits Epay orders, and users hold what they held
    plus their credits.
   */
  lemma EveryRunCreditsOnce(orders: map<string, TopUp>, quota: map<int, int>, actions: seq<Action>, unit: real)
    ensures var s := Exec(Init(orders, quota), actions, unit);
      && CreditsOk(s, unit) && Balanced(s, quota)
      && (forall u :: u in quota ==> u in s.quota && s.quota[u] == quota[u] + Received(s.credits, u))
      && (forall u :: u in s.quota && u !in quota ==> s.quota[u] == Received(s.credits, u))
  {
    RunsKeepCredits(orders, quota, actions, unit);
    RunsKeepBalance(Init(orders, quota), actions, unit, quota);
    RunsKeepUsers(Init(orders, quota), actions, unit);
    var s := Exec(Init(orders, quota), actions, unit);
    forall u | u in s.quota ensures s.quota[u] == (if u in quota then quota[u] else 0) + Received(s.credits, u) {
      assert QuotaOf(s.quota, u) == QuotaOf(quota, u) + Received(s.credits, u);
    }
  }

  lemma {:induction false} RunsKeepUsers(s: State, actions: seq<Action>, unit: real)
    ensures s.quota.Keys <= Exec(s, actions, unit).quota.Keys
    decreases |actions|
  {
    if actions != [] {
      RunsKeepUsers(Step(s, actions[0], unit), actions[1..], unit);
    }
  }

  // ---- a decided order is final ------------------------------------------------------

  /** t is no longer pending, nobody has credited it and nobody is about to. */
  ghost predicate Closed(s: State, t: string) {
    && t in s.orders && s.orders[t].status != Pending && Uncredited(s, t)
    && (forall i: nat :: i < |s.workers| && i < |s.lock.threads| && s.lock.threads[i].trade == t ==>
          !s.workers[i].body.Saving? && !s.workers[i].body.Crediting?)
  }

  lemma DecidedStays(s: State, a: Action, unit: real, t: string)
    requires Inv(s, unit) && t in s.orders && s.orders[t].status != Pending
    ensures t in Step(s, a, unit).orders && Step(s, a, unit).orders[t] == s.orders[t]
    ensures Closed(s, t) ==> Closed(Step(s, a, unit), t)
  {
    match a
    case Insert(_, _, _, _, _) =>
    case Arrive(_, _) =>
    case Turn(i, ok) =>
      if InBody(s, i) {
        assert BodyOk(s, i);
        BodyStepFrame(s, i, ok, unit);
      } else {
        OrderLock.StepMovesOne(s.lock, i);
      }
  }

  /** A row that is not pending never changes again; if it starts that way it is never credited. */
  lemma {:induction false} DecidedIsFinal(s: State, actions: seq<Action>, unit: real, t: string)
    requires Safe(s, unit) && t in s.orders && s.orders[t].status != Pending
    ensures var s' := Exec(s, actions, unit);
      t in s'.orders && s'.orders[t] == s.orders[t] && (Closed(s, t) ==> Uncredited(s', t))
    decreases |actions|
  {
    if actions != [] {
      StepKeepsSafe(s, actions[0], unit);
      DecidedStays(s, actions[0], unit, t);
      DecidedIsFinal(Step(s, actions[0], unit), actions[1..], unit, t);
    }
  }

  // ---- when a paid order is credited -------------------------------------------------------------

  /** The dollars an order stands for: the money of a Stripe order, the amount of any other. */
  function Dollars(order: TopUp): real {
    if order.provider == "stripe" then order.money else order.amount as real
  }

  /** q is x without its fraction. */
  predicate Truncates(q: int, x: real) {
    if x >= 0.0 then q as real <= x < q as real + 1.0 else q as real - 1.0 < x <= q as real
  }

  lemma IntPartTruncates(x: real)
    ensures Truncates(IntPart(x), x)
  {
  }

  /** What is credited for an order is its dollars times the unit, without the fraction. */
  lemma OwedTruncates(order: TopUp, unit: real, caller: Caller, price: real)
    requires price == Dollars(order) * unit && (caller.Notify? ==> order.provider == PROVIDER_EPAY)
    ensures Truncates(Owed(order, unit, caller), price)
  {
    assert order.provider == PROVIDER_EPAY ==> order.provider != "stripe";
    IntPartTruncates(price);
  }

  /**
    Every credit of every run, from every database: it goes to the order's user, is the order's dollars times the
    unit without the fraction, is never negative, is positive if an administrator gave it, and is for an Epay order
    if a callback did.
   */
  lemma CreditsAreExact(
    orders: map<string, TopUp>, quota: map<int, int>, actions: seq<Action>, unit: real, s: State, k: nat)
    requires s == Exec(Init(orders, quota), actions, unit) && k < |s.credits|
    ensures var c := s.credits[k];
      && c.trade in s.orders && s.orders[c.trade].status == Success && c.user == s.orders[c.trade].user
      && Truncates(c.quota, Dollars(s.orders[c.trade]) * unit) && c.quota >= 0
      && (c.caller.Admin? ==> c.quota > 0) && (c.caller.Notify? ==> s.orders[c.trade].provider == "epay")
  {
    RunsKeepCredits(orders, quota, actions, unit);
    assert CreditOk(s, s.credits[k], unit);
    var order := s.orders[s.credits[k].trade];
    OwedTruncates(order, unit, s.credits[k].caller, Dollars(order) * unit);
  }

  /** What a run has done to one order: completed it, lost its credit, failed in a section before completing it. */
  datatype Seen = Seen(completed: bool, lost: bool, failed: bool)

  const NOTHING := Seen(false, false, false)

  /** A step inside the section of order t. */
  predicate OnOrder(s: State, a: Action, t: string) {
    a.Turn? && InBody(s, a.thread) && s.lock.threads[a.thread].trade == t
  }

  /** A callback's successful save, or an administrator's successful transaction. */
  predicate Completes(s: State, a: Action, unit: real, t: string) {
    && OnOrder(s, a, t) && a.ok
    && var w := s.workers[a.thread];
       || w.body.Saving?
       || (w.body.Fresh? && w.caller.Admin? && t in s.orders && s.orders[t].status == Pending && Owed(s.orders[t], unit, Admin) > 0)
  }

  /** A completed order is the order that was pending, now successful, with the payment type a callback was told. */
  lemma CompletionRecords(s: State, a: Action, unit: real, t: string)
    requires Inv(s, unit) && Completes(s, a, unit, t)
    ensures t in s.orders && t in Step(s, a, unit).orders && s.orders[t].status == Pending
    ensures var caller := s.workers[a.thread].caller;
      Step(s, a, unit).orders[t] == s.orders[t].(
        status := Success, payType := if caller.Notify? then caller.payType else s.orders[t].payType)
  {
    assert BodyOk(s, a.thread);
  }

  /** The quota write fails, or is refused because the amount is negative. */
  predicate LosesCredit(s: State, a: Action, unit: real, t: string) {
    && OnOrder(s, a, t)
    && var w := s.workers[a.thread];
       w.body.Crediting? && (!a.ok || Owed(w.body.order, unit, w.caller) < 0)
  }

  /** A callback's read or save fails, or an administrator's transaction. */
  predicate FailsEarly(s: State, a: Action, t: string) {
    && OnOrder(s, a, t) && !a.ok
    && var w := s.workers[a.thread];
       w.body.Fresh? || w.body.Saving?
  }

  function Note(h: Seen, s: State, a: Action, unit: real, t: string): Seen {
    Seen(h.completed || Completes(s, a, unit, t), h.lost || LosesCredit(s, a, unit, t), h.failed || FailsEarly(s, a, t))
  }

  function Watch(h: Seen, s: State, actions: seq<Action>, unit: real, t: string): Seen
    decreases |actions|
  {
    if actions == [] then h else Watch(Note(h, s, actions[0], unit, t), Step(s, actions[0], unit), actions[1..], unit, t)
  }

  ghost predicate CreditedNow(s: State, t: string) {
    exists k :: 0 <= k < |s.credits| && s.credits[k].trade == t
  }

  ghost predicate CreditDue(s: State, t: string) {
    exists i: nat :: i < |s.workers| && i < |s.lock.threads| && s.lock.threads[i].trade == t && s.workers[i].body.Crediting?
  }

  /** A section of this caller completes the pending order unless a store call fails. */
  predicate Competent(caller: Caller, order: TopUp, unit: real) {
    if caller.Notify? then order.provider == PROVIDER_EPAY else Owed(order, unit, Admin) > 0
  }

  /** No such section for t has got past the point where the order leaves `pending`. */
  ghost predicate Untouched(s: State, t: string, order: TopUp, unit: real) {
    forall i: nat ::
      (i < |s.workers| && i < |s.lock.threads| && s.lock.threads[i].trade == t && Competent(s.workers[i].caller, order, unit)) ==>
      !s.workers[i].body.Finished? && !s.workers[i].body.Crediting?
  }

  /** The state bears out what was seen of an order that was pending. */
  ghost predicate Agrees(h: Seen, s: State, t: string, order: TopUp, unit: real) {
    && t in s.orders
    && s.orders[t] == order.(payType := s.orders[t].payType, status := s.orders[t].status)
    && if h.completed then
         s.orders[t].status == Success && if h.lost then Closed(s, t) else CreditedNow(s, t) || CreditDue(s, t)
       else
         s.orders[t].status == Pending && !h.lost && (h.failed || Untouched(s, t, order, unit))
  }

  lemma StepAgrees(h: Seen, s: State, a: Action, unit: real, t: string, order: TopUp)
    requires Safe(s, unit) && Agrees(h, s, t, order, unit)
    ensures Agrees(Note(h, s, a, unit, t), Step(s, a, unit), t, order, unit)
  {
    if h.lost {
      DecidedStays(s, a, unit, t);
    }
    match a
    case Insert(_, _, _, _, _) =>
    case Arrive(_, _) => ArriveAgrees(h, s, a, unit, t, order);
    case Turn(i, ok) =>
      if !InBody(s, i) {
        OrderLock.StepMovesOne(s.lock, i);
        LockAgrees(h, s, i, OrderLock.Step(s.lock, OrderLock.Run(i)), t, order, unit);
      } else if s.lock.threads[i].trade == t {
        OrderLock.InvExcludes(s.lock);
        OwnBodyAgrees(h, s, i, ok, unit, t, order);
      } else {
        OtherBodyAgrees(h, s, i, ok, unit, t, order);
      }
  }

  lemma ArriveAgrees(h: Seen, s: State, a: Action, unit: real, t: string, order: TopUp)
    requires SectionOk(s) && Agrees(h, s, t, order, unit) && a.Arrive?
    ensures Agrees(h, Step(s, a, unit), t, order, unit)
  {
    var s' := Step(s, a, unit);
    if CreditDue(s, t) {
      var k: nat :| k < |s.workers| && k < |s.lock.threads| && s.lock.threads[k].trade == t && s.workers[k].body.Crediting?;
      assert s'.lock.threads[k] == s.lock.threads[k] && s'.workers[k] == s.workers[k];
    }
  }

  lemma LockAgrees(h: Seen, s: State, i: nat, lock': OrderLock.State, t: string, order: TopUp, unit: real)
    requires Agrees(h, s, t, order, unit) && OrderLock.OnlyMoves(s.lock, lock', i)
    ensures Agrees(h, s.(lock := lock'), t, order, unit)
  {
    if CreditDue(s, t) {
      var k: nat :| k < |s.workers| && k < |s.lock.threads| && s.lock.threads[k].trade == t && s.workers[k].body.Crediting?;
      assert lock'.threads[k].trade == t;
    }
  }

  /** A step in another order's section. */
  lemma OtherBodyAgrees(h: Seen, s: State, i: nat, ok: bool, unit: real, t: string, order: TopUp)
    requires Inv(s, unit) && InBody(s, i) && s.lock.threads[i].trade != t && Agrees(h, s, t, order, unit)
    ensures Agrees(h, BodyStep(s, i, ok, unit), t, order, unit)
  {
    var s' := BodyStep(s, i, ok, unit);
    BodyStepFrame(s, i, ok, unit);
    if CreditedNow(s, t) {
      var k :| 0 <= k < |s.credits| && s.credits[k].trade == t;
      assert s'.credits[k] == s.credits[k];
    } else if CreditDue(s, t) {
      var k: nat :| k < |s.workers| && k < |s.lock.threads| && s.lock.threads[k].trade == t && s.workers[k].body.Crediting?;
      assert s'.workers[k] == s.workers[k];
    }
  }

  /** Only one worker at a time is in the section of t. */
  lemma AloneOnOrder(s: State, i: nat, t: string)
    requires SectionOk(s) && OrderLock.MutualExclusion(s.lock) && InBody(s, i) && s.lock.threads[i].trade == t
    ensures forall j: nat :: j < |s.workers| && j != i && s.lock.threads[j].trade == t ==>
      !s.workers[j].body.Saving? && !s.workers[j].body.Crediting?
  {
    forall j: nat | j < |s.workers| && j != i && (s.workers[j].body.Saving? || s.workers[j].body.Crediting?)
      ensures s.lock.threads[j].trade != t
    {
      OthersElsewhere(s, i, j);
    }
  }

  lemma OwnBodyAgrees(h: Seen, s: State, i: nat, ok: bool, unit: real, t: string, order: TopUp)
    requires Inv(s, unit) && OrderLock.MutualExclusion(s.lock) && InBody(s, i) && s.lock.threads[i].trade == t
    requires Agrees(h, s, t, order, unit)
    ensures Agrees(Note(h, s, Turn(i, ok), unit, t), BodyStep(s, i, ok, unit), t, order, unit)
  {
    AloneOnOrder(s, i, t);
    BodyStepFrame(s, i, ok, unit);
    assert BodyOk(s, i);
    match s.workers[i].body
    case Fresh => FreshAgrees(h, s, i, ok, unit, t, order);
    case Saving(_) => SavingAgrees(h, s, i, ok, unit, t, order);
    case Crediting(_) => CreditingAgrees(h, s, i, ok, unit, t, order);
  }

  lemma FreshAgrees(h: Seen, s: State, i: nat, ok: bool, unit: real, t: string, order: TopUp)
    requires Inv(s, unit) && InBody(s, i) && s.lock.threads[i].trade == t && s.workers[i].body.Fresh?
    requires Agrees(h, s, t, order, unit)
    ensures Agrees(Note(h, s, Turn(i, ok), unit, t), BodyStep(s, i, ok, unit), t, order, unit)
  {
    var s' := BodyStep(s, i, ok, unit);
    BodyStepFrame(s, i, ok, unit);
    if h.completed && CreditedNow(s, t) {
      var k :| 0 <= k < |s.credits| && s.credits[k].trade == t;
      assert s'.credits[k] == s.credits[k];
    } else if h.completed && CreditDue(s, t) {
      var k: nat :| k < |s.workers| && k < |s.lock.threads| && s.lock.threads[k].trade == t && s.workers[k].body.Crediting?;
      assert s'.workers[k] == s.workers[k];
    } else if Completes(s, Turn(i, ok), unit, t) {
      assert s'.credits[|s.credits|].trade == t;
    }
  }

  lemma SavingAgrees(h: Seen, s: State, i: nat, ok: bool, unit: real, t: string, order: TopUp)
    requires InBody(s, i) && s.lock.threads[i].trade == t && s.workers[i].body.Saving? && BodyOk(s, i)
    requires Agrees(h, s, t, order, unit)
    ensures Agrees(Note(h, s, Turn(i, ok), unit, t), BodyStep(s, i, ok, unit), t, order, unit)
  {
    if ok {
      assert BodyStep(s, i, ok, unit).workers[i].body.Crediting?;
    }
  }

  lemma CreditingAgrees(h: Seen, s: State, i: nat, ok: bool, unit: real, t: string, order: TopUp)
    requires SectionOk(s) && InBody(s, i) && s.lock.threads[i].trade == t && s.workers[i].body.Crediting? && BodyOk(s, i)
    requires forall j: nat :: j < |s.workers| && j != i && s.lock.threads[j].trade == t ==>
      !s.workers[j].body.Saving? && !s.workers[j].body.Crediting?
    requires Agrees(h, s, t, order, unit)
    ensures Agrees(Note(h, s, Turn(i, ok), unit, t), BodyStep(s, i, ok, unit), t, order, unit)
  {
    if !LosesCredit(s, Turn(i, ok), unit, t) {
      assert BodyStep(s, i, ok, unit).credits[|s.credits|].trade == t;
    }
  }

  lemma {:induction false} RunsAgree(h: Seen, s: State, actions: seq<Action>, unit: real, t: string, order: TopUp)
    requires Safe(s, unit) && Agrees(h, s, t, order, unit)
    ensures Agrees(Watch(h, s, actions, unit, t), Exec(s, actions, unit), t, order, unit)
    decreases |actions|
  {
    if actions != [] {
      StepKeepsSafe(s, actions[0], unit);
      StepAgrees(h, s, actions[0], unit, t, order);
      RunsAgree(Note(h, s, actions[0], unit, t), Step(s, actions[0], unit), actions[1..], unit, t, order);
    }
  }

  /** t is successful and exactly one credit is on record for it: to the user, the price without its fraction, at least `least`. */
  ghost predicate PaidOut(s: State, t: string, user: int, price: real, least: int) {
    && t in s.orders && s.orders[t].status == Success
    && (exists k :: 0 <= k < |s.credits| && Pays(s.credits[k], t, user, price, least))
    && (forall j, k :: 0 <= j < k < |s.credits| ==> !(s.credits[j].trade == t && s.credits[k].trade == t))
  }

  predicate Pays(c: Credit, t: string, user: int, price: real, least: int) {
    c.trade == t && c.user == user && Truncates(c.quota, price) && c.quota >= least
  }

  lemma CreditPays(s: State, unit: real, t: string, order: TopUp, price: real)
    requires CreditsOk(s, unit) && CreditedNow(s, t) && t in s.orders && price == Dollars(order) * unit
    requires s.orders[t] == order.(payType := s.orders[t].payType, status := s.orders[t].status)
    ensures PaidOut(s, t, order.user, price, 0)
  {
    var k :| 0 <= k < |s.credits| && s.credits[k].trade == t;
    assert CreditOk(s, s.credits[k], unit);
    SameDollars(s.orders[t], order, unit, price);
    OwedTruncates(s.orders[t], unit, s.credits[k].caller, price);
    assert Pays(s.credits[k], t, order.user, price, 0);
  }

  lemma SameDollars(now: TopUp, order: TopUp, unit: real, price: real)
    requires now == order.(payType := now.payType, status := now.status) && price == Dollars(order) * unit
    ensures price == Dollars(now) * unit
  {
  }

  /**
    In every run with any store failures, for an order of any provider that was pending: unless a callback is just
    about to credit it, the order has been credited exactly once, the right amount to the right user, if and only
    if some save or administrator's transaction completed it and no quota write for it failed or was refused. It is
    successful without a credit if and only if such a write did fail.
   */
  lemma CreditedExactlyWhen(
    orders: map<string, TopUp>, quota: map<int, int>, actions: seq<Action>, unit: real, t: string, s: State)
    requires t in orders && orders[t].status == Pending
    requires s == Exec(Init(orders, quota), actions, unit) && !CreditDue(s, t)
    ensures var h := Watch(NOTHING, Init(orders, quota), actions, unit, t);
      && (PaidOut(s, t, orders[t].user, Dollars(orders[t]) * unit, 0) <==> h.completed && !h.lost)
      && (t in s.orders && s.orders[t].status == Success && Uncredited(s, t) <==> h.lost)
  {
    RunsKeepCredits(orders, quota, actions, unit);
    RunsAgree(NOTHING, Init(orders, quota), actions, unit, t, orders[t]);
    var h := Watch(NOTHING, Init(orders, quota), actions, unit, t);
    if h.completed && !h.lost {
      CreditPays(s, unit, t, orders[t], Dollars(orders[t]) * unit);
    }
  }

  // ---- without store failures -----------------------------------------------------------------------

  ghost predicate NoFailures(actions: seq<Action>) {
    forall k :: 0 <= k < |actions| && actions[k].Turn? ==> actions[k].ok
  }

  /** A callback's credit for the order would not be refused. */
  predicate Creditable(order: TopUp, unit: real) {
    order.provider == PROVIDER_EPAY ==> IntPart(order.amount as real * unit) >= 0
  }

  lemma StepLosesNothing(h: Seen, s: State, a: Action, unit: real, t: string, order: TopUp)
    requires Inv(s, unit) && Agrees(h, s, t, order, unit) && (a.Turn? ==> a.ok) && Creditable(order, unit)
    ensures !LosesCredit(s, a, unit, t) && !FailsEarly(s, a, t)
  {
    if OnOrder(s, a, t) {
      assert BodyOk(s, a.thread);
    }
  }

  lemma {:induction false} NothingFails(h: Seen, s: State, actions: seq<Action>, unit: real, t: string, order: TopUp)
    requires Safe(s, unit) && Agrees(h, s, t, order, unit) && NoFailures(actions) && Creditable(order, unit)
    ensures var end := Watch(h, s, actions, unit, t); end.lost == h.lost && end.failed == h.failed
    decreases |actions|
  {
    if actions != [] {
      StepKeepsSafe(s, actions[0], unit);
      StepAgrees(h, s, actions[0], unit, t, order);
      StepLosesNothing(h, s, actions[0], unit, t, order);
      NothingFails(Note(h, s, actions[0], unit, t), Step(s, actions[0], unit), actions[1..], unit, t, order);
    }
  }

  /** Somebody who could complete the order has finished, and nothing failed: it is paid out. */
  lemma FinishedPaysOut(
    orders: map<string, TopUp>, quota: map<int, int>, actions: seq<Action>, unit: real, t: string, i: nat, s: State)
    requires t in orders && orders[t].status == Pending && Creditable(orders[t], unit)
    requires NoFailures(actions) && s == Exec(Init(orders, quota), actions, unit)
    requires i < |s.workers| && i < |s.lock.threads| && s.lock.threads[i].trade == t
    requires Competent(s.workers[i].caller, orders[t], unit) && s.workers[i].body.Finished? && !CreditDue(s, t)
    ensures PaidOut(s, t, orders[t].user, Dollars(orders[t]) * unit, 0)
  {
    RunsKeepCredits(orders, quota, actions, unit);
    NothingFails(NOTHING, Init(orders, quota), actions, unit, t, orders[t]);
    RunsAgree(NOTHING, Init(orders, quota), actions, unit, t, orders[t]);
    CreditedExactlyWhen(orders, quota, actions, unit, t, s);
  }

  /** The signs of a truncation. */
  lemma TruncatesSign(q: int, x: real)
    requires Truncates(q, x)
    ensures (q >= 0 <==> x > -1.0) && (q >= 1 <==> x >= 1.0)
  {
  }

  lemma PaysAtLeast(s: State, t: string, user: int, price: real, least: int)
    requires PaidOut(s, t, user, price, 0) && (least == 0 || (least == 1 && price >= 1.0))
    ensures PaidOut(s, t, user, price, least)
  {
    var k :| 0 <= k < |s.credits| && Pays(s.credits[k], t, user, price, 0);
    TruncatesSign(s.credits[k].quota, price);
    assert Pays(s.credits[k], t, user, price, least);
  }

  lemma PaidOutSign(s: State, t: string, user: int, price: real)
    ensures PaidOut(s, t, user, price, 0) ==> price > -1.0
    ensures PaidOut(s, t, user, price, 1) ==> price >= 1.0
  {
    if k :| 0 <= k < |s.credits| && Pays(s.credits[k], t, user, price, 0) {
      TruncatesSign(s.credits[k].quota, price);
    }
    if k :| 0 <= k < |s.credits| && Pays(s.credits[k], t, user, price, 1) {
      TruncatesSign(s.credits[k].quota, price);
    }
  }

  /**
    When no store call fails: as soon as one callback for a pending Epay order has completed its section, and no
    other is in the middle of one, the order is successful and has been credited exactly once, by amount * unit
    without the fraction, exactly when that is not negative.
   */
  lemma PaidOrderCreditedExactlyOnce(orders: map<string, TopUp>, quota: map<int, int>, actions: seq<Action>, unit: real,
                                     t: string, i: nat, s: State, price: real)
    requires t in orders && orders[t].provider == PROVIDER_EPAY && orders[t].status == Pending
    requires NoFailures(actions) && s == Exec(Init(orders, quota), actions, unit)
    requires i < |s.workers| && i < |s.lock.threads| && s.lock.threads[i].trade == t
    requires s.workers[i].caller.Notify? && s.workers[i].body.Finished? && !CreditDue(s, t)
    requires price == orders[t].amount as real * unit
    ensures PaidOut(s, t, orders[t].user, price, 0) <==> price > -1.0
  {
    assert orders[t].provider != "stripe";
    IntPartTruncates(price);
    TruncatesSign(IntPart(price), price);
    PaidOutSign(s, t, orders[t].user, price);
    if price > -1.0 {
      FinishedPaysOut(orders, quota, actions, unit, t, i, s);
    }
  }

  /**
    Likewise as soon as one administrator's section for a pending order of any provider has completed: exactly one
    positive credit, of money * unit for a Stripe order and amount * unit for any other, without the fraction,
    exactly when that product is at least one.
   */
  lemma AdminCompletesExactlyOnce(orders: map<string, TopUp>, quota: map<int, int>, actions: seq<Action>, unit: real,
                                  t: string, i: nat, s: State, price: real)
    requires t in orders && orders[t].status == Pending
    requires NoFailures(actions) && s == Exec(Init(orders, quota), actions, unit)
    requires i < |s.workers| && i < |s.lock.threads| && s.lock.threads[i].trade == t
    requires s.workers[i].caller.Admin? && s.workers[i].body.Finished? && !CreditDue(s, t)
    requires price == (if orders[t].provider == "stripe" then orders[t].money else orders[t].amount as real) * unit
    ensures PaidOut(s, t, orders[t].user, price, 1) <==> price >= 1.0
  {
    OwedTruncates(orders[t], unit, Admin, price);
    TruncatesSign(Owed(orders[t], unit, Admin), price);
    PaidOutSign(s, t, orders[t].user, price);
    if price >= 1.0 {
      CreditableIfPositive(orders[t], unit, price);
      FinishedPaysOut(orders, quota, actions, unit, t, i, s);
      PaysAtLeast(s, t, orders[t].user, price, 1);
    }
  }

  lemma CreditableIfPositive(order: TopUp, unit: real, price: real)
    requires price == Dollars(order) * unit >= 1.0
    ensures Creditable(order, unit)
  {
    if order.provider == PROVIDER_EPAY {
      assert order.provider != "stripe";
      IntPartTruncates(price);
    }
  }

  // ---- progress: every callback can get through ------------------------------------------------------

  predicate PastBody(pc: OrderLock.Pc) {
    pc.Release? || pc.Reenter? || pc.Uncount? || pc.Drop? || pc.LeaveUnlock? || pc.Done?
  }

  /** Nobody leaves a section before its body is finished. */
  ghost predicate Through(s: State) {
    forall i: nat :: i < |s.workers| && i < |s.lock.threads| && PastBody(s.lock.threads[i].pc) ==> s.workers[i].body.Finished?
  }

  /** The same callers for the same orders, and perhaps more of them. */
  ghost predicate Continues(s: State, s': State) {
    && |s.workers| <= |s'.workers| && |s.lock.threads| <= |s'.lock.threads|
    && (forall i: nat :: i < |s.workers| ==> s'.workers[i].caller == s.workers[i].caller)
    && (forall i: nat :: i < |s.lock.threads| ==> s'.lock.threads[i].trade == s.lock.threads[i].trade)
  }

  lemma LockStepGoesThrough(s: State, i: nat)
    requires SectionOk(s) && Through(s) && !InBody(s, i)
    ensures Through(s.(lock := OrderLock.Step(s.lock, OrderLock.Run(i))))
  {
    OrderLock.StepMovesOne(s.lock, i);
  }

  lemma StepGoesThrough(s: State, a: Action, unit: real)
    requires SectionOk(s) && Through(s)
    ensures Through(Step(s, a, unit)) && Continues(s, Step(s, a, unit))
  {
    if a.Turn? {
      if InBody(s, a.thread) {
        BodyStepFrame(s, a.thread, a.ok, unit);
        BodyStepStays(s, a.thread, a.ok, unit);
      } else {
        OrderLock.StepMovesOne(s.lock, a.thread);
        LockStepGoesThrough(s, a.thread);
      }
    }
  }

  lemma {:induction false} RunsGoThrough(s: State, actions: seq<Action>, unit: real)
    requires Safe(s, unit) && Through(s)
    ensures Through(Exec(s, actions, unit)) && Continues(s, Exec(s, actions, unit))
    decreases |actions|
  {
    if actions != [] {
      StepKeepsSafe(s, actions[0], unit);
      StepGoesThrough(s, actions[0], unit);
      RunsGoThrough(Step(s, actions[0], unit), actions[1..], unit);
    }
  }

  /** Steps that a body still has to take. */
  function BodyRank(body: Body): nat {
    match body
    case Fresh => 3
    case Saving(_) => 2
    case Crediting(_) => 1
    case Finished => 0
  }

  function BodyWork(workers: seq<Worker>): nat {
    if workers == [] then 0 else BodyRank(workers[0].body) + BodyWork(workers[1..])
  }

  lemma {:induction false} BodyWorkUpdate(workers: seq<Worker>, i: nat, w: Worker)
    requires i < |workers|
    ensures BodyWork(workers[i := w]) == BodyWork(workers) - BodyRank(workers[i].body) + BodyRank(w.body)
  {
    if i == 0 {
      assert workers[i := w][1..] == workers[1..];
    } else {
      assert workers[i := w][1..] == workers[1..][i - 1 := w];
      BodyWorkUpdate(workers[1..], i - 1, w);
    }
  }

  /** A body step keeps the caller and brings the body closer to its end. */
  lemma BodyStepStays(s: State, i: nat, ok: bool, unit: real)
    requires i < |s.workers| && i < |s.lock.threads|
    ensures var s' := BodyStep(s, i, ok, unit);
      && |s'.workers| == |s.workers| && s'.workers == s.workers[i := s'.workers[i]]
      && s'.workers[i].caller == s.workers[i].caller
      && (s.workers[i].body.Finished? ==> s'.workers[i].body.Finished?)
      && (!s.workers[i].body.Finished? ==> BodyRank(s'.workers[i].body) < BodyRank(s.workers[i].body))
  {
  }

  lemma ExecOne(s: State, a: Action, rest: seq<Action>, unit: real)
    ensures Exec(s, [a] + rest, unit) == Exec(Step(s, a, unit), rest, unit)
  {
    assert ([a] + rest)[1..] == rest;
  }

  lemma {:induction false} ExecConcat(s: State, a: seq<Action>, b: seq<Action>, unit: real)
    ensures Exec(s, a + b, unit) == Exec(Exec(s, a, unit), b, unit)
    decreases |a|
  {
    if a == [] {
      assert a + b == b;
    } else {
      assert (a + b)[1..] == a[1..] + b;
      ExecConcat(Step(s, a[0], unit), a[1..], b, unit);
    }
  }

  /** A turn of somebody who can move makes progress, in the lock or in the body. */
  lemma TurnMakesProgress(s: State, i: nat, unit: real)
    requires SectionOk(s) && OrderLock.Enabled(s.lock, i)
    ensures var t := Step(s, Turn(i, true), unit);
      || OrderLock.Work(t.lock.threads) < OrderLock.Work(s.lock.threads)
      || (t.lock == s.lock && BodyWork(t.workers) < BodyWork(s.workers))
  {
    if InBody(s, i) {
      BodyStepFrame(s, i, true, unit);
      BodyStepStays(s, i, true, unit);
      BodyWorkUpdate(s.workers, i, BodyStep(s, i, true, unit).workers[i]);
    } else {
      OrderLock.StepsUseUpWork(s.lock, i);
    }
  }

  /** From every reachable state everybody can get through, without a store failure. */
  lemma {:induction false} EveryoneCanFinish(s: State, unit: real) returns (rest: seq<Action>)
    requires Safe(s, unit)
    ensures NoFailures(rest) && OrderLock.Finished(Exec(s, rest, unit).lock)
    decreases OrderLock.Work(s.lock.threads), BodyWork(s.workers)
  {
    if OrderLock.Finished(s.lock) {
      rest := [];
    } else {
      var i := OrderLock.SomeoneCanMove(s.lock);
      var a := Turn(i, true);
      StepKeepsSafe(s, a, unit);
      TurnMakesProgress(s, i, unit);
      var more := EveryoneCanFinish(Step(s, a, unit), unit);
      ExecOne(s, a, more, unit);
      rest := [a] + more;
    }
  }

  /** What can follow an arrival: the caller gets through, and nobody is left in a section. */
  lemma ArrivalCanFinish(s: State, t: string, caller: Caller, unit: real) returns (rest: seq<Action>)
    requires Safe(s, unit) && Through(s)
    ensures NoFailures(rest)
    ensures var s', i := Exec(s, rest, unit), |s.workers|;
      && i < |s'.workers| && i < |s'.lock.threads| && s'.lock.threads[i].trade == t
      && s'.workers[i].caller == caller && s'.workers[i].body.Finished? && !CreditDue(s', t)
  {
    var a := Arrive(t, caller);
    var s1 := Step(s, a, unit);
    StepKeepsSafe(s, a, unit);
    StepGoesThrough(s, a, unit);
    var more := EveryoneCanFinish(s1, unit);
    rest := [a] + more;
    ExecOne(s, a, more, unit);
    RunsKeepSafe(s1, more, unit);
    RunsGoThrough(s1, more, unit);
    var s' := Exec(s1, more, unit);
    assert s1.lock.threads[|s.workers|].trade == t && s1.workers[|s.workers|].caller == caller;
    assert s'.lock.threads[|s.workers|].pc.Done?;
    assert SectionOk(s');
  }

  /** After any run without a store failure a pending Epay order can still be paid out, exactly once. */
  lemma PendingOrderCanBePaid(orders: map<string, TopUp>, quota: map<int, int>, actions: seq<Action>, unit: real,
                              t: string, payType: string, price: real) returns (rest: seq<Action>)
    requires t in orders && orders[t].provider == PROVIDER_EPAY && orders[t].status == Pending && NoFailures(actions)
    requires price == orders[t].amount as real * unit && price > -1.0
    ensures NoFailures(rest)
    ensures PaidOut(Exec(Init(orders, quota), actions + rest, unit), t, orders[t].user, price, 0)
  {
    var s0 := Init(orders, quota);
    var s := Exec(s0, actions, unit);
    RunsKeepCredits(orders, quota, actions, unit);
    RunsKeepSafe(s0, actions, unit);
    RunsGoThrough(s0, actions, unit);
    rest := ArrivalCanFinish(s, t, Notify(payType), unit);
    ExecConcat(s0, actions, rest, unit);
    PaidOrderCreditedExactlyOnce(orders, quota, actions + rest, unit, t, |s.workers|, Exec(s, rest, unit), price);
  }

  /** A newly requested order can be paid out: amount * unit without the fraction, to the user who asked. */
  lemma NewOrderCanBePaid(orders: map<string, TopUp>, quota: map<int, int>, unit: real, t: string, user: int, amount: int,
                          money: real, payType: string, told: string, price: real) returns (rest: seq<Action>)
    requires t !in orders && price == amount as real * unit && price > -1.0
    ensures NoFailures(rest)
    ensures PaidOut(Exec(Init(orders, quota), [Insert(t, user, amount, money, payType)] + rest, unit), t, user, price, 0)
  {
    var a := Insert(t, user, amount, money, payType);
    var with := orders[t := TopUp(user, amount, money, "epay", payType, Pending)];
    rest := PendingOrderCanBePaid(with, quota, [], unit, t, told, price);
    assert [] + rest == rest;
    assert Step(Init(orders, quota), a, unit) == Init(with, quota);
    ExecOne(Init(orders, quota), a, rest, unit);
  }
}
