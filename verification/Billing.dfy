/**
  The billing session of service/billing_session.go with its funding sources
  (service/funding_source.go), from pre-consumption to settlement or refund. Whether a store
  operation succeeds is an input, that of every rollback and of every part of a refund included.
 */
module Billing {
  /** What the session draws on: a wallet or subscription, and the token's own quota. */
  datatype Account = Account(fund: int, token: int)

  datatype Source = Wallet | Subscription

  datatype Session = Session(
    source: Source,
    playground: bool,          // token quota is left alone
    pre: int,                  // preConsumedQuota
    tokenConsumed: int,
    extra: int,                // extraReserved
    funded: int,               // WalletFunding.consumed or SubscriptionFunding.preConsumed
    trusted: bool,
    fundingSettled: bool,
    settled: bool,
    refunded: bool)

  datatype Call =
    | Reserve(target: int, fundOk: bool, tokenOk: bool, backOk: bool)
    | Settle(actual: int, fundOk: bool, tokenOk: bool)
    | Refund(fundBack: bool, extraBack: bool, tokenBack: bool)

  datatype State = State(account: Account, session: Session)

  function TakeToken(a: Account, s: Session, n: int): Account {
    if s.playground then a else a.(token := a.token - n)
  }

  function Positive(n: int): int {
    if n > 0 then n else 0
  }

  /** A trusted wallet user pays nothing in advance; a subscription is not trusted and holds at least one. */
  function Advance(source: Source, trusted: bool, quota: int): int {
    if source.Subscription? then if quota <= 0 then 1 else quota
    else if trusted then 0
    else quota
  }

  /** preConsume, when it succeeds. */
  function Open(a: Account, source: Source, playground: bool, trusted: bool, quota: int): State {
    var pre := Advance(source, trusted, quota);
    var taken := Positive(pre);
    var s := Session(source, playground, pre, taken, 0, taken, trusted && source.Wallet?, false, false, false);
    State(TakeToken(a, s, taken).(fund := a.fund - taken), s)
  }

  predicate NeedsRefund(s: Session) {
    !s.settled && !s.refunded && !s.fundingSettled && (s.tokenConsumed > 0 || (s.source.Subscription? && s.funded > 0))
  }

  function Reserved(st: State, delta: int): State {
    var a, s := st.account, st.session;
    State(TakeToken(a, s, delta).(fund := a.fund - delta),
          s.(pre := s.pre + delta, tokenConsumed := s.tokenConsumed + delta, extra := s.extra + delta,
             funded := if s.source.Wallet? then s.funded + delta else s.funded))
  }

  /** The fund was charged, the token was not, and taking the charge back failed: only a wallet remembers it. */
  function Stranded(st: State, delta: int): State {
    var a, s := st.account, st.session;
    State(a.(fund := a.fund - delta), if s.source.Wallet? then s.(funded := s.funded + delta) else s)
  }

  function SettledWith(st: State, actual: int, tokenOk: bool): State {
    var a, s := st.account, st.session;
    var delta := actual - s.pre;
    var paid := if s.fundingSettled then a else a.(fund := a.fund - delta);
    State(if tokenOk then TakeToken(paid, s, delta) else paid, s.(fundingSettled := true, settled := true))
  }

  function Returned(st: State, c: Call): State
    requires c.Refund?
  {
    var a, s := st.account, st.session;
    var back := if c.fundBack then Positive(s.funded) else 0;
    var more := if s.source.Subscription? && c.extraBack then Positive(s.extra) else 0;
    State(TakeToken(a, s, if c.tokenBack then -Positive(s.tokenConsumed) else 0).(fund := a.fund + back + more),
          s.(refunded := true))
  }

  function Step(st: State, c: Call): State {
    var s := st.session;
    match c
    case Reserve(target, fundOk, tokenOk, backOk) =>
      if s.settled || s.refunded || s.trusted || target <= s.pre || !fundOk then st
      else if tokenOk || s.playground then Reserved(st, target - s.pre)
      else if backOk then st
      else Stranded(st, target - s.pre)
    case Settle(actual, fundOk, tokenOk) =>
      if s.settled then st
      else if actual == s.pre then st.(session := s.(settled := true))
      else if !s.fundingSettled && !fundOk then st
      else SettledWith(st, actual, tokenOk)
    case Refund(_, _, _) => if NeedsRefund(s) then Returned(st, c) else st
  }

  class BillingSession {
    var account: Account
    var session: Session

    ghost function View(): State
      reads this
    {
      State(account, session)
    }

    constructor (account: Account, source: Source, playground: bool, trusted: bool, quota: int)
      ensures View() == Open(account, source, playground, trusted, quota)
    {
      var pre := Advance(source, trusted, quota);
      var taken := Positive(pre);
      this.account := Account(account.fund - taken, if playground then account.token else account.token - taken);
      this.session := Session(source, playground, pre, taken, 0, taken, trusted && source.Wallet?, false, false, false);
    }

    method ReserveQuota(target: int, fundOk: bool, tokenOk: bool, backOk: bool) returns (ok: bool)
      modifies this
      ensures View() == Step(old(View()), Reserve(target, fundOk, tokenOk, backOk))
    {
      if session.settled || session.refunded || session.trusted || target <= session.pre {
        return true;
      }
      var delta := target - session.pre;
      if !fundOk {
        return false;
      }
      account := account.(fund := account.fund - delta);
      if session.source.Wallet? {
        session := session.(funded := session.funded + delta);
      }
      if !session.playground {
        if !tokenOk {
          if backOk {
            account := account.(fund := account.fund + delta);
            if session.source.Wallet? {
              session := session.(funded := session.funded - delta);
            }
          }
          return false;
        }
        account := account.(token := account.token - delta);
      }
      session := session.(pre := session.pre + delta, tokenConsumed := session.tokenConsumed + delta,
                          extra := session.extra + delta);
      return true;
    }

    method SettleQuota(actual: int, fundOk: bool, tokenOk: bool) returns (ok: bool)
      modifies this
      ensures View() == Step(old(View()), Settle(actual, fundOk, tokenOk))
    {
      if session.settled {
        return true;
      }
      var delta := actual - session.pre;
      if delta == 0 {
        session := session.(settled := true);
        return true;
      }
      if !session.fundingSettled {
        if !fundOk {
          return false;
        }
        account := account.(fund := account.fund - delta);
        session := session.(fundingSettled := true);
      }
      ok := true;
      if !session.playground {
        if tokenOk {
          account := account.(token := account.token - delta);
        } else {
          ok := false;
        }
      }
      session := session.(settled := true);
    }

    method RefundQuota(fundBack: bool, extraBack: bool, tokenBack: bool)
      modifies this
      ensures View() == Step(old(View()), Refund(fundBack, extraBack, tokenBack))
    {
      if !NeedsRefund(session) {
        return;
      }
      session := session.(refunded := true);
      if session.funded > 0 && fundBack {
        account := account.(fund := account.fund + session.funded);
      }
      if session.extra > 0 && session.source.Subscription? && extraBack {
        account := account.(fund := account.fund + session.extra);
      }
      if session.tokenConsumed > 0 && !session.playground && tokenBack {
        account := account.(token := account.token + session.tokenConsumed);
      }
    }
  }

  // ---- the ledger: what ought to be paid, and what store failures added --------------------------

  datatype Bill = Held(amount: int) | Charged(actual: int) | GivenBack(amount: int)

  function Due(b: Bill): int {
    match b
    case Held(n) => n
    case Charged(n) => n
    case GivenBack(_) => 0
  }

  /** The losses are what fund and token have paid beyond the bill. `first` is what a subscription held first. */
  datatype Ledger = Ledger(
    source: Source, playground: bool, trusted: bool, first: int,
    bill: Bill, fundLoss: int, tokenLoss: int)

  function Opened(source: Source, playground: bool, trusted: bool, quota: int): Ledger {
    var pre := Advance(source, trusted, quota);
    Ledger(source, playground, trusted && source.Wallet?, pre, Held(pre), 0, 0)
  }

  /** A reservation that is charged to the fund, refused by the token, and not taken back. */
  predicate LosesRollback(l: Ledger, c: Call) {
    && l.bill.Held? && c.Reserve?
    && !l.trusted && !l.playground && c.target > l.bill.amount
    && c.fundOk && !c.tokenOk && !c.backOk
  }

  /** A settlement takes effect: nothing to adjust, or the fund could be adjusted. */
  predicate TakesEffect(held: int, c: Call) {
    c.Settle? && (c.actual == held || c.fundOk)
  }

  /** A wallet refunds what it remembers; a subscription refunds what it held first and what was added apart. */
  function Unreturned(l: Ledger, c: Call): int
    requires l.bill.Held? && c.Refund?
  {
    if l.source.Wallet? then if c.fundBack then 0 else l.bill.amount + l.fundLoss
    else l.fundLoss + (if c.fundBack then 0 else l.first) + if c.extraBack then 0 else l.bill.amount - l.first
  }

  function Next(l: Ledger, c: Call): Ledger {
    match l.bill
    case Charged(_) => l
    case GivenBack(n) =>
      if !TakesEffect(n, c) then l
      else l.(bill := Charged(c.actual), fundLoss := l.fundLoss - n,
              tokenLoss := if c.tokenOk then l.tokenLoss - n else l.tokenLoss - c.actual)
    case Held(n) =>
      if c.Reserve? then
        if LosesRollback(l, c) then l.(fundLoss := l.fundLoss + c.target - n)
        else if !l.trusted && c.target > n && c.fundOk && (c.tokenOk || l.playground) then l.(bill := Held(c.target))
        else l
      else if c.Settle? then
        if !TakesEffect(n, c) then l
        else l.(bill := Charged(c.actual), tokenLoss := if c.tokenOk then 0 else n - c.actual)
      else if n <= 0 then l
      else l.(bill := GivenBack(n), fundLoss := Unreturned(l, c), tokenLoss := if c.tokenBack then 0 else n)
  }

  ghost predicate Tied(start: Account, st: State, l: Ledger) {
    var a, s := st.account, st.session;
    && start.fund - a.fund == Due(l.bill) + l.fundLoss
    && start.token - a.token == (if l.playground then 0 else Due(l.bill) + l.tokenLoss)
    && s.source == l.source && s.playground == l.playground && s.trusted == l.trusted
    && match l.bill
       case Charged(_) => s.settled
       case GivenBack(n) => n > 0 && s.pre == n && s.refunded && !s.settled && !s.fundingSettled
       case Held(n) =>
         && Sensible(l) && s.pre == n && s.tokenConsumed == n && !s.refunded && !s.settled && !s.fundingSettled
         && if s.source.Wallet? then s.funded == n + l.fundLoss else s.funded == l.first && s.extra == n - l.first
  }

  ghost predicate Sensible(l: Ledger) {
    && l.bill.Held? && l.bill.amount >= 0 && l.fundLoss >= 0 && l.tokenLoss == 0
    && (l.source.Subscription? ==> 0 < l.first <= l.bill.amount)
  }

  /** What opening takes, from fund and token alike: nothing from a trusted wallet, at least one from a subscription. */
  lemma OpenTakes(a: Account, source: Source, playground: bool, trusted: bool, quota: int)
    ensures var st := Open(a, source, playground, trusted, quota);
      var taken := a.fund - st.account.fund;
      && taken == (if source == Subscription then if quota >= 1 then quota else 1 else if trusted || quota < 0 then 0 else quota)
      && a.token - st.account.token == (if playground then 0 else taken)
      && st.session.source == source && st.session.playground == playground
      && (st.session.trusted <==> trusted && source == Wallet)
      && !st.session.settled && !st.session.refunded && !st.session.fundingSettled
  {
  }

  /** A session opens in step with its ledger unless a wallet is asked for a negative quota. */
  lemma OpensTiedExactlyWhen(a: Account, source: Source, playground: bool, trusted: bool, quota: int)
    ensures Tied(a, Open(a, source, playground, trusted, quota), Opened(source, playground, trusted, quota))
        <==> quota >= 0 || trusted || source.Subscription?
  {
  }

  lemma ReserveTied(start: Account, st: State, l: Ledger, c: Call)
    requires Tied(start, st, l) && c.Reserve?
    ensures Tied(start, Step(st, c), Next(l, c))
  {
  }

  lemma SettleTied(start: Account, st: State, l: Ledger, c: Call)
    requires Tied(start, st, l) && c.Settle?
    ensures Tied(start, Step(st, c), Next(l, c))
  {
  }

  lemma RefundTied(start: Account, st: State, l: Ledger, c: Call)
    requires Tied(start, st, l) && c.Refund?
    ensures Tied(start, Step(st, c), Next(l, c))
  {
  }

  /** One call with any store outcomes, also a settlement after a refund, keeps fund and token tied to the ledger. */
  lemma StepTied(start: Account, st: State, l: Ledger, c: Call)
    requires Tied(start, st, l)
    ensures Tied(start, Step(st, c), Next(l, c))
  {
    match c
    case Reserve(_, _, _, _) => ReserveTied(start, st, l, c);
    case Settle(_, _, _) => SettleTied(start, st, l, c);
    case Refund(_, _, _) => RefundTied(start, st, l, c);
  }

  function Run(st: State, calls: seq<Call>): State
    decreases |calls|
  {
    if calls == [] then st else Run(Step(st, calls[0]), calls[1..])
  }

  function Ledgers(l: Ledger, calls: seq<Call>): Ledger
    decreases |calls|
  {
    if calls == [] then l else Ledgers(Next(l, calls[0]), calls[1..])
  }

  /** Over every run of calls the account has paid exactly what the ledger says. */
  lemma {:induction false} RunsPayTheLedger(start: Account, st: State, l: Ledger, calls: seq<Call>)
    requires Tied(start, st, l)
    ensures Tied(start, Run(st, calls), Ledgers(l, calls))
    decreases |calls|
  {
    if calls != [] {
      StepTied(start, st, l, calls[0]);
      RunsPayTheLedger(start, Step(st, calls[0]), Next(l, calls[0]), calls[1..]);
    }
  }

  /** Nothing is settled after a refund. */
  ghost predicate NoLateSettle(l: Ledger, calls: seq<Call>)
    decreases |calls|
  {
    calls != [] ==> !(calls[0].Settle? && l.bill.GivenBack?) && NoLateSettle(Next(l, calls[0]), calls[1..])
  }

  /** Then the first settlement or refund that takes effect decides; later calls change nothing. */
  lemma {:induction false} DecidedStays(l: Ledger, calls: seq<Call>)
    requires !l.bill.Held? && NoLateSettle(l, calls)
    ensures Ledgers(l, calls) == l
    decreases |calls|
  {
    if calls != [] {
      DecidedStays(l, calls[1..]);
    }
  }

  // ---- when fund and token have paid the bill ------------------------------------------------------

  ghost predicate RollbackLost(l: Ledger, calls: seq<Call>)
    decreases |calls|
  {
    calls != [] && (LosesRollback(l, calls[0]) || RollbackLost(Next(l, calls[0]), calls[1..]))
  }

  /** A refund that fails to return something to the fund. */
  predicate LosesRefund(l: Ledger, c: Call) {
    && l.bill.Held? && l.bill.amount > 0 && c.Refund?
    && (!c.fundBack || (l.source.Subscription? && l.bill.amount > l.first && !c.extraBack))
  }

  ghost predicate RefundLost(l: Ledger, calls: seq<Call>)
    decreases |calls|
  {
    calls != [] && (LosesRefund(l, calls[0]) || RefundLost(Next(l, calls[0]), calls[1..]))
  }

  /** A settlement that fails to adjust the token, or a refund that fails to return to it. */
  predicate LosesToken(l: Ledger, c: Call) {
    && l.bill.Held?
    && (|| (TakesEffect(l.bill.amount, c) && !c.tokenOk && c.actual != l.bill.amount)
        || (c.Refund? && l.bill.amount > 0 && !c.tokenBack))
  }

  ghost predicate TokenLost(l: Ledger, calls: seq<Call>)
    decreases |calls|
  {
    calls != [] && (LosesToken(l, calls[0]) || TokenLost(Next(l, calls[0]), calls[1..]))
  }

  lemma {:induction false} NothingLostLater(l: Ledger, calls: seq<Call>)
    requires !l.bill.Held?
    ensures !RollbackLost(l, calls) && !RefundLost(l, calls) && !TokenLost(l, calls)
    decreases |calls|
  {
    if calls != [] {
      NothingLostLater(Next(l, calls[0]), calls[1..]);
    }
  }

  lemma {:induction false} LossesExactlyWhen(l: Ledger, calls: seq<Call>)
    requires Sensible(l) && NoLateSettle(l, calls)
    ensures var end := Ledgers(l, calls);
      && (end.fundLoss == 0 <==>
            && !RefundLost(l, calls)
            && ((l.fundLoss == 0 && !RollbackLost(l, calls)) || (l.source.Wallet? && end.bill.GivenBack?)))
      && (end.tokenLoss == 0 <==> !TokenLost(l, calls))
    decreases |calls|
  {
    if calls != [] {
      var next := Next(l, calls[0]);
      if next.bill.Held? {
        LossesExactlyWhen(next, calls[1..]);
      } else {
        DecidedStays(next, calls[1..]);
        NothingLostLater(next, calls[1..]);
      }
    }
  }

  /** The fund has paid the bill exactly when no rollback was lost, or a wallet was refunded, and no refund was lost. */
  lemma FundPaysExactlyWhen(start: Account, st: State, l: Ledger, calls: seq<Call>)
    requires Tied(start, st, l) && l.bill.Held? && l.fundLoss == 0 && NoLateSettle(l, calls)
    ensures var end := Ledgers(l, calls).bill;
      start.fund - Run(st, calls).account.fund == Due(end) <==>
      !RefundLost(l, calls) && (!RollbackLost(l, calls) || (l.source.Wallet? && end.GivenBack?))
  {
    RunsPayTheLedger(start, st, l, calls);
    LossesExactlyWhen(l, calls);
  }

  lemma {:induction false} SamePlayground(l: Ledger, calls: seq<Call>)
    ensures Ledgers(l, calls).playground == l.playground
    decreases |calls|
  {
    if calls != [] {
      SamePlayground(Next(l, calls[0]), calls[1..]);
    }
  }

  /** The token has paid the bill exactly when neither the deciding settlement nor the refund lost its token write. */
  lemma TokenPaysExactlyWhen(start: Account, st: State, l: Ledger, calls: seq<Call>)
    requires Tied(start, st, l) && l.bill.Held? && !l.playground && NoLateSettle(l, calls)
    ensures start.token - Run(st, calls).account.token == Due(Ledgers(l, calls).bill) <==> !TokenLost(l, calls)
  {
    RunsPayTheLedger(start, st, l, calls);
    LossesExactlyWhen(l, calls);
    SamePlayground(l, calls);
  }

  /** Settle does not look at the refund: beyond earlier losses it charges the actual quota exactly when none was made. */
  lemma SettleChargesExactlyWhen(start: Account, st: State, l: Ledger, actual: int)
    requires Tied(start, st, l) && !l.bill.Charged?
    ensures start.fund - Step(st, Settle(actual, true, true)).account.fund == actual + l.fundLoss <==> !l.bill.GivenBack?
  {
  }

  // ---- whole requests --------------------------------------------------------------------------------

  ghost predicate OnlyReserves(calls: seq<Call>) {
    forall i :: 0 <= i < |calls| ==> calls[i].Reserve?
  }

  lemma {:induction false} ReservesHold(l: Ledger, reserves: seq<Call>)
    requires Sensible(l) && OnlyReserves(reserves)
    ensures var held := Ledgers(l, reserves);
      && Sensible(held) && held.bill.amount >= l.bill.amount
      && held.(bill := l.bill, fundLoss := l.fundLoss) == l
      && (held.fundLoss == 0 <==> l.fundLoss == 0 && !RollbackLost(l, reserves))
    decreases |reserves|
  {
    if reserves != [] {
      ReservesHold(Next(l, reserves[0]), reserves[1..]);
    }
  }

  /**
    A request opens a session, reserves any number of times with any outcomes, and is refunded. The fund is as
    before exactly when the refund returns everything and no rollback was lost, except that a wallet that holds
    something returns lost rollbacks too. The token is as before exactly when its own refund is done.
   */
  lemma FailedRequestRestoresExactlyWhen(a: Account, source: Source, playground: bool, trusted: bool, quota: int,
                                         reserves: seq<Call>, refund: Call)
    requires quota >= 0 || trusted || source.Subscription?
    requires OnlyReserves(reserves) && refund.Refund?
    ensures var l := Opened(source, playground, trusted, quota);
      var held := Ledgers(l, reserves);
      var t := Step(Run(Open(a, source, playground, trusted, quota), reserves), refund).account;
      && held.bill.Held?
      && (t.fund == a.fund <==>
            !LosesRefund(held, refund) && (!RollbackLost(l, reserves) || (source.Wallet? && held.bill.amount > 0)))
      && (t.token == a.token <==> playground || !LosesToken(held, refund))
  {
    var st, l := Open(a, source, playground, trusted, quota), Opened(source, playground, trusted, quota);
    OpensTiedExactlyWhen(a, source, playground, trusted, quota);
    ReservesHold(l, reserves);
    RunsPayTheLedger(a, st, l, reserves);
    StepTied(a, Run(st, reserves), Ledgers(l, reserves), refund);
  }

  /**
    A served request is charged the actual quota, or what is held if the fund could not be adjusted, and on top
    exactly the rollbacks it lost; the token the same without those, unless its own write failed.
   */
  lemma ServedRequestCharges(a: Account, source: Source, playground: bool, trusted: bool, quota: int,
                             reserves: seq<Call>, settle: Call)
    requires quota >= 0 || trusted || source.Subscription?
    requires OnlyReserves(reserves) && settle.Settle?
    ensures var l := Opened(source, playground, trusted, quota);
      var held := Ledgers(l, reserves);
      var t := Step(Run(Open(a, source, playground, trusted, quota), reserves), settle).account;
      && held.bill.Held? && (held.fundLoss == 0 <==> !RollbackLost(l, reserves))
      && a.fund - t.fund == held.fundLoss + (if settle.fundOk then settle.actual else held.bill.amount)
      && (!playground ==>
            a.token - t.token == if settle.fundOk && settle.tokenOk then settle.actual else held.bill.amount)
  {
    var st, l := Open(a, source, playground, trusted, quota), Opened(source, playground, trusted, quota);
    OpensTiedExactlyWhen(a, source, playground, trusted, quota);
    ReservesHold(l, reserves);
    RunsPayTheLedger(a, st, l, reserves);
    StepTied(a, Run(st, reserves), Ledgers(l, reserves), settle);
  }

  /** A subscription holding 10, and a reservation whose rollback is lost: the refund does not return the 20. */
  lemma LostRollbackStays()
    ensures var st := Open(Account(100, 100), Subscription, false, false, 10);
      var lost := Step(st, Reserve(30, true, false, false));
      && Step(lost, Refund(true, true, true)).account == Account(80, 100)
      && Step(lost, Settle(10, true, true)).account == Account(70, 90)
  {
  }
}
