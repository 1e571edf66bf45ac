/** The relay loop and the billing session of one request together. */
module RelayBilling {
  import opened Routing
  import opened Relay
  import opened RelayLaws
  import opened RelayLog
  import opened RelayTheorems
  import Billing

  /** What becomes of the session: a served attempt settles it, a failed request is refunded. */
  function Closed(t: State, st: Billing.State, settle: Billing.Call, refund: Billing.Call): Billing.State {
    if LastServed(t.log) then Billing.Step(st, settle)
    else if t.error.Some? then Billing.Step(st, refund)
    else st
  }

  /** What a request ought to have cost: the actual quota if an attempt was served, nothing otherwise. */
  function Due(t: State, actual: int): int {
    if LastServed(t.log) then actual else 0
  }

  /** Fund and token have paid what is due. */
  ghost predicate PaidRight(start: Billing.Account, st: Billing.State, due: int) {
    && start.fund - st.account.fund == due
    && start.token - st.account.token == if st.session.playground then 0 else due
  }

  /** The settlement leaves fund and token with the actual quota, whatever was lost before. */
  predicate SettlesRight(l: Billing.Ledger, settle: Billing.Call)
    requires l.bill.Held? && settle.Settle?
  {
    var held, actual := l.bill.amount, settle.actual;
    && (if actual == held || settle.fundOk then l.fundLoss == 0 else held + l.fundLoss == actual)
    && (l.playground || actual == held || (settle.fundOk && settle.tokenOk))
  }

  /** The refund leaves fund and token with nothing; a wallet that holds something also returns what was lost. */
  predicate RefundsRight(l: Billing.Ledger, refund: Billing.Call)
    requires l.bill.Held?
  {
    && (l.fundLoss == 0 || (l.source.Wallet? && l.bill.amount > 0))
    && !Billing.LosesRefund(l, refund)
    && (l.playground || !Billing.LosesToken(l, refund))
  }

  lemma AfterSettle(start: Billing.Account, st: Billing.State, l: Billing.Ledger, settle: Billing.Call)
    requires Billing.Tied(start, st, l) && l.bill.Held? && settle.Settle?
    ensures var t := Billing.Step(st, settle);
      && start.fund - t.account.fund == l.fundLoss + (if settle.fundOk then settle.actual else l.bill.amount)
      && (!l.playground ==>
            start.token - t.account.token == if settle.fundOk && settle.tokenOk then settle.actual else l.bill.amount)
      && (PaidRight(start, t, settle.actual) <==> SettlesRight(l, settle))
  {
    Billing.StepTied(start, st, l, settle);
  }

  lemma AfterRefund(start: Billing.Account, st: Billing.State, l: Billing.Ledger, refund: Billing.Call)
    requires Billing.Tied(start, st, l) && l.bill.Held? && refund.Refund?
    ensures var t := Billing.Step(st, refund);
      && (t.account == start <==> RefundsRight(l, refund))
      && (PaidRight(start, t, 0) <==> RefundsRight(l, refund))
  {
    Billing.StepTied(start, st, l, refund);
  }

  /**
    Whatever channels, replies, retries and stores do, when a request has paid exactly what is due, in fund and
    token: with RetryTimes not negative, exactly when the settlement or the refund it ends with is right; with a
    negative one no attempt is made and no error is set, so exactly when nothing was held or lost.
   */
  lemma PaidRightExactlyWhen(cfg: Config, w: World, groupIndex: nat, chain: seq<string>, model: string,
                             start: Billing.Account, st: Billing.State, l: Billing.Ledger,
                             settle: Billing.Call, refund: Billing.Call)
    requires Billing.Tied(start, st, l) && l.bill.Held? && settle.Settle? && refund.Refund?
    ensures var t := Run(cfg, w, 0, Start(groupIndex, chain, model));
      PaidRight(start, Closed(t, st, settle, refund), Due(t, settle.actual)) <==>
      if cfg.retryTimes < 0 then l.bill.amount == 0 && l.fundLoss == 0
      else if LastServed(t.log) then SettlesRight(l, settle)
      else RefundsRight(l, refund)
  {
    var t := Run(cfg, w, 0, Start(groupIndex, chain, model));
    ServedOrFailed(cfg, w, groupIndex, chain, model);
    AfterSettle(start, st, l, settle);
    AfterRefund(start, st, l, refund);
  }

  /**
    The request with its session and any outcome of the session's writes: served, the fund is charged the actual
    quota or keeps what was held, beside what was lost before; failed, the account is as before the session
    opened exactly when the refund is right.
   */
  method BilledRelay(cfg: Config, w: World, groupIndex: nat, chain: seq<string>, model: string,
                     b: Billing.BillingSession, ghost start: Billing.Account, ghost l: Billing.Ledger,
                     settle: Billing.Call, refund: Billing.Call)
    returns (rq: Request)
    requires Billing.Tied(start, b.View(), l) && l.bill.Held? && settle.Settle? && refund.Refund?
    modifies b
    ensures fresh(rq) && rq.View() == Run(cfg, w, 0, Start(groupIndex, chain, model))
    ensures b.View() == Closed(rq.View(), old(b.View()), settle, refund)
    ensures LastServed(rq.log) ==>
      start.fund - b.account.fund == l.fundLoss + if settle.fundOk then settle.actual else l.bill.amount
    ensures LastServed(rq.log) && !l.playground ==>
      start.token - b.account.token == if settle.fundOk && settle.tokenOk then settle.actual else l.bill.amount
    ensures cfg.retryTimes >= 0 && !LastServed(rq.log) ==> (b.account == start <==> RefundsRight(l, refund))
    ensures cfg.retryTimes < 0 ==> b.account == old(b.account)
  {
    AfterSettle(start, b.View(), l, settle);
    AfterRefund(start, b.View(), l, refund);
    var refunds;
    rq, refunds := HandleRelay(cfg, w, groupIndex, chain, model, true);
    if refunds > 0 {
      b.RefundQuota(refund.fundBack, refund.extraBack, refund.tokenBack);
    } else if cfg.retryTimes >= 0 {              // an attempt was made, and the last one was served
      var ok := b.SettleQuota(settle.actual, settle.fundOk, settle.tokenOk);
    }
  }
}
