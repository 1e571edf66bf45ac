/**
  Refunds of the polling loop in controller/midjourney.go, for one task row and any number
  of pollers. A poller works on a snapshot of the row and writes it back only if the row
  still has the status that the snapshot had. `late` says that the image job is over an hour old.
 */
module MidjourneyPoller {
  import opened Prelude

  const FAILURE := "FAILURE"
  const FULL := "100%"
  const TIMED_OUT := "timed out"

  /** `rest` stands for the columns that only matter for noticing a change; `coded` for Code == 1. */
  datatype Task = Task(status: string, progress: string, failReason: string, coded: bool, rest: int, quota: int)

  datatype Reply = Reply(status: string, progress: string, failReason: string, rest: int)

  function Timed(local: Task, r: Reply, late: bool): Reply {
    if late && local.progress != FULL then r.(failReason := TIMED_OUT, status := FAILURE) else r
  }

  /** checkMjTaskNeedUpdate. */
  predicate NeedsUpdate(local: Task, r: Reply) {
    || !local.coded || local.progress != r.progress || local.status != r.status
    || local.failReason != r.failReason || local.rest != r.rest
    || (local.progress != FULL && r.failReason != "")
  }

  /** The reply reports a failed task. */
  predicate Failed(r: Reply) {
    (r.progress != FULL && r.failReason != "") || (r.progress == FULL && r.status == FAILURE)
  }

  function Filled(local: Task, r: Reply): Task {
    Task(r.status, if Failed(r) then FULL else r.progress, r.failReason, true, r.rest, local.quota)
  }

  datatype Outcome = Outcome(row: Task, local: Task, refund: int)

  /** One response item: fill the snapshot, compare-and-set the row, refund if the write won. */
  function Handle(row: Task, local: Task, reply: Reply, late: bool, dbOk: bool): Outcome {
    var r := Timed(local, reply, late);
    if !NeedsUpdate(local, r) then Outcome(row, local, 0)
    else
      var filled := Filled(local, r);
      var won := dbOk && row.status == local.status;
      Outcome(if won then filled else row, filled, if won && Failed(r) then local.quota else 0)
  }

  class TaskRow {
    var task: Task

    constructor (task: Task)
      ensures this.task == task
    {
      this.task := task;
    }

    /** UpdateWithStatus. */
    method UpdateWithStatus(task: Task, fromStatus: string, dbOk: bool) returns (won: bool)
      modifies this
      ensures won == (dbOk && old(this.task).status == fromStatus)
      ensures this.task == if won then task else old(this.task)
    {
      won := dbOk && this.task.status == fromStatus;
      if won {
        this.task := task;
      }
    }
  }

  /** The loop body of the poller. */
  method HandleItem(row: TaskRow, local: TaskRow, reply: Reply, late: bool, dbOk: bool) returns (refund: int)
    requires row != local
    modifies row, local
    ensures Outcome(row.task, local.task, refund) == Handle(old(row.task), old(local.task), reply, late, dbOk)
  {
    var r := reply;
    if late && local.task.progress != FULL {
      r := r.(failReason := TIMED_OUT, status := FAILURE);
    }
    if !NeedsUpdate(local.task, r) {
      return 0;
    }
    var preStatus := local.task.status;
    local.task := Task(r.status, r.progress, r.failReason, true, r.rest, local.task.quota);
    var shouldReturnQuota := false;
    if (local.task.progress != FULL && r.failReason != "") || (local.task.progress == FULL && local.task.status == FAILURE) {
      local.task := local.task.(progress := FULL);
      if local.task.quota != 0 {
        shouldReturnQuota := true;
      }
    }
    var won := row.UpdateWithStatus(local.task, preStatus, dbOk);
    return if won && shouldReturnQuota then local.task.quota else 0;
  }

  // ---- one item, on the fields -------------------------------------------------------------------

  /** A task over an hour old and not at 100% fails whatever the reply says, and is refunded if the write wins. */
  lemma LateItemFails(row: Task, local: Task, reply: Reply, dbOk: bool)
    requires local.progress != "100%"
    ensures var o := Handle(row, local, reply, true, dbOk);
      var won := dbOk && row.status == local.status;
      && o.local.status == "FAILURE" && o.local.progress == "100%" && o.local.failReason != ""
      && o.local.rest == reply.rest && o.local.coded && o.local.quota == local.quota
      && o.row == (if won then o.local else row)
      && o.refund == (if won then local.quota else 0)
  {
  }

  /** The reply says that the task failed. */
  predicate SaysFailed(reply: Reply) {
    if reply.progress == "100%" then reply.status == "FAILURE" else reply.failReason != ""
  }

  /** The reply says nothing that the snapshot does not show. */
  predicate SaysNothingNew(local: Task, reply: Reply) {
    && local.coded && local.status == reply.status && local.progress == reply.progress
    && local.failReason == reply.failReason && local.rest == reply.rest
    && (local.progress == "100%" || reply.failReason == "")
  }

  /**
    Otherwise the snapshot carries the reply's own status and reason, at 100% if the reply says that the task
    failed. The row does too if there is news and the write wins, and then the quota of a failed task is returned.
   */
  lemma TimelyItemCarries(row: Task, local: Task, reply: Reply, late: bool, dbOk: bool)
    requires !late || local.progress == "100%"
    ensures var o := Handle(row, local, reply, late, dbOk);
      var won := dbOk && row.status == local.status && !SaysNothingNew(local, reply);
      && o.local.status == reply.status && o.local.failReason == reply.failReason && o.local.rest == reply.rest
      && o.local.progress == (if SaysFailed(reply) then "100%" else reply.progress)
      && o.local.coded && o.local.quota == local.quota
      && o.row == (if won then o.local else row)
      && o.refund == (if won && SaysFailed(reply) then local.quota else 0)
  {
  }

  // ---- the machine --------------------------------------------------------------------------------

  /** A poller's snapshot, and the latest failure among the replies of the current round. */
  datatype Local = Local(task: Task, failure: Option<Reply>)

  datatype State = State(row: Task, locals: map<nat, Local>, refunded: int)

  datatype Event =
    | Snapshot(poller: nat)
    | Item(poller: nat, reply: Reply, late: bool, dbOk: bool)
    | BulkFail(reason: Option<string>)   // missing id, or missing channel with a reason: failed without refund
    | EndRound(poller: nat)

  function Step(s: State, e: Event): State {
    match e
    case Snapshot(p) =>
      if p !in s.locals && s.row.progress != FULL then s.(locals := s.locals[p := Local(s.row, None)]) else s
    case Item(p, reply, late, dbOk) =>
      if p !in s.locals then s
      else
        var local := s.locals[p].task;
        var o := Handle(s.row, local, reply, late, dbOk);
        var r := Timed(local, reply, late);
        State(o.row, s.locals[p := Local(o.local, if Failed(r) then Some(r) else s.locals[p].failure)],
              s.refunded + o.refund)
    case BulkFail(reason) =>
      s.(row := s.row.(status := FAILURE, progress := FULL, failReason := if reason.Some? then reason.value else s.row.failReason))
    case EndRound(p) => s.(locals := s.locals - {p})
  }

  function Run(s: State, events: seq<Event>): State
    decreases |events|
  {
    if events == [] then s else Run(Step(s, events[0]), events[1..])
  }

  function Start(row: Task): State {
    State(row, map[], 0)
  }

  lemma {:induction false} FinishedIsLeftAlone(s: State, events: seq<Event>)
    requires s.locals == map[] && s.row.progress == FULL && s.row.status == FAILURE
    ensures var t := Run(s, events); t.refunded == s.refunded && t.row.status == s.row.status && t.row.progress == s.row.progress
    decreases |events|
  {
    if events != [] {
      assert Step(s, events[0]).locals == map[];
      FinishedIsLeftAlone(Step(s, events[0]), events[1..]);
    }
  }

  /** A task failed in bulk while nobody works on it stays failed at 100% and is never refunded, whatever follows. */
  lemma BulkFailIsFinal(s: State, reason: Option<string>, events: seq<Event>)
    requires s.locals == map[]
    ensures var t := Run(Step(s, BulkFail(reason)), events);
      t.refunded == s.refunded && t.row.status == "FAILURE" && t.row.progress == "100%"
    ensures var row := Step(s, BulkFail(reason)).row;
      row == s.row.(status := row.status, progress := row.progress, failReason := row.failReason)
      && (if reason.Some? then row.failReason == reason.value else row.failReason == s.row.failReason)
  {
    FinishedIsLeftAlone(Step(s, BulkFail(reason)), events);
  }

  /** The reply says something new about a row that was last reported as `a`, a failure. */
  predicate Changed(a: Reply, b: Reply) {
    b.progress != FULL || b.status != a.status || b.failReason != a.failReason || b.rest != a.rest
  }

  /** After a failure a round only repeats it, with full progress. */
  predicate Steady(s: State, e: Event) {
    e.Item? && e.poller in s.locals && s.locals[e.poller].failure.Some? ==>
      !Changed(s.locals[e.poller].failure.value, e.reply)
  }

  ghost predicate Always(s: State, events: seq<Event>, p: (State, Event) -> bool)
    decreases |events|
  {
    events != [] ==> p(s, events[0]) && Always(Step(s, events[0]), events[1..], p)
  }

  /** A failure of the round is what the snapshot shows. */
  ghost predicate Shown(l: Local) {
    l.failure.Some? ==> Failed(l.failure.value) && l.task == Filled(l.task, l.failure.value)
  }

  /** Handling a reply leaves the snapshot filled with it, whether or not there was anything to update. */
  lemma HandledShows(row: Task, local: Task, reply: Reply, late: bool, dbOk: bool)
    ensures var r := Timed(local, reply, late);
      Handle(row, local, reply, late, dbOk).local == Filled(local, r)
  {
  }

  /** An unchanged repetition of a failure is not even written. */
  lemma RepetitionIsIdle(row: Task, l: Local, reply: Reply, late: bool, dbOk: bool)
    requires Shown(l) && l.failure.Some? && !Changed(l.failure.value, reply)
    ensures Handle(row, l.task, reply, late, dbOk) == Outcome(row, l.task, 0) && Timed(l.task, reply, late) == reply
  {
  }

  // ---- one poller ----------------------------------------------------------------------------------

  predicate Alone(s: State, e: Event) {
    Steady(s, e) && (e.Snapshot? ==> s.locals == map[])
  }

  ghost predicate SoloInv(s: State, quota: int) {
    && s.row.quota == quota && (s.refunded == 0 || s.refunded == quota)
    && (forall p :: p in s.locals ==> s.locals[p].task.quota == quota && Shown(s.locals[p]))
    && (forall p, q :: p in s.locals && q in s.locals ==> p == q)
    && (s.refunded != 0 ==> s.row.progress == FULL)
    && (s.refunded != 0 ==> forall p :: p in s.locals ==> s.locals[p].failure.Some?)
  }

  lemma SoloStep(s: State, e: Event, quota: int)
    requires SoloInv(s, quota) && Alone(s, e)
    ensures SoloInv(Step(s, e), quota)
  {
    if e.Item? && e.poller in s.locals {
      var l := s.locals[e.poller];
      HandledShows(s.row, l.task, e.reply, e.late, e.dbOk);
      if l.failure.Some? {
        RepetitionIsIdle(s.row, l, e.reply, e.late, e.dbOk);
      }
    }
  }

  /** A single poller refunds at most once if after a failure a response only repeats it, whatever writes fail. */
  lemma {:induction false} SoloRefundsOnce(s: State, events: seq<Event>, quota: int)
    requires SoloInv(s, quota) && Always(s, events, Alone)
    ensures Run(s, events).refunded == 0 || Run(s, events).refunded == quota
    decreases |events|
  {
    if events != [] {
      SoloStep(s, events[0], quota);
      SoloRefundsOnce(Step(s, events[0]), events[1..], quota);
    }
  }

  // ---- many pollers -----------------------------------------------------------------------------

  /** Status FAILURE and the refund condition go together. */
  predicate Coherent(r: Reply) {
    r.status == FAILURE <==> Failed(r)
  }

  /** The one-hour rule always gives a failure by both criteria. */
  lemma TimedIsCoherent(local: Task, r: Reply)
    requires local.progress != FULL
    ensures Failed(Timed(local, r, true)) && Timed(local, r, true).status == "FAILURE"
  {
  }

  predicate Proper(s: State, e: Event) {
    && Steady(s, e)
    && (e.Item? && e.poller in s.locals ==> Coherent(Timed(s.locals[e.poller].task, e.reply, e.late)))
  }

  ghost predicate ManyInv(s: State, quota: int) {
    && s.row.quota == quota && (s.refunded == 0 || s.refunded == quota)
    && (s.row.status == FAILURE ==> s.row.progress == FULL)
    && (s.refunded != 0 ==> s.row.status == FAILURE)
    && (forall p :: p in s.locals ==> s.locals[p].task.quota == quota && Shown(s.locals[p]))
    && (forall p :: p in s.locals && s.locals[p].failure.None? ==> s.locals[p].task.status != FAILURE)
  }

  lemma ManyStep(s: State, e: Event, quota: int)
    requires ManyInv(s, quota) && Proper(s, e)
    ensures ManyInv(Step(s, e), quota)
    ensures s.row.status == FAILURE ==> Step(s, e).row.status == FAILURE
  {
    if e.Item? && e.poller in s.locals {
      var l := s.locals[e.poller];
      HandledShows(s.row, l.task, e.reply, e.late, e.dbOk);
      if l.failure.Some? {
        RepetitionIsIdle(s.row, l, e.reply, e.late, e.dbOk);
      }
    }
  }

  /** Any number of pollers together refund at most once, if every reply is coherent; a failed row stays failed. */
  lemma {:induction false} ManyRefundOnce(s: State, events: seq<Event>, quota: int)
    requires ManyInv(s, quota) && Always(s, events, Proper)
    ensures Run(s, events).refunded == 0 || Run(s, events).refunded == quota
    ensures s.row.status == FAILURE ==> Run(s, events).row.status == FAILURE && Run(s, events).refunded == s.refunded
    decreases |events|
  {
    if events != [] {
      ManyStep(s, events[0], quota);
      ManyRefundOnce(Step(s, events[0]), events[1..], quota);
    }
  }

  // ---- the provisos are needed --------------------------------------------------------------------

  /** Replies are coherent or the given one; after a failure a response only repeats it. */
  function Using(r: Reply): (State, Event) -> bool {
    (s: State, e: Event) => Steady(s, e) && (e.Item? ==> e.reply == r || Coherent(e.reply))
  }

  predicate Sane(row: Task, quota: int) {
    row.quota == quota && (row.status == FAILURE ==> row.progress == FULL)
  }

  /** No run over such replies refunds more than once. */
  ghost predicate SafeWith(r: Reply, quota: int) {
    forall row, events :: Sane(row, quota) && Always(Start(row), events, Using(r)) ==>
      Run(Start(row), events).refunded == 0 || Run(Start(row), events).refunded == quota
  }

  lemma {:induction false} UsingCoherentIsProper(s: State, events: seq<Event>, r: Reply)
    requires Coherent(r) && Always(s, events, Using(r))
    ensures Always(s, events, Proper)
    decreases |events|
  {
    if events != [] {
      var e := events[0];
      assert Using(r)(s, e);
      if e.Item? && e.poller in s.locals && e.late && s.locals[e.poller].task.progress != FULL {
        TimedIsCoherent(s.locals[e.poller].task, e.reply);
      }
      UsingCoherentIsProper(Step(s, e), events[1..], r);
    }
  }

  lemma Cons(s: State, e: Event, events: seq<Event>, r: Reply)
    requires Using(r)(s, e) && Always(Step(s, e), events, Using(r))
    ensures Always(s, [e] + events, Using(r))
    ensures Run(s, [e] + events) == Run(Step(s, e), events)
  {
    assert ([e] + events)[1..] == events;
  }

  /** Two pollers with snapshots of the same row, each handling the same reply. */
  function Pair(r: Reply): seq<Event> {
    [Snapshot(0)] + ([Snapshot(1)] + ([Item(0, r, false, true)] + ([Item(1, r, false, true)] + [])))
  }

  /** If the status does not change, both writes win. */
  lemma PairRefundsTwice(s: State, r: Reply, used: Reply)
    requires s.locals == map[] && s.row.progress != FULL && s.row.status == used.status && Failed(used)
    requires used == r || Coherent(used)
    ensures Always(s, Pair(used), Using(r)) && Run(s, Pair(used)).refunded == s.refunded + 2 * s.row.quota
  {
    var first, second := Item(0, used, false, true), Item(1, used, false, true);
    var s1 := Step(s, Snapshot(0));
    var s2 := Step(s1, Snapshot(1));
    var s3 := Step(s2, first);
    Cons(s3, second, [], r);
    Cons(s2, first, [second] + [], r);
    Cons(s1, Snapshot(1), [first] + ([second] + []), r);
    Cons(s, Snapshot(0), [Snapshot(1)] + ([first] + ([second] + [])), r);
  }

  function Waiting(status: string, quota: int): Task {
    Task(status, "0%", "", false, 0, quota)
  }

  const CLEAN_FAILURE := Reply(FAILURE, FULL, "", 0)

  /** A failed status without a refund is polled again, and then every write from FAILURE to FAILURE wins. */
  lemma OpenFailureRefundsTwice(r: Reply, quota: int)
    requires !Failed(r) && r.status == FAILURE
    ensures var events := [Snapshot(0)] + ([Item(0, r, false, true)] + ([EndRound(0)] + Pair(CLEAN_FAILURE)));
      var s := Start(Waiting("IN_PROGRESS", quota));
      Always(s, events, Using(r)) && Run(s, events).refunded == 2 * quota
  {
    var s := Start(Waiting("IN_PROGRESS", quota));
    var s1 := Step(s, Snapshot(0));
    var s2 := Step(s1, Item(0, r, false, true));
    var s3 := Step(s2, EndRound(0));
    assert s3.locals == map[];
    PairRefundsTwice(s3, r, CLEAN_FAILURE);
    Cons(s2, EndRound(0), Pair(CLEAN_FAILURE), r);
    Cons(s1, Item(0, r, false, true), [EndRound(0)] + Pair(CLEAN_FAILURE), r);
    Cons(s, Snapshot(0), [Item(0, r, false, true)] + ([EndRound(0)] + Pair(CLEAN_FAILURE)), r);
  }

  /** Beside coherent replies, a reply is harmless to several pollers exactly when it is coherent itself. */
  lemma SafeExactlyWhen(r: Reply, quota: int)
    requires quota != 0
    ensures SafeWith(r, quota) <==> Coherent(r)
  {
    if Coherent(r) {
      forall row, events | Sane(row, quota) && Always(Start(row), events, Using(r))
        ensures Run(Start(row), events).refunded == 0 || Run(Start(row), events).refunded == quota
      {
        UsingCoherentIsProper(Start(row), events, r);
        ManyRefundOnce(Start(row), events, quota);
      }
    } else if Failed(r) {
      var s := Start(Waiting(r.status, quota));
      PairRefundsTwice(s, r, r);
      assert Sane(s.row, quota);
    } else {
      var events := [Snapshot(0)] + ([Item(0, r, false, true)] + ([EndRound(0)] + Pair(CLEAN_FAILURE)));
      var row := Waiting("IN_PROGRESS", quota);
      OpenFailureRefundsTwice(r, quota);
      assert Sane(row, quota) && Always(Start(row), events, Using(r));
    }
  }

  // ---- what a round refunds, exactly -----------------------------------------------------------

  /** One item of a response. */
  datatype Listed = Listed(reply: Reply, late: bool)

  /** Items as the loop sees them, after the one-hour rule. */
  function Effective(local: Task, items: seq<Listed>): seq<Reply>
    decreases |items|
  {
    if items == [] then []
    else
      var r := Timed(local, items[0].reply, items[0].late);
      [r] + Effective(Filled(local, r), items[1..])
  }

  /** A single poller's round when every write succeeds: the row after it, and how often it refunds. */
  function Round(row: Task, items: seq<Listed>): (Task, nat)
    decreases |items|
  {
    if items == [] then (row, 0)
    else
      var o := Handle(row, row, items[0].reply, items[0].late, true);
      var (after, n) := Round(o.local, items[1..]);
      (after, n + if o.refund != 0 then 1 else 0)
  }

  /** Failures that are not mere repetitions of the failure just before. */
  function Failures(prev: Option<Reply>, replies: seq<Reply>): nat
    decreases |replies|
  {
    if replies == [] then 0
    else
      var r := replies[0];
      Failures(Some(r), replies[1..])
      + if Failed(r) && (prev.None? || !Failed(prev.value) || Changed(prev.value, r)) then 1 else 0
  }

  /** After a failing item another item of the round refunds again exactly when it is a failure and differs. */
  lemma RefundsAgainExactlyWhen(local: Task, a: Reply, b: Reply, late: bool)
    requires Failed(a) && local.quota != 0
    ensures var row := Filled(local, a);
      Handle(row, row, b, late, true).refund != 0 <==> Failed(b) && Changed(a, b)
  {
  }

  lemma {:induction false} RoundFrom(local: Task, prev: Option<Reply>, items: seq<Listed>)
    requires local.quota != 0
    requires if prev.Some? then local == Filled(local, prev.value) else local.progress != FULL
    ensures Round(local, items).1 == Failures(prev, Effective(local, items))
    ensures Round(local, items).0.quota == local.quota
    ensures items != [] ==>
      var rs := Effective(local, items); rs != [] && Round(local, items).0 == Filled(local, rs[|rs| - 1])
    decreases |items|
  {
    if items != [] {
      var r := Timed(local, items[0].reply, items[0].late);
      HandledShows(local, local, items[0].reply, items[0].late, true);
      assert Effective(local, items)[1..] == Effective(Filled(local, r), items[1..]);
      RoundFrom(Filled(local, r), Some(r), items[1..]);
    }
  }

  /** A round refunds as often as its response reports a failure that is not a repetition; the row shows the last item. */
  lemma RoundRefundsExactly(row: Task, items: seq<Listed>)
    requires row.quota != 0 && row.progress != FULL
    ensures Round(row, items).1 == Failures(None, Effective(row, items))
  {
    RoundFrom(row, None, items);
  }

  /** The round as events of the machine. */
  function Events(items: seq<Listed>): seq<Event> {
    if items == [] then [] else [Item(0, items[0].reply, items[0].late, true)] + Events(items[1..])
  }

  function Times(n: nat, quota: int): int {
    if n == 0 then 0 else quota + Times(n - 1, quota)
  }

  lemma ItemIsHandled(s: State, item: Listed)
    requires 0 in s.locals && s.locals[0].task == s.row && s.row.quota != 0
    ensures var t := Step(s, Item(0, item.reply, item.late, true));
      var o := Handle(s.row, s.row, item.reply, item.late, true);
      && 0 in t.locals && t.locals[0].task == t.row == o.local && t.row.quota == s.row.quota
      && t.refunded == s.refunded + (if o.refund != 0 then s.row.quota else 0)
  {
  }

  lemma {:induction false} RoundIsRun(s: State, items: seq<Listed>)
    requires 0 in s.locals && s.locals[0].task == s.row && s.row.quota != 0
    ensures var t := Run(s, Events(items));
      t.row == Round(s.row, items).0 && t.refunded == s.refunded + Times(Round(s.row, items).1, s.row.quota)
    decreases |items|
  {
    if items != [] {
      var e := Item(0, items[0].reply, items[0].late, true);
      RunCons(s, e, Events(items[1..]));
      ItemIsHandled(s, items[0]);
      RoundIsRun(Step(s, e), items[1..]);
    }
  }

  lemma RunCons(s: State, e: Event, events: seq<Event>)
    ensures Run(s, [e] + events) == Run(Step(s, e), events)
  {
    assert ([e] + events)[1..] == events;
  }

  // ---- whole runs of rounds -----------------------------------------------------------------------

  /** How often a single poller refunds over a sequence of responses; a finished row is not polled. */
  function Refunds(row: Task, rounds: seq<seq<Listed>>): nat
    decreases |rounds|
  {
    if rounds == [] then 0
    else if row.progress == FULL then Refunds(row, rounds[1..])
    else Round(row, rounds[0]).1 + Refunds(Round(row, rounds[0]).0, rounds[1..])
  }

  /** The progress the row shows after a reply. */
  function ShownProgress(r: Reply): string {
    if Failed(r) then FULL else r.progress
  }

  /** At most one failure that is no repetition, and if there is one the row ends up finished. */
  predicate Tame(replies: seq<Reply>) {
    && Failures(None, replies) <= 1
    && (Failures(None, replies) == 1 && replies != [] ==> ShownProgress(replies[|replies| - 1]) == FULL)
  }

  ghost predicate AllTame(row: Task, rounds: seq<seq<Listed>>)
    decreases |rounds|
  {
    rounds != [] ==>
      if row.progress == FULL then AllTame(row, rounds[1..])
      else Tame(Effective(row, rounds[0])) && AllTame(Round(row, rounds[0]).0, rounds[1..])
  }

  lemma {:induction false} FinishedStays(row: Task, rounds: seq<seq<Listed>>)
    requires row.progress == FULL
    ensures Refunds(row, rounds) == 0
    decreases |rounds|
  {
    if rounds != [] {
      FinishedStays(row, rounds[1..]);
    }
  }

  /** Tame responses refund at most once over the whole run. */
  lemma {:induction false} TameRefundsOnce(row: Task, rounds: seq<seq<Listed>>)
    requires row.quota != 0 && AllTame(row, rounds)
    ensures Refunds(row, rounds) <= 1
    decreases |rounds|
  {
    if rounds != [] {
      if row.progress == FULL {
        TameRefundsOnce(row, rounds[1..]);
      } else {
        var after := Round(row, rounds[0]).0;
        RoundFrom(row, None, rounds[0]);
        if after.progress == FULL {
          FinishedStays(after, rounds[1..]);
        } else {
          TameRefundsOnce(after, rounds[1..]);
        }
      }
    }
  }

  function Prompt(replies: seq<Reply>): (items: seq<Listed>)
    ensures |items| == |replies|
  {
    if replies == [] then [] else [Listed(replies[0], false)] + Prompt(replies[1..])
  }

  lemma {:induction false} PromptEffective(local: Task, replies: seq<Reply>)
    ensures Effective(local, Prompt(replies)) == replies
    decreases |replies|
  {
    if replies != [] {
      assert Prompt(replies)[1..] == Prompt(replies[1..]);
      PromptEffective(Filled(local, replies[0]), replies[1..]);
    }
  }

  /** A failure listed twice unchanged: refunded once if its progress is full, else twice. */
  lemma ListedTwice(row: Task, r: Reply)
    requires row.quota != 0 && row.progress != FULL && Failed(r)
    ensures Round(row, Prompt([r, r])).1 == if r.progress == FULL then 1 else 2
  {
    PromptEffective(row, [r, r]);
    RoundRefundsExactly(row, Prompt([r, r]));
    assert [r, r][1..] == [r] && [r][1..] == [];
    assert Failures(Some(r), [r]) == if r.progress == FULL then 0 else 1;
  }

  /** Whatever tame responses follow, the response leads to at most one refund of any unfinished row. */
  ghost predicate Harmless(replies: seq<Reply>) {
    forall row: Task, more: seq<seq<Listed>> ::
      row.quota != 0 && row.progress != FULL && AllTame(Round(row, Prompt(replies)).0, more) ==>
        Refunds(row, [Prompt(replies)] + more) <= 1
  }

  lemma UntameRefundsTwice(replies: seq<Reply>, row: Task)
    requires !Tame(replies) && row.quota != 0 && row.progress != FULL
    ensures var more := [[Listed(CLEAN_FAILURE, false)]];
      AllTame(Round(row, Prompt(replies)).0, more) && Refunds(row, [Prompt(replies)] + more) >= 2
  {
    var again: seq<Listed> := [Listed(CLEAN_FAILURE, false)];
    var more := [again];
    var after := Round(row, Prompt(replies)).0;
    PromptEffective(row, replies);
    RoundFrom(row, None, Prompt(replies));
    assert ([Prompt(replies)] + more)[1..] == more;
    assert again[1..] == [] && more[1..] == [];
    if after.progress != FULL {
      assert Effective(after, again) == [CLEAN_FAILURE];
      RoundFrom(after, None, again);
    }
  }

  /** A response, repetitions and all, is harmless exactly when it is tame. */
  lemma HarmlessExactlyWhen(replies: seq<Reply>)
    ensures Harmless(replies) <==> Tame(replies)
  {
    if Tame(replies) {
      forall row: Task, more: seq<seq<Listed>> |
        row.quota != 0 && row.progress != FULL && AllTame(Round(row, Prompt(replies)).0, more)
        ensures Refunds(row, [Prompt(replies)] + more) <= 1
      {
        var rounds := [Prompt(replies)] + more;
        PromptEffective(row, replies);
        assert rounds[1..] == more;
        TameRefundsOnce(row, rounds);
      }
    } else {
      var row := Waiting("IN_PROGRESS", 1);
      var more := [[Listed(CLEAN_FAILURE, false)]];
      UntameRefundsTwice(replies, row);
      assert AllTame(Round(row, Prompt(replies)).0, more) && Refunds(row, [Prompt(replies)] + more) > 1;
    }
  }
}
