/** What detecting and applying upstream changes achieves: convergence, and safety over whole runs. */
module Reconciliation {
  import opened Prelude
  import opened Text
  import opened Lists
  import opened ModelNames
  import opened UpstreamModels

  ghost predicate CommaFree(names: Names) {
    forall n :: n in names ==> COMMA !in n
  }

  // ---- the stored list -----------------------------------------------------------------

  lemma LocalIsPlain(row: Row)
    ensures Normal(Local(row)) && CommaFree(Local(row))
  {
    NormalizeIsNormal(GetModels(row.models));
    forall n | n in Local(row) ensures COMMA !in n {
      NormalizeIn(GetModels(row.models), n);
      var m :| m in GetModels(row.models) && TrimSpace(m) == n;
      PiecesPlain(Trim(row.models, Only(COMMA)), COMMA);
      TrimIsBare(m, Space);
    }
  }

  /** A normal list without commas is read back as it was stored. */
  lemma StoredRoundTrip(names: Names)
    requires Normal(names) && CommaFree(names)
    ensures NormalizeModelNames(GetModels(Join(names, COMMA))) == names
  {
    if names != [] {
      assert forall i :: 0 <= i < |names| ==> names[i] in names;
      assert forall n :: n in names ==> NormalName(n);
      JoinBare(names, COMMA);
      TrimIsBare(Join(names, COMMA), Only(COMMA));
      SplitJoin(names, COMMA);
    }
    NormalizeNormal(names);
  }

  /** A name without a comma is read back, whatever it is stored with. */
  lemma StoredKeeps(names: Names, n: string)
    requires n in names && NormalName(n) && COMMA !in n
    ensures n in NormalizeModelNames(GetModels(Join(names, COMMA)))
  {
    PieceOfJoin(names, COMMA, n);
    PieceSurvivesTrim(Join(names, COMMA), COMMA, n);
    TrimIsBare(n, Space);
    NormalizeIn(GetModels(Join(names, COMMA)), n);
  }

  // ---- one apply --------------------------------------------------------------------------

  /** The selections an apply acts on are normal sublists of what is pending. */
  lemma Selections(row: Row, addInput: Names, ignoreInput: Names, removeInput: Names, now: int)
    ensures var r := AfterApply(row, addInput, ignoreInput, removeInput, now);
      && Normal(r.added) && Normal(r.ignored) && Normal(r.removed)
      && (forall n :: n in r.added <==> n in NormalizeModelNames(addInput) && n in NormalizeModelNames(row.settings.detected))
      && (forall n :: n in r.ignored <==> n in NormalizeModelNames(ignoreInput) && n in NormalizeModelNames(row.settings.detected))
      && (forall n :: n in r.removed <==>
            n in NormalizeModelNames(removeInput) && n in NormalizeModelNames(row.settings.removed) && n !in r.added)
  {
    var r := AfterApply(row, addInput, ignoreInput, removeInput, now);
    SelectionIn(addInput, row.settings.detected);
    SelectionIn(ignoreInput, row.settings.detected);
    SelectionIn(removeInput, row.settings.removed);
    var remove := IntersectModelNames(removeInput, NormalizeModelNames(row.settings.removed));
    NormalizeNormal(remove);
    NormalizeNormal(r.added);
    WithoutNormal(remove, r.added);
    forall n ensures n in r.removed <==> n in remove && n !in r.added { WithoutIn(remove, r.added, n); }
  }

  lemma SelectionIn(input: Names, pending: Names)
    ensures var s := IntersectModelNames(input, NormalizeModelNames(pending));
      Normal(s) && forall n :: n in s <==> n in NormalizeModelNames(input) && n in NormalizeModelNames(pending)
  {
    NormalizeIsNormal(input);
    NormalizeIsNormal(pending);
    NormalizeNormal(NormalizeModelNames(pending));
    AmongNormal(NormalizeModelNames(input), NormalizeModelNames(pending));
    forall n
      ensures n in IntersectModelNames(input, NormalizeModelNames(pending)) <==>
              n in NormalizeModelNames(input) && n in NormalizeModelNames(pending)
    {
      AmongIn(NormalizeModelNames(input), NormalizeModelNames(pending), n);
    }
  }

  lemma NormalizeConcatIn(a: Names, b: Names, n: string)
    requires Normal(a) && Normal(b)
    ensures n in NormalizeModelNames(a + b) <==> n in a || n in b
  {
    NormalizeNormal(a);
    NormalizeNormal(b);
    NormalizeIn(a + b, n);
    NormalizeIn(a, n);
    NormalizeIn(b, n);
  }

  /**
    An apply splits the pending adds into added, ignored but not added, and remaining, and the pending
    removals into removed and remaining; the remaining ones keep their order and stay pending.
   */
  lemma ApplySplitsPending(row: Row, addInput: Names, ignoreInput: Names, removeInput: Names, now: int)
    ensures var r := AfterApply(row, addInput, ignoreInput, removeInput, now);
      var pending := NormalizeModelNames(row.settings.detected);
      && (forall n :: n in pending <==> n in r.added || (n in r.ignored && n !in r.added) || n in r.remaining)
      && (forall n :: n in r.remaining ==> n !in r.added && n !in r.ignored)
      && r.remaining == Without(pending, NormalizeModelNames(r.added + r.ignored)) && Normal(r.remaining)
    ensures var r := AfterApply(row, addInput, ignoreInput, removeInput, now);
      var pending := NormalizeModelNames(row.settings.removed);
      && (forall n :: n in pending <==> n in r.removed || n in r.remainingRemove)
      && (forall n :: n in r.remainingRemove ==> n !in r.removed)
      && r.remainingRemove == Without(pending, r.removed) && Normal(r.remainingRemove)
    ensures var r := AfterApply(row, addInput, ignoreInput, removeInput, now);
      r.row.settings == row.settings.(ignored := r.row.settings.ignored, detected := r.remaining,
                                      removed := r.remainingRemove, lastCheck := now)
  {
    RemovalsSplit(row, addInput, ignoreInput, removeInput, now);
    var r := AfterApply(row, addInput, ignoreInput, removeInput, now);
    var pending := NormalizeModelNames(row.settings.detected);
    Selections(row, addInput, ignoreInput, removeInput, now);
    NormalizeIsNormal(row.settings.detected);
    NormalizeNormal(pending);
    var taken := NormalizeModelNames(r.added + r.ignored);
    WithoutNormal(pending, taken);
    forall n ensures n in r.remaining <==> n in pending && n !in r.added && n !in r.ignored {
      WithoutIn(pending, taken, n);
      NormalizeConcatIn(r.added, r.ignored, n);
    }
  }

  lemma RemovalsSplit(row: Row, addInput: Names, ignoreInput: Names, removeInput: Names, now: int)
    ensures var r := AfterApply(row, addInput, ignoreInput, removeInput, now);
      var pending := NormalizeModelNames(row.settings.removed);
      && (forall n :: n in pending <==> n in r.removed || n in r.remainingRemove)
      && (forall n :: n in r.remainingRemove ==> n !in r.removed)
      && r.remainingRemove == Without(pending, r.removed) && Normal(r.remainingRemove)
  {
    var r := AfterApply(row, addInput, ignoreInput, removeInput, now);
    var pending := NormalizeModelNames(row.settings.removed);
    Selections(row, addInput, ignoreInput, removeInput, now);
    NormalizeIsNormal(row.settings.removed);
    NormalizeNormal(pending);
    NormalizeNormal(r.removed);
    WithoutNormal(pending, r.removed);
    forall n ensures n in r.remainingRemove <==> n in pending && n !in r.removed {
      WithoutIn(pending, r.removed, n);
    }
  }

  /** The list an apply stores: survivors in their order, then the added names that are new. */
  function NextModels(row: Row, added: Names, removed: Names): Names {
    Without(Local(row), removed) + Without(added, Local(row))
  }

  lemma ApplyStores(row: Row, addInput: Names, ignoreInput: Names, removeInput: Names, now: int)
    ensures var r := AfterApply(row, addInput, ignoreInput, removeInput, now);
      var next := NextModels(row, r.added, r.removed);
      && Normal(next)
      && r.modelsChanged == (Local(row) != next)
      && r.row.models == (if Local(row) != next then Join(next, COMMA) else row.models)
      && (CommaFree(r.added) ==> Local(r.row) == next)
  {
    var r := AfterApply(row, addInput, ignoreInput, removeInput, now);
    Selections(row, addInput, ignoreInput, removeInput, now);
    LocalIsPlain(row);
    ApplySelectedShape(Local(row), r.added, r.removed);
    var next := NextModels(row, r.added, r.removed);
    if CommaFree(r.added) {
      forall n | n in next ensures COMMA !in n {
        WithoutIn(Local(row), r.removed, n);
        WithoutIn(r.added, Local(row), n);
      }
      StoredRoundTrip(next);
    }
  }

  // ---- convergence ----------------------------------------------------------------------

  function Detect(row: Row, upstream: Names, mapping: map<string, string>, matches: Matcher): Pending {
    Collect(GetModels(row.models), upstream, row.settings.ignored, mapping, matches)
  }

  /** Detect, then apply everything that was detected. */
  function DetectAndApplyAll(row: Row, upstream: Names, mapping: map<string, string>, matches: Matcher, now: int): Row {
    var checked := AfterCheck(row, true, false, Some(upstream), now, 0, mapping, matches).row;
    AfterApply(checked, checked.settings.detected, [], checked.settings.removed, now).row
  }

  lemma ApplyAllTakesAll(row: Row, upstream: Names, mapping: map<string, string>, matches: Matcher, now: int)
    ensures var p := Detect(row, upstream, mapping, matches);
      var checked := AfterCheck(row, true, false, Some(upstream), now, 0, mapping, matches).row;
      var r := AfterApply(checked, checked.settings.detected, [], checked.settings.removed, now);
      && checked.models == row.models && checked.settings.ignored == row.settings.ignored
      && r.added == p.add && r.removed == p.remove && r.ignored == []
  {
    var p := Detect(row, upstream, mapping, matches);
    CollectNormal(GetModels(row.models), upstream, row.settings.ignored, mapping, matches);
    NormalizeNormal(p.add);
    NormalizeNormal(p.remove);
    AmongAll(p.add, p.add);
    AmongAll(p.remove, p.remove);
    forall n | n in p.remove ensures n !in p.add {
      CollectIn(GetModels(row.models), upstream, row.settings.ignored, mapping, matches, n);
    }
    WithoutNone(p.remove, p.add);
  }

  lemma IgnoredAfterApplyAll(row: Row, upstream: Names, mapping: map<string, string>, matches: Matcher, now: int)
    ensures var p := Detect(row, upstream, mapping, matches);
      NormalizeModelNames(DetectAndApplyAll(row, upstream, mapping, matches, now).settings.ignored) ==
      Without(NormalizeModelNames(row.settings.ignored), p.add)
  {
    var p := Detect(row, upstream, mapping, matches);
    var before := NormalizeModelNames(row.settings.ignored);
    ApplyAllTakesAll(row, upstream, mapping, matches, now);
    CollectNormal(GetModels(row.models), upstream, row.settings.ignored, mapping, matches);
    NormalizeNormal(p.add);
    NormalizeIsNormal(row.settings.ignored);
    NormalizeNormal(before);
    assert Merged(row.settings.ignored, []) == before;
    WithoutNormal(before, p.add);
    NormalizeNormal(Without(before, p.add));
    if p.add == [] {
      WithoutNone(before, p.add);
    }
  }

  /** An ignored upstream name loses its last ignore entry because that entry is itself being added. */
  ghost predicate Exposed(row: Row, upstream: Names, mapping: map<string, string>, matches: Matcher, n: string) {
    && n in NormalizeModelNames(upstream) && n !in Local(row) && n !in mapping.Values
    && IgnoredBy(NormalizeModelNames(row.settings.ignored), n, matches)
    && !IgnoredBy(Without(NormalizeModelNames(row.settings.ignored), Detect(row, upstream, mapping, matches).add), n, matches)
  }

  ghost predicate Converges(row: Row, upstream: Names, mapping: map<string, string>, matches: Matcher, now: int) {
    Detect(DetectAndApplyAll(row, upstream, mapping, matches, now), upstream, mapping, matches) == Pending([], [])
  }

  lemma FewerEntriesIgnoreLess(entries: Names, drop: Names, n: string, matches: Matcher)
    requires IgnoredBy(Without(entries, drop), n, matches)
    ensures IgnoredBy(entries, n, matches)
  {
    var e :| e in Without(entries, drop) && Ignores(e, n, matches);
    WithoutIn(entries, drop, e);
  }

  /** What the second detection proposes to add, when no added name holds a comma. */
  lemma SecondAdds(row: Row, upstream: Names, mapping: map<string, string>, matches: Matcher, now: int, n: string)
    requires CommaFree(Detect(row, upstream, mapping, matches).add)
    ensures var second := Detect(DetectAndApplyAll(row, upstream, mapping, matches, now), upstream, mapping, matches);
      (n in second.add <==> Exposed(row, upstream, mapping, matches, n)) && n !in second.remove
  {
    var p := Detect(row, upstream, mapping, matches);
    var row2 := DetectAndApplyAll(row, upstream, mapping, matches, now);
    var checked := AfterCheck(row, true, false, Some(upstream), now, 0, mapping, matches).row;
    ApplyAllTakesAll(row, upstream, mapping, matches, now);
    ApplyStores(checked, p.add, [], p.remove, now);
    IgnoredAfterApplyAll(row, upstream, mapping, matches, now);
    CollectIn(GetModels(row.models), upstream, row.settings.ignored, mapping, matches, n);
    CollectIn(GetModels(row2.models), upstream, row2.settings.ignored, mapping, matches, n);
    WithoutIn(Local(row), p.remove, n);
    WithoutIn(p.add, Local(row), n);
    if IgnoredBy(Without(NormalizeModelNames(row.settings.ignored), p.add), n, matches) {
      FewerEntriesIgnoreLess(NormalizeModelNames(row.settings.ignored), p.add, n, matches);
    }
  }

  /** A comma name is split when it is read back, so it is proposed again. */
  lemma CommaNameComesBack(row: Row, upstream: Names, mapping: map<string, string>, matches: Matcher, now: int, n: string)
    requires n in Detect(row, upstream, mapping, matches).add && COMMA in n
    ensures n in Detect(DetectAndApplyAll(row, upstream, mapping, matches, now), upstream, mapping, matches).add
  {
    var p := Detect(row, upstream, mapping, matches);
    var row2 := DetectAndApplyAll(row, upstream, mapping, matches, now);
    LocalIsPlain(row2);
    IgnoredAfterApplyAll(row, upstream, mapping, matches, now);
    CollectIn(GetModels(row.models), upstream, row.settings.ignored, mapping, matches, n);
    CollectIn(GetModels(row2.models), upstream, row2.settings.ignored, mapping, matches, n);
    if IgnoredBy(Without(NormalizeModelNames(row.settings.ignored), p.add), n, matches) {
      FewerEntriesIgnoreLess(NormalizeModelNames(row.settings.ignored), p.add, n, matches);
    }
  }

  /**
    Applying everything settles the channel if and only if no proposed name holds a
    comma and no ignored upstream name is exposed by the names being added.
   */
  lemma ConvergesExactlyWhen(row: Row, upstream: Names, mapping: map<string, string>, matches: Matcher, now: int)
    ensures Converges(row, upstream, mapping, matches, now) <==>
      CommaFree(Detect(row, upstream, mapping, matches).add) && forall n :: !Exposed(row, upstream, mapping, matches, n)
  {
    var p := Detect(row, upstream, mapping, matches);
    var second := Detect(DetectAndApplyAll(row, upstream, mapping, matches, now), upstream, mapping, matches);
    if !CommaFree(p.add) {
      var n :| n in p.add && COMMA in n;
      CommaNameComesBack(row, upstream, mapping, matches, now, n);
    } else {
      forall n ensures (n in second.add <==> Exposed(row, upstream, mapping, matches, n)) && n !in second.remove {
        SecondAdds(row, upstream, mapping, matches, now, n);
      }
      NoMembers(second.remove);
      NoMembers(second.add);
    }
  }

  function IgnoringOnly(e: string): Row {
    Row("", Settings(false, 0, [], [], [e]))
  }

  /** An ignore pattern that is itself an upstream name is added, leaves the ignore list, and what it hid is proposed. */
  lemma AddedEntryExposes(e: string, n: string, matches: Matcher, now: int)
    requires Normal([e, n]) && REGEX_PREFIX <= e && COMMA !in e
    requires Ignores(e, n, matches) && !Ignores(e, e, matches)
    ensures n in Detect(DetectAndApplyAll(IgnoringOnly(e), [e, n], map[], matches, now), [e, n], map[], matches).add
  {
    var row, upstream := IgnoringOnly(e), [e, n];
    var p := Detect(row, upstream, map[], matches);
    assert e in upstream && n in upstream;
    NormalizeNormal(upstream);
    NormalizeNormal([e]);
    assert Local(row) == [];
    forall m ensures m in p.add <==> m in upstream && !IgnoredBy([e], m, matches) {
      CollectIn(GetModels(row.models), upstream, [e], map[], matches, m);
    }
    assert !IgnoredBy([e], e, matches) && Ignores(e, n, matches) && e in [e];
    forall m ensures m !in Without([e], p.add) {
      WithoutIn([e], p.add, m);
    }
    SecondAdds(row, upstream, map[], matches, now, n);
  }

  /** The pattern ^ followed by plain characters. */
  predicate Opening(pattern: string, name: string) {
    "^" <= pattern && pattern[1..] <= name
  }

  /** Such a row: "regex:^b" is ignored and offered upstream beside "b1". */
  lemma ExposedOccurs(now: int)
    ensures !Converges(IgnoringOnly("regex:^b"), ["regex:^b", "b1"], map[], Opening, now)
  {
    var e, n := "regex:^b", "b1";
    assert e[|REGEX_PREFIX|..] == "^b" && Bare("^b", Space);
    TrimIsBare("^b", Space);
    AddedEntryExposes(e, n, Opening, now);
  }

  /** In particular when upstream names hold no comma and none looks like a regular-expression entry. */
  lemma OrdinaryNamesConverge(row: Row, upstream: Names, mapping: map<string, string>, matches: Matcher, now: int)
    requires forall n :: n in NormalizeModelNames(upstream) ==> COMMA !in n && !(REGEX_PREFIX <= n)
    ensures Converges(row, upstream, mapping, matches, now)
  {
    var p := Detect(row, upstream, mapping, matches);
    var entries := NormalizeModelNames(row.settings.ignored);
    forall n | n in p.add ensures COMMA !in n {
      CollectIn(GetModels(row.models), upstream, row.settings.ignored, mapping, matches, n);
    }
    forall n ensures !Exposed(row, upstream, mapping, matches, n) {
      if IgnoredBy(entries, n, matches) {
        var e :| e in entries && Ignores(e, n, matches);
        CollectIn(GetModels(row.models), upstream, row.settings.ignored, mapping, matches, e);
        WithoutIn(entries, p.add, e);
        assert e in p.add ==> e == n;
      }
    }
    ConvergesExactlyWhen(row, upstream, mapping, matches, now);
  }

  // ---- whole runs ------------------------------------------------------------------------

  /** A detection (manual, scheduled or auto-syncing), or an apply of a selection. */
  datatype Event =
    | Check(force: bool, allowAutoApply: bool, upstream: Option<Names>, now: int, minInterval: int)
    | Apply(add: Names, ignore: Names, remove: Names, now: int)

  function Step(row: Row, e: Event, mapping: map<string, string>, matches: Matcher): Row {
    match e
    case Check(force, auto, upstream, now, minInterval) =>
      AfterCheck(row, force, auto, upstream, now, minInterval, mapping, matches).row
    case Apply(add, ignore, remove, now) => AfterApply(row, add, ignore, remove, now).row
  }

  function Run(row: Row, events: seq<Event>, mapping: map<string, string>, matches: Matcher): Row
    decreases |events|
  {
    if events == [] then row else Run(Step(row, events[0], mapping, matches), events[1..], mapping, matches)
  }

  /** n is on the ignore list as a plain name. */
  ghost predicate PlainIgnored(row: Row, n: string) {
    n in NormalizeModelNames(row.settings.ignored) && !(REGEX_PREFIX <= n)
  }

  /** No alias is up for removal, no plainly ignored name is up for adding. */
  ghost predicate Inv(row: Row, mapping: map<string, string>) {
    && (forall n :: n in NormalizeModelNames(row.settings.removed) ==> n !in mapping.Keys)
    && (forall n :: n in NormalizeModelNames(row.settings.detected) ==> !PlainIgnored(row, n))
  }

  lemma CheckKeeps(row: Row, e: Event, mapping: map<string, string>, matches: Matcher)
    requires Inv(row, mapping) && e.Check?
    ensures Inv(Step(row, e, mapping, matches), mapping)
    ensures Step(row, e, mapping, matches).settings.ignored == row.settings.ignored
  {
    if e.upstream.Some? {
      var p := Detect(row, e.upstream.value, mapping, matches);
      CollectNormal(GetModels(row.models), e.upstream.value, row.settings.ignored, mapping, matches);
      NormalizeNormal(p.add);
      NormalizeNormal(p.remove);
      forall n ensures (n in p.remove ==> n !in mapping.Keys) && (n in p.add ==> !PlainIgnored(row, n)) {
        CollectIn(GetModels(row.models), e.upstream.value, row.settings.ignored, mapping, matches, n);
      }
    }
  }

  lemma ApplyIgnored(row: Row, e: Event, mapping: map<string, string>, matches: Matcher, n: string)
    requires e.Apply?
    ensures var r := AfterApply(row, e.add, e.ignore, e.remove, e.now);
      n in NormalizeModelNames(r.row.settings.ignored) <==>
      (n in NormalizeModelNames(row.settings.ignored) || n in r.ignored) && n !in r.added
  {
    var r := AfterApply(row, e.add, e.ignore, e.remove, e.now);
    var before := NormalizeModelNames(row.settings.ignored);
    Selections(row, e.add, e.ignore, e.remove, e.now);
    NormalizeIsNormal(row.settings.ignored);
    NormalizeNormal(before);
    NormalizeNormal(r.ignored);
    NormalizeNormal(r.added);
    MergedNormal(before, r.ignored);
    var all := Merged(row.settings.ignored, r.ignored);
    NormalizeNormal(all);
    WithoutIn(r.ignored, before, n);
    WithoutIn(all, r.added, n);
    WithoutNormal(all, r.added);
    NormalizeNormal(Without(all, r.added));
  }

  lemma ApplyKeeps(row: Row, e: Event, mapping: map<string, string>, matches: Matcher)
    requires Inv(row, mapping) && e.Apply?
    ensures Inv(Step(row, e, mapping, matches), mapping)
  {
    var r := AfterApply(row, e.add, e.ignore, e.remove, e.now);
    ApplySplitsPending(row, e.add, e.ignore, e.remove, e.now);
    NormalizeNormal(r.remaining);
    forall n | n in r.remaining ensures !PlainIgnored(r.row, n) { ApplyIgnored(row, e, mapping, matches, n); }
    NormalizeIsNormal(row.settings.removed);
    NormalizeNormal(NormalizeModelNames(row.settings.removed));
    WithoutNormal(NormalizeModelNames(row.settings.removed), NormalizeModelNames(r.removed));
    NormalizeNormal(r.remainingRemove);
    forall n | n in r.remainingRemove ensures n !in mapping.Keys {
      WithoutIn(NormalizeModelNames(row.settings.removed), NormalizeModelNames(r.removed), n);
    }
  }

  /** A redirect alias in the list stays in the list. */
  lemma AliasKept(row: Row, e: Event, mapping: map<string, string>, matches: Matcher, alias: string)
    requires Inv(row, mapping) && alias in mapping.Keys && alias in Local(row)
    ensures alias in Local(Step(row, e, mapping, matches))
  {
    LocalIsPlain(row);
    match e
    case Check(_, _, upstream, _, _) =>
      if upstream.Some? {
        var p := Detect(row, upstream.value, mapping, matches);
        CollectNormal(GetModels(row.models), upstream.value, row.settings.ignored, mapping, matches);
        MergedNormal(Local(row), p.add);
        StoredKeeps(Merged(Local(row), p.add), alias);
      }
    case Apply(add, ignore, remove, now) =>
      var r := AfterApply(row, add, ignore, remove, now);
      Selections(row, add, ignore, remove, now);
      ApplyStores(row, add, ignore, remove, now);
      WithoutIn(Local(row), r.removed, alias);
      StoredKeeps(NextModels(row, r.added, r.removed), alias);
  }

  /** A plainly ignored name stays ignored and is not proposed. */
  lemma IgnoredKept(row: Row, e: Event, mapping: map<string, string>, matches: Matcher, n: string)
    requires Inv(row, mapping) && PlainIgnored(row, n)
    ensures PlainIgnored(Step(row, e, mapping, matches), n)
  {
    if e.Apply? {
      Selections(row, e.add, e.ignore, e.remove, e.now);
      ApplyIgnored(row, e, mapping, matches, n);
    } else {
      CheckKeeps(row, e, mapping, matches);
    }
  }

  lemma {:induction false} RunsKeep(row: Row, events: seq<Event>, mapping: map<string, string>, matches: Matcher, n: string)
    requires Inv(row, mapping)
    ensures var end := Run(row, events, mapping, matches);
      && Inv(end, mapping)
      && (n in mapping.Keys && n in Local(row) ==> n in Local(end))
      && (PlainIgnored(row, n) ==> PlainIgnored(end, n) && n !in NormalizeModelNames(end.settings.detected))
    decreases |events|
  {
    if events != [] {
      if events[0].Check? {
        CheckKeeps(row, events[0], mapping, matches);
      } else {
        ApplyKeeps(row, events[0], mapping, matches);
      }
      if n in mapping.Keys && n in Local(row) { AliasKept(row, events[0], mapping, matches, n); }
      if PlainIgnored(row, n) { IgnoredKept(row, events[0], mapping, matches, n); }
      RunsKeep(Step(row, events[0], mapping, matches), events[1..], mapping, matches, n);
    }
  }

  /** Ignoring without adding puts the name on the ignore list. */
  lemma IgnoringIgnores(row: Row, e: Event, mapping: map<string, string>, matches: Matcher, n: string)
    requires e.Apply? && n in NormalizeModelNames(row.settings.detected)
    requires n in NormalizeModelNames(e.ignore) && n !in NormalizeModelNames(e.add) && !(REGEX_PREFIX <= n)
    ensures PlainIgnored(Step(row, e, mapping, matches), n)
  {
    Selections(row, e.add, e.ignore, e.remove, e.now);
    ApplyIgnored(row, e, mapping, matches, n);
  }

  /**
    A name that reads like a regular-expression entry is different: being on the ignore
    list does not stop it from being proposed unless some entry's pattern matches it.
   */
  lemma PatternNameProposed(row: Row, upstream: Names, mapping: map<string, string>, matches: Matcher, n: string)
    requires REGEX_PREFIX <= n
    ensures n in Detect(row, upstream, mapping, matches).add <==>
      && n in NormalizeModelNames(upstream) && n !in Local(row) && n !in mapping.Values
      && forall e :: e in NormalizeModelNames(row.settings.ignored) && REGEX_PREFIX <= e ==>
           !matches(TrimSpace(e[|REGEX_PREFIX|..]), n)
  {
    var entries := NormalizeModelNames(row.settings.ignored);
    CollectIn(GetModels(row.models), upstream, row.settings.ignored, mapping, matches, n);
    assert forall e :: e in entries ==>
      (Ignores(e, n, matches) <==> REGEX_PREFIX <= e && matches(TrimSpace(e[|REGEX_PREFIX|..]), n));
  }

  /** Auto-sync adds exactly as many models as were pending, behind the existing ones. */
  /**
    A check does nothing if it is too early, and only notes the time if the fetch fails. Otherwise it notes what is
    pending, additions aside when they are applied at once; the ignore list and the auto-sync setting stay.
   */
  lemma CheckNotes(row: Row, force: bool, allowAutoApply: bool, upstream: Option<Names>, now: int, minInterval: int,
                   mapping: map<string, string>, matches: Matcher)
    ensures var r := AfterCheck(row, force, allowAutoApply, upstream, now, minInterval, mapping, matches);
      var early := !force && row.settings.lastCheck > 0 && now < row.settings.lastCheck + minInterval;
      && (early ==> r.row == row && !r.failed) && (early || r.failed ==> !r.modelsChanged && r.autoAdded == 0)
      && (r.failed <==> !early && upstream.None?)
      && (r.failed ==> r.row == row.(settings := row.settings.(lastCheck := now)))
      && (!early && upstream.Some? ==>
            var p := Detect(row, upstream.value, mapping, matches);
            var applied := allowAutoApply && row.settings.autoSync;
            && r.row.settings == row.settings.(lastCheck := now, detected := if applied then [] else p.add, removed := p.remove)
            && (!applied ==> r.row.models == row.models && !r.modelsChanged && r.autoAdded == 0))
  {
  }

  lemma AutoSyncAddsPending(row: Row, force: bool, upstream: Names, now: int, minInterval: int,
                            mapping: map<string, string>, matches: Matcher)
    requires row.settings.autoSync && (force || row.settings.lastCheck <= 0 || now - row.settings.lastCheck >= minInterval)
    ensures var p := Detect(row, upstream, mapping, matches);
      var r := AfterCheck(row, force, true, Some(upstream), now, minInterval, mapping, matches);
      && r.autoAdded == |p.add| && r.modelsChanged == (p.add != [])
      && (CommaFree(p.add) ==> Local(r.row) == Local(row) + p.add)
  {
    var p := Detect(row, upstream, mapping, matches);
    LocalIsPlain(row);
    CollectNormal(GetModels(row.models), upstream, row.settings.ignored, mapping, matches);
    MergedNormal(Local(row), p.add);
    forall n | n in p.add ensures n !in Local(row) {
      CollectIn(GetModels(row.models), upstream, row.settings.ignored, mapping, matches, n);
    }
    WithoutNone(p.add, Local(row));
    if CommaFree(p.add) {
      StoredRoundTrip(Local(row) + p.add);
    }
  }
}
