/**
  Reconciliation of a channel's model list with its upstream
  (controller/channel_upstream_update.go): detect, auto-sync, apply, ignore.

  The model list is stored as one comma-joined string. The regular expressions of
  the ignore list are an arbitrary predicate `matches(pattern, name)`.
 */
module UpstreamModels {
  import opened Prelude
  import opened Text
  import opened Lists
  import opened ModelNames

  type Matcher = (string, string) -> bool

  const REGEX_PREFIX := "regex:"
  const COMMA := ','

  datatype Settings = Settings(
    autoSync: bool,          // UpstreamModelUpdateAutoSyncEnabled
    lastCheck: int,          // UpstreamModelUpdateLastCheckTime
    detected: Names,         // UpstreamModelUpdateLastDetectedModels: pending adds
    removed: Names,          // UpstreamModelUpdateLastRemovedModels: pending removes
    ignored: Names           // UpstreamModelUpdateIgnoredModels
  )

  datatype Row = Row(models: string, settings: Settings)

  datatype Pending = Pending(add: Names, remove: Names)

  // ---- detection --------------------------------------------------------------------

  function GetModels(models: string): Names {
    if models == "" then [] else Split(Trim(models, Only(COMMA)), COMMA)
  }

  function Local(row: Row): Names {
    NormalizeModelNames(GetModels(row.models))
  }

  /** An ignore entry against a model name. */
  predicate Ignores(entry: string, name: string, matches: Matcher) {
    if REGEX_PREFIX <= entry then matches(TrimSpace(entry[|REGEX_PREFIX|..]), name) else entry == name
  }

  predicate IgnoredBy(entries: Names, name: string, matches: Matcher) {
    exists e :: e in entries && Ignores(e, name, matches)
  }

  /** Upstream names neither covered nor ignored, in order. */
  function NotCovered(upstream: Names, covered: set<string>, ignored: Names, matches: Matcher): Names {
    if upstream == [] then []
    else
      var n := Last(upstream);
      NotCovered(Front(upstream), covered, ignored, matches)
      + if n in covered || IgnoredBy(ignored, n, matches) then [] else [n]
  }

  /** Local names that are no redirect alias and are gone upstream, in order. */
  function Gone(local: Names, aliases: set<string>, upstream: set<string>): Names {
    if local == [] then []
    else
      var n := Last(local);
      Gone(Front(local), aliases, upstream) + if n in aliases || n in upstream then [] else [n]
  }

  function Collect(local: Names, upstream: Names, ignored: Names, mapping: map<string, string>, matches: Matcher): Pending {
    var l, u := NormalizeModelNames(local), NormalizeModelNames(upstream);
    Pending(NotCovered(u, (set n | n in l) + mapping.Values, NormalizeModelNames(ignored), matches),
            Gone(l, mapping.Keys, set n | n in u))
  }

  method ToSet(names: Names) returns (s: set<string>)
    ensures s == set n | n in names
  {
    s := {};
    for k := 0 to |names|
      invariant s == set n | n in names[..k]
    {
      assert names[..k + 1] == names[..k] + [names[k]];
      s := s + {names[k]};
    }
    assert names[..|names|] == names;
  }

  method CollectPendingUpstreamModelChangesFromModels(
    localModels: Names, upstreamModels: Names, ignoredModels: Names, modelMapping: map<string, string>, matches: Matcher)
    returns (pending: Pending)
    ensures pending == Collect(localModels, upstreamModels, ignoredModels, modelMapping, matches)
  {
    var local, upstream := NormalizeModelNames(localModels), NormalizeModelNames(upstreamModels);
    var localSet := ToSet(local);
    var upstreamSet := ToSet(upstream);
    var ignored := NormalizeModelNames(ignoredModels);
    var covered := localSet + modelMapping.Values;
    var add: Names := [];
    for k := 0 to |upstream|
      invariant add == NotCovered(upstream[..k], covered, ignored, matches)
    {
      assert Front(upstream[..k + 1]) == upstream[..k];
      if upstream[k] !in covered && !IgnoredBy(ignored, upstream[k], matches) {
        add := add + [upstream[k]];
      }
    }
    assert upstream[..|upstream|] == upstream;
    var remove: Names := [];
    for k := 0 to |local|
      invariant remove == Gone(local[..k], modelMapping.Keys, upstreamSet)
    {
      assert Front(local[..k + 1]) == local[..k];
      if local[k] !in modelMapping && local[k] !in upstreamSet {
        remove := remove + [local[k]];
      }
    }
    assert local[..|local|] == local;
    CollectNormal(localModels, upstreamModels, ignoredModels, modelMapping, matches);
    NormalizeNormal(add);
    NormalizeNormal(remove);
    pending := Pending(NormalizeModelNames(add), NormalizeModelNames(remove));
  }

  lemma {:induction false} NotCoveredIn(upstream: Names, covered: set<string>, ignored: Names, matches: Matcher, n: string)
    ensures n in NotCovered(upstream, covered, ignored, matches) <==>
            n in upstream && n !in covered && !IgnoredBy(ignored, n, matches)
  {
    if upstream != [] {
      NotCoveredIn(Front(upstream), covered, ignored, matches, n);
      FrontLast(upstream);
    }
  }

  lemma {:induction false} NotCoveredDistinct(upstream: Names, covered: set<string>, ignored: Names, matches: Matcher)
    requires Distinct(upstream)
    ensures Distinct(NotCovered(upstream, covered, ignored, matches))
    ensures InOrder(NotCovered(upstream, covered, ignored, matches), upstream)
  {
    if upstream != [] {
      LastIsNew(upstream);
      FrontLast(upstream);
      NotCoveredDistinct(Front(upstream), covered, ignored, matches);
      forall n ensures n in NotCovered(Front(upstream), covered, ignored, matches) ==> n in Front(upstream) {
        NotCoveredIn(Front(upstream), covered, ignored, matches, n);
      }
      InOrderSnoc(NotCovered(Front(upstream), covered, ignored, matches), Front(upstream), Last(upstream));
      SnocDistinct(NotCovered(Front(upstream), covered, ignored, matches), Last(upstream));
    }
  }

  lemma {:induction false} GoneIn(local: Names, aliases: set<string>, upstream: set<string>, n: string)
    ensures n in Gone(local, aliases, upstream) <==> n in local && n !in aliases && n !in upstream
  {
    if local != [] {
      GoneIn(Front(local), aliases, upstream, n);
      FrontLast(local);
    }
  }

  lemma {:induction false} GoneDistinct(local: Names, aliases: set<string>, upstream: set<string>)
    requires Distinct(local)
    ensures Distinct(Gone(local, aliases, upstream)) && InOrder(Gone(local, aliases, upstream), local)
  {
    if local != [] {
      LastIsNew(local);
      FrontLast(local);
      GoneDistinct(Front(local), aliases, upstream);
      forall n ensures n in Gone(Front(local), aliases, upstream) ==> n in Front(local) {
        GoneIn(Front(local), aliases, upstream, n);
      }
      InOrderSnoc(Gone(Front(local), aliases, upstream), Front(local), Last(local));
      SnocDistinct(Gone(Front(local), aliases, upstream), Last(local));
    }
  }

  /** What is proposed, name by name. */
  lemma CollectIn(local: Names, upstream: Names, ignored: Names, mapping: map<string, string>, matches: Matcher, n: string)
    ensures var p := Collect(local, upstream, ignored, mapping, matches);
      && (n in p.add <==>
            && n in NormalizeModelNames(upstream) && n !in NormalizeModelNames(local) && n !in mapping.Values
            && !IgnoredBy(NormalizeModelNames(ignored), n, matches))
      && (n in p.remove <==>
            n in NormalizeModelNames(local) && n !in mapping.Keys && n !in NormalizeModelNames(upstream))
  {
    var l, u := NormalizeModelNames(local), NormalizeModelNames(upstream);
    NotCoveredIn(u, (set x | x in l) + mapping.Values, NormalizeModelNames(ignored), matches, n);
    GoneIn(l, mapping.Keys, (set x | x in u), n);
  }

  lemma CollectNormal(local: Names, upstream: Names, ignored: Names, mapping: map<string, string>, matches: Matcher)
    ensures var p := Collect(local, upstream, ignored, mapping, matches);
      && Normal(p.add) && InOrder(p.add, NormalizeModelNames(upstream))
      && Normal(p.remove) && InOrder(p.remove, NormalizeModelNames(local))
  {
    var p := Collect(local, upstream, ignored, mapping, matches);
    var l, u := NormalizeModelNames(local), NormalizeModelNames(upstream);
    NormalizeIsNormal(local);
    NormalizeIsNormal(upstream);
    NotCoveredDistinct(u, (set x | x in l) + mapping.Values, NormalizeModelNames(ignored), matches);
    GoneDistinct(l, mapping.Keys, set x | x in u);
    forall n | n in p.add ensures NormalName(n) { CollectIn(local, upstream, ignored, mapping, matches, n); }
    forall n | n in p.remove ensures NormalName(n) { CollectIn(local, upstream, ignored, mapping, matches, n); }
  }

  // ---- check and apply -----------------------------------------------------------------

  datatype Checked = Checked(row: Row, modelsChanged: bool, autoAdded: int, failed: bool)

  /** checkAndPersistChannelUpstreamModelUpdates; upstream is None when the fetch fails. */
  function AfterCheck(row: Row, force: bool, allowAutoApply: bool, upstream: Option<Names>, now: int, minInterval: int,
                      mapping: map<string, string>, matches: Matcher): Checked
  {
    var st := row.settings;
    if !force && st.lastCheck > 0 && now - st.lastCheck < minInterval then Checked(row, false, 0, false)
    else if upstream.None? then Checked(row.(settings := st.(lastCheck := now)), false, 0, true)
    else
      var p := Collect(GetModels(row.models), upstream.value, st.ignored, mapping, matches);
      if allowAutoApply && st.autoSync && |p.add| > 0 then
        var merged := Merged(Local(row), p.add);
        var settings := st.(lastCheck := now, detected := [], removed := p.remove);
        if |merged| > |Local(row)| then Checked(Row(Join(merged, COMMA), settings), true, |merged| - |Local(row)|, false)
        else Checked(row.(settings := settings), false, 0, false)
      else
        Checked(row.(settings := st.(lastCheck := now, detected := p.add, removed := p.remove)), false, 0, false)
  }

  /** applyChannelUpstreamModelUpdates. */
  datatype Applied = Applied(added: Names, ignored: Names, removed: Names, remaining: Names, remainingRemove: Names,
                             modelsChanged: bool, row: Row)

  function AfterApply(row: Row, addInput: Names, ignoreInput: Names, removeInput: Names, now: int): Applied {
    var st := row.settings;
    var pendingAdd, pendingRemove := NormalizeModelNames(st.detected), NormalizeModelNames(st.removed);
    var add := IntersectModelNames(addInput, pendingAdd);
    var ignore := IntersectModelNames(ignoreInput, pendingAdd);
    var remove := SubtractModelNames(IntersectModelNames(removeInput, pendingRemove), add);
    var next := ApplySelectedModelChanges(Local(row), add, remove);
    var allIgnored := Merged(st.ignored, ignore);
    var remaining := SubtractModelNames(pendingAdd, add + ignore);
    var remainingRemove := SubtractModelNames(pendingRemove, remove);
    Applied(add, ignore, remove, remaining, remainingRemove, Local(row) != next,
      Row(if Local(row) != next then Join(next, COMMA) else row.models,
          st.(ignored := if |add| > 0 then SubtractModelNames(allIgnored, add) else allIgnored,
              detected := remaining, removed := remainingRemove, lastCheck := now)))
  }

  /** A channel: its stored model list and update settings; the redirect mapping is fixed. */
  class Channel {
    var models: string
    var settings: Settings
    const mapping: map<string, string>

    constructor (models: string, settings: Settings, mapping: map<string, string>)
      ensures this.models == models && this.settings == settings && this.mapping == mapping
    {
      this.models, this.settings, this.mapping := models, settings, mapping;
    }

    function Value(): Row
      reads this
    {
      Row(models, settings)
    }

    method CheckAndPersist(force: bool, allowAutoApply: bool, upstream: Option<Names>, now: int, minInterval: int, matches: Matcher)
      returns (modelsChanged: bool, autoAdded: int, failed: bool)
      modifies this
      ensures Checked(Value(), modelsChanged, autoAdded, failed) ==
              AfterCheck(old(Value()), force, allowAutoApply, upstream, now, minInterval, mapping, matches)
    {
      modelsChanged, autoAdded, failed := false, 0, false;
      if !force && settings.lastCheck > 0 && now - settings.lastCheck < minInterval {
        return;
      }
      if upstream.None? {
        settings := settings.(lastCheck := now);
        failed := true;
        return;
      }
      var pending := CollectPendingUpstreamModelChangesFromModels(
        GetModels(models), upstream.value, settings.ignored, mapping, matches);
      settings := settings.(lastCheck := now);
      if allowAutoApply && settings.autoSync && |pending.add| > 0 {
        var originModels := NormalizeModelNames(GetModels(models));
        var mergedModels := MergeModelNames(originModels, pending.add);
        if |mergedModels| > |originModels| {
          models := Join(mergedModels, COMMA);
          autoAdded := |mergedModels| - |originModels|;
          modelsChanged := true;
        }
        settings := settings.(detected := []);
      } else {
        settings := settings.(detected := pending.add);
      }
      settings := settings.(removed := pending.remove);
    }

    method Apply(addInput: Names, ignoreInput: Names, removeInput: Names, now: int)
      returns (added: Names, removed: Names, remaining: Names, remainingRemove: Names, modelsChanged: bool)
      modifies this
      ensures var r := AfterApply(old(Value()), addInput, ignoreInput, removeInput, now);
        && Value() == r.row
        && added == r.added && removed == r.removed
        && remaining == r.remaining && remainingRemove == r.remainingRemove
        && modelsChanged == r.modelsChanged
    {
      var pendingAdd, pendingRemove := NormalizeModelNames(settings.detected), NormalizeModelNames(settings.removed);
      added := IntersectModelNames(addInput, pendingAdd);
      var ignore := IntersectModelNames(ignoreInput, pendingAdd);
      removed := IntersectModelNames(removeInput, pendingRemove);
      removed := SubtractModelNames(removed, added);

      var originModels := NormalizeModelNames(GetModels(models));
      var nextModels := ApplySelectedModelChanges(originModels, added, removed);
      modelsChanged := originModels != nextModels;
      if modelsChanged {
        models := Join(nextModels, COMMA);
      }

      var ignored := MergeModelNames(settings.ignored, ignore);
      if |added| > 0 {
        ignored := SubtractModelNames(ignored, added);
      }
      remaining := SubtractModelNames(pendingAdd, added + ignore);
      remainingRemove := SubtractModelNames(pendingRemove, removed);
      settings := settings.(ignored := ignored, detected := remaining, removed := remainingRemove, lastCheck := now);
    }
  }
}
