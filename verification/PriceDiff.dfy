/**
  buildDifferences of controller/ratio_sync.go: compare local pricing with several
  channels' pricing, then prune channels, items and models without differences.
  Maps are visited in any order.
 */
module PriceDiff {
  import opened Lists
  import opened PriceValue

  type Table = map<Field, map<string, Value>>   // field -> model -> value

  datatype Channel = Channel(name: string, data: Table)

  datatype Item = Item(current: Value, upstreams: map<string, Value>, confidence: map<string, bool>)

  type Differences = map<string, map<Field, Item>>

  function Column(data: Table, f: Field): map<string, Value> {
    if f in data then data[f] else map[]
  }

  // ---- one cell: a model and a field ----------------------------------------------------

  /** The local value; Null when absent. */
  function Current(local: Table, f: Field, model: string): Value {
    if model in Column(local, f) then NormalizeSyncValue(f, Column(local, f)[model]) else Null
  }

  predicate Supplies(ch: Channel, f: Field, model: string) {
    model in Column(ch.data, f)
  }

  function Supplied(ch: Channel, f: Field, model: string): Value
    requires Supplies(ch, f, model)
  {
    NormalizeSyncValue(f, Column(ch.data, f)[model])
  }

  /** What is listed for a channel. */
  function Reported(current: Value, ch: Channel, f: Field, model: string): Value {
    if !Supplies(ch, f, model) then if current == Null then SAME else Null
    else if ValuesEqual(current, Supplied(ch, f, model)) then SAME
    else Supplied(ch, f, model)
  }

  /** The channel makes hasDifference true. */
  predicate Differs(current: Value, ch: Channel, f: Field, model: string) {
    if current != Null then Supplies(ch, f, model) && !ValuesEqual(current, Supplied(ch, f, model))
    else Reported(current, ch, f, model) != Null && Reported(current, ch, f, model) != SAME
  }

  /** A channel's model_ratio of 37.5 with a completion_ratio of 1 is not to be trusted. */
  predicate Confident(ch: Channel, model: string) {
    !(&& Supplies(ch, ModelRatio, model) && Supplies(ch, CompletionRatio, model)
      && var a := AsFloat64(Column(ch.data, ModelRatio)[model]);
         var b := AsFloat64(Column(ch.data, CompletionRatio)[model]);
         a.Some? && b.Some? && NearlyEqual(a.value, 37.5) && NearlyEqual(b.value, 1.0))
  }

  /** Reports by channel name; of several channels with one name the last counts. */
  function Reports(current: Value, channels: seq<Channel>, f: Field, model: string): map<string, Value> {
    if channels == [] then map[]
    else Reports(current, Front(channels), f, model)[Last(channels).name := Reported(current, Last(channels), f, model)]
  }

  function Confidence(channels: seq<Channel>, model: string): map<string, bool> {
    if channels == [] then map[]
    else Confidence(Front(channels), model)[Last(channels).name := Confident(Last(channels), model)]
  }

  predicate AnySupplies(channels: seq<Channel>, f: Field, model: string) {
    exists ch :: ch in channels && Supplies(ch, f, model)
  }

  predicate AnyDiffers(current: Value, channels: seq<Channel>, f: Field, model: string) {
    exists ch :: ch in channels && Differs(current, ch, f, model)
  }

  predicate Included(local: Table, channels: seq<Channel>, f: Field, model: string) {
    var current := Current(local, f, model);
    if current != Null then AnyDiffers(current, channels, f, model) else AnySupplies(channels, f, model)
  }

  function RawItem(local: Table, channels: seq<Channel>, f: Field, model: string): Item {
    var current := Current(local, f, model);
    Item(current, Reports(current, channels, f, model), Confidence(channels, model))
  }

  /** The body of the loop over the channels, for one channel. */
  method ReportCell(current: Value, ch: Channel, f: Field, model: string)
    returns (upstreamValue: Value, supplied: bool, differs: bool)
    ensures upstreamValue == Reported(current, ch, f, model)
    ensures supplied == Supplies(ch, f, model)
    ensures differs == Differs(current, ch, f, model)
  {
    upstreamValue, supplied, differs := Null, false, false;
    if model in Column(ch.data, f) {
      upstreamValue := NormalizeSyncValue(f, Column(ch.data, f)[model]);
      supplied := true;
      if current != Null && !ValuesEqual(current, upstreamValue) {
        differs := true;
      } else if ValuesEqual(current, upstreamValue) {
        upstreamValue := SAME;
      }
    }
    if upstreamValue == Null && current == Null {
      upstreamValue := SAME;
    }
    if current == Null && upstreamValue != Null && upstreamValue != SAME {
      differs := true;
    }
  }

  /** One cell: whether it is a candidate, and its item before pruning. */
  method BuildItem(local: Table, channels: seq<Channel>, f: Field, model: string) returns (listed: bool, item: Item)
    ensures listed == Included(local, channels, f, model)
    ensures item == RawItem(local, channels, f, model)
  {
    var current := Current(local, f, model);
    var upstreams: map<string, Value> := map[];
    var confidence: map<string, bool> := map[];
    var hasUpstreamValue, hasDifference := false, false;
    for k := 0 to |channels|
      invariant upstreams == Reports(current, channels[..k], f, model)
      invariant confidence == Confidence(channels[..k], model)
      invariant hasUpstreamValue == AnySupplies(channels[..k], f, model)
      invariant hasDifference == AnyDiffers(current, channels[..k], f, model)
    {
      var ch := channels[k];
      var upstreamValue, supplied, differs := ReportCell(current, ch, f, model);
      upstreams := upstreams[ch.name := upstreamValue];
      confidence := confidence[ch.name := Confident(ch, model)];
      hasUpstreamValue := hasUpstreamValue || supplied;
      hasDifference := hasDifference || differs;
      CellStep(current, channels, k, f, model);
    }
    assert channels[..|channels|] == channels;
    listed := if current != Null then hasDifference else hasUpstreamValue;
    item := Item(current, upstreams, confidence);
  }

  lemma CellStep(current: Value, channels: seq<Channel>, k: nat, f: Field, model: string)
    requires k < |channels|
    ensures var ch := channels[k];
      && Reports(current, channels[..k + 1], f, model) ==
         Reports(current, channels[..k], f, model)[ch.name := Reported(current, ch, f, model)]
      && Confidence(channels[..k + 1], model) == Confidence(channels[..k], model)[ch.name := Confident(ch, model)]
      && AnySupplies(channels[..k + 1], f, model) == (AnySupplies(channels[..k], f, model) || Supplies(ch, f, model))
      && AnyDiffers(current, channels[..k + 1], f, model)
         == (AnyDiffers(current, channels[..k], f, model) || Differs(current, ch, f, model))
  {
    assert Front(channels[..k + 1]) == channels[..k] && Last(channels[..k + 1]) == channels[k];
    AnyStep(current, channels[..k], channels[k], f, model);
    assert channels[..k] + [channels[k]] == channels[..k + 1];
  }

  lemma AnyStep(current: Value, before: seq<Channel>, ch: Channel, f: Field, model: string)
    ensures AnySupplies(before + [ch], f, model) == (AnySupplies(before, f, model) || Supplies(ch, f, model))
    ensures AnyDiffers(current, before + [ch], f, model)
         == (AnyDiffers(current, before, f, model) || Differs(current, ch, f, model))
  {
    assert forall c :: c in before + [ch] <==> c in before || c == ch;
  }

  // ---- candidates: every model and field -------------------------------------------------

  predicate Listed(d: Differences, model: string, f: Field) {
    model in d && f in d[model]
  }

  predicate RowOk(local: Table, channels: seq<Channel>, model: string, row: map<Field, Item>, f: Field) {
    && (f in row <==> Included(local, channels, f, model))
    && (f in row ==> row[f] == RawItem(local, channels, f, model))
  }

  ghost predicate RawRow(local: Table, channels: seq<Channel>, model: string, row: map<Field, Item>) {
    forall f :: RowOk(local, channels, model, row, f)
  }

  ghost predicate RowOn(local: Table, channels: seq<Channel>, model: string, row: map<Field, Item>, done: seq<Field>) {
    forall f :: if f in done then RowOk(local, channels, model, row, f) else f !in row
  }

  lemma AddCell(local: Table, channels: seq<Channel>, model: string, row: map<Field, Item>, done: seq<Field>, f: Field,
                next: map<Field, Item>)
    requires RowOn(local, channels, model, row, done)
    requires next == if Included(local, channels, f, model) then row[f := RawItem(local, channels, f, model)] else row
    ensures RowOn(local, channels, model, next, done + [f])
  {
    forall g | g in done + [f] ensures RowOk(local, channels, model, next, g) {
      if g in done {
        assert RowOk(local, channels, model, row, g);
      }
    }
  }

  method BuildRow(local: Table, channels: seq<Channel>, model: string) returns (row: map<Field, Item>)
    ensures RawRow(local, channels, model, row)
  {
    row := map[];
    for k := 0 to |FIELDS|
      invariant RowOn(local, channels, model, row, FIELDS[..k])
    {
      var listed, item := BuildItem(local, channels, FIELDS[k], model);
      ghost var before := row;
      if listed {
        row := row[FIELDS[k] := item];
      }
      AddCell(local, channels, model, before, FIELDS[..k], FIELDS[k], row);
      TakeOne(FIELDS, k);
    }
    forall f ensures RowOk(local, channels, model, row, f) {
      AllFieldsListed(f);
      assert FIELDS[..|FIELDS|] == FIELDS;
    }
  }

  lemma TakeOne<T>(s: seq<T>, k: nat)
    requires k < |s|
    ensures s[..k + 1] == s[..k] + [s[k]]
  {
  }

  ghost predicate Mentions(data: Table, model: string) {
    exists f :: model in Column(data, f)
  }

  method ModelsOf(data: Table) returns (models: set<string>)
    ensures forall model :: model in models <==> Mentions(data, model)
  {
    models := {};
    for k := 0 to |FIELDS|
      invariant forall model :: model in models <==> exists j :: 0 <= j < k && model in Column(data, FIELDS[j])
    {
      models := models + Column(data, FIELDS[k]).Keys;
    }
    forall model ensures model in models <==> Mentions(data, model) {
      if Mentions(data, model) {
        var f :| model in Column(data, f);
        AllFieldsListed(f);
        var j :| 0 <= j < |FIELDS| && FIELDS[j] == f;
        assert model in Column(data, FIELDS[j]);
      }
    }
  }

  method CollectModels(local: Table, channels: seq<Channel>) returns (models: set<string>)
    ensures forall model ::
      model in models <==> Mentions(local, model) || exists ch :: ch in channels && Mentions(ch.data, model)
  {
    models := ModelsOf(local);
    for k := 0 to |channels|
      invariant forall model ::
        model in models <==> Mentions(local, model) || exists ch :: ch in channels[..k] && Mentions(ch.data, model)
    {
      var more := ModelsOf(channels[k].data);
      models := models + more;
      TakeOne(channels, k);
    }
    assert channels[..|channels|] == channels;
  }

  /** Every candidate is the business of a model that some table mentions. */
  lemma IncludedIsMentioned(local: Table, channels: seq<Channel>, f: Field, model: string)
    requires Included(local, channels, f, model)
    ensures exists ch :: ch in channels && Mentions(ch.data, model)
  {
    if Current(local, f, model) != Null {
      var ch :| ch in channels && Differs(Current(local, f, model), ch, f, model);
      assert model in Column(ch.data, f);
      assert Mentions(ch.data, model);
    } else {
      var ch :| ch in channels && Supplies(ch, f, model);
      assert Mentions(ch.data, model);
    }
  }

  function RowOf(d: Differences, model: string): map<Field, Item> {
    if model in d then d[model] else map[]
  }

  ghost predicate RawModel(local: Table, channels: seq<Channel>, d: Differences, model: string) {
    (model in d ==> d[model] != map[]) && RawRow(local, channels, model, RowOf(d, model))
  }

  /** The candidates, before pruning. */
  ghost predicate Raw(local: Table, channels: seq<Channel>, d: Differences) {
    forall model :: RawModel(local, channels, d, model)
  }

  ghost predicate RawOn(local: Table, channels: seq<Channel>, d: Differences, done: set<string>) {
    d.Keys <= done && forall model :: model in done ==> RawModel(local, channels, d, model)
  }

  method CollectDifferences(local: Table, channels: seq<Channel>) returns (d: Differences)
    ensures Raw(local, channels, d)
  {
    var models := CollectModels(local, channels);
    d := map[];
    var rest := models;
    while rest != {}
      invariant rest <= models
      invariant RawOn(local, channels, d, models - rest)
    {
      var model :| model in rest;
      var row := BuildRow(local, channels, model);
      AddRow(local, channels, d, models - rest, model, row);
      if row != map[] {
        d := d[model := row];
      }
      rest := rest - {model};
      assert models - rest == (models - (rest + {model})) + {model};
    }
    assert models - rest == models;
    forall model ensures RawModel(local, channels, d, model) {
      if model !in models {
        UnmentionedHasNoRow(local, channels, model);
      }
    }
  }

  lemma AddRow(local: Table, channels: seq<Channel>, d: Differences, done: set<string>, model: string, row: map<Field, Item>)
    requires RawOn(local, channels, d, done) && model !in done && RawRow(local, channels, model, row)
    ensures RawOn(local, channels, if row != map[] then d[model := row] else d, done + {model})
  {
    var e := if row != map[] then d[model := row] else d;
    forall other | other in done + {model} ensures RawModel(local, channels, e, other) {
      assert RowOf(e, other) == if other == model then row else RowOf(d, other);
    }
  }

  lemma UnmentionedHasNoRow(local: Table, channels: seq<Channel>, model: string)
    requires forall ch :: ch in channels ==> !Mentions(ch.data, model)
    ensures RawRow(local, channels, model, map[])
  {
    forall f ensures RowOk(local, channels, model, map[], f) {
      if Included(local, channels, f, model) {
        IncludedIsMentioned(local, channels, f, model);
      }
    }
  }

  // ---- pruning -----------------------------------------------------------------------------

  predicate Telling(v: Value) {
    v != Null && v != SAME
  }

  /** Some listed item has a telling value from `name`. */
  ghost predicate Marked(d: Differences, name: string) {
    exists model, f :: Listed(d, model, f) && Tells(d[model][f], name)
  }

  predicate Tells(item: Item, name: string) {
    name in item.upstreams && Telling(item.upstreams[name])
  }

  method MarkItem(item: Item) returns (marked: set<string>)
    ensures forall name :: name in marked <==> Tells(item, name)
  {
    marked := {};
    var rest := item.upstreams.Keys;
    while rest != {}
      invariant rest <= item.upstreams.Keys
      invariant forall name :: name in marked <==> name !in rest && Tells(item, name)
    {
      var name :| name in rest;
      if item.upstreams[name] != Null && item.upstreams[name] != SAME {
        marked := marked + {name};
      }
      rest := rest - {name};
    }
  }

  method MarkRow(row: map<Field, Item>) returns (marked: set<string>)
    ensures forall name :: name in marked <==> exists f :: f in row && Tells(row[f], name)
  {
    marked := {};
    var rest := row.Keys;
    while rest != {}
      invariant rest <= row.Keys
      invariant forall name :: name in marked <==> exists f :: f in row && f !in rest && Tells(row[f], name)
    {
      var f :| f in rest;
      var more := MarkItem(row[f]);
      marked := marked + more;
      rest := rest - {f};
    }
  }

  /** channelHasDiff. */
  method MarkChannels(d: Differences) returns (marked: set<string>)
    ensures forall name :: name in marked <==> Marked(d, name)
  {
    marked := {};
    var rest := d.Keys;
    while rest != {}
      invariant rest <= d.Keys
      invariant forall name :: name in marked <==>
        exists model, f :: model !in rest && Listed(d, model, f) && Tells(d[model][f], name)
    {
      var model :| model in rest;
      var more := MarkRow(d[model]);
      marked := marked + more;
      rest := rest - {model};
    }
  }

  function Restrict(item: Item, marked: set<string>): Item {
    item.(upstreams := map name | name in item.upstreams && name in marked :: item.upstreams[name],
          confidence := map name | name in item.confidence && (name in item.upstreams ==> name in marked)
                        :: item.confidence[name])
  }

  /** The restricted item still shows something else than "same". */
  ghost predicate Survives(item: Item, marked: set<string>) {
    exists name :: name in item.upstreams && name in marked && item.upstreams[name] != SAME
  }

  /** Restricting to what is still to be visited and what is marked, after visiting one more name. */
  lemma VisitName(item: Item, marked: set<string>, rest: set<string>, name: string)
    requires rest <= item.upstreams.Keys && name in rest
    ensures var before, now := Restrict(item, marked + rest), Restrict(item, marked + (rest - {name}));
      now == if name in marked then before
             else before.(upstreams := before.upstreams - {name}, confidence := before.confidence - {name})
  {
    var before, now := Restrict(item, marked + rest), Restrict(item, marked + (rest - {name}));
    if name in marked {
      assert marked + (rest - {name}) == marked + rest;
    } else {
      assert now.upstreams == before.upstreams - {name};
      assert now.confidence == before.confidence - {name};
    }
  }

  method PruneItem(item: Item, marked: set<string>) returns (keep: bool, pruned: Item)
    ensures pruned == Restrict(item, marked)
    ensures keep == Survives(item, marked)
  {
    pruned := item;
    var rest := item.upstreams.Keys;
    assert Restrict(item, marked + rest) == item;
    keep := false;
    while rest != {}
      invariant rest <= item.upstreams.Keys
      invariant pruned == Restrict(item, marked + rest)
      invariant keep == exists name :: name in item.upstreams && name !in rest && name in marked && item.upstreams[name] != SAME
    {
      var name :| name in rest;
      VisitName(item, marked, rest, name);
      if name !in marked {
        pruned := pruned.(upstreams := pruned.upstreams - {name}, confidence := pruned.confidence - {name});
      } else if item.upstreams[name] != SAME {
        keep := true;
      }
      rest := rest - {name};
    }
    assert marked + rest == marked;
  }

  ghost predicate CellPruned(row: map<Field, Item>, marked: set<string>, pruned: map<Field, Item>, f: Field) {
    && (f in pruned <==> f in row && Survives(row[f], marked))
    && (f in pruned && f in row ==> pruned[f] == Restrict(row[f], marked))
  }

  ghost predicate RowPruned(row: map<Field, Item>, marked: set<string>, pruned: map<Field, Item>) {
    forall f :: CellPruned(row, marked, pruned, f)
  }

  method PruneRow(row: map<Field, Item>, marked: set<string>) returns (pruned: map<Field, Item>)
    ensures RowPruned(row, marked, pruned)
  {
    pruned := row;
    var rest := row.Keys;
    while rest != {}
      invariant rest <= row.Keys
      invariant forall f :: if f in rest then f in pruned && pruned[f] == row[f] else CellPruned(row, marked, pruned, f)
    {
      var f :| f in rest;
      var keep, item := PruneItem(row[f], marked);
      pruned := if keep then pruned[f := item] else pruned - {f};
      rest := rest - {f};
    }
  }

  ghost predicate ModelPruned(d: Differences, marked: set<string>, e: Differences, model: string) {
    (model in e ==> e[model] != map[]) && RowPruned(RowOf(d, model), marked, RowOf(e, model))
  }

  method PruneDifferences(d: Differences, marked: set<string>) returns (e: Differences)
    ensures forall model :: ModelPruned(d, marked, e, model)
  {
    e := d;
    var rest := d.Keys;
    while rest != {}
      invariant rest <= d.Keys
      invariant forall model :: if model in rest then model in e && e[model] == d[model] else ModelPruned(d, marked, e, model)
    {
      var model :| model in rest;
      var row := PruneRow(d[model], marked);
      ghost var before := e;
      e := if row == map[] then e - {model} else e[model := row];
      assert RowOf(e, model) == row;
      forall other | other !in rest ensures ModelPruned(d, marked, e, other) {
        assert RowOf(e, other) == RowOf(before, other);
      }
      rest := rest - {model};
    }
  }

  // ---- buildDifferences ----------------------------------------------------------------------

  /** A candidate cell shows a telling value from `name`. */
  ghost predicate Vocal(local: Table, channels: seq<Channel>, name: string) {
    exists model, f :: Included(local, channels, f, model) && Tells(RawItem(local, channels, f, model), name)
  }

  ghost function VocalNames(local: Table, channels: seq<Channel>): set<string> {
    set ch | ch in channels && Vocal(local, channels, ch.name) :: ch.name
  }

  ghost predicate Kept(local: Table, channels: seq<Channel>, f: Field, model: string) {
    && Included(local, channels, f, model)
    && Survives(RawItem(local, channels, f, model), VocalNames(local, channels))
  }

  ghost predicate CellOk(local: Table, channels: seq<Channel>, d: Differences, model: string, f: Field) {
    && (Listed(d, model, f) <==> Kept(local, channels, f, model))
    && (Listed(d, model, f) ==> d[model][f] == Restrict(RawItem(local, channels, f, model), VocalNames(local, channels)))
  }

  /** The result, for any input: which cells are listed, what they hold, and that no model is listed without a cell. */
  ghost predicate Diff(local: Table, channels: seq<Channel>, d: Differences) {
    && (forall model :: model in d ==> d[model] != map[])
    && (forall model, f :: CellOk(local, channels, d, model, f))
  }

  lemma {:induction false} ReportNames(current: Value, channels: seq<Channel>, f: Field, model: string, name: string)
    ensures name in Reports(current, channels, f, model) <==> exists ch :: ch in channels && ch.name == name
  {
    if channels != [] {
      FrontLast(channels);
      ReportNames(current, Front(channels), f, model, name);
    }
  }

  lemma MarkedIsVocal(local: Table, channels: seq<Channel>, d: Differences, name: string)
    requires Raw(local, channels, d)
    ensures Marked(d, name) <==> name in VocalNames(local, channels)
  {
    if Marked(d, name) {
      var model, f :| Listed(d, model, f) && Tells(d[model][f], name);
      RawCell(local, channels, d, model, f);
      ReportNames(Current(local, f, model), channels, f, model, name);
      assert Vocal(local, channels, name);
    }
    if Vocal(local, channels, name) {
      var model, f :| Included(local, channels, f, model) && Tells(RawItem(local, channels, f, model), name);
      RawCell(local, channels, d, model, f);
      assert Listed(d, model, f) && Tells(d[model][f], name);
    }
  }

  lemma RawCell(local: Table, channels: seq<Channel>, d: Differences, model: string, f: Field)
    requires Raw(local, channels, d)
    ensures Listed(d, model, f) <==> Included(local, channels, f, model)
    ensures Listed(d, model, f) ==> d[model][f] == RawItem(local, channels, f, model)
  {
    assert RawModel(local, channels, d, model);
    assert RowOk(local, channels, model, RowOf(d, model), f);
  }

  lemma PrunedCell(
    local: Table, channels: seq<Channel>, d: Differences, marked: set<string>, e: Differences, model: string, f: Field)
    requires Raw(local, channels, d) && marked == VocalNames(local, channels) && ModelPruned(d, marked, e, model)
    ensures CellOk(local, channels, e, model, f)
  {
    RawCell(local, channels, d, model, f);
    assert CellPruned(RowOf(d, model), marked, RowOf(e, model), f);
  }

  method BuildDifferences(local: Table, channels: seq<Channel>) returns (d: Differences)
    ensures Diff(local, channels, d)
  {
    var raw := CollectDifferences(local, channels);
    var marked := MarkChannels(raw);
    forall name ensures name in marked <==> name in VocalNames(local, channels) {
      MarkedIsVocal(local, channels, raw, name);
    }
    assert marked == VocalNames(local, channels);
    d := PruneDifferences(raw, marked);
    forall model, f ensures CellOk(local, channels, d, model, f) {
      PrunedCell(local, channels, raw, marked, d, model, f);
    }
    forall model | model in d ensures d[model] != map[] {
      assert ModelPruned(raw, marked, d, model);
    }
  }
}
