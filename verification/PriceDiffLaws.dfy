/** What a difference table promises, stated on the input tables alone. */
module PriceDiffLaws {
  import opened Lists
  import opened PriceValue
  import opened PriceDiff

  ghost predicate NamesDistinct(channels: seq<Channel>) {
    forall i, j :: 0 <= i < j < |channels| ==> channels[i].name != channels[j].name
  }

  /** The channel supplies a value that is not (nearly) the local one. */
  predicate Disagrees(local: Table, ch: Channel, f: Field, model: string) {
    Supplies(ch, f, model) && !ValuesEqual(Current(local, f, model), Supplied(ch, f, model))
  }

  /** ... and the value is neither null nor the placeholder. */
  predicate DisagreesOpenly(local: Table, ch: Channel, f: Field, model: string) {
    Disagrees(local, ch, f, model) && Telling(Supplied(ch, f, model))
  }

  ghost predicate DisagreesSomewhere(local: Table, ch: Channel) {
    exists model, f :: DisagreesOpenly(local, ch, f, model)
  }

  /** The channel has a null for a cell that is filled locally. */
  predicate Blank(local: Table, ch: Channel, f: Field, model: string) {
    && Current(local, f, model) != Null
    && (!Supplies(ch, f, model) || Supplied(ch, f, model) == Null)
  }

  /** The channel makes a disputed cell visible. */
  ghost predicate Shows(local: Table, ch: Channel, f: Field, model: string) {
    || DisagreesOpenly(local, ch, f, model)
    || (Blank(local, ch, f, model) && DisagreesSomewhere(local, ch))
  }

  ghost predicate Disputed(local: Table, channels: seq<Channel>, f: Field, model: string) {
    exists ch :: ch in channels && Disagrees(local, ch, f, model)
  }

  // ---- reports by channel -------------------------------------------------------------------

  lemma {:induction false} ReportOfChannel(current: Value, channels: seq<Channel>, k: nat, f: Field, model: string)
    requires NamesDistinct(channels) && k < |channels|
    ensures channels[k].name in Reports(current, channels, f, model)
    ensures Reports(current, channels, f, model)[channels[k].name] == Reported(current, channels[k], f, model)
  {
    if k < |channels| - 1 {
      ReportOfChannel(current, Front(channels), k, f, model);
    }
  }

  lemma TellsIsOpenly(local: Table, channels: seq<Channel>, k: nat, f: Field, model: string)
    requires NamesDistinct(channels) && k < |channels|
    ensures Tells(RawItem(local, channels, f, model), channels[k].name) <==> DisagreesOpenly(local, channels[k], f, model)
  {
    ReportOfChannel(Current(local, f, model), channels, k, f, model);
  }

  lemma OpenlyIsIncluded(local: Table, channels: seq<Channel>, ch: Channel, f: Field, model: string)
    requires ch in channels && DisagreesOpenly(local, ch, f, model)
    ensures Included(local, channels, f, model)
  {
    assert Differs(Current(local, f, model), ch, f, model);
  }

  lemma IncludedMeans(local: Table, channels: seq<Channel>, f: Field, model: string)
    requires Included(local, channels, f, model)
    ensures Current(local, f, model) != Null ==> Disputed(local, channels, f, model)
  {
    var current := Current(local, f, model);
    if current != Null {
      var ch :| ch in channels && Differs(current, ch, f, model);
      assert Disagrees(local, ch, f, model);
    }
  }

  lemma DisputedIsIncluded(local: Table, channels: seq<Channel>, f: Field, model: string)
    requires Disputed(local, channels, f, model)
    ensures Included(local, channels, f, model)
  {
    var ch :| ch in channels && Disagrees(local, ch, f, model);
    assert Current(local, f, model) != Null ==> Differs(Current(local, f, model), ch, f, model);
  }

  /** A channel survives the pruning exactly when it disagrees openly about some cell. */
  lemma VocalExactlyWhen(local: Table, channels: seq<Channel>, k: nat)
    requires NamesDistinct(channels) && k < |channels|
    ensures channels[k].name in VocalNames(local, channels) <==> DisagreesSomewhere(local, channels[k])
  {
    var ch := channels[k];
    if Vocal(local, channels, ch.name) {
      var model, f :| Included(local, channels, f, model) && Tells(RawItem(local, channels, f, model), ch.name);
      TellsIsOpenly(local, channels, k, f, model);
    }
    if DisagreesSomewhere(local, ch) {
      var model, f :| DisagreesOpenly(local, ch, f, model);
      TellsIsOpenly(local, channels, k, f, model);
      OpenlyIsIncluded(local, channels, ch, f, model);
      assert Vocal(local, channels, ch.name);
    }
  }

  lemma NotSameMeans(local: Table, ch: Channel, f: Field, model: string)
    ensures Reported(Current(local, f, model), ch, f, model) != SAME <==>
      DisagreesOpenly(local, ch, f, model) || Blank(local, ch, f, model)
  {
  }

  lemma ShownIsReported(local: Table, channels: seq<Channel>, k: nat, f: Field, model: string)
    requires NamesDistinct(channels) && k < |channels|
    ensures Shows(local, channels[k], f, model) <==>
      channels[k].name in VocalNames(local, channels) && Reported(Current(local, f, model), channels[k], f, model) != SAME
  {
    VocalExactlyWhen(local, channels, k);
    NotSameMeans(local, channels[k], f, model);
    assert DisagreesOpenly(local, channels[k], f, model) ==> DisagreesSomewhere(local, channels[k]);
  }

  /**
    Which cells are listed: the disputed ones that some channel shows. A cell can be
    disputed and yet missing, but only where every dissenter's value is null or "same".
   */
  lemma ListedExactlyWhen(local: Table, channels: seq<Channel>, d: Differences, model: string, f: Field)
    requires NamesDistinct(channels) && Diff(local, channels, d)
    ensures Listed(d, model, f) <==>
      Disputed(local, channels, f, model) && exists ch :: ch in channels && Shows(local, ch, f, model)
  {
    var current := Current(local, f, model);
    var item := RawItem(local, channels, f, model);
    var vocal := VocalNames(local, channels);
    assert CellOk(local, channels, d, model, f);
    if Listed(d, model, f) {
      var name :| name in item.upstreams && name in vocal && item.upstreams[name] != SAME;
      ReportNames(current, channels, f, model, name);
      var k :| 0 <= k < |channels| && channels[k].name == name;
      ReportOfChannel(current, channels, k, f, model);
      ShownIsReported(local, channels, k, f, model);
      assert channels[k] in channels && Shows(local, channels[k], f, model);
      IncludedMeans(local, channels, f, model);
      assert current == Null ==> Disagrees(local, channels[k], f, model);
    }
    if Disputed(local, channels, f, model) && exists ch :: ch in channels && Shows(local, ch, f, model) {
      DisputedIsIncluded(local, channels, f, model);
      var k :| 0 <= k < |channels| && Shows(local, channels[k], f, model);
      ShownIsReported(local, channels, k, f, model);
      ReportOfChannel(current, channels, k, f, model);
      assert Survives(item, vocal);
    }
  }

  /** No supplied value is null or the placeholder. */
  ghost predicate Honest(ch: Channel) {
    forall model, f :: Supplies(ch, f, model) ==> Telling(Supplied(ch, f, model))
  }

  ghost predicate AllHonest(channels: seq<Channel>) {
    forall ch :: ch in channels ==> Honest(ch)
  }

  /** With honest channels the table lists exactly the disputed cells. */
  lemma ListsDisputedCells(local: Table, channels: seq<Channel>, d: Differences, model: string, f: Field)
    requires NamesDistinct(channels) && AllHonest(channels) && Diff(local, channels, d)
    ensures Listed(d, model, f) <==> Disputed(local, channels, f, model)
  {
    ListedExactlyWhen(local, channels, d, model, f);
    if Disputed(local, channels, f, model) {
      var ch :| ch in channels && Disagrees(local, ch, f, model);
      assert Shows(local, ch, f, model);
    }
  }

  /** Every listed item shows the same channels: those that disagree openly about something. */
  lemma ItemsShowSameChannels(local: Table, channels: seq<Channel>, d: Differences, model: string, f: Field, k: nat)
    requires NamesDistinct(channels) && k < |channels|
    requires Diff(local, channels, d) && Listed(d, model, f)
    ensures var item := d[model][f];
      && item.current == Current(local, f, model)
      && (channels[k].name in item.upstreams <==> DisagreesSomewhere(local, channels[k]))
      && (channels[k].name in item.upstreams ==>
            item.upstreams[channels[k].name] == Reported(Current(local, f, model), channels[k], f, model))
  {
    assert CellOk(local, channels, d, model, f);
    ReportOfChannel(Current(local, f, model), channels, k, f, model);
    VocalExactlyWhen(local, channels, k);
  }

  lemma {:induction false} ConfidenceOfChannel(channels: seq<Channel>, k: nat, model: string)
    requires NamesDistinct(channels) && k < |channels|
    ensures channels[k].name in Confidence(channels, model)
    ensures Confidence(channels, model)[channels[k].name] == Confident(channels[k], model)
  {
    if k < |channels| - 1 {
      ConfidenceOfChannel(Front(channels), k, model);
    }
  }

  lemma {:induction false} ConfidenceNames(channels: seq<Channel>, model: string, current: Value, f: Field)
    ensures Confidence(channels, model).Keys == Reports(current, channels, f, model).Keys
  {
    if channels != [] {
      ConfidenceNames(Front(channels), model, current, f);
    }
  }

  lemma RestrictedConfidence(item: Item, marked: set<string>, name: string)
    requires item.confidence.Keys == item.upstreams.Keys
    ensures var r := Restrict(item, marked);
      && r.confidence.Keys == r.upstreams.Keys
      && (name in r.upstreams ==> name in r.confidence && r.confidence[name] == item.confidence[name])
  {
  }

  /** A listed item rates exactly the channels it shows, each by that channel's own two ratios. */
  lemma ConfidenceMatches(local: Table, channels: seq<Channel>, d: Differences, model: string, f: Field, k: nat)
    requires NamesDistinct(channels) && k < |channels|
    requires Diff(local, channels, d) && Listed(d, model, f)
    ensures d[model][f].confidence.Keys == d[model][f].upstreams.Keys
    ensures channels[k].name in d[model][f].upstreams ==>
      d[model][f].confidence[channels[k].name] == Confident(channels[k], model)
  {
    assert CellOk(local, channels, d, model, f);
    ConfidenceNames(channels, model, Current(local, f, model), f);
    ConfidenceOfChannel(channels, k, model);
    RestrictedConfidence(RawItem(local, channels, f, model), VocalNames(local, channels), channels[k].name);
  }

  // ---- syncing from a channel settles it ------------------------------------------------------

  /** The local table after taking over every value the difference table shows for `name`. */
  ghost predicate TookOver(local: Table, d: Differences, name: string, synced: Table) {
    forall model, f :: CellTookOver(local, d, name, synced, model, f)
  }

  predicate CellTookOver(local: Table, d: Differences, name: string, synced: Table, model: string, f: Field) {
    if Listed(d, model, f) && Tells(d[model][f], name)
    then model in Column(synced, f) && Column(synced, f)[model] == d[model][f].upstreams[name]
    else Current(synced, f, model) == Current(local, f, model)
  }

  lemma SyncedCell(local: Table, channels: seq<Channel>, d: Differences, k: nat, synced: Table, model: string, f: Field)
    requires NamesDistinct(channels) && AllHonest(channels) && k < |channels|
    requires Diff(local, channels, d) && TookOver(local, d, channels[k].name, synced)
    ensures !Disagrees(synced, channels[k], f, model)
  {
    var ch := channels[k];
    assert CellTookOver(local, d, ch.name, synced, model, f);
    ListsDisputedCells(local, channels, d, model, f);
    if Listed(d, model, f) {
      ItemsShowSameChannels(local, channels, d, model, f, k);
    }
    if Disagrees(local, ch, f, model) {
      assert ch in channels && Honest(ch) && Supplies(ch, f, model);
      assert Telling(Supplied(ch, f, model));
      assert DisagreesOpenly(local, ch, f, model);
      NormalizeIsIdempotent(f, Column(ch.data, f)[model]);
    }
  }

  /** Taking over one channel's values leaves nothing to report against that channel. */
  lemma SyncSettles(local: Table, channels: seq<Channel>, d: Differences, k: nat, synced: Table, again: Differences)
    requires NamesDistinct(channels) && AllHonest(channels) && k < |channels|
    requires Diff(local, channels, d) && TookOver(local, d, channels[k].name, synced)
    requires Diff(synced, [channels[k]], again)
    ensures again == map[]
  {
    forall model, f ensures !Disagrees(synced, channels[k], f, model) {
      SyncedCell(local, channels, d, k, synced, model, f);
    }
    NothingDisputed(synced, channels[k], again);
  }

  lemma NothingDisputed(local: Table, ch: Channel, d: Differences)
    requires Diff(local, [ch], d) && forall model, f :: !Disagrees(local, ch, f, model)
    ensures d == map[]
  {
    forall model, f ensures !Listed(d, model, f) {
      ListedExactlyWhen(local, [ch], d, model, f);
    }
    forall model ensures model !in d {
      if model in d {
        forall f ensures f !in d[model] {
          assert !Listed(d, model, f);
        }
      }
    }
  }

  // ---- why the proviso ----------------------------------------------------------------------

  const MODEL := "m"

  /** A channel whose only value is the literal text "same", or a null: disputed, yet not listed. */
  lemma PlaceholderHidesDispute(v: Value, d: Differences)
    requires v == SAME || v == Null
    requires Diff(map[BillingMode := map[MODEL := Text("tiered")]], [Channel("c", map[BillingMode := map[MODEL := v]])], d)
    ensures Disputed(map[BillingMode := map[MODEL := Text("tiered")]],
              [Channel("c", map[BillingMode := map[MODEL := v]])], BillingMode, MODEL)
    ensures !Listed(d, MODEL, BillingMode)
  {
    var local: Table := map[BillingMode := map[MODEL := Text("tiered")]];
    var ch := Channel("c", map[BillingMode := map[MODEL := v]]);
    assert "tiered"[0] != "same"[0];
    assert ch in [ch] && Disagrees(local, ch, BillingMode, MODEL);
    ListedExactlyWhen(local, [ch], d, MODEL, BillingMode);
    forall model, f ensures !DisagreesOpenly(local, ch, f, model) {
    }
  }
}
