/**
  What the difference table says about the stored values themselves: when two of them count as
  different, what is shown for a channel and which channels are trusted, in plain numbers.
 */
module PriceTables {
  import opened Prelude
  import opened PriceValue
  import opened PriceDiff
  import opened PriceDiffLaws

  /** The number that a stored value stands for in a field; the two billing fields know no integers. */
  function NumberIn(f: Field, v: Value): Option<real> {
    match v
    case Float(r) => Some(r)
    case Whole(i) => if f == BillingMode || f == BillingExpr then None else Some(i as real)
    case _ => None
  }

  /** Two stored values differ: as numbers by 1e-9 or more, otherwise as values. */
  predicate Apart(f: Field, a: Value, b: Value) {
    if NumberIn(f, a).Some? && NumberIn(f, b).Some?
    then NumberIn(f, a).value - NumberIn(f, b).value >= 0.000000001 || NumberIn(f, b).value - NumberIn(f, a).value >= 0.000000001
    else a != b
  }

  predicate Stores(data: Table, f: Field, model: string) {
    f in data && model in data[f]
  }

  /** The stored value; null when there is none. */
  function Stored(data: Table, f: Field, model: string): Value {
    if Stores(data, f, model) then data[f][model] else Null
  }

  /** A stored value as it is shown. */
  function AsShown(f: Field, v: Value): Value {
    if NumberIn(f, v).Some? then Float(NumberIn(f, v).value) else v
  }

  lemma ApartMeans(f: Field, a: Value, b: Value)
    ensures ValuesEqual(NormalizeSyncValue(f, a), NormalizeSyncValue(f, b)) <==> !Apart(f, a, b)
  {
  }

  /** A disagreement is a stored value apart from the local one. */
  lemma DisagreesMeans(local: Table, ch: Channel, f: Field, model: string)
    ensures Disagrees(local, ch, f, model) <==>
      Stores(ch.data, f, model) && Apart(f, Stored(local, f, model), Stored(ch.data, f, model))
  {
    ApartMeans(f, Stored(local, f, model), Stored(ch.data, f, model));
  }

  /** What is shown for a channel: "same" for a value that is not apart, null for a missing one, else the value, numbers as reals. */
  function ShownFor(local: Table, ch: Channel, f: Field, model: string): Value {
    if !Stores(ch.data, f, model) then if Stored(local, f, model) == Null then Text("same") else Null
    else if Apart(f, Stored(local, f, model), Stored(ch.data, f, model)) then AsShown(f, Stored(ch.data, f, model))
    else Text("same")
  }

  lemma ReportedMeans(local: Table, ch: Channel, f: Field, model: string)
    ensures Current(local, f, model) == AsShown(f, Stored(local, f, model))
    ensures Reported(Current(local, f, model), ch, f, model) == ShownFor(local, ch, f, model)
  {
    ApartMeans(f, Stored(local, f, model), Stored(ch.data, f, model));
  }

  /** No stored value is null or the word "same". */
  ghost predicate PlainValues(ch: Channel) {
    forall f, model :: Stores(ch.data, f, model) ==> ch.data[f][model] != Null && ch.data[f][model] != Text("same")
  }

  lemma PlainIsHonest(ch: Channel)
    requires PlainValues(ch)
    ensures Honest(ch)
  {
    forall model, f | Supplies(ch, f, model) ensures Telling(Supplied(ch, f, model)) {
      assert Stores(ch.data, f, model);
    }
  }

  /**
    With distinct channels that store plain values, a cell is listed exactly when some channel stores a value
    apart from the local one.
   */
  lemma ListsValuesApart(local: Table, channels: seq<Channel>, d: Differences, model: string, f: Field)
    requires NamesDistinct(channels) && (forall ch :: ch in channels ==> PlainValues(ch)) && Diff(local, channels, d)
    ensures Listed(d, model, f) <==>
      exists ch :: ch in channels && Stores(ch.data, f, model) && Apart(f, Stored(local, f, model), Stored(ch.data, f, model))
  {
    forall ch | ch in channels ensures Honest(ch) {
      PlainIsHonest(ch);
    }
    ListsDisputedCells(local, channels, d, model, f);
    forall ch ensures Disagrees(local, ch, f, model) <==>
      Stores(ch.data, f, model) && Apart(f, Stored(local, f, model), Stored(ch.data, f, model))
    {
      DisagreesMeans(local, ch, f, model);
    }
  }

  /**
    For any values and distinct channels: a cell is listed exactly when some channel stores a value apart from
    the local one, and some channel shows it, by a value apart that is neither null nor "same", or by having none
    for a cell filled locally while storing such a value elsewhere.
   */
  lemma ListsExactly(local: Table, channels: seq<Channel>, d: Differences, model: string, f: Field)
    requires NamesDistinct(channels) && Diff(local, channels, d)
    ensures Listed(d, model, f) <==>
      && (exists ch :: ch in channels && Stores(ch.data, f, model) && Apart(f, Stored(local, f, model), Stored(ch.data, f, model)))
      && (exists ch :: ch in channels && (OpenlyApart(local, ch, f, model) ||
            (Stored(local, f, model) != Null && Stored(ch.data, f, model) == Null && OpenSomewhere(local, ch))))
  {
    ListedExactlyWhen(local, channels, d, model, f);
    forall ch ensures
      && (Disagrees(local, ch, f, model) <==>
            Stores(ch.data, f, model) && Apart(f, Stored(local, f, model), Stored(ch.data, f, model)))
      && (Shows(local, ch, f, model) <==> (OpenlyApart(local, ch, f, model) ||
            (Stored(local, f, model) != Null && Stored(ch.data, f, model) == Null && OpenSomewhere(local, ch))))
    {
      DisagreesMeans(local, ch, f, model);
      ShowsMeans(local, ch, f, model);
    }
  }

  predicate OpenlyApart(local: Table, ch: Channel, f: Field, model: string) {
    && Stores(ch.data, f, model) && Apart(f, Stored(local, f, model), Stored(ch.data, f, model))
    && Stored(ch.data, f, model) != Null && Stored(ch.data, f, model) != Text("same")
  }

  ghost predicate OpenSomewhere(local: Table, ch: Channel) {
    exists f, model :: OpenlyApart(local, ch, f, model)
  }

  lemma OpenlyMeans(local: Table, ch: Channel, f: Field, model: string)
    ensures DisagreesOpenly(local, ch, f, model) <==> OpenlyApart(local, ch, f, model)
  {
    DisagreesMeans(local, ch, f, model);
  }

  lemma ShowsMeans(local: Table, ch: Channel, f: Field, model: string)
    ensures Shows(local, ch, f, model) <==> (OpenlyApart(local, ch, f, model) ||
      (Stored(local, f, model) != Null && Stored(ch.data, f, model) == Null && OpenSomewhere(local, ch)))
  {
    forall g, m ensures DisagreesOpenly(local, ch, g, m) <==> OpenlyApart(local, ch, g, m) {
      OpenlyMeans(local, ch, g, m);
    }
  }

  /** A listed item: the local value, and for exactly the channels that are openly apart somewhere what they store. */
  lemma ItemsOnTables(local: Table, channels: seq<Channel>, d: Differences, model: string, f: Field, k: nat)
    requires NamesDistinct(channels) && k < |channels| && Diff(local, channels, d) && Listed(d, model, f)
    ensures var item, ch := d[model][f], channels[k];
      && item.current == AsShown(f, Stored(local, f, model))
      && (ch.name in item.upstreams <==> OpenSomewhere(local, ch))
      && (ch.name in item.upstreams ==> item.upstreams[ch.name] == ShownFor(local, ch, f, model))
  {
    ItemsShowSameChannels(local, channels, d, model, f, k);
    ReportedMeans(local, channels[k], f, model);
    forall g, m ensures DisagreesOpenly(local, channels[k], g, m) <==> OpenlyApart(local, channels[k], g, m) {
      OpenlyMeans(local, channels[k], g, m);
    }
  }

  /** A channel is distrusted exactly for a model ratio of 37.5 with a completion ratio of 1, to within 1e-9. */
  lemma ConfidentMeans(ch: Channel, model: string)
    ensures Confident(ch, model) <==>
      !(&& NumberIn(ModelRatio, Stored(ch.data, ModelRatio, model)).Some?
        && NumberIn(CompletionRatio, Stored(ch.data, CompletionRatio, model)).Some?
        && var a := NumberIn(ModelRatio, Stored(ch.data, ModelRatio, model)).value;
           var b := NumberIn(CompletionRatio, Stored(ch.data, CompletionRatio, model)).value;
           37.499999999 < a < 37.500000001 && 0.999999999 < b < 1.000000001)
  {
  }
}
