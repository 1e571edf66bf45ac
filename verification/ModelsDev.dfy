/**
  Selection and conversion of models.dev prices (convertModelsDevToRatioData in
  controller/ratio_sync.go), over the reals. Costs are USD per 1M tokens.
 */
module ModelsDev {
  import opened Prelude
  import opened Lists
  import opened PriceValue

  const USD := 500.0                         // ratio_setting.USD
  const INPUT_COST_RATIO_BASE := 1000.0
  const RATIO_TO_PER_MILLION_USD := 2.0      // modelRatioToPerMillionUSD

  datatype Cost = Cost(input: Option<real>, output: Option<real>, cacheRead: Option<real>)

  datatype Candidate = Candidate(provider: string, input: real, output: Option<real>, cacheRead: Option<real>)

  type Catalog = map<string, map<string, Cost>>    // provider -> model -> cost

  function BuildCandidate(provider: string, cost: Cost): Option<Candidate> {
    if cost.input.None? || cost.input.value < 0.0 then None
    else if cost.output.Some? && cost.output.value < 0.0 then None
    else if cost.input.value == 0.0 && cost.output.Some? && cost.output.value > 0.0 then None
    else
      Some(Candidate(provider, cost.input.value, cost.output,
                     if cost.cacheRead.Some? && cost.cacheRead.value >= 0.0 then cost.cacheRead else None))
  }

  // ---- the order of strings -----------------------------------------------------------

  predicate Before(a: string, b: string) {
    b != "" && (a == "" || a[0] < b[0] || (a[0] == b[0] && Before(a[1..], b[1..])))
  }

  lemma {:induction false} BeforeIsStrict(a: string, b: string)
    ensures Before(a, b) ==> !Before(b, a) && a != b
    ensures a != b ==> Before(a, b) || Before(b, a)
  {
    if a != "" && b != "" && a[0] == b[0] {
      BeforeIsStrict(a[1..], b[1..]);
      assert a == [a[0]] + a[1..] && b == [b[0]] + b[1..];
    }
  }

  lemma {:induction false} BeforeIsTransitive(a: string, b: string, c: string)
    requires Before(a, b) && Before(b, c)
    ensures Before(a, c)
  {
    if a != "" && a[0] == b[0] && b[0] == c[0] {
      BeforeIsTransitive(a[1..], b[1..], c[1..]);
    }
  }

  ghost predicate Ascending(names: seq<string>) {
    forall i, j :: 0 <= i < j < |names| ==> Before(names[i], names[j])
  }

  // ---- selection ------------------------------------------------------------------------

  predicate ShouldReplace(current: Candidate, next: Candidate) {
    if (current.input > 0.0) != (next.input > 0.0) then next.input > 0.0
    else if next.input > 0.0 && !NearlyEqual(next.input, current.input) then next.input < current.input
    else Before(next.provider, current.provider)
  }

  function Better(current: Option<Candidate>, next: Candidate): Candidate {
    if current.None? || ShouldReplace(current.value, next) then next else current.value
  }

  /** The fold over one model's candidates, in provider order. */
  function Pick(candidates: seq<Candidate>): Option<Candidate> {
    if candidates == [] then None else Some(Better(Pick(Front(candidates)), Last(candidates)))
  }

  ghost predicate InProviderOrder(candidates: seq<Candidate>) {
    forall i, j :: 0 <= i < j < |candidates| ==> Before(candidates[i].provider, candidates[j].provider)
  }

  /** With providers visited in order, the tie-break on names never replaces a candidate. */
  lemma TieBreakNeverReplaces(current: Candidate, next: Candidate)
    requires Before(current.provider, next.provider)
    ensures ShouldReplace(current, next) <==>
      next.input > 0.0 && (current.input <= 0.0 || next.input <= current.input - EPSILON)
  {
    BeforeIsStrict(current.provider, next.provider);
  }

  /**
    The pick is a candidate; it is non-zero as soon as one is, and then less than one
    epsilon above every non-zero price, however long the chain of near-ties; if all
    prices are zero it is the first provider's.
   */
  lemma {:induction false} PickIsCheapest(candidates: seq<Candidate>)
    requires candidates != [] && InProviderOrder(candidates)
    requires forall c :: c in candidates ==> c.input >= 0.0
    ensures var pick := Pick(candidates);
      && pick.Some? && pick.value in candidates
      && (forall c :: c in candidates && c.input > 0.0 ==> 0.0 < pick.value.input < c.input + EPSILON)
      && ((forall c :: c in candidates ==> c.input == 0.0) ==> pick.value == candidates[0])
  {
    FrontLast(candidates);
    if |candidates| > 1 {
      var front := Front(candidates);
      PickIsCheapest(front);
      var current, next := Pick(front).value, Last(candidates);
      var k :| 0 <= k < |front| && front[k] == current;
      assert Before(candidates[k].provider, candidates[|candidates| - 1].provider);
      TieBreakNeverReplaces(current, next);
    }
  }

  // ---- the loops ---------------------------------------------------------------------------

  /** A model's candidates from the given providers, in that order. */
  function Offers(data: Catalog, providers: seq<string>, model: string): seq<Candidate>
    requires forall p :: p in providers ==> p in data
  {
    if providers == [] then []
    else Offers(data, Front(providers), model) + Offer(data, Last(providers), model)
  }

  function Offer(data: Catalog, provider: string, model: string): seq<Candidate>
    requires provider in data
  {
    if model !in data[provider] then []
    else match BuildCandidate(provider, data[provider][model])
      case None => []
      case Some(c) => [c]
  }

  function Lookup(selected: map<string, Candidate>, model: string): Option<Candidate> {
    if model in selected then Some(selected[model]) else None
  }

  /** sort.Strings on the keys of a map. */
  method SortedKeys(keys: set<string>) returns (names: seq<string>)
    ensures Ascending(names) && (forall n :: n in names <==> n in keys)
  {
    names := [];
    var todo := keys;
    while todo != {}
      invariant todo <= keys && Ascending(names)
      invariant forall n :: n in names <==> n in keys && n !in todo
      decreases todo
    {
      var n :| n in todo;
      todo := todo - {n};
      names := Insert(names, n);
    }
  }

  method Insert(names: seq<string>, n: string) returns (r: seq<string>)
    requires Ascending(names) && n !in names
    ensures Ascending(r) && (forall x :: x in r <==> x in names || x == n)
  {
    var k := 0;
    while k < |names| && Before(names[k], n)
      invariant 0 <= k <= |names| && forall i :: 0 <= i < k ==> Before(names[i], n)
    {
      k := k + 1;
    }
    r := names[..k] + [n] + names[k..];
    forall j | k <= j < |names| ensures Before(n, names[j]) {
      BeforeIsStrict(names[k], n);
      if k < j { BeforeIsTransitive(n, names[k], names[j]); }
    }
  }

  /** What a provider's price list does to the candidate held for a model. */
  function Absorb(current: Option<Candidate>, provider: string, costs: map<string, Cost>, model: string): Option<Candidate> {
    if model !in costs then current
    else match BuildCandidate(provider, costs[model])
      case None => current
      case Some(c) => Some(Better(current, c))
  }

  lemma PickAbsorbs(data: Catalog, providers: seq<string>, k: nat, model: string)
    requires k < |providers| && forall p :: p in providers ==> p in data
    ensures Pick(Offers(data, providers[..k + 1], model)) ==
            Absorb(Pick(Offers(data, providers[..k], model)), providers[k], data[providers[k]], model)
  {
    assert Front(providers[..k + 1]) == providers[..k];
    var offers, offer := Offers(data, providers[..k], model), Offer(data, providers[k], model);
    if offer == [] {
      assert offers + offer == offers;
    } else {
      assert Front(offers + offer) == offers && Last(offers + offer) == offer[0];
    }
  }

  /** The inner loop: one provider's models. */
  method AbsorbProvider(selected: map<string, Candidate>, provider: string, costs: map<string, Cost>)
    returns (r: map<string, Candidate>)
    ensures forall m :: Lookup(r, m) == Absorb(Lookup(selected, m), provider, costs, m)
  {
    r := selected;
    var modelNames := SortedKeys(costs.Keys);
    for j := 0 to |modelNames|
      invariant forall m :: m in modelNames[..j] ==> Lookup(r, m) == Absorb(Lookup(selected, m), provider, costs, m)
      invariant forall m :: m !in modelNames[..j] ==> Lookup(r, m) == Lookup(selected, m)
    {
      var name := modelNames[j];
      assert modelNames[..j + 1] == modelNames[..j] + [name];
      AscendingIsDistinct(modelNames, j);
      var candidate := BuildCandidate(provider, costs[name]);
      if candidate.None? {
        continue;
      }
      if name !in r || ShouldReplace(r[name], candidate.value) {
        r := r[name := candidate.value];
      }
    }
    assert modelNames[..|modelNames|] == modelNames;
  }

  lemma AscendingIsDistinct(names: seq<string>, j: nat)
    requires Ascending(names) && j < |names|
    ensures names[j] !in names[..j]
  {
    forall i | 0 <= i < j ensures names[i] != names[j] { BeforeIsStrict(names[i], names[j]); }
  }

  /** `selected` holds every model's pick among the given providers. */
  ghost predicate Selected(selected: map<string, Candidate>, data: Catalog, providers: seq<string>)
    requires forall p :: p in providers ==> p in data
  {
    forall m :: Lookup(selected, m) == Pick(Offers(data, providers, m))
  }

  lemma SelectedStep(before: map<string, Candidate>, after: map<string, Candidate>, data: Catalog, providers: seq<string>, k: nat)
    requires k < |providers| && (forall p :: p in providers ==> p in data) && Selected(before, data, providers[..k])
    requires forall m :: Lookup(after, m) == Absorb(Lookup(before, m), providers[k], data[providers[k]], m)
    ensures Selected(after, data, providers[..k + 1])
  {
    forall m ensures Lookup(after, m) == Pick(Offers(data, providers[..k + 1], m)) {
      assert Lookup(before, m) == Pick(Offers(data, providers[..k], m));
      PickAbsorbs(data, providers, k, m);
    }
  }

  /** The outer loop: all providers, in the order of their names. */
  method SelectCandidates(data: Catalog) returns (selected: map<string, Candidate>, providers: seq<string>)
    ensures Ascending(providers) && (forall p :: p in providers <==> p in data) && Selected(selected, data, providers)
  {
    selected := map[];
    providers := SortedKeys(data.Keys);
    for i := 0 to |providers|
      invariant Selected(selected, data, providers[..i])
    {
      ghost var before := selected;
      selected := AbsorbProvider(selected, providers[i], data[providers[i]]);
      SelectedStep(before, selected, data, providers, i);
    }
    assert providers[..|providers|] == providers;
  }

  // ---- what the selection means for the catalogue ------------------------------------------

  lemma {:induction false} OffersIn(data: Catalog, providers: seq<string>, model: string)
    requires Ascending(providers) && forall p :: p in providers ==> p in data
    ensures var offers := Offers(data, providers, model);
      && InProviderOrder(offers) && (forall c :: c in offers ==> c.input >= 0.0 && c.provider in providers)
      && (forall c :: c in offers <==>
            c.provider in providers && model in data[c.provider] && BuildCandidate(c.provider, data[c.provider][model]) == Some(c))
  {
    if providers != [] {
      FrontLast(providers);
      OffersIn(data, Front(providers), model);
      AscendingIsDistinct(providers, |providers| - 1);
    }
  }

  /** c is what its provider charges for the model. */
  ghost predicate Offered(data: Catalog, model: string, c: Candidate) {
    && c.provider in data && model in data[c.provider]
    && BuildCandidate(c.provider, data[c.provider][model]) == Some(c)
  }

  ghost predicate AnyOffer(data: Catalog, model: string) {
    exists c :: Offered(data, model, c)
  }

  /** c is a real offer and, if anyone charges for the model, less than one epsilon above the cheapest charge. */
  ghost predicate FairChoice(data: Catalog, model: string, c: Candidate) {
    && Offered(data, model, c)
    && forall x :: Offered(data, model, x) && x.input > 0.0 ==> 0.0 < c.input < x.input + EPSILON
  }

  /** The selected candidates are fair choices, one for every model that anyone offers. */
  lemma SelectionIsFair(data: Catalog, providers: seq<string>, selected: map<string, Candidate>, model: string)
    requires Ascending(providers) && (forall p :: p in providers <==> p in data)
    requires Selected(selected, data, providers)
    ensures model in selected <==> AnyOffer(data, model)
    ensures model in selected ==> FairChoice(data, model, selected[model])
  {
    var offers := Offers(data, providers, model);
    OffersIn(data, providers, model);
    assert Lookup(selected, model) == Pick(offers);
    if offers != [] {
      PickIsCheapest(offers);
      assert forall x :: Offered(data, model, x) ==> x in offers;
      assert Offered(data, model, offers[0]);
    }
  }

  // ---- conversion to ratios ------------------------------------------------------------------

  /** math.Round of a non-negative number times 10^6, back over 10^6. */
  function RoundRatioValue(value: real): real
    requires value >= 0.0
  {
    (value * 1000000.0 + 0.5).Floor as real / 1000000.0
  }

  function ModelRatio(c: Candidate): real
    requires c.input >= 0.0
  {
    if c.input == 0.0 then 0.0 else RoundRatioValue(c.input * USD / INPUT_COST_RATIO_BASE)
  }

  function RatioToInput(part: Option<real>, input: real): Option<real> {
    if part.None? || input <= 0.0 || part.value < 0.0 then None else Some(RoundRatioValue(Quotient(part.value, input)))
  }

  function Quotient(a: real, b: real): (q: real)
    requires a >= 0.0 && b > 0.0
    ensures q >= 0.0
  {
    a / b
  }

  /** Converting a price to a ratio and the ratio back to USD per 1M tokens is off by at most 1e-6. */
  lemma RatioRoundTrip(c: Candidate)
    requires c.input >= 0.0
    ensures -0.000001 <= ModelRatio(c) * RATIO_TO_PER_MILLION_USD - c.input <= 0.000001
  {
    var x := c.input * USD / INPUT_COST_RATIO_BASE;
    assert x == c.input / 2.0;
    var n := (x * 1000000.0 + 0.5).Floor;
    assert n as real <= x * 1000000.0 + 0.5 < n as real + 1.0;
  }

  datatype Ratios = Ratios(modelRatio: map<string, real>, completionRatio: map<string, real>, cacheRatio: map<string, real>)

  datatype Converted = EmptyResponse | NoValidEntries | Data(ratios: Ratios)

  /** A model's entries in the three maps come from this candidate. */
  ghost predicate EntriesFrom(r: Ratios, model: string, c: Candidate) {
    && c.input >= 0.0
    && model in r.modelRatio && r.modelRatio[model] == ModelRatio(c)
    && (model in r.completionRatio <==> RatioToInput(c.output, c.input).Some?)
    && (model in r.completionRatio ==> Some(r.completionRatio[model]) == RatioToInput(c.output, c.input))
    && (model in r.cacheRatio <==> RatioToInput(c.cacheRead, c.input).Some?)
    && (model in r.cacheRatio ==> Some(r.cacheRatio[model]) == RatioToInput(c.cacheRead, c.input))
  }

  ghost predicate FairEntry(data: Catalog, r: Ratios, model: string) {
    exists c :: FairChoice(data, model, c) && EntriesFrom(r, model, c)
  }

  ghost predicate FairRatios(data: Catalog, r: Ratios) {
    forall m :: (m in r.modelRatio <==> AnyOffer(data, m)) && (m in r.modelRatio ==> FairEntry(data, r, m))
  }

  lemma SelectedGivesFairRatios(data: Catalog, providers: seq<string>, selected: map<string, Candidate>, r: Ratios)
    requires Ascending(providers) && (forall p :: p in providers <==> p in data) && Selected(selected, data, providers)
    requires r.modelRatio.Keys == selected.Keys && forall m :: m in selected ==> EntriesFrom(r, m, selected[m])
    ensures FairRatios(data, r)
  {
    forall m ensures (m in r.modelRatio <==> AnyOffer(data, m)) && (m in r.modelRatio ==> FairEntry(data, r, m)) {
      SelectionIsFair(data, providers, selected, m);
      if m in selected {
        assert FairChoice(data, m, selected[m]) && EntriesFrom(r, m, selected[m]);
      }
    }
  }

  lemma CostsOfSelected(data: Catalog, providers: seq<string>, selected: map<string, Candidate>)
    requires Ascending(providers) && (forall p :: p in providers <==> p in data) && Selected(selected, data, providers)
    ensures forall m :: m in selected ==> NonNegative(selected[m])
    ensures selected == map[] <==> forall m :: !AnyOffer(data, m)
  {
    forall m ensures (m in selected ==> NonNegative(selected[m])) && (m in selected <==> AnyOffer(data, m)) {
      SelectionIsFair(data, providers, selected, m);
    }
  }

  ghost predicate NonNegative(c: Candidate) {
    c.input >= 0.0 && (c.output.Some? ==> c.output.value >= 0.0) && (c.cacheRead.Some? ==> c.cacheRead.value >= 0.0)
  }

  // ---- on the catalogue's own cost fields --------------------------------------------------------

  /** The provider's cost fields for a model can be turned into ratios. */
  predicate Prices(data: Catalog, provider: string, model: string) {
    && provider in data && model in data[provider]
    && var cost := data[provider][model];
       && cost.input.Some? && cost.input.value >= 0.0
       && (cost.output.Some? ==> cost.output.value >= 0.0 && (cost.output.value > 0.0 ==> cost.input.value > 0.0))
  }

  /** No provider that charges for the model charges 1e-9 less. */
  ghost predicate Cheapest(data: Catalog, provider: string, model: string)
    requires Prices(data, provider, model)
  {
    var input := data[provider][model].input.value;
    forall p :: Prices(data, p, model) && data[p][model].input.value > 0.0 ==> 0.0 < input < data[p][model].input.value + 0.000000001
  }

  predicate Near(a: real, b: real) {
    -0.0000005 <= a - b <= 0.0000005
  }

  /** The ratio of a part of the costs to the input cost, there exactly when both are known and the input costs something. */
  predicate PartRatio(ratios: map<string, real>, model: string, part: Option<real>, input: real) {
    && (model in ratios <==> part.Some? && part.value >= 0.0 && input > 0.0)
    && (model in ratios && part.Some? && input > 0.0 ==> Near(ratios[model], part.value / input))
  }

  /** The model's ratios are those of the cost fields of one cheapest provider. */
  ghost predicate PricedBy(data: Catalog, r: Ratios, model: string, provider: string) {
    && Prices(data, provider, model) && Cheapest(data, provider, model)
    && var cost := data[provider][model];
       && model in r.modelRatio && Near(r.modelRatio[model], cost.input.value / 2.0)
       && PartRatio(r.completionRatio, model, cost.output, cost.input.value)
       && PartRatio(r.cacheRatio, model, cost.cacheRead, cost.input.value)
  }

  ghost predicate AnyPrice(data: Catalog, model: string) {
    exists p :: Prices(data, p, model)
  }

  ghost predicate PricedModel(data: Catalog, r: Ratios, model: string) {
    if AnyPrice(data, model) then exists p :: PricedBy(data, r, model, p)
    else model !in r.modelRatio && model !in r.completionRatio && model !in r.cacheRatio
  }

  ghost predicate Priced(data: Catalog, r: Ratios) {
    forall m :: PricedModel(data, r, m)
  }

  lemma OfferedIsPriced(data: Catalog, model: string, c: Candidate)
    requires Offered(data, model, c)
    ensures Prices(data, c.provider, model)
    ensures var cost := data[c.provider][model];
      && cost.input == Some(c.input) && cost.output == c.output && c.input >= 0.0
      && c.cacheRead == if cost.cacheRead.Some? && cost.cacheRead.value >= 0.0 then cost.cacheRead else None
  {
  }

  lemma PricedIsOffered(data: Catalog, provider: string, model: string)
    requires Prices(data, provider, model)
    ensures exists c :: Offered(data, model, c) && c.provider == provider && data[provider][model].input == Some(c.input)
  {
    var c := BuildCandidate(provider, data[provider][model]).value;
    assert Offered(data, model, c);
  }

  /** A rounded ratio is within half a millionth. */
  lemma RoundIsNear(x: real)
    requires x >= 0.0
    ensures Near(RoundRatioValue(x), x)
  {
    var n := (x * 1000000.0 + 0.5).Floor;
    assert n as real <= x * 1000000.0 + 0.5 < n as real + 1.0;
  }

  lemma EntriesArePriced(data: Catalog, r: Ratios, model: string, c: Candidate)
    requires FairChoice(data, model, c) && EntriesFrom(r, model, c)
    ensures PricedBy(data, r, model, c.provider)
  {
    OfferedIsPriced(data, model, c);
    forall p | Prices(data, p, model) && data[p][model].input.value > 0.0
      ensures 0.0 < c.input < data[p][model].input.value + 0.000000001
    {
      PricedIsOffered(data, p, model);
    }
    assert c.input * USD / INPUT_COST_RATIO_BASE == c.input / 2.0;
    RoundIsNear(c.input / 2.0);
    if c.input > 0.0 {
      if c.output.Some? {
        RoundIsNear(Quotient(c.output.value, c.input));
      }
      if c.cacheRead.Some? {
        RoundIsNear(Quotient(c.cacheRead.value, c.input));
      }
    }
  }

  /** Fair ratios are, for every model anybody prices, those of a cheapest provider's cost fields. */
  lemma FairIsPriced(data: Catalog, r: Ratios)
    requires FairRatios(data, r) && r.completionRatio.Keys <= r.modelRatio.Keys && r.cacheRatio.Keys <= r.modelRatio.Keys
    ensures Priced(data, r)
  {
    forall m ensures PricedModel(data, r, m) {
      AnyOfferMeans(data, m);
      if m in r.modelRatio {
        assert FairEntry(data, r, m);
        var c :| FairChoice(data, m, c) && EntriesFrom(r, m, c);
        EntriesArePriced(data, r, m, c);
      }
    }
  }

  lemma AnyOfferMeans(data: Catalog, m: string)
    ensures AnyOffer(data, m) <==> AnyPrice(data, m)
  {
    if c :| Offered(data, m, c) {
      OfferedIsPriced(data, m, c);
    }
    if p :| Prices(data, p, m) {
      PricedIsOffered(data, p, m);
    }
  }

  method ConvertModelsDevToRatioData(data: Catalog) returns (result: Converted)
    ensures result.EmptyResponse? <==> data == map[]
    ensures result.NoValidEntries? <==> data != map[] && forall m :: !AnyPrice(data, m)
    ensures result.Data? ==> FairRatios(data, result.ratios) && Priced(data, result.ratios)
  {
    forall m ensures AnyOffer(data, m) <==> AnyPrice(data, m) {
      AnyOfferMeans(data, m);
    }
    if |data| == 0 {
      return EmptyResponse;
    }
    var selected, providers := SelectCandidates(data);
    CostsOfSelected(data, providers, selected);
    if |selected| == 0 {
      return NoValidEntries;
    }
    var ratios := ConvertSelected(selected);
    SelectedGivesFairRatios(data, providers, selected, ratios);
    FairIsPriced(data, ratios);
    result := Data(ratios);
  }

  /** r' is r but for the entries of `name`. */
  ghost predicate OnlyChanges(r: Ratios, r': Ratios, name: string) {
    && r'.modelRatio.Keys == r.modelRatio.Keys + {name}
    && forall m, c :: m != name && EntriesFrom(r, m, c) ==> EntriesFrom(r', m, c)
  }

  method ConvertCandidate(r: Ratios, name: string, c: Candidate) returns (r': Ratios)
    requires NonNegative(c) && name !in r.completionRatio && name !in r.cacheRatio
    ensures EntriesFrom(r', name, c) && OnlyChanges(r, r', name)
    ensures r'.completionRatio.Keys <= r.completionRatio.Keys + {name} && r'.cacheRatio.Keys <= r.cacheRatio.Keys + {name}
  {
    r' := r;
    if c.input == 0.0 {
      r' := r'.(modelRatio := r'.modelRatio[name := 0.0]);
      return;
    }
    r' := r'.(modelRatio := r'.modelRatio[name := RoundRatioValue(c.input * USD / INPUT_COST_RATIO_BASE)]);
    if c.output.Some? {
      r' := r'.(completionRatio := r'.completionRatio[name := RoundRatioValue(Quotient(c.output.value, c.input))]);
    }
    if c.cacheRead.Some? {
      r' := r'.(cacheRatio := r'.cacheRatio[name := RoundRatioValue(Quotient(c.cacheRead.value, c.input))]);
    }
  }

  /** The last loop, over the selected candidates in any order. */
  method ConvertSelected(selected: map<string, Candidate>) returns (r: Ratios)
    requires forall m :: m in selected ==> NonNegative(selected[m])
    ensures r.modelRatio.Keys == selected.Keys
    ensures r.completionRatio.Keys <= selected.Keys && r.cacheRatio.Keys <= selected.Keys
    ensures forall m :: m in selected ==> EntriesFrom(r, m, selected[m])
  {
    r := Ratios(map[], map[], map[]);
    var todo := selected.Keys;
    while todo != {}
      invariant todo <= selected.Keys && r.modelRatio.Keys == selected.Keys - todo
      invariant r.completionRatio.Keys !! todo && r.cacheRatio.Keys !! todo
      invariant r.completionRatio.Keys <= selected.Keys && r.cacheRatio.Keys <= selected.Keys
      invariant forall m :: m in selected && m !in todo ==> EntriesFrom(r, m, selected[m])
      decreases todo
    {
      var name :| name in todo;
      todo := todo - {name};
      r := ConvertCandidate(r, name, selected[name]);
    }
  }
}
