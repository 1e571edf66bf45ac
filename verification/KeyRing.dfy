/**
  A multi-key channel as a ring of keys with their own data: every action on the stored row
  (a text and three indexed maps) is an action on the ring. Times and reasons past the last
  key are stale; a replacement leaves them behind and later keys can pick them up.
 */
module KeyRing {
  import opened Prelude
  import opened Text
  import opened MultiKey
  import opened MultiKeyLaws
  import opened KeyTexts

  datatype Ring = Ring(entries: seq<Entry>, staleTime: map<int, int>, staleReason: map<int, string>)

  function Above<V>(m: map<int, V>, n: int): map<int, V> {
    map i | i in m && i >= n :: m[i]
  }

  function RingOf(json: Json, row: Row): Ring {
    var keys := GetKeys(json, row.key);
    Ring(Entries(keys, row.info), Above(row.info.time, |keys|), Above(row.info.reason, |keys|))
  }

  ghost predicate Natural<V>(m: map<int, V>) {
    forall i :: i in m ==> 0 <= i
  }

  /** The count is that of the keys and statuses belong to keys; any text, any times and reasons. */
  ghost predicate Sound(json: Json, row: Row) {
    && !EmptyArray(json, row.key)
    && row.info.size == |GetKeys(json, row.key)|
    && Below(row.info.status, row.info.size) && Natural(row.info.time) && Natural(row.info.reason)
  }

  // ---- the ring machine -------------------------------------------------------------------------

  predicate Within(es: seq<Entry>, i: Option<int>) {
    i.Some? && 0 <= i.value < |es|
  }

  function Enabled(e: Entry): Entry {
    Entry(e.key, ENABLED, None, None)
  }

  /** The relay's status change. */
  function Changed(e: Entry, status: int, now: int, why: string): Entry {
    if status == ENABLED then e.(status := ENABLED) else Entry(e.key, status, Some(now), Some(why))
  }

  function Map(f: Entry -> Entry, es: seq<Entry>): (r: seq<Entry>)
    ensures |r| == |es| && forall i :: 0 <= i < |es| ==> r[i] == f(es[i])
  {
    seq(|es|, i requires 0 <= i < |es| => f(es[i]))
  }

  function KeysOf(es: seq<Entry>): (keys: seq<string>)
    ensures |keys| == |es| && forall i :: 0 <= i < |es| ==> keys[i] == es[i].key
  {
    seq(|es|, i requires 0 <= i < |es| => es[i].key)
  }

  predicate AnyAuto(es: seq<Entry>) {
    exists i :: 0 <= i < |es| && es[i].status == AUTO_DISABLED
  }

  function TimeAt(r: Ring, i: int): Option<int> {
    if 0 <= i < |r.entries| then r.entries[i].time else Get(r.staleTime, i)
  }

  function ReasonAt(r: Ring, i: int): Option<string> {
    if 0 <= i < |r.entries| then r.entries[i].reason else Get(r.staleReason, i)
  }

  function RekeyedEntry(r: Ring, key: string, i: nat): Entry {
    Entry(key, if i < |r.entries| then r.entries[i].status else ENABLED, TimeAt(r, i), ReasonAt(r, i))
  }

  predicate HasData(e: Entry) {
    e.time.Some? || e.reason.Some?
  }

  function Indices(r: Ring): set<int> {
    (set i | 0 <= i < |r.entries| && HasData(r.entries[i])) + r.staleTime.Keys + r.staleReason.Keys
  }

  /** Other keys for the same indices: a key takes over the data of its index, and what no key has is stale. */
  function Rekeyed(r: Ring, keys: seq<string>): Ring {
    var n := |keys|;
    Ring(seq(n, i requires 0 <= i < n => RekeyedEntry(r, keys[i], i)),
         map i | i in Indices(r) && i >= n && TimeAt(r, i).Some? :: TimeAt(r, i).value,
         map i | i in Indices(r) && i >= n && ReasonAt(r, i).Some? :: ReasonAt(r, i).value)
  }

  /** Entries with nothing stale. */
  function Clean(es: seq<Entry>): Ring {
    Ring(es, map[], map[])
  }

  function Replaced(json: Json, r: Ring, text: string): Ring {
    if text == "" then r else Rekeyed(r, GetKeys(json, text))
  }

  /** What an action means for the ring. */
  function Act(json: Json, r: Ring, a: Action): Ring {
    var es := r.entries;
    match a
    case DisableKey(i) => if Within(es, i) then r.(entries := es[i.value := es[i.value].(status := MANUALLY_DISABLED)]) else r
    case EnableKey(i) => if Within(es, i) then r.(entries := es[i.value := Enabled(es[i.value])]) else r
    case EnableAllKeys => Clean(Map(Enabled, es))
    case DisableAllKeys => r.(entries := Map(DisabledEntry, es))
    case DeleteKey(i) => if Within(es, i) && |es| > 1 then Clean(DropAt(es, i.value)) else r
    case DeleteDisabledKeys =>
      if !AnyAuto(es) then r
      else if Survivors(es) == [] then Clean(Map(Enabled, es))     // nothing is deleted
      else Clean(Survivors(es))
    case SetStatus(usingKey, status, now, why) =>
      if es == [] then r
      else
        var i := IndexOf(KeysOf(es), usingKey);
        if i >= |es| then r else r.(entries := es[i := Changed(es[i], status, now, why)])
    case Append(text, batch) =>
      if es == [] then Replaced(json, r, text)
      else if Candidates(text, batch).None? then r
      else Rekeyed(r, Extended(KeysOf(es), Candidates(text, batch).value))
    case Replace(text) => Replaced(json, r, text)
  }

  /** The condition on an action, on the ring before it: the keys it stores can be read back. */
  ghost predicate Welcome(json: Json, r: Ring, a: Action) {
    var es := r.entries;
    match a
    case DeleteKey(i) => Within(es, i) && |es| > 1 ==> Storable(json, KeysOf(DropAt(es, i.value)))
    case DeleteDisabledKeys => AnyAuto(es) && Survivors(es) != [] ==> Storable(json, KeysOf(Survivors(es)))
    case Append(text, batch) =>
      if es == [] then !EmptyArray(json, text)
      else Candidates(text, batch).Some? ==>
        var keys := Extended(KeysOf(es), Candidates(text, batch).value);
        keys == [""] || Storable(json, keys)
    case Replace(text) => !EmptyArray(json, text)
    case _ => true
  }

  /** An append reads the stored keys as everyone else does. */
  predicate Readable(json: Json, row: Row, a: Action) {
    a.Append? && row.key != "" ==> !(LooksLikeArray(row.key) && json(TrimSpace(row.key)).None?)
  }

  /** An append that reads no stored keys still ends with the right ones: nothing is added, or all are given again. */
  ghost predicate Recovers(json: Json, row: Row, a: Action)
    requires a.Append?
  {
    Candidates(a.text, a.batch).Some? ==>
      var given := Candidates(a.text, a.batch).value;
      var text := Join(Extended([], given), '\n');
      || Extended([], given) == []
      || Extended(GetKeys(json, row.key), given)
         == if ReadsAsArray(json, text) then json(TrimSpace(text)).value else Lines(text)
  }

  ghost predicate Allowed(json: Json, row: Row, a: Action) {
    if Readable(json, row, a) then Welcome(json, RingOf(json, row), a) else Recovers(json, row, a)
  }

  ghost predicate Refines(json: Json, row: Row, a: Action) {
    var r := Step(json, row, a).0;
    Sound(json, r) && RingOf(json, r) == Act(json, RingOf(json, row), a)
  }

  // ---- saving -----------------------------------------------------------------------------------

  lemma KeysOfRing(json: Json, row: Row)
    ensures KeysOf(RingOf(json, row).entries) == GetKeys(json, row.key)
  {
  }

  /** A sound row without keys has an empty text. */
  lemma NoKeysNoText(json: Json, row: Row)
    requires Sound(json, row)
    ensures GetKeys(json, row.key) == [] <==> row.key == ""
  {
  }

  lemma SameStatus(keys: seq<string>, a: Info, b: Info)
    requires b.time == a.time && b.reason == a.reason
    requires b.status == map i | i in a.status && i < |keys| :: a.status[i]
    ensures Entries(keys, a) == Entries(keys, b)
  {
    assert forall i :: 0 <= i < |keys| ==> EntryAt(keys, a, i) == EntryAt(keys, b, i);
  }

  /** Saving other data under the same text. */
  lemma SaveInfo(json: Json, row: Row, info: Info)
    requires Sound(json, row) && Natural(info.status) && Natural(info.time) && Natural(info.reason)
    ensures var r := Update(json, row, Row(row.key, info));
      var keys := GetKeys(json, row.key);
      && Sound(json, r)
      && RingOf(json, r) == Ring(Entries(keys, info), Above(info.time, |keys|), Above(info.reason, |keys|))
  {
    CountExactlyWhen(json, row.key);
    SameStatus(GetKeys(json, row.key), info, Update(json, row, Row(row.key, info)).info);
  }

  lemma NothingAbove<V>(m: map<int, V>, n: int)
    requires Below(m, n)
    ensures Above(m, n) == map[]
  {
    var a := Above(m, n);
    assert forall i :: i !in a;
  }

  /** Saving kept keys with data of their own. */
  lemma SaveKept(json: Json, row: Row, k: Kept)
    requires k.keys != [] && Storable(json, k.keys) && Fits(k.info, |k.keys|)
    ensures var r := Update(json, row, Row(Join(k.keys, '\n'), k.info));
      Sound(json, r) && RingOf(json, r) == Clean(Entries(k.keys, k.info))
  {
    StorableIsCounted(json, k.keys);
    CountExactlyWhen(json, Join(k.keys, '\n'));
    SameStatus(k.keys, k.info, Update(json, row, Row(Join(k.keys, '\n'), k.info)).info);
    NothingAbove(k.info.time, |k.keys|);
    NothingAbove(k.info.reason, |k.keys|);
  }

  lemma StaleTimes(json: Json, row: Row, n: nat)
    requires Natural(row.info.time)
    ensures var r := RingOf(json, row);
      Above(row.info.time, n) == map i | i in Indices(r) && i >= n && TimeAt(r, i).Some? :: TimeAt(r, i).value
  {
    var r := RingOf(json, row);
    assert forall i :: i >= 0 ==> TimeAt(r, i) == Get(row.info.time, i);
    assert forall i :: i in row.info.time && i >= n ==> i in Indices(r);
  }

  lemma StaleReasons(json: Json, row: Row, n: nat)
    requires Natural(row.info.reason)
    ensures var r := RingOf(json, row);
      Above(row.info.reason, n) == map i | i in Indices(r) && i >= n && ReasonAt(r, i).Some? :: ReasonAt(r, i).value
  {
    var r := RingOf(json, row);
    assert forall i :: i >= 0 ==> ReasonAt(r, i) == Get(row.info.reason, i);
    assert forall i :: i in row.info.reason && i >= n ==> i in Indices(r);
  }

  /** Saving another text over the same data. */
  lemma SaveText(json: Json, row: Row, text: string)
    requires Sound(json, row) && text != "" && !EmptyArray(json, text)
    ensures var r := Update(json, row, Row(text, row.info));
      Sound(json, r) && RingOf(json, r) == Rekeyed(RingOf(json, row), GetKeys(json, text))
  {
    var r, ring, keys := Update(json, row, Row(text, row.info)), RingOf(json, row), GetKeys(json, text);
    CountExactlyWhen(json, text);
    StaleTimes(json, row, |keys|);
    StaleReasons(json, row, |keys|);
    forall i | 0 <= i < |keys| ensures EntryAt(keys, r.info, i) == RekeyedEntry(ring, keys[i], i) {
    }
    assert RingOf(json, r).entries == Rekeyed(ring, keys).entries;
  }

  // ---- each action on the row is that action on the ring ---------------------------------------

  lemma StatusEntry(keys: seq<string>, info: Info, i: nat, status: int, now: int, why: string)
    requires i < |keys|
    ensures var r := WithStatus(info, i, status, now, why);
      && Entries(keys, r) == Entries(keys, info)[i := Changed(EntryAt(keys, info, i), status, now, why)]
      && Above(r.time, |keys|) == Above(info.time, |keys|) && Above(r.reason, |keys|) == Above(info.reason, |keys|)
  {
    OneEntry(keys, info, WithStatus(info, i, status, now, why), i);
  }

  lemma RefineSetStatus(json: Json, row: Row, a: Action)
    requires Sound(json, row) && a.SetStatus?
    ensures Refines(json, row, a)
  {
    KeysOfRing(json, row);
    var keys := GetKeys(json, row.key);
    if keys != [] {
      StatusEntry(keys, row.info, IndexOf(keys, a.usingKey), a.status, a.now, a.why);
    }
  }

  lemma RefineDisable(json: Json, row: Row, i: Option<int>)
    requires Sound(json, row)
    ensures Refines(json, row, DisableKey(i))
  {
    if InRange(row.info, i) {
      var info, keys := row.info, GetKeys(json, row.key);
      var changed := info.(status := info.status[i.value := MANUALLY_DISABLED]);
      SaveInfo(json, row, changed);
      OneEntry(keys, info, changed, i.value);
    }
  }

  lemma RefineEnable(json: Json, row: Row, i: Option<int>)
    requires Sound(json, row)
    ensures Refines(json, row, EnableKey(i))
  {
    if InRange(row.info, i) {
      var info, keys := row.info, GetKeys(json, row.key);
      var changed := info.(status := info.status - {i.value}, time := info.time - {i.value}, reason := info.reason - {i.value});
      SaveInfo(json, row, changed);
      OneEntry(keys, info, changed, i.value);
      assert Above(changed.time, |keys|) == Above(info.time, |keys|);
      assert Above(changed.reason, |keys|) == Above(info.reason, |keys|);
    }
  }

  lemma NoDataAllEnabled(keys: seq<string>, a: Info, b: Info)
    requires Fits(b, 0)
    ensures Entries(keys, b) == Map(Enabled, Entries(keys, a))
    ensures Above(b.time, |keys|) == map[] && Above(b.reason, |keys|) == map[]
  {
    assert forall i :: 0 <= i < |keys| ==> EntryAt(keys, b, i) == Enabled(EntryAt(keys, a, i));
    NothingAbove(b.time, |keys|);
    NothingAbove(b.reason, |keys|);
  }

  lemma RefineEnableAll(json: Json, row: Row)
    requires Sound(json, row)
    ensures Refines(json, row, EnableAllKeys)
  {
    var changed := row.info.(status := map[], time := map[], reason := map[]);
    SaveInfo(json, row, changed);
    NoDataAllEnabled(GetKeys(json, row.key), row.info, changed);
  }

  lemma RefineDisableAll(json: Json, row: Row)
    requires Sound(json, row)
    ensures Refines(json, row, DisableAllKeys)
  {
    var info, keys := row.info, GetKeys(json, row.key);
    DisabledAt(info.status, info.size);
    var (status, count) := Disabled(info.status, info.size);
    if count != 0 {
      SaveInfo(json, row, info.(status := status));
      assert Entries(keys, info.(status := status)) == Map(DisabledEntry, Entries(keys, info));
    } else {
      assert Map(DisabledEntry, Entries(keys, info)) == Entries(keys, info);
    }
  }

  /** What delete_key keeps, as a list of keys. */
  lemma KeptByDelete(keys: seq<string>, info: Info, drop: int)
    ensures var k := Deleting(keys, info, drop, |keys|);
      k.keys == KeysOf(DropAt(Entries(keys, info), drop))
  {
    DeletingDrops(keys, info, drop);
  }

  lemma RefineDelete(json: Json, row: Row, i: Option<int>)
    requires Sound(json, row)
    ensures Refines(json, row, DeleteKey(i)) <==> Welcome(json, RingOf(json, row), DeleteKey(i))
  {
    var keys := GetKeys(json, row.key);
    if InRange(row.info, i) {
      var k := Deleting(keys, row.info, i.value, |keys|);
      DeletingDrops(keys, row.info, i.value);
      KeptByDelete(keys, row.info, i.value);
      if |keys| > 1 {
        DeleteStored(json, row, k);
      }
    }
  }

  /** Storing fewer keys is storing them exactly when they can be read back. */
  lemma DeleteStored(json: Json, row: Row, k: Kept)
    requires k.keys != [] && |k.keys| < |GetKeys(json, row.key)| && Fits(k.info, |k.keys|)
    ensures var r := Update(json, row, Row(Join(k.keys, '\n'), k.info));
      Sound(json, r) && RingOf(json, r) == Clean(Entries(k.keys, k.info)) <==> Storable(json, k.keys)
  {
    var r := Update(json, row, Row(Join(k.keys, '\n'), k.info));
    KeptKeysReadBackExactlyWhen(json, row, k.keys, k.info);
    if Storable(json, k.keys) {
      SaveKept(json, row, k);
    }
    if RingOf(json, r) == Clean(Entries(k.keys, k.info)) {
      KeysOfRing(json, r);
      assert GetKeys(json, r.key) == KeysOf(Entries(k.keys, k.info)) == k.keys;
    }
  }

  lemma SweepSees(keys: seq<string>, info: Info)
    ensures var es := Entries(keys, info);
      var k := Sweep(keys, info, |keys|);
      && (AnyAuto(es) <==> Swept(info, |keys|) != 0)
      && Fits(k.info, |k.keys|) && Entries(k.keys, k.info) == Survivors(es) && |k.keys| + Swept(info, |keys|) == |es|
      && k.keys == KeysOf(Survivors(es))
  {
    var es := Entries(keys, info);
    NothingSwept(info, |keys|);
    assert forall i :: 0 <= i < |keys| ==> es[i].status == Status(info, i);
    assert es[..|keys|] == es;
    SweepKeepsSurvivors(keys, info, |keys|);
  }

  lemma RefineSweep(json: Json, row: Row)
    requires Sound(json, row)
    ensures Refines(json, row, DeleteDisabledKeys) <==> Welcome(json, RingOf(json, row), DeleteDisabledKeys)
  {
    var keys := GetKeys(json, row.key);
    SweepSees(keys, row.info);
    if Swept(row.info, |keys|) != 0 {
      var k := Sweep(keys, row.info, |keys|);
      if k.keys == [] {
        NoDataAllEnabled(keys, row.info, k.info);
        SaveInfo(json, row, k.info);
      } else {
        DeleteStored(json, row, k);
      }
    }
  }

  lemma RefineReplace(json: Json, row: Row, text: string)
    requires Sound(json, row)
    ensures Refines(json, row, Replace(text)) <==> Welcome(json, RingOf(json, row), Replace(text))
  {
    if text == "" {
      SaveInfo(json, row, row.info);
    } else if !EmptyArray(json, text) {
      SaveText(json, row, text);
    }
  }

  lemma AppendIsSave(json: Json, row: Row, a: Action, candidates: seq<string>)
    requires Sound(json, row) && a.Append? && Readable(json, row, a) && row.key != ""
    requires Candidates(a.text, a.batch) == Some(candidates)
    ensures Step(json, row, a).0
         == Update(json, row, Row(Join(Extended(GetKeys(json, row.key), candidates), '\n'), row.info))
  {
    KeysOfRing(json, row);
    NoKeysNoText(json, row);
    AppendReadsKeysExactlyWhen(json, row.key);
  }

  lemma SameKeysSameRing(r: Ring)
    requires forall i :: i in r.staleTime ==> i >= |r.entries|
    requires forall i :: i in r.staleReason ==> i >= |r.entries|
    ensures Rekeyed(r, KeysOf(r.entries)) == r
  {
    var n := |r.entries|;
    assert forall i :: 0 <= i < n ==> RekeyedEntry(r, KeysOf(r.entries)[i], i) == r.entries[i];
    var t := Rekeyed(r, KeysOf(r.entries));
    assert t.entries == r.entries;
    assert forall i :: i in t.staleTime <==> i in r.staleTime;
    assert forall i :: i in t.staleReason <==> i in r.staleReason;
  }

  lemma RefineAppend(json: Json, row: Row, a: Action)
    requires Sound(json, row) && a.Append? && Readable(json, row, a)
    ensures Refines(json, row, a) <==> Welcome(json, RingOf(json, row), a)
  {
    if row.key == "" {
      AppendToNothing(json, row, a);
    } else {
      KeysOfRing(json, row);
      NoKeysNoText(json, row);
      if Candidates(a.text, a.batch).Some? {
        var candidates := Candidates(a.text, a.batch).value;
        AppendStored(json, row, a, candidates, Extended(GetKeys(json, row.key), candidates));
      }
    }
  }

  /** Appending to an empty channel replaces its text. */
  lemma AppendToNothing(json: Json, row: Row, a: Action)
    requires Sound(json, row) && a.Append? && row.key == ""
    ensures Refines(json, row, a) <==> Welcome(json, RingOf(json, row), a)
  {
    RefineReplace(json, row, a.text);
    assert Step(json, row, a).0 == Step(json, row, Replace(a.text)).0;
    assert RingOf(json, row).entries == [];
  }

  /** Storing joined keys over the same data gives them exactly when they can be read back. */
  lemma StoredTextExactlyWhen(json: Json, row: Row, keys: seq<string>)
    requires Sound(json, row) && keys != [] && keys != [""]
    ensures var r := Update(json, row, Row(Join(keys, '\n'), row.info));
      Sound(json, r) && RingOf(json, r) == Rekeyed(RingOf(json, row), keys) <==> Storable(json, keys)
  {
    var r := Update(json, row, Row(Join(keys, '\n'), row.info));
    JoinIsEmpty(keys);
    ReadsBackExactlyWhen(json, keys);
    if Storable(json, keys) {
      StorableIsCounted(json, keys);
      SaveText(json, row, Join(keys, '\n'));
    } else {
      KeysOfRing(json, r);
      assert KeysOf(Rekeyed(RingOf(json, row), keys).entries) == keys;
    }
  }

  /** A single empty key is kept by not storing anything. */
  lemma EmptyKeyStays(json: Json, row: Row)
    requires Sound(json, row) && GetKeys(json, row.key) == [""]
    ensures var r := Update(json, row, Row("", row.info));
      Sound(json, r) && RingOf(json, r) == Rekeyed(RingOf(json, row), [""])
  {
    SaveInfo(json, row, row.info);
    KeysOfRing(json, row);
    SameKeysSameRing(RingOf(json, row));
  }

  lemma AppendStored(json: Json, row: Row, a: Action, candidates: seq<string>, keys: seq<string>)
    requires Sound(json, row) && a.Append? && Readable(json, row, a) && row.key != ""
    requires Candidates(a.text, a.batch) == Some(candidates) && keys == Extended(GetKeys(json, row.key), candidates)
    ensures Refines(json, row, a) <==> keys == [""] || Storable(json, keys)
  {
    KeysOfRing(json, row);
    NoKeysNoText(json, row);
    AppendIsSave(json, row, a, candidates);
    if keys == [""] {
      JoinIsEmpty(keys);
      assert GetKeys(json, row.key) == keys;
      EmptyKeyStays(json, row);
    } else {
      StoredTextExactlyWhen(json, row, keys);
    }
  }

  lemma {:induction false} NothingFresh(seen: set<string>, keys: seq<string>, n: nat)
    requires n <= |keys| && Fresh({}, keys, n) == []
    ensures Fresh(seen, keys, n) == []
  {
    if n > 0 {
      NothingFresh(seen, keys, n - 1);
    }
  }

  lemma {:induction false} FreshNotBlank(seen: set<string>, keys: seq<string>, n: nat)
    requires n <= |keys|
    ensures "" !in Fresh(seen, keys, n)
  {
    if n > 0 {
      FreshNotBlank(seen, keys, n - 1);
    }
  }

  /** Storing any text over the same data gives the wanted keys exactly when it reads as them. */
  lemma StoredAsExactlyWhen(json: Json, row: Row, text: string, wanted: seq<string>)
    requires Sound(json, row) && text != "" && wanted != []
    ensures var r := Update(json, row, Row(text, row.info));
      Sound(json, r) && RingOf(json, r) == Rekeyed(RingOf(json, row), wanted) <==> GetKeys(json, text) == wanted
  {
    var r := Update(json, row, Row(text, row.info));
    if GetKeys(json, text) == wanted {
      SaveText(json, row, text);
    } else {
      KeysOfRing(json, r);
      assert KeysOf(Rekeyed(RingOf(json, row), wanted).entries) == wanted;
    }
  }

  lemma RefineForgetful(json: Json, row: Row, a: Action)
    requires Sound(json, row) && a.Append? && !Readable(json, row, a)
    ensures Refines(json, row, a) <==> Recovers(json, row, a)
  {
    KeysOfRing(json, row);
    NoKeysNoText(json, row);
    if Candidates(a.text, a.batch).Some? {
      var given, keys := Candidates(a.text, a.batch).value, GetKeys(json, row.key);
      var added := Extended([], given);
      UnreadableAppendForgets(json, row, a, given);
      assert SeenKeys([]) == {};
      if added == [] {
        NothingFresh(SeenKeys(keys), given, |given|);
        assert Extended(keys, given) == keys;
        SaveInfo(json, row, row.info);
        SameKeysSameRing(RingOf(json, row));
      } else {
        FreshNotBlank({}, given, |given|);
        JoinIsEmpty(added);
        StoredAsExactlyWhen(json, row, Join(added, '\n'), Extended(keys, given));
      }
    }
  }

  /** Each action on the stored row is the same action on the ring exactly when the keys it stores can be read back. */
  lemma StepRefinesExactlyWhen(json: Json, row: Row, a: Action)
    requires Sound(json, row)
    ensures Refines(json, row, a) <==> Allowed(json, row, a)
  {
    match a
    case DisableKey(i) => RefineDisable(json, row, i);
    case EnableKey(i) => RefineEnable(json, row, i);
    case EnableAllKeys => RefineEnableAll(json, row);
    case DisableAllKeys => RefineDisableAll(json, row);
    case DeleteKey(i) => RefineDelete(json, row, i);
    case DeleteDisabledKeys => RefineSweep(json, row);
    case SetStatus(_, _, _, _) => RefineSetStatus(json, row, a);
    case Append(_, _) =>
      if Readable(json, row, a) {
        RefineAppend(json, row, a);
      } else {
        RefineForgetful(json, row, a);
      }
    case Replace(text) => RefineReplace(json, row, text);
  }

  function Run(json: Json, row: Row, actions: seq<Action>): Row
    decreases |actions|
  {
    if actions == [] then row else Run(json, Step(json, row, actions[0]).0, actions[1..])
  }

  ghost predicate AllAllowed(json: Json, row: Row, actions: seq<Action>)
    decreases |actions|
  {
    actions != [] ==>
      Allowed(json, row, actions[0]) && AllAllowed(json, Step(json, row, actions[0]).0, actions[1..])
  }

  function Acts(json: Json, r: Ring, actions: seq<Action>): Ring
    decreases |actions|
  {
    if actions == [] then r else Acts(json, Act(json, r, actions[0]), actions[1..])
  }

  /** Over every run of actions, replacements included, the row stays sound and is the ring of the ring machine. */
  lemma {:induction false} RunsRefine(json: Json, row: Row, actions: seq<Action>)
    requires Sound(json, row) && AllAllowed(json, row, actions)
    ensures Sound(json, Run(json, row, actions))
    ensures RingOf(json, Run(json, row, actions)) == Acts(json, RingOf(json, row), actions)
    decreases |actions|
  {
    if actions != [] {
      StepRefinesExactlyWhen(json, row, actions[0]);
      RunsRefine(json, Step(json, row, actions[0]).0, actions[1..]);
    }
  }

  // ---- where the promises stop ----------------------------------------------------------------

  /** Every index in use belongs to a key. */
  predicate NothingStale(r: Ring) {
    r.staleTime == map[] && r.staleReason == map[]
  }

  lemma FitsIsNothingStale(json: Json, row: Row)
    requires Sound(json, row)
    ensures Fits(row.info, row.info.size) <==> NothingStale(RingOf(json, row))
  {
    var n, r := row.info.size, RingOf(json, row);
    if Fits(row.info, n) {
      NothingAbove(row.info.time, n);
      NothingAbove(row.info.reason, n);
    } else {
      assert forall i :: i in row.info.time && i >= n ==> i in r.staleTime;
      assert forall i :: i in row.info.reason && i >= n ==> i in r.staleReason;
    }
  }

  /** No key past the first n has a time or a reason. */
  predicate NoDataFrom(es: seq<Entry>, n: nat) {
    forall i :: n <= i < |es| ==> !HasData(es[i])
  }

  lemma RekeyedStale(r: Ring, keys: seq<string>)
    requires NothingStale(r)
    ensures NothingStale(Rekeyed(r, keys)) <==> NoDataFrom(r.entries, |keys|)
  {
    var n, t := |keys|, Rekeyed(r, keys);
    if NoDataFrom(r.entries, n) {
      assert forall i :: i !in t.staleTime && i !in t.staleReason;
    } else {
      var i :| n <= i < |r.entries| && HasData(r.entries[i]);
      assert i in Indices(r);
      assert i in t.staleTime || i in t.staleReason;
    }
  }

  /** A replacement leaves no time or reason without a key exactly when the keys past the new count had none. */
  lemma ReplaceFitsExactlyWhen(json: Json, row: Row, text: string)
    requires Sound(json, row) && Fits(row.info, row.info.size) && text != "" && !EmptyArray(json, text)
    ensures var r := Step(json, row, Replace(text)).0;
      Fits(r.info, r.info.size) <==> NoDataFrom(RingOf(json, row).entries, |GetKeys(json, text)|)
  {
    RefineReplace(json, row, text);
    FitsIsNothingStale(json, row);
    FitsIsNothingStale(json, Step(json, row, Replace(text)).0);
    RekeyedStale(RingOf(json, row), GetKeys(json, text));
  }

  /** A replacement drops no key that has a time or a reason. */
  predicate Spares(json: Json, r: Ring, a: Action) {
    a.Replace? && a.text != "" ==> NoDataFrom(r.entries, |GetKeys(json, a.text)|)
  }

  /** From a ring with nothing stale an action makes something stale exactly when it is a replacement that does not spare. */
  lemma StaysFreshExactlyWhen(json: Json, r: Ring, a: Action)
    requires NothingStale(r)
    ensures NothingStale(Act(json, r, a)) <==> Spares(json, r, a)
  {
    if a.Replace? && a.text != "" {
      RekeyedStale(r, GetKeys(json, a.text));
    } else if a.Append? {
      if Candidates(a.text, a.batch).Some? {
        RekeyedStale(r, Extended(KeysOf(r.entries), Candidates(a.text, a.batch).value));
      }
      RekeyedStale(r, GetKeys(json, a.text));
    }
  }

  ghost predicate AllSpare(json: Json, r: Ring, actions: seq<Action>)
    decreases |actions|
  {
    actions != [] ==> Spares(json, r, actions[0]) && AllSpare(json, Act(json, r, actions[0]), actions[1..])
  }

  lemma {:induction false} ActsStayFresh(json: Json, r: Ring, actions: seq<Action>)
    requires NothingStale(r) && AllSpare(json, r, actions)
    ensures NothingStale(Acts(json, r, actions))
    decreases |actions|
  {
    if actions != [] {
      StaysFreshExactlyWhen(json, r, actions[0]);
      ActsStayFresh(json, Act(json, r, actions[0]), actions[1..]);
    }
  }

  /** So over every such run all three maps only use indices of keys. */
  lemma RunsFit(json: Json, row: Row, actions: seq<Action>)
    requires Sound(json, row) && Fits(row.info, row.info.size) && AllAllowed(json, row, actions)
    requires AllSpare(json, RingOf(json, row), actions)
    ensures var end := Run(json, row, actions); end.info.size == |GetKeys(json, end.key)| && Fits(end.info, end.info.size)
  {
    FitsIsNothingStale(json, row);
    RunsRefine(json, row, actions);
    ActsStayFresh(json, RingOf(json, row), actions);
    FitsIsNothingStale(json, Run(json, row, actions));
  }

  /** Replacing keys keeps the data of the index: the new key takes over what the old one had. */
  lemma ReplaceCarriesOver(json: Json, row: Row, text: string, i: nat)
    requires Sound(json, row) && text != "" && !EmptyArray(json, text) && i < |GetKeys(json, text)|
    ensures var r := Step(json, row, Replace(text)).0;
      && GetKeys(json, r.key) == GetKeys(json, text)
      && RingOf(json, r).entries[i] == RekeyedEntry(RingOf(json, row), GetKeys(json, text)[i], i)
  {
    RefineReplace(json, row, text);
  }

  lemma DeleteIsSave(json: Json, row: Row, i: int)
    requires Sound(json, row) && 0 <= i < |GetKeys(json, row.key)|
    ensures var keys := GetKeys(json, row.key);
      var k := Deleting(keys, row.info, i, |keys|);
      Step(json, row, DeleteKey(Some(i))).0 == if k.keys == [] then row else Update(json, row, Row(Join(k.keys, '\n'), k.info))
  {
  }

  lemma SweepIsSave(json: Json, row: Row)
    requires Swept(row.info, |GetKeys(json, row.key)|) != 0
    ensures var keys := GetKeys(json, row.key);
      var k := Sweep(keys, row.info, |keys|);
      Step(json, row, DeleteDisabledKeys).0 == Update(json, row, Row(Join(k.keys, '\n'), k.info))
  {
  }

  /** A row stored with fewer keys, or left with its text when there are none. */
  lemma StoredKeptExactlyWhen(json: Json, row: Row, k: Kept, key: string)
    requires |k.keys| < |GetKeys(json, row.key)|
    requires key == if k.keys == [] then row.key else Update(json, row, Row(Join(k.keys, '\n'), k.info)).key
    ensures GetKeys(json, key) == k.keys <==> k.keys != [] && Storable(json, k.keys)
  {
    if k.keys != [] {
      KeptKeysReadBackExactlyWhen(json, row, k.keys, k.info);
    }
  }

  /** What a sweep reports as deleted and what then remains add up exactly when some keys survive and count back. */
  lemma SweepCountsExactlyWhen(json: Json, row: Row)
    requires Sound(json, row) && AnyAuto(RingOf(json, row).entries)
    ensures var es := RingOf(json, row).entries;
      var kept := KeysOf(Survivors(es));
      && (|GetKeys(json, Step(json, row, DeleteDisabledKeys).0.key)| + Swept(row.info, |es|) == |es| <==>
            kept != [] && CountsBack(json, kept))
      && (kept != [] <==> exists i :: 0 <= i < |es| && es[i].status != AUTO_DISABLED)
  {
    NoSurvivors(RingOf(json, row).entries);
    var keys := GetKeys(json, row.key);
    SweepSees(keys, row.info);
    SweepIsSave(json, row);
    var kept := Sweep(keys, row.info, |keys|).keys;
    if kept != [] {
      CountsBackExactlyWhen(json, kept);
    }
  }

  /** A sweep leaves exactly the keys that are not auto-disabled if and only if there are any and they can be read back. */
  lemma SweepDeletesExactlyWhen(json: Json, row: Row)
    requires Sound(json, row) && AnyAuto(RingOf(json, row).entries)
    ensures var kept := KeysOf(Survivors(RingOf(json, row).entries));
      GetKeys(json, Step(json, row, DeleteDisabledKeys).0.key) == kept <==> kept != [] && Storable(json, kept)
  {
    var keys := GetKeys(json, row.key);
    SweepSees(keys, row.info);
    SweepIsSave(json, row);
    StoredKeptExactlyWhen(json, row, Sweep(keys, row.info, |keys|), Step(json, row, DeleteDisabledKeys).0.key);
  }

  /** Likewise a deletion of one key. */
  lemma DeleteDeletesExactlyWhen(json: Json, row: Row, i: int)
    requires Sound(json, row) && 0 <= i < |GetKeys(json, row.key)|
    ensures var kept := KeysOf(DropAt(RingOf(json, row).entries, i));
      GetKeys(json, Step(json, row, DeleteKey(Some(i))).0.key) == kept <==> kept != [] && Storable(json, kept)
  {
    var keys := GetKeys(json, row.key);
    KeptByDelete(keys, row.info, i);
    DeleteIsSave(json, row, i);
    StoredKeptExactlyWhen(json, row, Deleting(keys, row.info, i, |keys|), Step(json, row, DeleteKey(Some(i))).0.key);
  }

  /** Two keys, the first over two lines, are stored as three lines. */
  lemma SpanningText(json: Json)
    ensures var text := Join(["{\na}", "{b}"], '\n');
      text != "" && GetKeys(json, text) == ["{", "a}", "{b}"] && !EmptyArray(json, text)
  {
    var keys, lines := ["{\na}", "{b}"], ["{", "a}", "{b}"];
    assert keys[1..] == ["{b}"] && lines[1..] == ["a}", "{b}"] && lines[1..][1..] == ["{b}"];
    assert Join(keys, '\n') == Join(lines, '\n');
    PlainKeysStorable(json, lines);
    StorableIsCounted(json, lines);
  }

  lemma SpanningDelete(keys: seq<string>, info: Info)
    requires keys == ["{\na}", "{b}", "{c}"] && info == Info(3, map[1 := AUTO_DISABLED], map[], map[])
    ensures var k := Deleting(keys, info, 2, 3);
      && k.keys == ["{\na}", "{b}"] && Below(k.info.status, 2)
      && Status(k.info, 0) == ENABLED && Status(k.info, 1) == AUTO_DISABLED
  {
    var k := Deleting(keys, info, 2, 3);
    DeletingDrops(keys, info, 2);
    KeptByDelete(keys, info, 2);
    assert Entries(k.keys, k.info)[0] == EntryAt(keys, info, 0);
    assert Entries(k.keys, k.info)[1] == EntryAt(keys, info, 1);
  }

  /** A key of a JSON array that spans lines: after a deletion the status of one key lands on another. */
  lemma SpanningKeyShiftsStatus(json: Json, row: Row)
    requires GetKeys(json, row.key) == ["{\na}", "{b}", "{c}"] && !EmptyArray(json, row.key)
    requires row.info == Info(3, map[1 := AUTO_DISABLED], map[], map[])
    ensures var r := Step(json, row, DeleteKey(Some(2))).0;
      && GetKeys(json, r.key) == ["{", "a}", "{b}"]
      && r.info.size == 3 && Status(r.info, 1) == AUTO_DISABLED && Status(r.info, 2) == ENABLED
  {
    SpanningText(json);
    SpanningDelete(GetKeys(json, row.key), row.info);
    DeleteIsSave(json, row, 2);
    CountExactlyWhen(json, Join(["{\na}", "{b}"], '\n'));
  }

  /** The relay's status change lands on the key in use exactly when that key is still stored. */
  lemma StatusLandsExactlyWhen(keys: seq<string>, usingKey: string)
    requires keys != []
    ensures var i := IndexOf(keys, usingKey);
      && i < |keys| && (keys[i] == usingKey <==> usingKey in keys)
      && (usingKey !in keys ==> i == 0)
  {
  }

  /** An append to a text that opens an array but does not parse forgets every stored key. */
  lemma UnreadableAppendForgets(json: Json, row: Row, a: Action, candidates: seq<string>)
    requires row.key != "" && a.Append? && !Readable(json, row, a) && Candidates(a.text, a.batch) == Some(candidates)
    ensures Step(json, row, a).0 == Update(json, row, Row(Join(Extended([], candidates), '\n'), row.info))
  {
  }

  // ---- what an action answers and does to the statuses --------------------------------------------

  ghost predicate AnyStatus(es: seq<Entry>, status: int) {
    exists i :: 0 <= i < |es| && es[i].status == status
  }

  /** An action succeeds exactly when it has something to act on; one that does not leaves the row alone. */
  lemma SucceedsExactlyWhen(json: Json, row: Row, a: Action)
    requires Sound(json, row)
    ensures var es := RingOf(json, row).entries;
      Step(json, row, a).1 <==>
      match a
      case DisableKey(i) => i.Some? && 0 <= i.value < |es|
      case EnableKey(i) => i.Some? && 0 <= i.value < |es|
      case DisableAllKeys => AnyStatus(es, 1)
      case DeleteKey(i) => i.Some? && 0 <= i.value < |es| && |es| > 1
      case DeleteDisabledKeys => AnyStatus(es, 3)
      case Append(text, batch) => row.key == "" || Candidates(text, batch).Some?
      case _ => true
    ensures !Step(json, row, a).1 ==> Step(json, row, a).0 == row
  {
    var keys, info := GetKeys(json, row.key), row.info;
    match a
    case DisableAllKeys =>
      DisableSucceeds(keys, info);
    case DeleteKey(i) =>
      if i.Some? {
        KeptByDelete(keys, info, i.value);
      }
    case DeleteDisabledKeys =>
      SweepSees(keys, info);
    case _ =>
  }

  lemma DisableSucceeds(keys: seq<string>, info: Info)
    requires info.size == |keys| && Natural(info.status)
    ensures Disabled(info.status, info.size).1 != 0 <==> AnyStatus(Entries(keys, info), 1)
  {
    DisabledAt(info.status, info.size);
    var es := Entries(keys, info);
    assert forall i :: 0 <= i < |keys| ==> (es[i].status == 1 <==> !(i in info.status && info.status[i] != 1));
  }

  /** Statuses are 1 for enabled, 2 for disabled by hand and 3 for disabled automatically. */
  lemma ActsOnStatuses(json: Json, r: Ring, i: nat)
    requires i < |r.entries|
    ensures Act(json, r, DisableKey(Some(i))).entries == r.entries[i := r.entries[i].(status := 2)]
    ensures Act(json, r, EnableKey(Some(i))).entries == r.entries[i := Entry(r.entries[i].key, 1, None, None)]
    ensures Act(json, r, EnableAllKeys).entries[i] == Entry(r.entries[i].key, 1, None, None)
    ensures Act(json, r, DisableAllKeys).entries[i] ==
      r.entries[i].(status := if r.entries[i].status == 1 then 2 else r.entries[i].status)
    ensures |r.entries| > 1 ==> Act(json, r, DeleteKey(Some(i))).entries == r.entries[..i] + r.entries[i + 1..]
  {
  }

  function NotAuto(es: seq<Entry>): seq<Entry> {
    if es == [] then [] else NotAuto(es[..|es| - 1]) + if es[|es| - 1].status != 3 then [es[|es| - 1]] else []
  }

  /** A sweep keeps exactly the keys whose status is not 3, in order. */
  lemma {:induction false} SurvivorsAre(es: seq<Entry>)
    ensures KeysOf(Survivors(es)) == KeysOf(NotAuto(es))
  {
    if es != [] {
      SurvivorsAre(es[..|es| - 1]);
    }
  }

  /** Nobody else survives, and the data of a disabled key does too, while an enabled key loses its own. */
  lemma {:induction false} SurvivorsKeepData(es: seq<Entry>)
    ensures forall e :: e in Survivors(es) ==> e.status != 3 && (e.status == 1 ==> e.time.None? && e.reason.None?)
    ensures forall e :: e in es && e.status != 3 && e.status != 1 ==> e in Survivors(es)
  {
    if es != [] {
      SurvivorsKeepData(es[..|es| - 1]);
      assert es == es[..|es| - 1] + [es[|es| - 1]];
    }
  }
}
