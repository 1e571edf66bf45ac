/** Keys of a multi-key channel with their own data, and how the loops of the actions re-index them. */
module MultiKeyLaws {
  import opened Prelude
  import opened Lists
  import opened Text
  import opened MultiKey

  datatype Entry = Entry(key: string, status: int, time: Option<int>, reason: Option<string>)

  function EntryAt(keys: seq<string>, info: Info, i: nat): Entry
    requires i < |keys|
  {
    Entry(keys[i], Status(info, i), Get(info.time, i), Get(info.reason, i))
  }

  function Entries(keys: seq<string>, info: Info): (es: seq<Entry>)
    ensures |es| == |keys| && forall i :: 0 <= i < |keys| ==> es[i] == EntryAt(keys, info, i)
  {
    seq(|keys|, i requires 0 <= i < |keys| => EntryAt(keys, info, i))
  }

  ghost predicate Below<V>(m: map<int, V>, n: int) {
    forall i :: i in m ==> 0 <= i < n
  }

  /** Every index in use belongs to a key. */
  ghost predicate Fits(info: Info, n: int) {
    Below(info.status, n) && Below(info.time, n) && Below(info.reason, n)
  }

  // ---- re-indexing --------------------------------------------------------------------------

  function Made(key: string, status: Option<int>, time: Option<int>, reason: Option<string>): Entry {
    Entry(key, if status.Some? then status.value else ENABLED, time, reason)
  }

  lemma KeepAppends(k: Kept, key: string, status: Option<int>, time: Option<int>, reason: Option<string>)
    requires Fits(k.info, |k.keys|)
    ensures var r := Keep(k, key, status, time, reason);
      && Fits(r.info, |r.keys|)
      && Entries(r.keys, r.info) == Entries(k.keys, k.info) + [Made(key, status, time, reason)]
  {
    var r := Keep(k, key, status, time, reason);
    forall i | 0 <= i < |r.keys|
      ensures EntryAt(r.keys, r.info, i) == if i < |k.keys| then EntryAt(k.keys, k.info, i) else Made(key, status, time, reason)
    {
    }
  }

  function DropAt(es: seq<Entry>, i: int): seq<Entry> {
    if 0 <= i < |es| then es[..i] + es[i + 1..] else es
  }

  function Dropping(es: seq<Entry>, i: int): seq<Entry> {
    if es == [] then []
    else if |es| - 1 == i then Dropping(Front(es), i)
    else Dropping(Front(es), i) + [Last(es)]
  }

  lemma {:induction false} DroppingIsDropAt(es: seq<Entry>, i: int)
    ensures Dropping(es, i) == DropAt(es, i)
  {
    if es != [] {
      FrontLast(es);
      DroppingIsDropAt(Front(es), i);
      if 0 <= i < |es| - 1 {
        assert Front(es)[..i] == es[..i] && Front(es)[i + 1..] + [Last(es)] == es[i + 1..];
      }
    }
  }

  lemma {:induction false} DeletingDropping(keys: seq<string>, info: Info, drop: int, n: nat)
    requires n <= |keys|
    ensures var k := Deleting(keys, info, drop, n);
      && Fits(k.info, |k.keys|)
      && Entries(k.keys, k.info) == Dropping(Entries(keys, info)[..n], drop)
  {
    if n > 0 {
      var es, i := Entries(keys, info), n - 1;
      DeletingDropping(keys, info, drop, i);
      assert Front(es[..n]) == es[..i] && Last(es[..n]) == es[i];
      if i != drop {
        var k := Deleting(keys, info, drop, i);
        KeepAppends(k, keys[i], NotEnabled(Get(info.status, i)), Get(info.time, i), Get(info.reason, i));
      }
    }
  }

  /** delete_key drops one entry and keeps the others, in order, with their data. */
  lemma DeletingDrops(keys: seq<string>, info: Info, drop: int)
    ensures var k := Deleting(keys, info, drop, |keys|);
      && Fits(k.info, |k.keys|)
      && Entries(k.keys, k.info) == DropAt(Entries(keys, info), drop)
  {
    var es := Entries(keys, info);
    assert es[..|keys|] == es;
    DeletingDropping(keys, info, drop, |keys|);
    DroppingIsDropAt(es, drop);
  }

  /** Neither a deletion nor a sweep writes down that a key is enabled: that is what a missing status means. */
  lemma {:induction false} EnabledIsUnwritten(keys: seq<string>, info: Info, drop: int, n: nat)
    requires n <= |keys|
    ensures forall i :: i in Deleting(keys, info, drop, n).info.status ==> Deleting(keys, info, drop, n).info.status[i] != 1
    ensures forall i :: i in Sweep(keys, info, n).info.status ==> Sweep(keys, info, n).info.status[i] != 1
  {
    if n > 0 {
      EnabledIsUnwritten(keys, info, drop, n - 1);
    }
  }

  /** An enabled entry loses its time and reason in a sweep. */
  function Tidy(e: Entry): Entry {
    if e.status == ENABLED then e.(time := None, reason := None) else e
  }

  function Survivors(es: seq<Entry>): seq<Entry> {
    if es == [] then []
    else if Last(es).status == AUTO_DISABLED then Survivors(Front(es))
    else Survivors(Front(es)) + [Tidy(Last(es))]
  }

  /** delete_disabled_keys keeps exactly the entries that are not auto-disabled, in order. */
  lemma {:induction false} SweepKeepsSurvivors(keys: seq<string>, info: Info, n: nat)
    requires n <= |keys|
    ensures var k := Sweep(keys, info, n);
      && Fits(k.info, |k.keys|)
      && Entries(k.keys, k.info) == Survivors(Entries(keys, info)[..n])
      && |k.keys| + Swept(info, n) == n
  {
    if n > 0 {
      var es, i := Entries(keys, info), n - 1;
      SweepKeepsSurvivors(keys, info, i);
      assert Front(es[..n]) == es[..i] && Last(es[..n]) == es[i];
      var k, st := Sweep(keys, info, i), Status(info, i);
      if st == ENABLED {
        KeepAppends(k, keys[i], None, None, None);
      } else if st != AUTO_DISABLED {
        KeepAppends(k, keys[i], Some(st), Get(info.time, i), Get(info.reason, i));
      }
    }
  }

  lemma {:induction false} NoSurvivors(es: seq<Entry>)
    ensures Survivors(es) == [] <==> forall i :: 0 <= i < |es| ==> es[i].status == AUTO_DISABLED
  {
    if es != [] {
      NoSurvivors(Front(es));
    }
  }

  function DisabledEntry(e: Entry): Entry {
    if e.status == ENABLED then e.(status := MANUALLY_DISABLED) else e
  }

  lemma {:induction false} DisabledAt(status: map<int, int>, n: nat)
    requires forall i :: i in status ==> 0 <= i
    ensures var (m, count) := Disabled(status, n);
      && (forall i :: i in m <==> i in status || 0 <= i < n)
      && (forall i :: i in m ==> m[i] == var old_ := if i in status then status[i] else ENABLED;
            if i < n && old_ == ENABLED then MANUALLY_DISABLED else old_)
      && (count == 0 <==> forall i :: 0 <= i < n ==> i in status && status[i] != ENABLED)
  {
    if n > 0 {
      DisabledAt(status, n - 1);
    }
  }

  lemma {:induction false} NothingSwept(info: Info, n: nat)
    ensures Swept(info, n) == 0 <==> forall i :: 0 <= i < n ==> Status(info, i) != AUTO_DISABLED
  {
    if n > 0 {
      NothingSwept(info, n - 1);
    }
  }

  /** Changing one index changes one entry. */
  lemma OneEntry(keys: seq<string>, a: Info, b: Info, i: nat)
    requires i < |keys| && forall j :: 0 <= j < |keys| && j != i ==> EntryAt(keys, a, j) == EntryAt(keys, b, j)
    ensures Entries(keys, b) == Entries(keys, a)[i := EntryAt(keys, b, i)]
  {
  }

  /** An append adds every non-blank new key once, trimmed, and nothing else. */
  lemma {:induction false} FreshIsExact(seen: set<string>, keys: seq<string>, n: nat)
    requires n <= |keys|
    ensures var added := Fresh(seen, keys, n);
      && Distinct(added)
      && (forall k :: k in added ==> k != "" && k !in seen && exists i :: 0 <= i < n && TrimSpace(keys[i]) == k)
      && (forall i :: 0 <= i < n ==> TrimSpace(keys[i]) == "" || TrimSpace(keys[i]) in seen || TrimSpace(keys[i]) in added)
  {
    if n > 0 {
      FreshIsExact(seen, keys, n - 1);
    }
  }

  ghost predicate Known(keys: seq<string>, k: string) {
    exists i :: 0 <= i < |keys| && TrimSpace(keys[i]) == k
  }

  /** What an append stores: the existing keys, then once each the trimmed candidates that are neither blank nor known. */
  lemma ExtendedExactly(existing: seq<string>, candidates: seq<string>)
    ensures var r := Extended(existing, candidates);
      && existing <= r && Distinct(r[|existing|..])
      && forall k :: k in r[|existing|..] <==> k != "" && Known(candidates, k) && !Known(existing, k)
  {
    var r, added := Extended(existing, candidates), Fresh(SeenKeys(existing), candidates, |candidates|);
    FreshIsExact(SeenKeys(existing), candidates, |candidates|);
    assert r[|existing|..] == added;
    forall k ensures k in added <==> k != "" && Known(candidates, k) && !Known(existing, k) {
      assert k != "" ==> (k in SeenKeys(existing) <==> Known(existing, k)) by {
        if Known(existing, k) {
          var i :| 0 <= i < |existing| && TrimSpace(existing[i]) == k;
          assert existing[i] in existing;
        }
      }
    }
  }
}
