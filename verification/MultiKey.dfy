/**
  Channels with several keys: ManageMultiKeys and the append branch of UpdateChannel in
  controller/channel.go, Update and the automatic status change in model/channel.go.
  A row stores the keys as one text and, by index, a status, a time and a reason.
  Reading a text as a JSON array is a parameter.
 */
module MultiKey {
  import opened Prelude
  import opened Text

  type Json = string -> Option<seq<string>>

  const ENABLED := 1
  const MANUALLY_DISABLED := 2
  const AUTO_DISABLED := 3

  datatype Info = Info(size: int, status: map<int, int>, time: map<int, int>, reason: map<int, string>)

  datatype Row = Row(key: string, info: Info)

  // ---- keys as text --------------------------------------------------------------------------

  predicate LooksLikeArray(key: string) {
    "[" <= TrimSpace(key)
  }

  function Lines(key: string): seq<string> {
    Split(Trim(key, Only('\n')), '\n')
  }

  function GetKeys(json: Json, key: string): seq<string> {
    if key == "" then []
    else if LooksLikeArray(key) && json(TrimSpace(key)).Some? then json(TrimSpace(key)).value
    else Lines(key)
  }

  /** Update counts keys on its own, and reads an empty array as one line. */
  function CountKeys(json: Json, key: string): nat {
    if key == "" then 0
    else if LooksLikeArray(key) && json(TrimSpace(key)).Some? && json(TrimSpace(key)).value != []
    then |json(TrimSpace(key)).value|
    else |Lines(key)|
  }

  /** Channel.Update: an empty key text leaves the stored one; statuses past the end go. */
  function Update(json: Json, stored: Row, row: Row): Row {
    var key := if row.key != "" then row.key else stored.key;
    var size := CountKeys(json, key);
    Row(key, row.info.(size := size, status := map i | i in row.info.status && i < size :: row.info.status[i]))
  }

  // ---- the actions -----------------------------------------------------------------------------

  function Status(info: Info, i: int): int {
    if i in info.status then info.status[i] else ENABLED
  }

  function Get<V>(m: map<int, V>, i: int): Option<V> {
    if i in m then Some(m[i]) else None
  }

  function Put<V>(m: map<int, V>, i: int, v: Option<V>): map<int, V> {
    if v.Some? then m[i := v.value] else m
  }

  const NOTHING := Info(0, map[], map[], map[])

  /** Keys kept so far, with their data under new indices. */
  datatype Kept = Kept(keys: seq<string>, info: Info)

  function Keep(k: Kept, key: string, status: Option<int>, time: Option<int>, reason: Option<string>): Kept {
    var n := |k.keys|;
    Kept(k.keys + [key],
         Info(0, Put(k.info.status, n, status), Put(k.info.time, n, time), Put(k.info.reason, n, reason)))
  }

  function NotEnabled(status: Option<int>): Option<int> {
    if status.Some? && status.value == ENABLED then None else status
  }

  /** delete_key over the first n keys. */
  function Deleting(keys: seq<string>, info: Info, drop: int, n: nat): Kept
    requires n <= |keys|
  {
    if n == 0 then Kept([], NOTHING)
    else
      var k, i := Deleting(keys, info, drop, n - 1), n - 1;
      if i == drop then k
      else Keep(k, keys[i], NotEnabled(Get(info.status, i)), Get(info.time, i), Get(info.reason, i))
  }

  /** delete_disabled_keys over the first n keys. */
  function Sweep(keys: seq<string>, info: Info, n: nat): Kept
    requires n <= |keys|
  {
    if n == 0 then Kept([], NOTHING)
    else
      var k, i := Sweep(keys, info, n - 1), n - 1;
      if Status(info, i) == AUTO_DISABLED then k
      else if Status(info, i) == ENABLED then Keep(k, keys[i], None, None, None)
      else Keep(k, keys[i], Some(Status(info, i)), Get(info.time, i), Get(info.reason, i))
  }

  function Swept(info: Info, n: nat): nat {
    if n == 0 then 0 else Swept(info, n - 1) + if Status(info, n - 1) == AUTO_DISABLED then 1 else 0
  }

  /** disable_all_keys over the first n indices: the new statuses and how many changed. */
  function Disabled(status: map<int, int>, n: nat): (map<int, int>, nat) {
    if n == 0 then (status, 0)
    else
      var (m, count) := Disabled(status, n - 1);
      if (if n - 1 in m then m[n - 1] else ENABLED) == ENABLED
      then (m[n - 1 := MANUALLY_DISABLED], count + 1)
      else (m, count)
  }

  /** The index of a key; 0 if it is not there. */
  function IndexOf(keys: seq<string>, key: string): nat {
    if key in keys then FirstIndex(keys, key) else 0
  }

  function FirstIndex(keys: seq<string>, key: string): (i: nat)
    requires key in keys
    ensures i < |keys| && keys[i] == key
  {
    if keys[0] == key then 0 else 1 + FirstIndex(keys[1..], key)
  }

  function WithStatus(info: Info, i: int, status: int, now: int, why: string): Info {
    if status == ENABLED then info.(status := info.status - {i})
    else info.(status := info.status[i := status], time := info.time[i := now], reason := info.reason[i := why])
  }

  /** The keys an append adds, after the first n: trimmed, not blank, not there yet. */
  function Fresh(seen: set<string>, keys: seq<string>, n: nat): seq<string>
    requires n <= |keys|
  {
    if n == 0 then []
    else
      var before, key := Fresh(seen, keys, n - 1), TrimSpace(keys[n - 1]);
      if key == "" || key in seen || key in before then before else before + [key]
  }

  /** How the append branch reads the stored keys: a failed parse gives none. */
  function ExistingKeys(json: Json, key: string): seq<string> {
    if LooksLikeArray(key)
    then if json(TrimSpace(key)).Some? then json(TrimSpace(key)).value else []
    else Lines(key)
  }

  function SeenKeys(keys: seq<string>): set<string> {
    set k | k in keys && TrimSpace(k) != "" :: TrimSpace(k)
  }

  /** How a text to append is read: by lines, or for Vertex AI as an array (given how that parses) or one key. */
  datatype Batch = ByLines | Vertex(parsed: Option<seq<string>>)

  function Candidates(text: string, batch: Batch): Option<seq<string>> {
    match batch
    case ByLines => Some(Split(text, '\n'))
    case Vertex(parsed) => if LooksLikeArray(text) then parsed else Some([text])
  }

  /** The keys, then the candidates that are new. */
  function Extended(existing: seq<string>, candidates: seq<string>): seq<string> {
    existing + Fresh(SeenKeys(existing), candidates, |candidates|)
  }

  datatype Action =
    | DisableKey(index: Option<int>)
    | EnableKey(index: Option<int>)
    | EnableAllKeys
    | DisableAllKeys
    | DeleteKey(index: Option<int>)
    | DeleteDisabledKeys
    | SetStatus(usingKey: string, status: int, now: int, why: string)   // from the relay, not from the dashboard
    | Append(text: string, batch: Batch)
    | Replace(text: string)

  predicate InRange(info: Info, index: Option<int>) {
    index.Some? && 0 <= index.value < info.size
  }

  /** The row after an action, and whether the action succeeded. */
  function Step(json: Json, row: Row, a: Action): (Row, bool) {
    var info, keys := row.info, GetKeys(json, row.key);
    match a
    case DisableKey(i) =>
      if !InRange(info, i) then (row, false)
      else (Update(json, row, row.(info := info.(status := info.status[i.value := MANUALLY_DISABLED]))), true)
    case EnableKey(i) =>
      if !InRange(info, i) then (row, false)
      else (Update(json, row, row.(info := info.(status := info.status - {i.value}, time := info.time - {i.value},
                                                 reason := info.reason - {i.value}))), true)
    case EnableAllKeys =>
      (Update(json, row, row.(info := info.(status := map[], time := map[], reason := map[]))), true)
    case DisableAllKeys =>
      var (status, count) := Disabled(info.status, if info.size < 0 then 0 else info.size);
      if count == 0 then (row, false)
      else (Update(json, row, row.(info := info.(status := status))), true)
    case DeleteKey(i) =>
      if !InRange(info, i) then (row, false)
      else
        var k := Deleting(keys, info, i.value, |keys|);
        if k.keys == [] then (row, false)
        else (Update(json, row, Row(Join(k.keys, '\n'), k.info)), true)
    case DeleteDisabledKeys =>
      if Swept(info, |keys|) == 0 then (row, false)
      else
        var k := Sweep(keys, info, |keys|);
        (Update(json, row, Row(Join(k.keys, '\n'), k.info)), true)
    case SetStatus(usingKey, status, now, why) =>
      if keys == [] then (row, true)
      else
        (row.(info := WithStatus(info, IndexOf(keys, usingKey), status, now, why)), true)
    case Append(text, batch) =>
      if row.key == "" then (Update(json, row, row.(key := text)), true)
      else
        var candidates := Candidates(text, batch);
        if candidates.None? then (row, false)
        else (Update(json, row, row.(key := Join(Extended(ExistingKeys(json, row.key), candidates.value), '\n'))), true)
    case Replace(text) =>
      (Update(json, row, row.(key := text)), true)
  }

  // ---- the imperative form --------------------------------------------------------------------

  class Channel {
    const json: Json
    var key: string
    var info: Info

    ghost function View(): Row
      reads this
    {
      Row(key, info)
    }

    constructor (json: Json, row: Row)
      ensures this.json == json && View() == row
    {
      this.json := json;
      this.key, this.info := row.key, row.info;
    }

    method Prune(list: map<int, int>, size: int) returns (status: map<int, int>)
      ensures status == map i | i in list && i < size :: list[i]
    {
      status := list;
      var rest: set<int> := list.Keys;
      while exists i :: i in rest
        invariant rest <= list.Keys
        decreases |rest|
        invariant forall i :: i in status <==> i in list && (i in rest || i < size)
        invariant forall i :: i in status ==> status[i] == list[i]
      {
        var i :| i in rest;
        if i >= size {
          status := status - {i};
        }
        rest := rest - {i};
      }
      assert forall i :: i in status <==> i in list && i < size;
    }

    method Save(newKey: string, newInfo: Info)
      modifies this
      ensures View() == Update(json, old(View()), Row(newKey, newInfo))
    {
      if newKey != "" {
        key := newKey;
      }
      var size := CountKeys(json, key);
      var status := Prune(newInfo.status, size);
      info := newInfo.(size := size, status := status);
    }

    method DisableAll() returns (ok: bool)
      modifies this
      ensures (View(), ok) == Step(json, old(View()), DisableAllKeys)
    {
      var status, count, i := info.status, 0, 0;
      while i < info.size
        invariant 0 <= i <= if info.size < 0 then 0 else info.size
        invariant View() == old(View())
        invariant (status, count) == Disabled(info.status, i)
      {
        var current := if i in status then status[i] else ENABLED;
        if current == ENABLED {
          status := status[i := MANUALLY_DISABLED];
          count := count + 1;
        }
        i := i + 1;
      }
      if count == 0 {
        return false;
      }
      Save(key, info.(status := status));
      return true;
    }

    /** The loop of delete_key: keys and their data under new indices. */
    method Reindex(keys: seq<string>, drop: int) returns (k: Kept)
      ensures k == Deleting(keys, info, drop, |keys|)
    {
      var remaining: seq<string> := [];
      var status, time, reason := map[], map[], map[];
      for i := 0 to |keys|
        invariant Kept(remaining, Info(0, status, time, reason)) == Deleting(keys, info, drop, i)
      {
        if i != drop {
          var newIndex := |remaining|;
          remaining := remaining + [keys[i]];
          if i in info.status && info.status[i] != ENABLED {
            status := status[newIndex := info.status[i]];
          }
          if i in info.time {
            time := time[newIndex := info.time[i]];
          }
          if i in info.reason {
            reason := reason[newIndex := info.reason[i]];
          }
        }
      }
      k := Kept(remaining, Info(0, status, time, reason));
    }

    method Delete(index: Option<int>) returns (ok: bool)
      modifies this
      ensures (View(), ok) == Step(json, old(View()), DeleteKey(index))
    {
      if index.None? || index.value < 0 || index.value >= info.size {
        return false;
      }
      var k := Reindex(GetKeys(json, key), index.value);
      if k.keys == [] {
        return false;
      }
      Save(Join(k.keys, '\n'), k.info);
      return true;
    }

    /** The loop of delete_disabled_keys. */
    method SweepDisabled(keys: seq<string>) returns (k: Kept, deleted: nat)
      ensures k == Sweep(keys, info, |keys|) && deleted == Swept(info, |keys|)
    {
      var remaining: seq<string> := [];
      var status, time, reason := map[], map[], map[];
      deleted := 0;
      for i := 0 to |keys|
        invariant Kept(remaining, Info(0, status, time, reason)) == Sweep(keys, info, i)
        invariant deleted == Swept(info, i)
      {
        var current := if i in info.status then info.status[i] else ENABLED;
        if current == AUTO_DISABLED {
          deleted := deleted + 1;
        } else {
          var newIndex := |remaining|;
          remaining := remaining + [keys[i]];
          if current != ENABLED {
            status := status[newIndex := current];
            if i in info.time {
              time := time[newIndex := info.time[i]];
            }
            if i in info.reason {
              reason := reason[newIndex := info.reason[i]];
            }
          }
        }
      }
      k := Kept(remaining, Info(0, status, time, reason));
    }

    method DeleteDisabled() returns (ok: bool)
      modifies this
      ensures (View(), ok) == Step(json, old(View()), DeleteDisabledKeys)
    {
      var k, deleted := SweepDisabled(GetKeys(json, key));
      if deleted == 0 {
        return false;
      }
      Save(Join(k.keys, '\n'), k.info);
      return true;
    }

    method CollectSeen(existing: seq<string>) returns (seen: set<string>)
      ensures seen == SeenKeys(existing)
    {
      seen := {};
      for i := 0 to |existing|
        invariant seen == SeenKeys(existing[..i])
      {
        var normalized := TrimSpace(existing[i]);
        if normalized != "" {
          seen := seen + {normalized};
        }
        assert existing[..i + 1] == existing[..i] + [existing[i]];
      }
      assert existing[..|existing|] == existing;
    }

    /** The loop that drops blank and known keys. */
    method Dedupe(known: set<string>, added: seq<string>) returns (deduped: seq<string>)
      ensures deduped == Fresh(known, added, |added|)
    {
      deduped := [];
      var seen := known;
      for i := 0 to |added|
        invariant deduped == Fresh(known, added, i)
        invariant forall k :: k in seen <==> k in known || k in deduped
      {
        var normalized := TrimSpace(added[i]);
        if normalized != "" && normalized !in seen {
          seen := seen + {normalized};
          deduped := deduped + [normalized];
        }
      }
    }

    method Extend(existing: seq<string>, candidates: seq<string>) returns (all: seq<string>)
      ensures all == Extended(existing, candidates)
    {
      var seen := CollectSeen(existing);
      var deduped := Dedupe(seen, candidates);
      all := existing + deduped;
    }

    method AppendKeys(text: string, batch: Batch) returns (ok: bool)
      modifies this
      ensures (View(), ok) == Step(json, old(View()), Append(text, batch))
    {
      if key == "" {
        Save(text, info);
        return true;
      }
      var existing := ExistingKeys(json, key);
      var candidates := Candidates(text, batch);
      if candidates.None? {
        return false;
      }
      var all := Extend(existing, candidates.value);
      Save(Join(all, '\n'), info);
      return true;
    }

    method ChangeStatus(usingKey: string, status: int, now: int, why: string)
      modifies this
      ensures View() == Step(json, old(View()), SetStatus(usingKey, status, now, why)).0
    {
      var keys := GetKeys(json, key);
      if keys == [] {
        return;
      }
      var i := IndexOf(keys, usingKey);
      if status == ENABLED {
        info := info.(status := info.status - {i});
      } else {
        info := info.(status := info.status[i := status], time := info.time[i := now], reason := info.reason[i := why]);
      }
    }

    /** ManageMultiKeys, the two edit modes and the relay's status change. */
    method Manage(a: Action) returns (ok: bool)
      modifies this
      ensures (View(), ok) == Step(json, old(View()), a)
    {
      ok := true;
      match a {
        case DisableKey(i) =>
          if i.None? || i.value < 0 || i.value >= info.size {
            return false;
          }
          Save(key, info.(status := info.status[i.value := MANUALLY_DISABLED]));
        case EnableKey(i) =>
          if i.None? || i.value < 0 || i.value >= info.size {
            return false;
          }
          Save(key, info.(status := info.status - {i.value}, time := info.time - {i.value}, reason := info.reason - {i.value}));
        case EnableAllKeys =>
          Save(key, info.(status := map[], time := map[], reason := map[]));
        case DisableAllKeys =>
          ok := DisableAll();
        case DeleteKey(i) =>
          ok := Delete(i);
        case DeleteDisabledKeys =>
          ok := DeleteDisabled();
        case SetStatus(usingKey, status, now, why) =>
          ChangeStatus(usingKey, status, now, why);
        case Append(text, batch) =>
          ok := AppendKeys(text, batch);
        case Replace(text) =>
          Save(text, info);
      }
    }
  }
}
