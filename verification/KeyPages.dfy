/** get_key_status of ManageMultiKeys (controller/channel.go): status list, filter and pages. */
module KeyPages {
  import opened Prelude
  import opened MultiKey

  datatype KeyStatus = KeyStatus(index: nat, status: int, disabledTime: int, reason: string, preview: string)

  function Preview(key: string): string {
    if |key| > 10 then key[..10] + "..." else key
  }

  function StatusOf(keys: seq<string>, info: Info, i: nat): KeyStatus
    requires i < |keys|
  {
    var status := Status(info, i);
    KeyStatus(i, status,
              if status != ENABLED && i in info.time then info.time[i] else 0,
              if status != ENABLED && i in info.reason then info.reason[i] else "",
              Preview(keys[i]))
  }

  predicate Matches(filter: Option<int>, s: KeyStatus) {
    filter.None? || s.status == filter.value
  }

  /** The filtered list over the first n keys. */
  function Filtered(keys: seq<string>, info: Info, filter: Option<int>, n: nat): seq<KeyStatus>
    requires n <= |keys|
  {
    if n == 0 then []
    else
      var rest, s := Filtered(keys, info, filter, n - 1), StatusOf(keys, info, n - 1);
      if Matches(filter, s) then rest + [s] else rest
  }

  /** How many of the first n keys have the status. */
  function Count(info: Info, status: int, n: nat): nat {
    if n == 0 then 0 else Count(info, status, n - 1) + if Status(info, n - 1) == status then 1 else 0
  }

  // ---- pages ----------------------------------------------------------------------------------

  function TotalPages(total: nat, pageSize: int): int
    requires pageSize > 0
  {
    var pages := (total + pageSize - 1) / pageSize;
    if pages == 0 then 1 else pages
  }

  /** The page that is shown for a request. */
  function Clamp(total: nat, page: int, pageSize: int): int
    requires pageSize > 0
  {
    var asked := if page <= 0 then 1 else page;
    if asked > TotalPages(total, pageSize) then TotalPages(total, pageSize) else asked
  }

  lemma PageFacts(total: nat, pageSize: int)
    requires pageSize > 0
    ensures var pages := TotalPages(total, pageSize);
      && pages >= 1
      && (pages - 1) * pageSize <= total <= pages * pageSize
      && (total > 0 ==> (pages - 1) * pageSize < total)
  {
    var q := (total + pageSize - 1) / pageSize;
    assert q * pageSize <= total + pageSize - 1 < (q + 1) * pageSize;
    assert (q + 1) * pageSize == q * pageSize + pageSize;
    assert (q - 1) * pageSize == q * pageSize - pageSize;
    if q == 0 {
      assert total == 0;
    }
  }

  function Page(list: seq<KeyStatus>, page: int, pageSize: int): seq<KeyStatus>
    requires page >= 1 && pageSize > 0
  {
    var start := (page - 1) * pageSize;
    var end := if start + pageSize > |list| then |list| else start + pageSize;
    if 0 <= start < |list| then list[start..end] else []
  }

  /** Pages 1 to `page`, one after the other. */
  function Pages(list: seq<KeyStatus>, page: nat, pageSize: int): seq<KeyStatus>
    requires pageSize > 0
  {
    if page == 0 then [] else Pages(list, page - 1, pageSize) + Page(list, page, pageSize)
  }

  lemma {:induction false} PagesArePrefix(list: seq<KeyStatus>, page: nat, pageSize: int)
    requires pageSize > 0
    ensures page * pageSize >= 0
    ensures Pages(list, page, pageSize) == list[..if page * pageSize > |list| then |list| else page * pageSize]
  {
    if page > 0 {
      PagesArePrefix(list, page - 1, pageSize);
      assert page * pageSize == (page - 1) * pageSize + pageSize;
    }
  }

  /** The pages of a status query concatenate to exactly the filtered list. */
  lemma PagesConcatenate(list: seq<KeyStatus>, pageSize: int)
    requires pageSize > 0
    ensures TotalPages(|list|, pageSize) >= 1
    ensures Pages(list, TotalPages(|list|, pageSize), pageSize) == list
  {
    PageFacts(|list|, pageSize);
    PagesArePrefix(list, TotalPages(|list|, pageSize), pageSize);
    var pages := TotalPages(|list|, pageSize);
    assert pages * pageSize >= |list|;
    assert list[..|list|] == list;
  }

  /** A page off the list is the nearest one; none is empty unless the list is, and none is longer than the page size. */
  lemma PageIsFull(list: seq<KeyStatus>, page: int, pageSize: int)
    requires pageSize > 0
    ensures var shown := Clamp(|list|, page, pageSize);
      && 1 <= shown <= TotalPages(|list|, pageSize)
      && |Page(list, shown, pageSize)| <= pageSize
      && (list != [] ==> Page(list, shown, pageSize) != [])
      && (1 <= page <= TotalPages(|list|, pageSize) ==> shown == page)
      && (page < 1 ==> shown == 1) && (page > TotalPages(|list|, pageSize) ==> shown == TotalPages(|list|, pageSize))
  {
    PageFacts(|list|, pageSize);
    var shown, pages := Clamp(|list|, page, pageSize), TotalPages(|list|, pageSize);
    Scaled(shown - 1, pages - 1, pageSize);
  }

  lemma Scaled(a: int, b: int, n: int)
    requires 0 <= a <= b && n > 0
    ensures 0 <= a * n <= b * n
  {
  }

  /** What the list says about a key: status 1 by default, time and reason only if disabled, at most ten characters of it. */
  lemma ShowsKey(keys: seq<string>, info: Info, i: nat)
    requires i < |keys|
    ensures var s, key := StatusOf(keys, info, i), keys[i];
      && s.index == i
      && s.status == (if i in info.status then info.status[i] else 1)
      && (s.status == 1 ==> s.disabledTime == 0 && s.reason == "")
      && (s.status != 1 && i in info.time ==> s.disabledTime == info.time[i])
      && (s.status != 1 && i in info.reason ==> s.reason == info.reason[i])
      && (i !in info.time ==> s.disabledTime == 0) && (i !in info.reason ==> s.reason == "")
      && (|key| <= 10 ==> s.preview == key) && (|key| > 10 ==> s.preview == key[..10] + "...")
  {
  }

  // ---- the filter is exact ------------------------------------------------------------------

  /** The filtered list holds exactly the matching keys, in index order. */
  lemma {:induction false} FilterIsExact(keys: seq<string>, info: Info, filter: Option<int>, n: nat, i: nat)
    requires i < n <= |keys|
    ensures StatusOf(keys, info, i) in Filtered(keys, info, filter, n) <==> Matches(filter, StatusOf(keys, info, i))
    ensures forall s :: s in Filtered(keys, info, filter, n) ==> s.index < n && s == StatusOf(keys, info, s.index)
  {
    if n > 1 {
      if i < n - 1 {
        FilterIsExact(keys, info, filter, n - 1, i);
      } else {
        FilterIsExact(keys, info, filter, n - 1, 0);
      }
    }
  }

  lemma {:induction false} FilterKeepsOrder(keys: seq<string>, info: Info, filter: Option<int>, n: nat)
    requires n <= |keys|
    ensures forall j :: 0 <= j < |Filtered(keys, info, filter, n)| ==> Filtered(keys, info, filter, n)[j].index < n
    ensures forall j, k :: 0 <= j < k < |Filtered(keys, info, filter, n)| ==>
      Filtered(keys, info, filter, n)[j].index < Filtered(keys, info, filter, n)[k].index
  {
    if n > 0 {
      FilterKeepsOrder(keys, info, filter, n - 1);
    }
  }

  lemma {:induction false} FilterCounts(keys: seq<string>, info: Info, status: int, n: nat)
    requires n <= |keys|
    ensures |Filtered(keys, info, Some(status), n)| == Count(info, status, n)
    ensures |Filtered(keys, info, None, n)| == n
  {
    if n > 0 {
      FilterCounts(keys, info, status, n - 1);
    }
  }

  // ---- the imperative form ----------------------------------------------------------------------

  datatype Answer = Answer(keys: seq<KeyStatus>, total: nat, page: int, pageSize: int, totalPages: int,
                           enabled: nat, manuallyDisabled: nat, autoDisabled: nat)

  /** The first loop: every key's status, and the three counters. */
  method CollectStatus(keys: seq<string>, info: Info) returns (all: seq<KeyStatus>, enabled: nat, manual: nat, auto: nat)
    ensures all == Filtered(keys, info, None, |keys|)
    ensures enabled == Count(info, ENABLED, |keys|)
    ensures manual == Count(info, MANUALLY_DISABLED, |keys|)
    ensures auto == Count(info, AUTO_DISABLED, |keys|)
  {
    all, enabled, manual, auto := [], 0, 0, 0;
    for i := 0 to |keys|
      invariant all == Filtered(keys, info, None, i)
      invariant enabled == Count(info, ENABLED, i)
      invariant manual == Count(info, MANUALLY_DISABLED, i)
      invariant auto == Count(info, AUTO_DISABLED, i)
    {
      var status := if i in info.status then info.status[i] else ENABLED;
      if status == ENABLED {
        enabled := enabled + 1;
      } else if status == MANUALLY_DISABLED {
        manual := manual + 1;
      } else if status == AUTO_DISABLED {
        auto := auto + 1;
      }
      var time, reason := 0, "";
      if status != ENABLED {
        time := if i in info.time then info.time[i] else 0;
        reason := if i in info.reason then info.reason[i] else "";
      }
      all := all + [KeyStatus(i, status, time, reason, Preview(keys[i]))];
    }
  }

  lemma {:induction false} AllAt(keys: seq<string>, info: Info, n: nat)
    requires n <= |keys|
    ensures |Filtered(keys, info, None, n)| == n
    ensures forall i :: 0 <= i < n ==> Filtered(keys, info, None, n)[i] == StatusOf(keys, info, i)
  {
    if n > 0 {
      AllAt(keys, info, n - 1);
    }
  }

  method FilterStatus(all: seq<KeyStatus>, filter: Option<int>, ghost keys: seq<string>, ghost info: Info)
    returns (list: seq<KeyStatus>)
    requires all == Filtered(keys, info, None, |keys|)
    ensures list == Filtered(keys, info, filter, |keys|)
  {
    if filter.None? {
      return all;
    }
    AllAt(keys, info, |keys|);
    list := [];
    for i := 0 to |all|
      invariant list == Filtered(keys, info, filter, i)
    {
      if all[i].status == filter.value {
        list := list + [all[i]];
      }
    }
  }

  method Paginate(list: seq<KeyStatus>, page: int, size: int) returns (slice: seq<KeyStatus>, shown: int, totalPages: int)
    requires size > 0
    ensures totalPages == TotalPages(|list|, size) && shown == Clamp(|list|, page, size) && shown >= 1
    ensures slice == Page(list, shown, size)
  {
    shown := if page <= 0 then 1 else page;
    totalPages := (|list| + size - 1) / size;
    if totalPages == 0 {
      totalPages := 1;
    }
    PageFacts(|list|, size);
    if shown > totalPages {
      shown := totalPages;
    }
    var start := (shown - 1) * size;
    var end := start + size;
    if end > |list| {
      end := |list|;
    }
    Scaled(0, shown - 1, size);
    slice := if start < |list| then list[start..end] else [];
  }

  method GetKeyStatus(keys: seq<string>, info: Info, filter: Option<int>, page: int, pageSize: int) returns (r: Answer)
    ensures r.pageSize == if pageSize <= 0 then 50 else pageSize
    ensures r.total == |Filtered(keys, info, filter, |keys|)|
    ensures r.totalPages == TotalPages(r.total, r.pageSize) && r.page == Clamp(r.total, page, r.pageSize)
    ensures r.page >= 1 && r.keys == Page(Filtered(keys, info, filter, |keys|), r.page, r.pageSize)
    ensures r.enabled == Count(info, ENABLED, |keys|) && r.manuallyDisabled == Count(info, MANUALLY_DISABLED, |keys|)
    ensures r.autoDisabled == Count(info, AUTO_DISABLED, |keys|)
  {
    var size := if pageSize <= 0 then 50 else pageSize;
    var all, enabled, manual, auto := CollectStatus(keys, info);
    var list := FilterStatus(all, filter, keys, info);
    var slice, shown, totalPages := Paginate(list, page, size);
    r := Answer(slice, |list|, shown, size, totalPages, enabled, manual, auto);
  }
}
