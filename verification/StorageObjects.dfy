/**
  The storage objects of common/body_storage.go, the counters of common/disk_cache_config.go
  and the request context of common/gin.go.
 */
module StorageObjects {
  import opened Prelude
  import opened BodyStorage

  // ---- counters ---------------------------------------------------------------------------------

  datatype Counters = Counters(diskFiles: int, diskBytes: int, memoryBuffers: int, memoryBytes: int)

  function NonNegative(n: int): int {
    if n < 0 then 0 else n
  }

  function Opened(c: Counters, disk: bool, size: int): Counters {
    if disk then c.(diskFiles := c.diskFiles + 1, diskBytes := c.diskBytes + size)
    else c.(memoryBuffers := c.memoryBuffers + 1, memoryBytes := c.memoryBytes + size)
  }

  /** Only the disk counters are clamped. */
  function Released(c: Counters, disk: bool, size: int): Counters {
    if disk then c.(diskFiles := NonNegative(c.diskFiles - 1), diskBytes := NonNegative(c.diskBytes - size))
    else c.(memoryBuffers := c.memoryBuffers - 1, memoryBytes := c.memoryBytes - size)
  }

  datatype Config = Config(enabled: bool, threshold: int, maxSize: int)

  predicate Available(cfg: Config, c: Counters, size: int) {
    cfg.enabled && c.diskBytes + size <= cfg.maxSize
  }

  predicate FitsDisk(cfg: Config, c: Counters, size: int) {
    cfg.enabled && size >= cfg.threshold && Available(cfg, c, size)
  }

  /** Releasing takes one storage and its size off, on disk down to zero and in memory without a limit; the rest stays. */
  lemma ReleasedCounts(c: Counters, disk: bool, size: int)
    ensures var r := Released(c, disk, size);
      && (disk ==> r == Counters(if c.diskFiles > 1 then c.diskFiles - 1 else 0,
                                 if c.diskBytes > size then c.diskBytes - size else 0, c.memoryBuffers, c.memoryBytes))
      && (!disk ==> r == Counters(c.diskFiles, c.diskBytes, c.memoryBuffers - 1, c.memoryBytes - size))
    ensures Opened(c, disk, size) ==
      if disk then Counters(c.diskFiles + 1, c.diskBytes + size, c.memoryBuffers, c.memoryBytes)
      else Counters(c.diskFiles, c.diskBytes, c.memoryBuffers + 1, c.memoryBytes + size)
  {
  }

  class Stats {
    var c: Counters

    constructor ()
      ensures c == Counters(0, 0, 0, 0)
    {
      c := Counters(0, 0, 0, 0);
    }

    method Increment(disk: bool, size: int)
      modifies this
      ensures c == Opened(old(c), disk, size)
    {
      if disk {
        c := c.(diskFiles := c.diskFiles + 1, diskBytes := c.diskBytes + size);
      } else {
        c := c.(memoryBuffers := c.memoryBuffers + 1, memoryBytes := c.memoryBytes + size);
      }
    }

    method Decrement(disk: bool, size: int)
      modifies this
      ensures c == Released(old(c), disk, size)
    {
      if disk {
        c := c.(diskFiles := c.diskFiles - 1);
        if c.diskFiles < 0 {
          c := c.(diskFiles := 0);
        }
        c := c.(diskBytes := c.diskBytes - size);
        if c.diskBytes < 0 {
          c := c.(diskBytes := 0);
        }
      } else {
        c := c.(memoryBuffers := c.memoryBuffers - 1, memoryBytes := c.memoryBytes - size);
      }
    }
  }

  // ---- storages ---------------------------------------------------------------------------------

  class MemoryStorage {
    const data: Bytes
    const stats: Stats
    var pos: nat
    var closed: bool

    ghost function View(): Stream
      reads this
    {
      Stream(data, pos, closed)
    }

    constructor (stats: Stats, data: Bytes)
      modifies stats
      ensures this.stats == stats && View() == Stream(data, 0, false)
      ensures stats.c == Opened(old(stats.c), false, |data|)
    {
      this.stats, this.data := stats, data;
      pos, closed := 0, false;
      new;
      stats.Increment(false, |data|);
    }

    method Read(n: nat) returns (r: Reply)
      modifies this
      ensures (View(), r) == Apply(old(View()), Op.Read(n), false)
    {
      if closed {
        return ErrClosed;
      }
      if pos >= |data| {
        return Eof;
      }
      var end := if pos + n > |data| then |data| else pos + n;
      assert n == 0 ==> data[pos..end] == [];
      r := Data(data[pos..end]);
      pos := end;
    }

    method Seek(offset: int, whence: Whence) returns (r: Reply)
      modifies this
      ensures (View(), r) == Apply(old(View()), Op.Seek(offset, whence), false)
    {
      if closed {
        return ErrClosed;
      }
      var target := match whence
        case SeekStart => offset
        case SeekCurrent => pos + offset
        case SeekEnd => |data| + offset;
      if target < 0 {
        return ErrSeek;
      }
      pos := target;
      return Position(target);
    }

    method Bytes() returns (r: Reply)
      ensures (View(), r) == Apply(View(), GetBytes, false)
    {
      return if closed then ErrClosed else Whole(data);
    }

    method Close()
      modifies this, stats
      ensures View() == Apply(old(View()), Op.Close, false).0
      ensures stats.c == if old(closed) then old(stats.c) else Released(old(stats.c), false, |data|)
    {
      if !closed {
        closed := true;
        stats.Decrement(false, |data|);
      }
    }
  }

  /** An open file: contents and a position. */
  class File {
    const contents: Bytes
    var pos: nat

    ghost function View(): Stream
      reads this
    {
      Stream(contents, pos, false)
    }

    constructor (contents: Bytes)
      ensures View() == Stream(contents, 0, false)
    {
      this.contents, this.pos := contents, 0;
    }

    method Read(n: nat) returns (r: Reply)
      modifies this
      ensures (View(), r) == ReadFile(old(View()), n)
    {
      if n == 0 {
        return Data([]);
      }
      if pos >= |contents| {
        return Eof;
      }
      var end := if pos + n > |contents| then |contents| else pos + n;
      r := Data(contents[pos..end]);
      pos := end;
    }

    method Seek(offset: int, whence: Whence) returns (r: Reply)
      modifies this
      ensures (View(), r) == SeekTo(old(View()), offset, whence)
    {
      var target := match whence
        case SeekStart => offset
        case SeekCurrent => pos + offset
        case SeekEnd => |contents| + offset;
      if target < 0 {
        return ErrSeek;
      }
      pos := target;
      return Position(target);
    }
  }

  class DiskStorage {
    const file: File
    const stats: Stats
    var closed: bool

    ghost function View(): Stream
      reads this, file
    {
      Stream(file.contents, file.pos, closed)
    }

    constructor (stats: Stats, file: File)
      requires file.pos == 0
      modifies stats
      ensures this.stats == stats && this.file == file && View() == Stream(file.contents, 0, false)
      ensures stats.c == Opened(old(stats.c), true, |file.contents|)
    {
      this.stats, this.file := stats, file;
      closed := false;
      new;
      stats.Increment(true, |file.contents|);
    }

    method Read(n: nat) returns (r: Reply)
      modifies file
      ensures (View(), r) == Apply(old(View()), Op.Read(n), true)
    {
      if closed {
        return ErrClosed;
      }
      r := file.Read(n);
    }

    method Seek(offset: int, whence: Whence) returns (r: Reply)
      modifies file
      ensures (View(), r) == Apply(old(View()), Op.Seek(offset, whence), true)
    {
      if closed {
        return ErrClosed;
      }
      r := file.Seek(offset, whence);
    }

    /** Rewinds, reads everything and goes back to where it was. */
    method Bytes() returns (r: Reply)
      modifies file
      ensures (View(), r) == Apply(old(View()), GetBytes, true)
    {
      if closed {
        return ErrClosed;
      }
      var current := file.Seek(0, SeekCurrent);
      var rewound := file.Seek(0, SeekStart);
      var all := file.Read(|file.contents|);
      assert all.bytes == file.contents;
      var back := file.Seek(current.pos, SeekStart);
      return Whole(all.bytes);
    }

    method Close()
      modifies this, stats
      ensures View() == Apply(old(View()), Op.Close, true).0
      ensures stats.c == if old(closed) then old(stats.c) else Released(old(stats.c), true, |file.contents|)
    {
      if !closed {
        closed := true;
        stats.Decrement(true, |file.contents|);
      }
    }
  }

  /** The BodyStorage interface. */
  datatype Storage = Memory(memory: MemoryStorage) | Disk(disk: DiskStorage) {
    ghost function Objects(): set<object> {
      if Memory? then {memory} else {disk, disk.file}
    }

    ghost function View(): Stream
      reads Objects()
    {
      if Memory? then memory.View() else disk.View()
    }

    function Content(): Bytes {
      if Memory? then memory.data else disk.file.contents
    }

    function Counter(): Stats {
      if Memory? then memory.stats else disk.stats
    }
  }

  method SeekStorage(st: Storage, offset: int, whence: Whence) returns (r: Reply)
    modifies st.Objects()
    ensures (st.View(), r) == Apply(old(st.View()), Op.Seek(offset, whence), st.Disk?)
  {
    match st {
      case Memory(m) => r := m.Seek(offset, whence);
      case Disk(d) => r := d.Seek(offset, whence);
    }
  }

  method ReadStorage(st: Storage, n: nat) returns (r: Reply)
    modifies st.Objects()
    ensures (st.View(), r) == Apply(old(st.View()), Op.Read(n), st.Disk?)
  {
    match st {
      case Memory(m) => r := m.Read(n);
      case Disk(d) => r := d.Read(n);
    }
  }

  method CloseStorage(st: Storage)
    modifies st.Objects(), st.Counter()
    ensures st.View() == Apply(old(st.View()), Op.Close, st.Disk?).0
    ensures st.Counter().c ==
      if old(st.View()).closed then old(st.Counter().c) else Released(old(st.Counter().c), st.Disk?, |st.Content()|)
  {
    match st {
      case Memory(m) => m.Close();
      case Disk(d) => d.Close();
    }
  }

  // ---- creation ---------------------------------------------------------------------------------

  /** `diskOk`: no disk failure. A failure falls back to memory. */
  method CreateBodyStorage(stats: Stats, cfg: Config, data: Bytes, diskOk: bool) returns (st: Storage)
    modifies stats
    ensures fresh(st.Objects()) && st.Counter() == stats
    ensures st.View() == Stream(data, 0, false)
    ensures st.Disk? == (diskOk && FitsDisk(cfg, old(stats.c), |data|))
    ensures stats.c == Opened(old(stats.c), st.Disk?, |data|)
  {
    if cfg.enabled && |data| >= cfg.threshold && cfg.enabled && stats.c.diskBytes + |data| <= cfg.maxSize && diskOk {
      var file := new File(data);
      var d := new DiskStorage(stats, file);
      return Disk(d);
    }
    var m := new MemoryStorage(stats, data);
    return Memory(m);
  }

  datatype Outcome = Created(storage: Storage) | TooLarge | DiskFailed

  /** What a reader limited to `limit` bytes delivers. */
  function Limited(body: Bytes, limit: int): Bytes {
    if limit <= 0 then [] else if limit < |body| then body[..limit] else body
  }

  /** Whether the declared length sends the body straight to disk. */
  predicate StreamsToDisk(cfg: Config, c: Counters, contentLength: int) {
    contentLength > 0 && FitsDisk(cfg, c, contentLength)
  }

  /** Where a body of `len` bytes ends up: on disk, in memory, or nowhere. */
  function Placement(cfg: Config, c: Counters, len: nat, contentLength: int, maxBytes: int, diskOk: bool): Option<bool> {
    if StreamsToDisk(cfg, c, contentLength) then if diskOk && len <= maxBytes then Some(true) else None
    else if len <= maxBytes then Some(diskOk && FitsDisk(cfg, c, len))
    else None
  }

  predicate Roomy(cfg: Config, c: Counters, size: int) {
    cfg.enabled && cfg.threshold <= size <= cfg.maxSize - c.diskBytes
  }

  /** A body within the limit goes to disk if that works and the declared or the real length has room; else to memory. */
  lemma PlacedExactlyWhen(cfg: Config, c: Counters, len: nat, contentLength: int, maxBytes: int, diskOk: bool)
    ensures var where := Placement(cfg, c, len, contentLength, maxBytes, diskOk);
      var declared := contentLength >= 1 && Roomy(cfg, c, contentLength);
      && (where == Some(true) <==> len <= maxBytes && diskOk && (declared || Roomy(cfg, c, len)))
      && (where == None <==> len > maxBytes || (declared && !diskOk))
  {
  }

  /** The body is read up to one byte past the limit; on the streaming path a disk failure has no fallback. */
  method CreateBodyStorageFromReader(stats: Stats, cfg: Config, body: Bytes, contentLength: int, maxBytes: int, diskOk: bool)
    returns (r: Outcome)
    modifies stats
    ensures diskOk ==> (r.TooLarge? <==> |body| > maxBytes)
    ensures r.TooLarge? ==> |body| > maxBytes
    ensures r.DiskFailed? <==> !diskOk && StreamsToDisk(cfg, old(stats.c), contentLength)
    ensures Placement(cfg, old(stats.c), |body|, contentLength, maxBytes, diskOk)
         == if r.Created? then Some(r.storage.Disk?) else None
    ensures r.Created? ==>
      && fresh(r.storage.Objects()) && r.storage.Counter() == stats
      && r.storage.View() == Stream(body, 0, false)
      && stats.c == Opened(old(stats.c), r.storage.Disk?, |body|)
    ensures !r.Created? ==> stats.c == old(stats.c)
  {
    if cfg.enabled && contentLength > 0 && contentLength >= cfg.threshold && stats.c.diskBytes + contentLength <= cfg.maxSize {
      if !diskOk {
        return DiskFailed;
      }
      var written := Limited(body, maxBytes + 1);
      if |written| > maxBytes {
        return TooLarge;
      }
      var file := new File(written);
      var d := new DiskStorage(stats, file);
      return Created(Disk(d));
    }
    var data := Limited(body, maxBytes + 1);
    if |data| > maxBytes {
      return TooLarge;
    }
    var st := CreateBodyStorage(stats, cfg, data, diskOk);
    return Created(st);
  }

  // ---- the request context --------------------------------------------------------------------

  datatype Got = Body(storage: Storage) | BodyTooLarge | BodyDiskFailed | BodySeekFailed | BodyConsumed

  /** Keeps the storage in a slot; the network body can be read once. */
  class RequestContext {
    const stats: Stats
    const body: Bytes
    const contentLength: int
    const legacy: Option<Bytes>       // KeyRequestBody
    var slot: Option<Storage>         // KeyBodyStorage
    var consumed: bool

    function Original(): Bytes {
      if legacy.Some? then legacy.value else body
    }

    ghost function Objects(): set<object>
      reads this
    {
      if slot.Some? then slot.value.Objects() else {}
    }

    /** The slot holds the original body, whoever has read from it. */
    ghost predicate Valid()
      reads this
    {
      && (slot.Some? ==> slot.value.Content() == Original() && slot.value.Counter() == stats)
      && (slot.Some? ==> this !in slot.value.Objects() && stats !in slot.value.Objects())
      && (slot.Some? && legacy.None? ==> consumed)
    }

    constructor (stats: Stats, body: Bytes, contentLength: int, legacy: Option<Bytes>)
      ensures Valid() && slot.None? && !consumed
      ensures this.stats == stats && this.body == body && this.contentLength == contentLength && this.legacy == legacy
    {
      this.stats, this.body, this.contentLength, this.legacy := stats, body, contentLength, legacy;
      slot, consumed := None, false;
    }

    /** GetRequestBody: rewind the cached storage, else build it from the cached bytes or the network body. */
    method GetBodyStorage(cfg: Config, maxMB: int, diskOk: bool) returns (r: Got)
      requires Valid()
      modifies this, stats, Objects()
      ensures Valid()
      ensures r.Body? ==> slot == Some(r.storage)
      ensures r.Body? ==> r.storage.View() == Stream(if legacy.Some? then legacy.value else body, 0, false)
      ensures old(slot).Some? ==> slot == old(slot) && consumed == old(consumed) && stats.c == old(stats.c)
      ensures old(slot).Some? && !old(slot.value.View()).closed ==> r.Body?
      ensures old(slot).Some? && old(slot.value.View()).closed ==> r.BodySeekFailed?
      ensures old(slot).None? && legacy.Some? ==> r.Body? && fresh(r.storage.Objects())
      ensures old(slot).None? && legacy.None? && old(consumed) ==> r.BodyConsumed? && slot.None?
      ensures old(slot).None? && legacy.None? && !old(consumed) && diskOk ==>
        if |body| > (if maxMB >= 1 then maxMB * 1048576 else 134217728)
        then r.BodyTooLarge? && slot.None? else r.Body? && fresh(r.storage.Objects())
    {
      if slot.Some? {
        var sought := SeekStorage(slot.value, 0, SeekStart);
        if !sought.Position? {
          return BodySeekFailed;
        }
        return Body(slot.value);
      }
      if legacy.Some? {
        var st := CreateBodyStorage(stats, cfg, legacy.value, diskOk);
        slot := Some(st);
        return Body(st);
      }
      if consumed {
        return BodyConsumed;
      }
      var made := CreateBodyStorageFromReader(stats, cfg, body, contentLength, LimitBytes(maxMB), diskOk);
      consumed := true;
      match made {
        case TooLarge => return BodyTooLarge;
        case DiskFailed => return BodyDiskFailed;
        case Created(st) =>
          slot := Some(st);
          return Body(st);
      }
    }

    /** CleanupBodyStorage. */
    method Cleanup()
      requires Valid()
      modifies this, stats, Objects()
      ensures Valid() && slot.None?
      ensures old(slot).Some? ==> old(slot).value.View().closed
      ensures stats.c == if old(slot).Some? && !old(slot.value.View()).closed
        then Released(old(stats.c), old(slot).value.Disk?, |Original()|) else old(stats.c)
    {
      if slot.Some? {
        CloseStorage(slot.value);
        slot := None;
      }
    }
  }

  function LimitBytes(maxMB: int): int {
    (if maxMB <= 0 then 128 else maxMB) * 0x10_0000
  }

  /** As much of the body as the limit allows, from its start. */
  lemma LimitedIsPrefix(body: Bytes, limit: int)
    ensures Limited(body, limit) <= body
    ensures |Limited(body, limit)| == (if limit <= 0 then 0 else if limit >= |body| then |body| else limit)
  {
  }

  /** Reads of the given sizes, as an upstream attempt consumes the body. */
  method Consume(st: Storage, sizes: seq<nat>) returns (got: Bytes)
    modifies st.Objects()
    ensures (st.View(), got) == ReadAll(old(st.View()), sizes, st.Disk?)
    decreases |sizes|
  {
    if sizes == [] {
      return [];
    }
    var r := ReadStorage(st, sizes[0]);
    var more := Consume(st, sizes[1..]);
    got := (if r.Data? then r.bytes else []) + more;
  }

  /** One attempt: fetch the storage, read from it. */
  method AttemptOnce(ctx: RequestContext, cfg: Config, maxMB: int, sizes: seq<nat>) returns (got: Bytes)
    requires ctx.Valid() && ctx.slot.Some? && !ctx.slot.value.View().closed
    modifies ctx, ctx.stats, ctx.Objects()
    ensures ctx.Valid() && ctx.slot == old(ctx.slot) && !ctx.slot.value.View().closed
    ensures got == Limited(ctx.Original(), Sum(sizes))
  {
    var r := ctx.GetBodyStorage(cfg, maxMB, true);
    got := Consume(r.storage, sizes);
    ReadsConcatenate(Stream(ctx.Original(), 0, false), sizes, r.storage.Disk?);
  }

  /**
    The retry loop's use of the body: every attempt that fetches the storage and reads from it
    gets the original body from its first byte, whatever the earlier attempts have read.
   */
  method Attempts(ctx: RequestContext, cfg: Config, maxMB: int, sizes: seq<seq<nat>>) returns (got: seq<Bytes>)
    requires ctx.Valid() && ctx.slot.Some? && !ctx.slot.value.View().closed
    modifies ctx, ctx.stats, ctx.Objects()
    ensures |got| == |sizes|
    ensures forall i :: 0 <= i < |sizes| ==> got[i] == Limited(ctx.Original(), Sum(sizes[i]))
  {
    got := [];
    for i := 0 to |sizes|
      invariant ctx.Valid() && ctx.slot == old(ctx.slot) && !ctx.slot.value.View().closed
      invariant |got| == i
      invariant forall j :: 0 <= j < i ==> got[j] == Limited(ctx.Original(), Sum(sizes[j]))
    {
      var received := AttemptOnce(ctx, cfg, maxMB, sizes[i]);
      got := got + [received];
    }
  }
}
