/**
  Request-body storage of common/body_storage.go: a memory and a disk backend behind one
  interface, and the global counters of common/disk_cache_config.go. Disk failures are
  parameters; a read from an open file is a full read.
 */
module BodyStorage {

  type Bytes = seq<bv8>

  // ---- streams -------------------------------------------------------------------------------

  datatype Whence = SeekStart | SeekCurrent | SeekEnd

  datatype Op = Read(n: nat) | Seek(offset: int, whence: Whence) | GetBytes | Close | Size

  datatype Reply = Data(bytes: Bytes) | Eof | Position(pos: nat) | Whole(all: Bytes) | Length(n: nat) | Done | ErrClosed | ErrSeek

  datatype Stream = Stream(data: Bytes, pos: nat, closed: bool)

  function Rest(s: Stream): nat {
    if s.pos >= |s.data| then 0 else |s.data| - s.pos
  }

  function Target(s: Stream, offset: int, whence: Whence): int {
    match whence
    case SeekStart => offset
    case SeekCurrent => s.pos + offset
    case SeekEnd => |s.data| + offset
  }

  function ReadData(s: Stream, n: nat): (Stream, Reply) {
    var m := if n < Rest(s) then n else Rest(s);
    if m == 0 then (s, Data([])) else (s.(pos := s.pos + m), Data(s.data[s.pos..s.pos + m]))
  }

  /** bytes.Reader: at the end every read answers EOF. */
  function ReadMemory(s: Stream, n: nat): (Stream, Reply) {
    if Rest(s) == 0 then (s, Eof) else ReadData(s, n)
  }

  /** os.File: an empty read answers no bytes, even at the end. */
  function ReadFile(s: Stream, n: nat): (Stream, Reply) {
    if n > 0 && Rest(s) == 0 then (s, Eof) else ReadData(s, n)
  }

  function SeekTo(s: Stream, offset: int, whence: Whence): (Stream, Reply) {
    var target := Target(s, offset, whence);
    if target < 0 then (s, ErrSeek) else (s.(pos := target), Position(target))
  }

  /** One operation on a storage. */
  function Apply(s: Stream, op: Op, disk: bool): (Stream, Reply) {
    match op
    case Close => (s.(closed := true), Done)
    case Size => (s, Length(|s.data|))
    case Read(n) => if s.closed then (s, ErrClosed) else if disk then ReadFile(s, n) else ReadMemory(s, n)
    case Seek(offset, whence) => if s.closed then (s, ErrClosed) else SeekTo(s, offset, whence)
    case GetBytes => if s.closed then (s, ErrClosed) else (s, Whole(s.data))
  }

  /** On an open storage: EOF exactly at the end, on disk only for a read that asks for something; else the next bytes. */
  lemma ReadAnswers(s: Stream, n: nat, disk: bool)
    requires !s.closed
    ensures var (t, r) := Apply(s, Read(n), disk);
      && (r == Eof <==> s.pos >= |s.data| && (n > 0 || !disk))
      && (s.pos >= |s.data| && r != Eof ==> r == Data([]))
      && (s.pos < |s.data| ==>
            var last := if n < |s.data| - s.pos then s.pos + n else |s.data|;
            r == Data(s.data[s.pos..last]) && t == s.(pos := last))
      && (s.pos >= |s.data| ==> t == s)
  {
  }

  /** A seek goes where it says, from the start, the position or the end, and reports it; before the start it fails. */
  lemma SeekLands(s: Stream, offset: int, whence: Whence, disk: bool)
    requires !s.closed
    ensures var base := if whence == SeekStart then 0 else if whence == SeekCurrent then s.pos else |s.data|;
      Apply(s, Seek(offset, whence), disk) ==
      if base + offset >= 0 then (s.(pos := base + offset), Position(base + offset)) else (s, ErrSeek)
  {
  }

  /** A closed storage refuses everything but to tell its size and to be closed again; an open one gives all its bytes. */
  lemma ClosedRefuses(s: Stream, op: Op, disk: bool)
    ensures s.closed && (op.Read? || op.Seek? || op.GetBytes?) ==> Apply(s, op, disk) == (s, ErrClosed)
    ensures op.Size? ==> Apply(s, op, disk) == (s, Length(|s.data|))
    ensures op.Close? ==> Apply(s, op, disk) == (s.(closed := true), Done)
    ensures op.GetBytes? && !s.closed ==> Apply(s, op, disk) == (s, Whole(s.data))
  {
  }

  function Replies(s: Stream, ops: seq<Op>, disk: bool): seq<Reply>
    decreases |ops|
  {
    if ops == [] then []
    else [Apply(s, ops[0], disk).1] + Replies(Apply(s, ops[0], disk).0, ops[1..], disk)
  }

  /** An empty read on an open storage whose position is at or past the end. */
  predicate Telltale(s: Stream, op: Op) {
    op == Read(0) && !s.closed && Rest(s) == 0
  }

  predicate Discreet(s: Stream, ops: seq<Op>)
    decreases |ops|
  {
    ops != [] ==> !Telltale(s, ops[0]) && Discreet(Apply(s, ops[0], false).0, ops[1..])
  }

  lemma SameStep(s: Stream, op: Op)
    ensures Apply(s, op, true).0 == Apply(s, op, false).0
    ensures Apply(s, op, true).1 == Apply(s, op, false).1 <==> !Telltale(s, op)
  {
  }

  /** The backend is unobservable exactly when no empty read happens at the end. */
  lemma {:induction false} BackendHiddenExactlyWhen(s: Stream, ops: seq<Op>)
    ensures Replies(s, ops, true) == Replies(s, ops, false) <==> Discreet(s, ops)
    decreases |ops|
  {
    if ops != [] {
      var a, b := Replies(s, ops, true), Replies(s, ops, false);
      SameStep(s, ops[0]);
      BackendHiddenExactlyWhen(Apply(s, ops[0], false).0, ops[1..]);
      assert a[0] == Apply(s, ops[0], true).1 && b[0] == Apply(s, ops[0], false).1;
      assert a[1..] == Replies(Apply(s, ops[0], true).0, ops[1..], true);
      assert b[1..] == Replies(Apply(s, ops[0], false).0, ops[1..], false);
      assert a == b <==> a[0] == b[0] && a[1..] == b[1..];
    }
  }

  function After(s: Stream, ops: seq<Op>, disk: bool): Stream
    decreases |ops|
  {
    if ops == [] then s else After(Apply(s, ops[0], disk).0, ops[1..], disk)
  }

  /** Whatever is done to a storage, its data stay; only Close closes it, and for good. */
  lemma {:induction false} DataStays(s: Stream, ops: seq<Op>, disk: bool)
    ensures After(s, ops, disk).data == s.data
    ensures After(s, ops, disk).closed <==> s.closed || Close in ops
    decreases |ops|
  {
    if ops != [] {
      DataStays(Apply(s, ops[0], disk).0, ops[1..], disk);
    }
  }

  function ReadAll(s: Stream, sizes: seq<nat>, disk: bool): (Stream, Bytes)
    decreases |sizes|
  {
    if sizes == [] then (s, [])
    else
      var (t, r) := Apply(s, Read(sizes[0]), disk);
      var (u, more) := ReadAll(t, sizes[1..], disk);
      (u, Received(r) + more)
  }

  function Received(r: Reply): Bytes {
    if r.Data? then r.bytes else []
  }

  lemma ReadOne(s: Stream, n: nat, disk: bool)
    requires !s.closed && s.pos <= |s.data|
    ensures var (t, r) := Apply(s, Read(n), disk);
      && t == s.(pos := t.pos)
      && t.pos == (if n < Rest(s) then s.pos + n else |s.data|)
      && Received(r) == s.data[s.pos..t.pos]
  {
  }

  lemma Slices(data: Bytes, a: nat, b: nat, c: nat)
    requires a <= b <= c <= |data|
    ensures data[a..b] + data[b..c] == data[a..c]
  {
  }

  function Sum(sizes: seq<nat>): nat {
    if sizes == [] then 0 else sizes[0] + Sum(sizes[1..])
  }

  /** Reads of any sizes yield the data from the position on, in order, without gap or repetition. */
  lemma {:induction false} ReadsConcatenate(s: Stream, sizes: seq<nat>, disk: bool)
    requires !s.closed && s.pos <= |s.data|
    ensures var (t, got) := ReadAll(s, sizes, disk);
      && t == s.(pos := t.pos)
      && t.pos == (if Sum(sizes) < Rest(s) then s.pos + Sum(sizes) else |s.data|)
      && got == s.data[s.pos..t.pos]
    decreases |sizes|
  {
    if sizes != [] {
      var t := Apply(s, Read(sizes[0]), disk).0;
      ReadOne(s, sizes[0], disk);
      ReadsConcatenate(t, sizes[1..], disk);
      Slices(s.data, s.pos, t.pos, ReadAll(t, sizes[1..], disk).0.pos);
    }
  }
}
