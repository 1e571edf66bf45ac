/**
  getOpusDuration of common/audio.go: a scan of Ogg pages (section 6 of RFC 3533)
  for the largest granule position, in 48 kHz units (section 4 of RFC 7845).
  Reads are full reads: they return fewer bytes than asked for only at the end.
 */
module OggScanner {

  type Byte = x: int | 0 <= x < 256

  const HEADER := 27
  const CAPTURE: seq<Byte> := [0x4F, 0x67, 0x67, 0x53]   // "OggS"
  const SAMPLE_RATE := 48000.0

  // ---- fields ------------------------------------------------------------------

  function LittleEndian(bytes: seq<Byte>): nat {
    if bytes == [] then 0 else bytes[0] + 256 * LittleEndian(bytes[1..])
  }

  /** int64(uint64): two's complement. */
  function ToSigned(u: int): int {
    if u < 0x8000_0000_0000_0000 then u else u - 0x1_0000_0000_0000_0000
  }

  function Sum(table: seq<Byte>): nat {
    if table == [] then 0 else Sum(table[..|table| - 1]) + table[|table| - 1]
  }

  predicate AtCapture(data: seq<Byte>, pos: nat) {
    pos + 4 <= |data| && data[pos..pos + 4] == CAPTURE
  }

  function GranuleAt(data: seq<Byte>, pos: nat): int
    requires pos + HEADER <= |data|
  {
    ToSigned(LittleEndian(data[pos + 6..pos + 14]))
  }

  function TableAt(data: seq<Byte>, pos: nat): seq<Byte>
    requires pos + HEADER <= |data| && pos + HEADER + data[pos + 26] <= |data|
  {
    data[pos + HEADER..pos + HEADER + data[pos + 26]]
  }

  // ---- the scan -----------------------------------------------------------------

  /** Largest granule position so far, and where page headers were taken to be. */
  datatype Scan = Scan(granule: int, headers: seq<nat>)

  /** What one pass of the loop finds at a position. */
  datatype Look =
    | End                              // fewer than 27 bytes left
    | Miss                             // no capture pattern: move on by one byte
    | Cut(granule: int)                // a header whose segment table is cut off
    | Whole(granule: int, skip: nat)   // a header, then a table and page data of `skip` bytes

  function LookAt(data: seq<Byte>, pos: nat): Look {
    if pos + HEADER > |data| then End
    else if !AtCapture(data, pos) then Miss
    else if pos + HEADER + data[pos + 26] > |data| then Cut(GranuleAt(data, pos))
    else Whole(GranuleAt(data, pos), data[pos + 26] + Sum(TableAt(data, pos)))
  }

  function Taken(scan: Scan, granule: int, pos: nat): Scan {
    Scan(if granule > scan.granule then granule else scan.granule, scan.headers + [pos])
  }

  function ScanBy(look: nat -> Look, size: nat, pos: nat, scan: Scan): Scan
    decreases size - pos
  {
    if pos > size then scan
    else match look(pos)
      case End => scan
      case Miss => ScanBy(look, size, pos + 1, scan)
      case Cut(granule) => Taken(scan, granule, pos)
      case Whole(granule, skip) => ScanBy(look, size, pos + HEADER + skip, Taken(scan, granule, pos))
  }

  function View(data: seq<Byte>): nat -> Look {
    (pos: nat) => LookAt(data, pos)
  }

  function ScanFrom(data: seq<Byte>, pos: nat, scan: Scan): Scan {
    ScanBy(View(data), |data|, pos, scan)
  }

  lemma SliceOfSlice(data: seq<Byte>, pos: nat, n: nat, i: nat, j: nat)
    requires pos + n <= |data| && i <= j <= n
    ensures data[pos..pos + n][i..j] == data[pos + i..pos + j]
  {
    var a, b := data[pos..pos + n][i..j], data[pos + i..pos + j];
    assert |a| == |b| && forall k :: 0 <= k < |a| ==> a[k] == b[k];
  }

  /** The inner loop: bytes of page data announced by a segment table. */
  method PageSize(segmentTable: seq<Byte>) returns (pageSize: nat)
    ensures pageSize == Sum(segmentTable)
  {
    pageSize := 0;
    for k := 0 to |segmentTable|
      invariant pageSize == Sum(segmentTable[..k])
    {
      assert segmentTable[..k + 1][..k] == segmentTable[..k];
      pageSize := pageSize + segmentTable[k];
    }
    assert segmentTable[..|segmentTable|] == segmentTable;
  }

  /** The fields the loop takes from the 27 bytes it reads. */
  method ReadHeader(data: seq<Byte>, pos: nat) returns (capture: bool, granulePos: int, numSegments: Byte)
    requires pos + HEADER <= |data|
    ensures capture == AtCapture(data, pos) && granulePos == GranuleAt(data, pos) && numSegments == data[pos + 26]
  {
    var buf := data[pos..pos + HEADER];
    SliceOfSlice(data, pos, HEADER, 0, 4);
    SliceOfSlice(data, pos, HEADER, 6, 14);
    capture := buf[0..4] == CAPTURE;
    granulePos := ToSigned(LittleEndian(buf[6..14]));
    numSegments := buf[26];
  }

  method GetOpusDuration(data: seq<Byte>) returns (duration: real)
    ensures duration == ScanFrom(data, 0, Scan(0, [])).granule as real / SAMPLE_RATE
  {
    var pos: nat := 0;
    var totalGranulePos := 0;
    ghost var scan := Scan(0, []);
    while |data| - pos >= HEADER
      invariant scan.granule == totalGranulePos
      invariant ScanFrom(data, pos, scan) == ScanFrom(data, 0, Scan(0, []))
      decreases |data| - pos
    {
      var capture, granulePos, numSegments := ReadHeader(data, pos);
      pos := pos + HEADER;
      if !capture {
        pos := pos - 26;
        continue;
      }
      if granulePos > totalGranulePos {
        totalGranulePos := granulePos;
      }
      scan := Taken(scan, granulePos, pos - HEADER);
      if pos + numSegments > |data| {
        break;
      }
      var segmentTable := data[pos..pos + numSegments];
      var pageSize := PageSize(segmentTable);
      pos := pos + numSegments + pageSize;
    }
    duration := totalGranulePos as real / SAMPLE_RATE;
  }

  // ---- pages as section 6 of RFC 3533 lays them out ----------------------------------

  datatype Page = Page(version: Byte, flags: Byte, granule: int, serial: seq<Byte>, sequence: seq<Byte>,
                       checksum: seq<Byte>, table: seq<Byte>, body: seq<Byte>)

  predicate WellFormed(p: Page) {
    && -0x8000_0000_0000_0000 <= p.granule < 0x8000_0000_0000_0000
    && |p.serial| == 4 && |p.sequence| == 4 && |p.checksum| == 4
    && |p.table| < 256 && |p.body| == Sum(p.table)
  }

  predicate AllWellFormed(pages: seq<Page>) {
    pages == [] || (WellFormed(pages[0]) && AllWellFormed(pages[1..]))
  }

  /** k bytes, least significant first. */
  function EncodeLE(n: nat, k: nat): seq<Byte> {
    if k == 0 then [] else [n % 256] + EncodeLE(n / 256, k - 1)
  }

  function ToUnsigned(v: int): int {
    if v < 0 then v + 0x1_0000_0000_0000_0000 else v
  }

  function Encode(p: Page): seq<Byte>
    requires WellFormed(p)
  {
    CAPTURE + [p.version, p.flags] + EncodeLE(ToUnsigned(p.granule), 8) + p.serial + p.sequence + p.checksum
    + [|p.table|] + p.table + p.body
  }

  function Serialise(pages: seq<Page>): seq<Byte>
    requires AllWellFormed(pages)
  {
    if pages == [] then [] else Encode(pages[0]) + Serialise(pages[1..])
  }

  function Pow256(k: nat): nat {
    if k == 0 then 1 else 256 * Pow256(k - 1)
  }

  lemma {:induction false} LittleEndianRoundTrip(n: nat, k: nat)
    requires n < Pow256(k)
    ensures |EncodeLE(n, k)| == k && LittleEndian(EncodeLE(n, k)) == n
  {
    if k > 0 {
      LittleEndianRoundTrip(n / 256, k - 1);
      assert EncodeLE(n, k)[1..] == EncodeLE(n / 256, k - 1);
    }
  }

  lemma GranuleRoundTrip(v: int)
    requires -0x8000_0000_0000_0000 <= v < 0x8000_0000_0000_0000
    ensures |EncodeLE(ToUnsigned(v), 8)| == 8 && ToSigned(LittleEndian(EncodeLE(ToUnsigned(v), 8))) == v
  {
    assert Pow256(4) == 0x1_0000_0000 && Pow256(8) == 0x1_0000_0000_0000_0000;
    LittleEndianRoundTrip(ToUnsigned(v), 8);
  }

  lemma EncodeLayout(p: Page)
    requires WellFormed(p)
    ensures var e := Encode(p); var n := |p.table|;
      && |e| == HEADER + n + Sum(p.table)
      && e[0..4] == CAPTURE && e[6..14] == EncodeLE(ToUnsigned(p.granule), 8)
      && e[26] == n && e[HEADER..HEADER + n] == p.table
  {
    GranuleRoundTrip(p.granule);
  }

  lemma EncodedPageFields(before: seq<Byte>, p: Page, after: seq<Byte>, data: seq<Byte>, pos: nat)
    requires WellFormed(p) && data == before + Encode(p) + after && pos == |before|
    ensures pos + HEADER + |p.table| + Sum(p.table) <= |data|
    ensures AtCapture(data, pos) && GranuleAt(data, pos) == p.granule
    ensures data[pos + 26] == |p.table| && TableAt(data, pos) == p.table
  {
    var n := |Encode(p)|;
    EncodeLayout(p);
    GranuleRoundTrip(p.granule);
    assert data[pos..pos + n] == Encode(p);
    SliceOfSlice(data, pos, n, 0, 4);
    SliceOfSlice(data, pos, n, 6, 14);
    assert data[pos + 26] == Encode(p)[26];
    SliceOfSlice(data, pos, n, HEADER, HEADER + |p.table|);
  }

  /** Bytes of a page after its fixed header. */
  function Skip(p: Page): nat {
    |p.table| + Sum(p.table)
  }

  lemma EncodedPageSeen(before: seq<Byte>, p: Page, after: seq<Byte>, data: seq<Byte>)
    requires WellFormed(p) && data == before + Encode(p) + after
    ensures LookAt(data, |before|) == Whole(p.granule, Skip(p)) && |Encode(p)| == HEADER + Skip(p)
  {
    EncodedPageFields(before, p, after, data, |before|);
    EncodeLayout(p);
  }

  /** One page after the other is seen from `pos`, then the end. */
  predicate LaidOut(look: nat -> Look, size: nat, pos: nat, pages: seq<Page>)
    decreases |pages|
  {
    pos <= size &&
    if pages == [] then look(pos) == End
    else look(pos) == Whole(pages[0].granule, Skip(pages[0])) && LaidOut(look, size, pos + HEADER + Skip(pages[0]), pages[1..])
  }

  lemma Regroup(before: seq<Byte>, first: seq<Byte>, rest: seq<Byte>, tail: seq<Byte>)
    ensures before + (first + rest) + tail == before + first + (rest + tail) == (before + first) + rest + tail
  {
  }

  lemma LaidOutCons(look: nat -> Look, size: nat, pos: nat, pages: seq<Page>, next: nat)
    requires pages != [] && pos <= size && next == pos + HEADER + Skip(pages[0])
    requires look(pos) == Whole(pages[0].granule, Skip(pages[0])) && LaidOut(look, size, next, pages[1..])
    ensures LaidOut(look, size, pos, pages)
  {
  }

  lemma {:induction false} SerialisedLaidOut(
    before: seq<Byte>, pages: seq<Page>, tail: seq<Byte>, data: seq<Byte>, look: nat -> Look)
    requires AllWellFormed(pages) && |tail| < HEADER
    requires data == before + Serialise(pages) + tail && look == View(data)
    ensures LaidOut(look, |data|, |before|, pages)
    decreases |pages|
  {
    if pages != [] {
      var first, rest := Encode(pages[0]), Serialise(pages[1..]);
      Regroup(before, first, rest, tail);
      EncodedPageSeen(before, pages[0], rest + tail, data);
      SerialisedLaidOut(before + first, pages[1..], tail, data, look);
      LaidOutCons(look, |data|, |before|, pages, |before + first|);
    }
  }

  function MaxGranule(pages: seq<Page>, least: int): int {
    if pages == [] then least
    else MaxGranule(pages[1..], if pages[0].granule > least then pages[0].granule else least)
  }

  /** Byte offsets of the pages when the first starts at `pos`. */
  function Offsets(pages: seq<Page>, pos: nat): seq<nat> {
    if pages == [] then [] else [pos] + Offsets(pages[1..], pos + HEADER + Skip(pages[0]))
  }

  lemma {:induction false} ScanPages(look: nat -> Look, size: nat, pos: nat, pages: seq<Page>, scan: Scan)
    requires LaidOut(look, size, pos, pages)
    ensures ScanBy(look, size, pos, scan) == Scan(MaxGranule(pages, scan.granule), scan.headers + Offsets(pages, pos))
    decreases |pages|
  {
    if pages == [] {
      assert scan.headers + Offsets(pages, pos) == scan.headers;
    } else {
      var next := pos + HEADER + Skip(pages[0]);
      ScanPages(look, size, next, pages[1..], Taken(scan, pages[0].granule, pos));
      assert scan.headers + [pos] + Offsets(pages[1..], next) == scan.headers + Offsets(pages, pos);
    }
  }

  lemma {:induction false} SkipJunk(data: seq<Byte>, pos: nat, end: nat, scan: Scan)
    requires pos <= end <= |data| && (forall i :: pos <= i < end ==> !AtCapture(data, i))
    ensures ScanFrom(data, pos, scan) == ScanFrom(data, end, scan)
    decreases end - pos
  {
    if pos < end {
      SkipJunk(data, pos + 1, end, scan);
    }
  }

  /**
    Leading bytes in which no capture pattern starts, any well-formed pages, and less
    than a header of trailing bytes: the scanner stops at exactly the page headers and
    finds the maximum of 0 and all granule positions.
   */
  lemma ScanFindsPages(junk: seq<Byte>, pages: seq<Page>, tail: seq<Byte>)
    requires AllWellFormed(pages) && |tail| < HEADER
    requires forall i :: 0 <= i < |junk| ==> !AtCapture(junk + Serialise(pages) + tail, i)
    ensures ScanFrom(junk + Serialise(pages) + tail, 0, Scan(0, [])) == Scan(MaxGranule(pages, 0), Offsets(pages, |junk|))
  {
    var data := junk + Serialise(pages) + tail;
    SkipJunk(data, 0, |junk|, Scan(0, []));
    SerialisedLaidOut(junk, pages, tail, data, View(data));
    ScanPages(View(data), |data|, |junk|, pages, Scan(0, []));
  }

  /** MaxGranule is the maximum: it is `least` or a granule position, and bounds them all. */
  lemma {:induction false} MaxGranuleIsMax(pages: seq<Page>, least: int)
    ensures var g := MaxGranule(pages, least);
      && g >= least && (forall p :: p in pages ==> p.granule <= g)
      && (g == least || exists p :: p in pages && p.granule == g)
  {
    if pages != [] {
      MaxGranuleIsMax(pages[1..], if pages[0].granule > least then pages[0].granule else least);
      assert pages == [pages[0]] + pages[1..];
    }
  }
}
