/** How records lie in the data files of the durable log, and what a history of appended records
    means: the bytes of every file, the index into them, and the map from instance to value. */
module LogFormat {

  type Byte = b: int | 0 <= b < 256
  type Bytes = seq<Byte>

  const INT_LIMIT := 0x8000_0000
  const U64_LIMIT := 0x1_0000_0000_0000_0000

  // ---- little-endian integers ----

  function Pow256(k: nat): (p: nat)
    ensures p >= 1
  {
    if k == 0 then 1 else 256 * Pow256(k - 1)
  }

  function Encode(n: nat, k: nat): (bs: Bytes)
    ensures |bs| == k
  {
    if k == 0 then [] else [n % 256] + Encode(n / 256, k - 1)
  }

  function Decode(bs: Bytes): (n: nat)
    ensures n < Pow256(|bs|)
  {
    if bs == [] then 0 else bs[0] + 256 * Decode(bs[1..])
  }

  lemma {:induction false} DecodeEncode(n: nat, k: nat)
    requires n < Pow256(k)
    ensures Decode(Encode(n, k)) == n
  {
    if k > 0 {
      DecodeEncode(n / 256, k - 1);
      assert Encode(n, k)[1..] == Encode(n / 256, k - 1);
    }
  }

  lemma PowersOf256()
    ensures Pow256(4) == 2 * INT_LIMIT && Pow256(8) == U64_LIMIT
  {
    assert Pow256(1) == 256 * Pow256(0);
    assert Pow256(2) == 256 * Pow256(1);
    assert Pow256(3) == 256 * Pow256(2);
    assert Pow256(5) == 256 * Pow256(4);
    assert Pow256(6) == 256 * Pow256(5);
    assert Pow256(7) == 256 * Pow256(6);
  }

  /** A length field is a signed 32-bit integer. */
  function DecodeInt(bs: Bytes): int
    requires |bs| == 4
  {
    var n := Decode(bs);
    if n < INT_LIMIT then n else n - 2 * INT_LIMIT
  }

  // ---- records ----

  datatype Rec = Rec(inst: nat, value: Bytes) {
    /** What the integer widths of the format can hold. */
    predicate Storable() { inst < U64_LIMIT && 12 + |value| < INT_LIMIT }

    function Body(): Bytes { Encode(inst, 8) + value }

    function Frame(): Bytes { Encode(8 + |value|, 4) + Body() }
  }

  /** Where a record lies, and the checksum of its body. */
  datatype FileId = FileId(file: nat, offset: nat, checksum: nat)

  /** A record as appended at `offset` of `file`. */
  datatype Entry = Entry(file: nat, offset: nat, rec: Rec) {
    function Id(crc: Bytes -> nat): FileId { FileId(file, offset, crc(rec.Body())) }
  }

  /** Framing round-trips: what a reader finds at the start of a frame is that frame's record. */
  lemma FrameParses(b: Bytes, off: nat, r: Rec)
    requires r.Storable() && off + |r.Frame()| <= |b|
    requires b[off..off + |r.Frame()|] == r.Frame()
    ensures |r.Frame()| == 4 + |r.Body()| && |r.Body()| >= 8
    ensures DecodeInt(b[off..off + 4]) == |r.Body()|
    ensures b[off + 4..off + 4 + |r.Body()|] == r.Body()
    ensures Decode(r.Body()[..8]) == r.inst && r.Body()[8..] == r.value
  {
    PowersOf256();
    DecodeEncode(|r.Body()|, 4);
    DecodeEncode(r.inst, 8);
    var frame := b[off..off + |r.Frame()|];
    assert frame[..4] == Encode(|r.Body()|, 4) && frame[4..] == r.Body();
    assert b[off..off + 4] == frame[..4];
    assert b[off + 4..off + 4 + |r.Body()|] == frame[4..];
    assert r.Body()[..8] == Encode(r.inst, 8);
  }

  // ---- histories ----

  type History = seq<Entry>

  /** The records of file `f`, one behind the other. */
  ghost function FileBytes(h: History, f: nat): Bytes {
    if h == [] then []
    else
      var e := h[|h| - 1];
      FileBytes(h[..|h| - 1], f) + if e.file == f then e.rec.Frame() else []
  }

  ghost predicate Placed(h: History, n: nat)
    requires n < |h|
  {
    h[n].rec.Storable() && h[n].offset == |FileBytes(h[..n], h[n].file)|
  }

  /** Every record begins where the one before it in the same file ends, and files are filled one
      after the other. */
  ghost predicate Laid(h: History) {
    && (forall n | 0 <= n < |h| :: Placed(h, n))
    && (forall m, n | 0 <= m < n < |h| :: h[m].file <= h[n].file)
  }

  ghost predicate Ascending(h: History) {
    forall m, n | 0 <= m < n < |h| :: h[m].rec.inst <= h[n].rec.inst
  }

  /** The index that putting every record, in order, leaves behind when it starts from `base`. */
  ghost function IndexOnto(crc: Bytes -> nat, base: map<nat, FileId>, h: History): map<nat, FileId> {
    if h == [] then base
    else
      var e := h[|h| - 1];
      IndexOnto(crc, base, h[..|h| - 1])[e.rec.inst := e.Id(crc)]
  }

  ghost function IndexOf(crc: Bytes -> nat, h: History): map<nat, FileId> {
    IndexOnto(crc, map[], h)
  }

  /** The last value put for every instance. */
  ghost function Latest(h: History): map<nat, Bytes> {
    if h == [] then map[]
    else
      var e := h[|h| - 1];
      Latest(h[..|h| - 1])[e.rec.inst := e.rec.value]
  }

  /** Position `n` holds the newest record of instance `i`. */
  ghost predicate NewestAt(h: History, i: nat, n: nat) {
    && n < |h| && h[n].rec.inst == i
    && forall m | n < m < |h| :: h[m].rec.inst != i
  }

  lemma {:induction false} IndexPointsAtNewest(crc: Bytes -> nat, h: History, i: nat) returns (n: nat)
    ensures i in IndexOf(crc, h) <==> i in Latest(h)
    ensures i in Latest(h) ==> NewestAt(h, i, n) && IndexOf(crc, h)[i] == h[n].Id(crc) && Latest(h)[i] == h[n].rec.value
    ensures i !in Latest(h) ==> forall m | 0 <= m < |h| :: h[m].rec.inst != i
  {
    n := 0;
    if h != [] {
      var p := h[..|h| - 1];
      if h[|h| - 1].rec.inst == i {
        n := |h| - 1;
      } else {
        n := IndexPointsAtNewest(crc, p, i);
        forall m | 0 <= m < |h| && h[m].rec.inst == i
          ensures m < |p| && p[m].rec.inst == i
        {
        }
      }
    }
  }

  lemma {:induction false} IndexOntoSplit(crc: Bytes -> nat, base: map<nat, FileId>, h: History, k: nat)
    requires k <= |h|
    ensures IndexOnto(crc, base, h) == IndexOnto(crc, IndexOnto(crc, base, h[..k]), h[k..])
  {
    if k == |h| {
      assert h[..k] == h && h[k..] == [];
    } else {
      var p := h[..|h| - 1];
      IndexOntoSplit(crc, base, p, k);
      assert p[..k] == h[..k];
      assert h[k..][..|h| - k - 1] == p[k..];
    }
  }

  /** Putting a record again that the index already shows changes nothing. */
  lemma IndexAgain(crc: Bytes -> nat, h: History, j: nat)
    requires 0 < j <= |h|
    ensures IndexOnto(crc, IndexOf(crc, h[..j]), h[j - 1..]) == IndexOf(crc, h)
  {
    var base := IndexOf(crc, h[..j]);
    var rest := h[j - 1..];
    IndexOntoSplit(crc, base, rest, 1);
    IndexOntoSplit(crc, map[], h, j);
    assert rest[1..] == h[j..];
    assert rest[..1] == [h[j - 1]];
    assert IndexOnto(crc, base, [h[j - 1]]) == IndexOnto(crc, base, [])[h[j - 1].rec.inst := h[j - 1].Id(crc)] by {
      assert [h[j - 1]][..0] == [];
    }
    assert h[..j][..j - 1] == h[..j - 1];
    assert base == IndexOf(crc, h[..j - 1])[h[j - 1].rec.inst := h[j - 1].Id(crc)];
    assert base[h[j - 1].rec.inst := h[j - 1].Id(crc)] == base;
  }

  // ---- prefixes ----

  lemma {:induction false} PrefixBytes(h: History, n: nat, f: nat)
    requires n <= |h|
    ensures FileBytes(h[..n], f) <= FileBytes(h, f)
    ensures (forall m | n <= m < |h| :: h[m].file != f) ==> FileBytes(h[..n], f) == FileBytes(h, f)
  {
    if n == |h| {
      assert h[..n] == h;
    } else {
      var p := h[..|h| - 1];
      PrefixBytes(p, n, f);
      assert p[..n] == h[..n];
    }
  }

  /** A file no record of the history went to is empty. */
  lemma {:induction false} NoBytes(h: History, f: nat)
    requires forall m | 0 <= m < |h| :: h[m].file != f
    ensures FileBytes(h, f) == []
  {
    PrefixBytes(h, 0, f);
  }

  /** Records never overlap: each lies in its file between its offset and the end of its frame, and the
      bytes up to there are those of the records before it. */
  lemma EntryBytes(h: History, n: nat)
    requires Laid(h) && n < |h|
    ensures var e := h[n];
            var end := e.offset + |e.rec.Frame()|;
            var b := FileBytes(h, e.file);
            end <= |b| && b[e.offset..end] == e.rec.Frame() && FileBytes(h[..n + 1], e.file) == b[..end]
  {
    var e := h[n];
    assert Placed(h, n);
    assert h[..n + 1][..n] == h[..n];
    assert FileBytes(h[..n + 1], e.file) == FileBytes(h[..n], e.file) + e.rec.Frame();
    PrefixBytes(h, n + 1, e.file);
  }

  lemma RecordsNeverOverlap(h: History, m: nat, n: nat)
    requires Laid(h) && m < n < |h| && h[m].file == h[n].file
    ensures h[m].offset + |h[m].rec.Frame()| <= h[n].offset
  {
    var f := h[m].file;
    assert Placed(h, n) && Placed(h, m);
    EntryBytes(h, m);
    assert h[..n][..m + 1] == h[..m + 1];
    PrefixBytes(h[..n], m + 1, f);
  }

  /** Appending at the end of the last file keeps the layout. */
  lemma LaidAppend(h: History, e: Entry)
    requires Laid(h) && e.rec.Storable()
    requires e.offset == |FileBytes(h, e.file)|
    requires forall m | 0 <= m < |h| :: h[m].file <= e.file
    ensures Laid(h + [e])
  {
    var g := h + [e];
    forall n | 0 <= n < |g|
      ensures Placed(g, n)
    {
      assert g[..n] == h[..n];
      if n < |h| {
        assert Placed(h, n);
      } else {
        assert h[..n] == h;
      }
    }
  }

  lemma AppendBytes(crc: Bytes -> nat, h: History, e: Entry, f: nat)
    ensures FileBytes(h + [e], f) == FileBytes(h, f) + if e.file == f then e.rec.Frame() else []
    ensures IndexOf(crc, h + [e]) == IndexOf(crc, h)[e.rec.inst := e.Id(crc)]
    ensures Latest(h + [e]) == Latest(h)[e.rec.inst := e.rec.value]
  {
    assert (h + [e])[..|h|] == h;
  }

  // ---- files ----

  function Zeros(n: nat): Bytes {
    seq(n, _ => 0)
  }

  /** The file holds exactly the records of the history that went to it, followed by unused zeros. */
  ghost predicate Holds(b: Bytes, h: History, f: nat) {
    var used := |FileBytes(h, f)|;
    used <= |b| && b == FileBytes(h, f) + Zeros(|b| - used)
  }

  function WriteAt(b: Bytes, off: nat, data: Bytes): Bytes {
    (if off <= |b| then b[..off] else b + Zeros(off - |b|)) + data + if off + |data| < |b| then b[off + |data|..] else []
  }

  lemma WriteHolds(crc: Bytes -> nat, b: Bytes, h: History, e: Entry)
    requires Holds(b, h, e.file) && e.offset == |FileBytes(h, e.file)|
    ensures Holds(WriteAt(b, e.offset, e.rec.Frame()), h + [e], e.file)
  {
    AppendBytes(crc, h, e, e.file);
  }
}
