/** Recovery of the index: the scan of the data files after a restart, and the proof that it restores
    exactly what appending had built. */
module LogRecovery {
  import opened LogFormat
  import opened MapTop

  /** `crc` is the checksum of a record's body; `parses` says whether a buffer is a well-formed acceptor
      state; `maxFileSize` is the size a new data file is given. */
  datatype Env = Env(crc: Bytes -> nat, parses: Bytes -> bool, maxFileSize: nat)

  type Index = map<nat, FileId>
  type Files = map<nat, Bytes>

  /** What scanning one file comes to; `keep` is the length the file is cut to. */
  datatype Scanned = Scanned(ret: int, index: Index, writeOffset: nat, now: nat, keep: nat)

  /** What the scan meets at an offset. */
  datatype Met =
    | DataEnd                                     // nothing left, or a length of zero
    | Short                                       // a length field or a body that is not all there
    | Wrong                                       // a length or an instance that cannot be
    | Unparsable(inst: nat)                       // a body that is no acceptor state
    | Complete(len: nat, inst: nat, body: Bytes)

  function Meet(env: Env, b: Bytes, off: nat, now: nat): (met: Met)
    ensures met.Short? || met.Unparsable? ==> off <= |b|
    ensures met.Complete? ==> off + 4 + met.len <= |b|
  {
    if off >= |b| then DataEnd
    else if |b| - off < 4 then Short
    else
      var len := DecodeInt(b[off..off + 4]);
      if len == 0 then DataEnd
      else if len > |b| || len < 8 then Wrong
      else if |b| - off - 4 < len then Short
      else
        var body := b[off + 4..off + 4 + len];
        var inst := Decode(body[..8]);
        if inst < now then Wrong
        else if !env.parses(body[8..]) then Unparsable(inst)
        else Complete(len, inst, body)
  }

  function IdAt(env: Env, f: nat, off: nat, body: Bytes): FileId {
    FileId(f, off, env.crc(body))
  }

  function Scan(env: Env, b: Bytes, f: nat, off: nat, index: Index, writeOffset: nat, now: nat): (s: Scanned)
    ensures s.keep <= |b| && (s.ret == 0 || s.ret == -1)
    decreases if off <= |b| then |b| - off else 0
  {
    match Meet(env, b, off, now)
    case DataEnd => Scanned(0, index, off, now, |b|)
    case Short => Scanned(0, index, writeOffset, now, off)
    case Wrong => Scanned(-1, index, writeOffset, now, |b|)
    case Unparsable(inst) => Scanned(0, index, off, inst, off)
    case Complete(len, inst, body) =>
      Scan(env, b, f, off + 4 + len, index[inst := IdAt(env, f, off, body)], writeOffset, inst)
  }

  lemma ScanMeets(env: Env, b: Bytes, f: nat, off: nat, index: Index, writeOffset: nat, now: nat)
    ensures var met := Meet(env, b, off, now);
            var s := Scan(env, b, f, off, index, writeOffset, now);
            && (met.DataEnd? ==> s == Scanned(0, index, off, now, |b|))
            && (met.Short? ==> s == Scanned(0, index, writeOffset, now, off))
            && (met.Wrong? ==> s == Scanned(-1, index, writeOffset, now, |b|))
            && (met.Unparsable? ==> s == Scanned(0, index, off, met.inst, off))
            && (met.Complete? ==>
                  var after := index[met.inst := IdAt(env, f, off, met.body)];
                  s == Scan(env, b, f, off + 4 + met.len, after, writeOffset, met.inst))
  {
  }

  datatype Rebuilt = Rebuilt(ret: int, files: Files, index: Index, writeOffset: nat)

  function FilesFrom(files: Files, f: nat): set<nat> {
    set k | k in files && k >= f
  }

  lemma OneFileLess(files: Files, after: Files, f: nat)
    requires f in files && after.Keys == files.Keys
    ensures |FilesFrom(after, f + 1)| < |FilesFrom(files, f)|
  {
    assert FilesFrom(files, f) == FilesFrom(after, f + 1) + {f};
  }

  /** Scanning file after file until one is missing. */
  function RebuildFrom(env: Env, files: Files, fileId: nat, f: nat, off: nat, index: Index, writeOffset: nat, now: nat): Rebuilt
    decreases |FilesFrom(files, f)|
  {
    if f !in files then Rebuilt(if f != 0 && f != fileId + 1 then -1 else 0, files, index, writeOffset)
    else
      var s := Scan(env, files[f], f, off, index, writeOffset, now);
      var kept := files[f := files[f][..s.keep]];
      OneFileLess(files, kept, f);
      if s.ret != 0 then Rebuilt(s.ret, kept, s.index, s.writeOffset)
      else RebuildFrom(env, kept, fileId, f + 1, 0, s.index, s.writeOffset, s.now)
  }

  /** The whole recovery starts at the record the index shows for its greatest instance. */
  ghost function Rebuild(env: Env, files: Files, fileId: nat, index: Index, writeOffset: nat): Rebuilt {
    if index == map[] then RebuildFrom(env, files, fileId, 0, 0, index, writeOffset, 0)
    else
      var id := index[Top(index)];
      if id.file > fileId then Rebuilt(-2, files, index, writeOffset)
      else RebuildFrom(env, files, fileId, id.file, id.offset, index, writeOffset, Top(index))
  }

  // ---- recovery of a history ----

  /** A tail of one to three bytes cannot hold a length field, and the scan cuts it off. */
  ghost predicate GoodTail(b: Bytes, h: History, f: nat) {
    |FileBytes(h, f)| <= |b| && (|b| - |FileBytes(h, f)| == 0 || |b| - |FileBytes(h, f)| >= 4)
  }

  ghost predicate AllParse(env: Env, h: History) {
    forall m | 0 <= m < |h| :: env.parses(h[m].rec.value)
  }

  lemma {:induction false} DecodeZeros(bs: Bytes)
    requires forall k | 0 <= k < |bs| :: bs[k] == 0
    ensures Decode(bs) == 0
  {
    if bs != [] {
      DecodeZeros(bs[1..]);
    }
  }

  lemma ZeroLength(b: Bytes, off: nat)
    requires off + 4 <= |b|
    requires forall k | off <= k < off + 4 :: b[k] == 0
    ensures DecodeInt(b[off..off + 4]) == 0
  {
    DecodeZeros(b[off..off + 4]);
  }

  /** The scan stops at the end of the records. */
  lemma ScanEnds(env: Env, b: Bytes, h: History, f: nat, index: Index, wo: nat, now: nat)
    requires Holds(b, h, f)
    ensures Scan(env, b, f, |FileBytes(h, f)|, index, wo, now)
         == if GoodTail(b, h, f) then Scanned(0, index, |FileBytes(h, f)|, now, |b|)
            else Scanned(0, index, wo, now, |FileBytes(h, f)|)
  {
    var used := |FileBytes(h, f)|;
    if used + 4 <= |b| {
      ZeroLength(b, used);
    }
  }

  /** One complete record is entered in the index and stepped over. */
  lemma ScanSteps(env: Env, b: Bytes, f: nat, off: nat, r: Rec, index: Index, wo: nat, now: nat)
    requires r.Storable() && off + |r.Frame()| <= |b| && b[off..off + |r.Frame()|] == r.Frame()
    requires now <= r.inst && env.parses(r.value)
    ensures Scan(env, b, f, off, index, wo, now)
         == Scan(env, b, f, off + |r.Frame()|, index[r.inst := FileId(f, off, env.crc(r.Body()))], wo, r.inst)
  {
    FrameParses(b, off, r);
  }

  lemma RecordInFile(b: Bytes, h: History, n: nat)
    requires Laid(h) && n < |h| && Holds(b, h, h[n].file)
    ensures var e := h[n];
            var end := e.offset + |e.rec.Frame()|;
            && end <= |b| && b[e.offset..end] == e.rec.Frame()
            && e.rec.Storable()
            && e.offset == |FileBytes(h[..n], e.file)| && end == |FileBytes(h[..n + 1], e.file)|
  {
    EntryBytes(h, n);
    assert Placed(h, n);
    var e := h[n];
    var end := e.offset + |e.rec.Frame()|;
    assert b[e.offset..end] == FileBytes(h, e.file)[e.offset..end];
  }

  lemma IndexOntoFirst(env: Env, index: Index, h: History, p: nat, q: nat)
    requires p < q <= |h|
    ensures IndexOnto(env.crc, index, h[p..q]) == IndexOnto(env.crc, index[h[p].rec.inst := h[p].Id(env.crc)], h[p + 1..q])
  {
    IndexOntoSplit(env.crc, index, h[p..q], 1);
    assert h[p..q][1..] == h[p + 1..q] && h[p..q][..1] == [h[p]];
    assert [h[p]][..0] == [];
    assert IndexOnto(env.crc, index, [h[p]]) == IndexOnto(env.crc, index, [])[h[p].rec.inst := h[p].Id(env.crc)];
  }

  lemma IndexOntoNothing(env: Env, index: Index)
    ensures IndexOnto(env.crc, index, []) == index
  {
  }

  /** Scanning a file from a record boundary replays exactly the records from there to its end. */
  lemma {:induction false} ScanReplays(env: Env, b: Bytes, h: History, f: nat, p: nat, q: nat, index: Index, wo: nat, now: nat)
    requires Laid(h) && Ascending(h) && AllParse(env, h) && Holds(b, h, f)
    requires p <= q <= |h|
    requires forall m | p <= m < q :: h[m].file == f
    requires forall m | q <= m < |h| :: h[m].file > f
    requires p < q ==> now <= h[p].rec.inst
    ensures Scan(env, b, f, |FileBytes(h[..p], f)|, index, wo, now)
         == Scanned(0, IndexOnto(env.crc, index, h[p..q]),
                    if GoodTail(b, h, f) then |FileBytes(h, f)| else wo,
                    if p < q then h[q - 1].rec.inst else now,
                    if GoodTail(b, h, f) then |b| else |FileBytes(h, f)|)
    decreases q - p
  {
    hide Scan, FileBytes, Holds, GoodTail, IndexOnto, Placed;
    if p == q {
      PrefixBytes(h, p, f);
      ScanEnds(env, b, h, f, index, wo, now);
      IndexOntoNothing(env, index);
      assert h[p..q] == [];
    } else {
      var r := h[p].rec;
      RecordInFile(b, h, p);
      ScanSteps(env, b, f, h[p].offset, r, index, wo, now);
      ScanReplays(env, b, h, f, p + 1, q, index[r.inst := h[p].Id(env.crc)], wo, r.inst);
      IndexOntoFirst(env, index, h, p, q);
    }
  }

  /** The offset that scanning files `from` to `to` leaves behind: files with a good tail set it. */
  ghost function LeftOffset(files: Files, h: History, from: nat, last: int, wo: nat): nat
    requires forall k | from <= k <= last :: k in files
    decreases last + 1 - from
  {
    if last < from then wo
    else if GoodTail(files[last], h, last) then |FileBytes(h, last)|
    else LeftOffset(files, h, from, last - 1, wo)
  }

  lemma {:induction false} LeftOffsetFirst(files: Files, h: History, from: nat, last: int, wo: nat)
    requires from <= last && forall k | from <= k <= last :: k in files
    ensures LeftOffset(files, h, from, last, wo)
         == LeftOffset(files, h, from + 1, last, if GoodTail(files[from], h, from) then |FileBytes(h, from)| else wo)
    decreases last - from
  {
    if last > from {
      LeftOffsetFirst(files, h, from, last - 1, wo);
    }
  }

  lemma {:induction false} LeftOffsetSame(files: Files, other: Files, h: History, from: nat, last: int, wo: nat)
    requires forall k | from <= k <= last :: k in files
    requires forall k | from <= k <= last :: k in other
    requires forall k | from <= k <= last :: files[k] == other[k]
    ensures LeftOffset(files, h, from, last, wo) == LeftOffset(other, h, from, last, wo)
    decreases last + 1 - from
  {
    if from <= last {
      LeftOffsetSame(files, other, h, from, last - 1, wo);
    }
  }

  ghost predicate FilesHold(files: Files, h: History, from: nat, fileId: nat) {
    forall k | from <= k <= fileId :: k in files && Holds(files[k], h, k)
  }

  /** Recovery changes nothing on disk but unusable tails. */
  ghost predicate OnlyTailsCut(files: Files, after: Files, h: History, from: nat, fileId: nat) {
    && after.Keys == files.Keys
    && forall k | k in files ::
         after[k] == if from <= k <= fileId && !GoodTail(files[k], h, k) then FileBytes(h, k) else files[k]
  }

  /** Records left to replay from position `p` on: none before file `f`, none beyond the current one. */
  ghost predicate LeftToReplay(h: History, p: nat, f: nat, fileId: nat, now: nat) {
    p <= |h| && forall m | p <= m < |h| :: f <= h[m].file <= fileId && now <= h[m].rec.inst
  }

  lemma NothingLeftToReplay(h: History, p: nat, f: nat, fileId: nat, now: nat)
    requires LeftToReplay(h, p, f, fileId, now) && f > fileId
    ensures p == |h|
  {
    assert FileOf(h, p) >= 0;
  }

  ghost function FileOf(h: History, n: nat): nat {
    if n < |h| then h[n].file else 0
  }

  lemma RebuildSteps(env: Env, files: Files, fileId: nat, f: nat, off: nat, index: Index, wo: nat, now: nat, s: Scanned)
    requires f in files && Scan(env, files[f], f, off, index, wo, now) == s && s.ret == 0
    ensures RebuildFrom(env, files, fileId, f, off, index, wo, now)
         == RebuildFrom(env, files[f := files[f][..s.keep]], fileId, f + 1, 0, s.index, s.writeOffset, s.now)
  {
  }

  lemma RebuildEnds(env: Env, files: Files, fileId: nat, h: History, f: nat, index: Index, wo: nat, now: nat, off: nat)
    requires f == fileId + 1 && f !in files && LeftToReplay(h, |h|, f, fileId, now)
    ensures RebuildFrom(env, files, fileId, f, off, index, wo, now) == Rebuilt(0, files, index, wo)
  {
  }

  /** What is left when the records of file `f` are done. */
  lemma NextFile(h: History, p: nat, q: nat, f: nat, fileId: nat, now: nat)
    requires Laid(h) && Ascending(h) && LeftToReplay(h, p, f, fileId, now) && p <= q <= |h|
    requires forall m | q <= m < |h| :: h[m].file > f
    requires forall m | p <= m < q :: h[m].file == f
    requires forall m | 0 <= m < p :: h[m].file <= f
    ensures LeftToReplay(h, q, f + 1, fileId, if p < q then h[q - 1].rec.inst else now)
    ensures forall m | 0 <= m < q :: h[m].file <= f
    ensures FileBytes(h[..q], f + 1) == []
  {
    NoBytes(h[..q], f + 1);
  }

  /** The scan of file after file replays exactly the records from position `p` on, leaves the offset it
      found last and changes nothing on disk but unusable tails. */
  lemma {:induction false} RebuildReplays(env: Env, files: Files, fileId: nat, h: History, f: nat, p: nat,
                                          off: nat, index: Index, wo: nat, now: nat)
    requires Laid(h) && Ascending(h) && AllParse(env, h)
    requires f <= fileId + 1 && FilesHold(files, h, f, fileId) && fileId + 1 !in files
    requires LeftToReplay(h, p, f, fileId, now)
    requires off == |FileBytes(h[..p], f)|
    requires forall m | 0 <= m < p :: h[m].file <= f
    ensures var r := RebuildFrom(env, files, fileId, f, off, index, wo, now);
            && r.ret == 0
            && r.index == IndexOnto(env.crc, index, h[p..])
            && r.writeOffset == LeftOffset(files, h, f, fileId, wo)
            && OnlyTailsCut(files, r.files, h, f, fileId)
    decreases fileId + 1 - f
  {
    hide Scan, FileBytes, Holds, GoodTail, IndexOnto, RebuildFrom, LeftOffset, Placed, Laid;
    if f == fileId + 1 {
      NothingLeftToReplay(h, p, f, fileId, now);
      assert h[p..] == [];
      RebuildEnds(env, files, fileId, h, f, index, wo, now, off);
      IndexOntoNothing(env, index);
      LeftOffsetNone(files, h, f, fileId, wo);
    } else {
      var q := FileEnd(h, f, p);
      ScanReplays(env, files[f], h, f, p, q, index, wo, now);
      var s := Scan(env, files[f], f, off, index, wo, now);
      var kept := files[f := files[f][..s.keep]];
      HoldsCut(files[f], h, f);
      RebuildSteps(env, files, fileId, f, off, index, wo, now, s);
      NextFile(h, p, q, f, fileId, now);
      RebuildReplays(env, kept, fileId, h, f + 1, q, 0, s.index, s.writeOffset, s.now);
      ReplayedTwoParts(env, index, h, p, q);
      LeftOffsetFirst(files, h, f, fileId, wo);
      LeftOffsetSame(files, kept, h, f + 1, fileId, s.writeOffset);
      TailsCutFirst(files, kept, RebuildFrom(env, kept, fileId, f + 1, 0, s.index, s.writeOffset, s.now).files, h, f, fileId);
    }
  }

  lemma ReplayedTwoParts(env: Env, index: Index, h: History, p: nat, q: nat)
    requires p <= q <= |h|
    ensures IndexOnto(env.crc, index, h[p..]) == IndexOnto(env.crc, IndexOnto(env.crc, index, h[p..q]), h[q..])
  {
    IndexOntoSplit(env.crc, index, h[p..], q - p);
    assert h[p..][..q - p] == h[p..q] && h[p..][q - p..] == h[q..];
  }

  lemma TailsCutFirst(files: Files, kept: Files, after: Files, h: History, f: nat, fileId: nat)
    requires f in files && f <= fileId
    requires kept == files[f := if GoodTail(files[f], h, f) then files[f] else FileBytes(h, f)]
    requires OnlyTailsCut(kept, after, h, f + 1, fileId)
    ensures OnlyTailsCut(files, after, h, f, fileId)
  {
    hide GoodTail, FileBytes;
  }

  lemma HoldsCut(b: Bytes, h: History, f: nat)
    requires Holds(b, h, f)
    ensures |FileBytes(h, f)| <= |b| && b[..|FileBytes(h, f)|] == FileBytes(h, f) && b[..|b|] == b
  {
  }

  lemma LeftOffsetNone(files: Files, h: History, from: nat, last: int, wo: nat)
    requires last < from
    ensures LeftOffset(files, h, from, last, wo) == wo
  {
  }

  lemma {:induction false} FileEnd(h: History, f: nat, p: nat) returns (q: nat)
    requires p <= |h| && Laid(h)
    requires forall m | p <= m < |h| :: h[m].file >= f
    ensures p <= q <= |h|
    ensures forall m | p <= m < q :: h[m].file == f
    ensures forall m | q <= m < |h| :: h[m].file > f
    decreases |h| - p
  {
    if p == |h| || h[p].file != f {
      q := p;
    } else {
      q := FileEnd(h, f, p + 1);
    }
  }

  // ---- the theorem ----

  /** The file where recovery starts when the first `j` writes of the index survived. */
  ghost function StartFile(h: History, j: nat): nat
    requires j <= |h|
  {
    if j == 0 then 0 else h[j - 1].file
  }

  lemma TopOfPrefix(env: Env, h: History, j: nat)
    requires Ascending(h) && 0 < j <= |h|
    ensures var index := IndexOf(env.crc, h[..j]);
            index != map[] && Top(index) == h[j - 1].rec.inst && index[Top(index)] == h[j - 1].Id(env.crc)
  {
    var g := h[..j];
    var index := IndexOf(env.crc, g);
    assert g[j - 1] == h[j - 1];
    var k := h[j - 1].rec.inst;
    assert index[k] == h[j - 1].Id(env.crc);
    forall i | i in index
      ensures i <= k
    {
      var n := IndexPointsAtNewest(env.crc, g, i);
    }
    TopIs(index, k);
  }

  /** Crash recovery: from any surviving prefix of the index writes, the scan restores the index that
      appending built, over any number of files; on disk only unusable tails change. */
  lemma RebuildRestores(env: Env, files: Files, fileId: nat, h: History, j: nat, wo: nat)
    requires Laid(h) && Ascending(h) && AllParse(env, h) && j <= |h|
    requires forall m | 0 <= m < |h| :: h[m].file <= fileId
    requires FilesHold(files, h, StartFile(h, j), fileId) && fileId + 1 !in files
    ensures var r := Rebuild(env, files, fileId, IndexOf(env.crc, h[..j]), wo);
            && r.ret == 0
            && r.index == IndexOf(env.crc, h)
            && r.writeOffset == LeftOffset(files, h, StartFile(h, j), fileId, wo)
            && OnlyTailsCut(files, r.files, h, StartFile(h, j), fileId)
  {
    hide RebuildFrom, LeftOffset, Holds, GoodTail;
    var index := IndexOf(env.crc, h[..j]);
    if j == 0 {
      assert h[..0] == [] && h[0..] == h;
      RebuildReplays(env, files, fileId, h, 0, 0, 0, index, wo, 0);
    } else {
      TopOfPrefix(env, h, j);
      assert Placed(h, j - 1);
      RebuildReplays(env, files, fileId, h, h[j - 1].file, j - 1, h[j - 1].offset, index, wo, h[j - 1].rec.inst);
      IndexAgain(env.crc, h, j);
    }
  }

  /** The file id of the meta file only decides whether the scan ends well. */
  lemma {:induction false} MetaDecides(env: Env, files: Files, last: nat, meta: nat, f: nat, off: nat, index: Index, wo: nat, now: nat)
    requires f <= last + 1 && last + 1 !in files && forall k | f <= k <= last :: k in files
    requires RebuildFrom(env, files, last, f, off, index, wo, now).ret == 0
    ensures RebuildFrom(env, files, meta, f, off, index, wo, now)
         == RebuildFrom(env, files, last, f, off, index, wo, now).(ret := if meta == last then 0 else -1)
    decreases last + 1 - f
  {
    hide Scan;
    if f <= last {
      var s := Scan(env, files[f], f, off, index, wo, now);
      MetaDecides(env, files[f := files[f][..s.keep]], last, meta, f + 1, 0, s.index, s.writeOffset, s.now);
    }
  }

  /** A roll-over raises the id in the meta file before it creates the data file. When the newest data file is
      `last`, whatever was appended and however much of the index survived, a start succeeds if and only if
      the meta file names that file: a crash between the two steps makes it fail. */
  lemma StartSucceedsIff(env: Env, files: Files, last: nat, meta: nat, h: History, j: nat, wo: nat)
    requires Laid(h) && Ascending(h) && AllParse(env, h) && j <= |h|
    requires forall m | 0 <= m < |h| :: h[m].file <= last
    requires FilesHold(files, h, StartFile(h, j), last) && last + 1 !in files && last <= meta
    ensures var r := Rebuild(env, files, meta, IndexOf(env.crc, h[..j]), wo);
            && r.ret == (if meta == last then 0 else -1)
            && r.index == IndexOf(env.crc, h) && OnlyTailsCut(files, r.files, h, StartFile(h, j), last)
  {
    hide RebuildFrom, Holds, GoodTail, Placed;
    var index := IndexOf(env.crc, h[..j]);
    RebuildRestores(env, files, last, h, j, wo);
    if j == 0 {
      assert h[..0] == [];
      MetaDecides(env, files, last, meta, 0, 0, index, wo, 0);
    } else {
      TopOfPrefix(env, h, j);
      MetaDecides(env, files, last, meta, h[j - 1].file, h[j - 1].offset, index, wo, h[j - 1].rec.inst);
    }
  }

  /** Starting again does not help: what a failed start leaves behind fails in the same way. */
  lemma FailedStartFailsAgain(env: Env, files: Files, last: nat, meta: nat, h: History, j: nat, wo: nat)
    requires Laid(h) && Ascending(h) && AllParse(env, h) && j <= |h|
    requires forall m | 0 <= m < |h| :: h[m].file <= last
    requires FilesHold(files, h, StartFile(h, j), last) && last + 1 !in files && last < meta
    ensures var r := Rebuild(env, files, meta, IndexOf(env.crc, h[..j]), wo);
            r.ret == -1 && Rebuild(env, r.files, meta, r.index, wo).ret == -1
  {
    hide Rebuild, FileBytes, GoodTail, Placed;
    StartSucceedsIff(env, files, last, meta, h, j, wo);
    var after := Rebuild(env, files, meta, IndexOf(env.crc, h[..j]), wo).files;
    assert h[..|h|] == h;
    forall k | StartFile(h, |h|) <= k <= last
      ensures k in after && Holds(after[k], h, k)
    {
      assert FileBytes(h, k) + Zeros(0) == FileBytes(h, k);
    }
    StartSucceedsIff(env, after, last, meta, h, |h|, wo);
  }

  /** Recovery finds the exact write offset if and only if the unused tail of the current file is empty or
      can hold a length field; otherwise the offset of an earlier file, or the old one, stays. */
  lemma WriteOffsetIsExactIff(env: Env, files: Files, fileId: nat, h: History, j: nat, wo: nat)
    requires Laid(h) && Ascending(h) && AllParse(env, h) && j <= |h|
    requires forall m | 0 <= m < |h| :: h[m].file <= fileId
    requires FilesHold(files, h, StartFile(h, j), fileId) && fileId + 1 !in files
    ensures var r := Rebuild(env, files, fileId, IndexOf(env.crc, h[..j]), wo);
            var exact := |FileBytes(h, fileId)|;
            r.writeOffset == exact <==> GoodTail(files[fileId], h, fileId)
                                        || LeftOffset(files, h, StartFile(h, j), fileId - 1, wo) == exact
  {
    hide Rebuild, Holds;
    RebuildRestores(env, files, fileId, h, j, wo);
  }

  /** When the scan starts in the current file, as it does if the newest index write survived, and the
      process starts from offset 0, nothing can make up for a bad tail. */
  lemma WriteOffsetIsExactOnlyWithGoodTail(env: Env, files: Files, fileId: nat, h: History, j: nat)
    requires Laid(h) && Ascending(h) && AllParse(env, h) && 0 < j <= |h|
    requires forall m | 0 <= m < |h| :: h[m].file <= fileId
    requires h[j - 1].file == fileId && FilesHold(files, h, fileId, fileId) && fileId + 1 !in files
    ensures Rebuild(env, files, fileId, IndexOf(env.crc, h[..j]), 0).writeOffset == |FileBytes(h, fileId)|
       <==> GoodTail(files[fileId], h, fileId)
  {
    hide Rebuild, Holds;
    WriteOffsetIsExactIff(env, files, fileId, h, j, 0);
    RecordInHistory(h, j - 1);
  }

  lemma RecordInHistory(h: History, n: nat)
    requires Laid(h) && n < |h|
    ensures |FileBytes(h, h[n].file)| >= 12
  {
    EntryBytes(h, n);
  }

  /** A record that leaves two bytes unused in its file: after a restart the next record would be written
      over it. */
  lemma ShortTailLosesTheOffset(env: Env, r: Rec)
    requires r.Storable() && env.parses(r.value)
    ensures var h := [Entry(0, 0, r)];
            var files := map[0 := r.Frame() + Zeros(2)];
            && Laid(h) && FilesHold(files, h, 0, 0)
            && Rebuild(env, files, 0, IndexOf(env.crc, h), 0).writeOffset == 0
            && |FileBytes(h, 0)| >= 12
  {
    var e := Entry(0, 0, r);
    var h := [e];
    var files := map[0 := r.Frame() + Zeros(2)];
    AppendBytes(env.crc, [], e, 0);
    assert [] + [e] == h;
    LaidAppend([], e);
    assert h[..1] == h;
    RebuildRestores(env, files, 0, h, 1, 0);
    RecordInHistory(h, 0);
  }
}
