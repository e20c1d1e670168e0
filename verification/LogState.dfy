/** The state of the durable log on values: data files, the history they hold and the index into them,
    and what appending, deleting and recovering make of them. */
module LogState {
  import opened LogFormat
  import opened LogRecovery

  /** A data file is as the history says; one that was deleted may have come back empty. */
  ghost predicate FileOk(files: Files, h: History, fileId: nat, f: nat)
    requires f in files
  {
    f <= fileId && (Holds(files[f], h, f) || (files[f] == [] && f < fileId))
  }

  ghost predicate StoreOk(files: Files, h: History, fileId: nat, offset: nat) {
    && Laid(h)
    && (forall m | 0 <= m < |h| :: h[m].file <= fileId)
    && (forall f | f in files :: FileOk(files, h, fileId, f))
    && fileId in files
    && offset == |FileBytes(h, fileId)|
  }

  ghost predicate Live(files: Files, f: nat) {
    f in files && files[f] != []
  }

  /** The index entry of an instance shows its newest record. */
  ghost predicate Indexed(env: Env, h: History, index: Index, i: nat)
    requires i in index
  {
    i in IndexOf(env.crc, h) && index[i] == IndexOf(env.crc, h)[i]
  }

  ghost predicate IndexOk(env: Env, h: History, index: Index) {
    forall i | i in index :: Indexed(env, h, index, i)
  }

  /** The map a store stands for: the newest value of every indexed instance whose file is there. */
  ghost function ContentsOf(files: Files, h: History, index: Index): map<nat, Bytes> {
    map i | i in index && i in Latest(h) && Live(files, index[i].file) :: Latest(h)[i]
  }

  // ---- files ----

  lemma NewFileOk(files: Files, h: History, fileId: nat, offset: nat, size: nat)
    requires StoreOk(files, h, fileId, offset)
    ensures fileId + 1 !in files
    ensures StoreOk(files[fileId + 1 := Zeros(size)], h, fileId + 1, 0)
  {
    hide Laid, FileBytes;
    var after := files[fileId + 1 := Zeros(size)];
    assert fileId + 1 in files ==> FileOk(files, h, fileId, fileId + 1);
    NoBytes(h, fileId + 1);
    assert Zeros(size) == [] + Zeros(size);
    forall f | f in after
      ensures FileOk(after, h, fileId + 1, f)
    {
      assert f != fileId + 1 ==> FileOk(files, h, fileId, f);
    }
  }

  lemma CurrentFile(files: Files, h: History, fileId: nat, offset: nat)
    requires StoreOk(files, h, fileId, offset)
    ensures fileId in files
  {
  }

  lemma HoldsOther(b: Bytes, h: History, e: Entry, f: nat)
    requires Holds(b, h, f) && e.file != f
    ensures Holds(b, h + [e], f)
  {
    AppendBytes(_ => 0, h, e, f);
  }

  lemma AppendOk(files: Files, h: History, fileId: nat, offset: nat, r: Rec)
    requires StoreOk(files, h, fileId, offset) && r.Storable()
    ensures var after := files[fileId := WriteAt(files[fileId], offset, r.Frame())];
            StoreOk(after, h + [Entry(fileId, offset, r)], fileId, offset + |r.Frame()|) && Live(after, fileId)
  {
    hide Laid, FileBytes, Placed, Holds;
    var e := Entry(fileId, offset, r);
    var after := files[fileId := WriteAt(files[fileId], offset, r.Frame())];
    assert FileOk(files, h, fileId, fileId);
    LaidAppend(h, e);
    AppendBytes(_ => 0, h, e, fileId);
    WriteHolds(_ => 0, files[fileId], h, e);
    forall f | f in after
      ensures FileOk(after, h + [e], fileId, f)
    {
      if f != fileId {
        assert FileOk(files, h, fileId, f);
        if Holds(files[f], h, f) {
          HoldsOther(files[f], h, e, f);
        }
      }
    }
    assert |r.Frame()| >= 4;
  }

  lemma FewerFilesOk(files: Files, after: Files, h: History, fileId: nat, offset: nat)
    requires StoreOk(files, h, fileId, offset)
    requires after.Keys <= files.Keys && fileId in after && forall f | f in after :: after[f] == files[f]
    ensures StoreOk(after, h, fileId, offset)
  {
    hide Laid, FileBytes, Holds;
    forall f | f in after
      ensures FileOk(after, h, fileId, f)
    {
      assert FileOk(files, h, fileId, f);
    }
  }

  /** A missing file comes back empty when it is read. */
  lemma EmptyFileOk(files: Files, h: History, fileId: nat, offset: nat, f: nat)
    requires StoreOk(files, h, fileId, offset) && f !in files && f <= fileId
    ensures StoreOk(files[f := []], h, fileId, offset)
  {
    hide Laid, FileBytes, Holds;
    var after := files[f := []];
    forall k | k in after
      ensures FileOk(after, h, fileId, k)
    {
      assert k != f ==> FileOk(files, h, fileId, k);
    }
  }

  // ---- recovery ----

  /** The data files are those of history `h`, all of them, and the current one has a usable tail. */
  ghost predicate Recoverable(files: Files, h: History, fileId: nat) {
    && Laid(h)
    && (forall m | 0 <= m < |h| :: h[m].file <= fileId)
    && (forall f | f in files :: f <= fileId)
    && if files == map[] then h == [] && fileId == 0
       else FilesHold(files, h, 0, fileId) && GoodTail(files[fileId], h, fileId)
  }

  /** What a crash may leave of a history: its files, and of the index any prefix of its writes. */
  ghost predicate CrashOf(env: Env, files: Files, fileId: nat, index: Index, h: History, j: nat) {
    && Recoverable(files, h, fileId) && Ascending(h) && AllParse(env, h)
    && j <= |h| && index == IndexOf(env.crc, h[..j])
  }

  lemma Recovers(env: Env, files: Files, fileId: nat, index: Index, h: History, j: nat)
    requires CrashOf(env, files, fileId, index, h, j)
    ensures var r := Rebuild(env, files, fileId, index, 0);
            && r.ret == 0 && r.index == IndexOf(env.crc, h) && r.files.Keys == files.Keys
            && r.writeOffset == |FileBytes(h, fileId)|
            && forall f | f in r.files :: f <= fileId && Holds(r.files[f], h, f)
  {
    hide Laid, FileBytes, Holds, GoodTail;
    if files == map[] {
      assert FileBytes([], 0) == [] by {
        NoBytes([], 0);
      }
      assert h[..j] == [];
      IndexOntoNothing(env, map[]);
    } else {
      RebuildRestores(env, files, fileId, h, j, 0);
      var r := Rebuild(env, files, fileId, index, 0);
      forall f | f in r.files
        ensures f <= fileId && Holds(r.files[f], h, f)
      {
        HoldsItself(h, f);
      }
    }
  }

  lemma HoldsItself(h: History, f: nat)
    ensures Holds(FileBytes(h, f), h, f)
  {
    assert FileBytes(h, f) + Zeros(0) == FileBytes(h, f);
  }

  /** Opening a file that is missing creates it. */
  function Opened(files: Files, f: nat): Files {
    if f in files then files else files[f := []]
  }

  /** An empty file is given its full size. */
  function Expanded(files: Files, f: nat, size: nat): Files
    requires f in files
  {
    if files[f] == [] then files[f := Zeros(size)] else files
  }

  lemma NothingHeld(h: History, f: nat, size: nat)
    requires Holds([], h, f)
    ensures FileBytes(h, f) == [] && Holds(Zeros(size), h, f)
  {
    assert FileBytes(h, f) == [];
    assert Zeros(size) == [] + Zeros(size);
  }

  lemma LiveFiles(files: Files, h: History, n: nat)
    requires Laid(h) && n < |h| && h[n].file in files && Holds(files[h[n].file], h, h[n].file)
    ensures Live(files, h[n].file)
  {
    RecordInHistory(h, n);
  }

  /** Opening the current file after recovery. */
  lemma OpenedOk(files: Files, h: History, fileId: nat, size: nat)
    requires Laid(h) && forall m | 0 <= m < |h| :: h[m].file <= fileId
    requires forall f | f in files :: f <= fileId && Holds(files[f], h, f)
    requires fileId !in files ==> h == []
    ensures var base := Opened(files, fileId);
            && StoreOk(Expanded(base, fileId, size), h, fileId, |FileBytes(h, fileId)|)
            && (base[fileId] == [] ==> FileBytes(h, fileId) == [])
            && (forall n | 0 <= n < |h| && h[n].file in files :: Live(Expanded(base, fileId, size), h[n].file))
  {
    hide Laid, FileBytes, Holds;
    var base := Opened(files, fileId);
    var after := Expanded(base, fileId, size);
    if fileId !in files {
      NoBytes(h, fileId);
      HoldsItself(h, fileId);
    }
    if base[fileId] == [] {
      NothingHeld(h, fileId, size);
    }
    forall f | f in after
      ensures FileOk(after, h, fileId, f)
    {
      assert f != fileId ==> f in files && after[f] == files[f];
    }
    forall n | 0 <= n < |h| && h[n].file in files
      ensures Live(after, h[n].file)
    {
      LiveFiles(files, h, n);
    }
  }

  // ---- index and contents ----

  /** The newest record of an indexed instance lies whole in its file, when that is still there. */
  lemma NewestOnDisk(env: Env, files: Files, h: History, fileId: nat, offset: nat, index: Index, i: nat) returns (n: nat)
    requires StoreOk(files, h, fileId, offset) && IndexOk(env, h, index) && i in index
    ensures NewestAt(h, i, n) && index[i] == h[n].Id(env.crc) && h[n].file <= fileId && h[n].rec.Storable()
    ensures i in Latest(h) && Latest(h)[i] == h[n].rec.value
    ensures Live(files, h[n].file) ==>
              var e := h[n];
              var end := e.offset + |e.rec.Frame()|;
              end <= |files[e.file]| && files[e.file][e.offset..end] == e.rec.Frame()
    ensures h[n].file == fileId ==> Live(files, fileId)
  {
    hide FileBytes, Laid;
    assert Indexed(env, h, index, i);
    n := IndexPointsAtNewest(env.crc, h, i);
    RecordInHistory(h, n);
    var f := h[n].file;
    assert Placed(h, n) by {
      LaidMeans(h, n);
    }
    if f in files {
      assert FileOk(files, h, fileId, f);
      if Holds(files[f], h, f) {
        RecordInFile(files[f], h, n);
      }
    }
  }

  lemma LaidMeans(h: History, n: nat)
    requires Laid(h) && n < |h|
    ensures Placed(h, n)
  {
  }

  lemma PutOk(env: Env, h: History, index: Index, e: Entry)
    requires IndexOk(env, h, index)
    ensures IndexOk(env, h + [e], index[e.rec.inst := e.Id(env.crc)])
  {
    AppendBytes(env.crc, h, e, 0);
    var after := index[e.rec.inst := e.Id(env.crc)];
    forall i | i in after
      ensures Indexed(env, h + [e], after, i)
    {
      assert i != e.rec.inst ==> Indexed(env, h, index, i);
    }
  }

  lemma PutContents(env: Env, files: Files, h: History, fileId: nat, offset: nat, index: Index, after: Files, e: Entry)
    requires StoreOk(files, h, fileId, offset) && IndexOk(env, h, index)
    requires e.file == fileId || e.file == fileId + 1
    requires Live(after, e.file) && forall f | f != e.file :: Live(files, f) <==> Live(after, f)
    ensures ContentsOf(after, h + [e], index[e.rec.inst := e.Id(env.crc)])
         == ContentsOf(files, h, index)[e.rec.inst := e.rec.value]
  {
    hide StoreOk, FileBytes, IndexOk, IndexOf;
    AppendBytes(env.crc, h, e, 0);
    forall i | i in index
      ensures Live(after, index[i].file) <==> Live(files, index[i].file)
    {
      var n := NewestOnDisk(env, files, h, fileId, offset, index, i);
    }
  }

  /** The files before that of instance `inst` only have records up to that instance. */
  lemma FilesBeforeOk(env: Env, files: Files, h: History, fileId: nat, offset: nat, index: Index, inst: nat)
    requires StoreOk(files, h, fileId, offset) && IndexOk(env, h, index) && Ascending(h)
    requires inst in index
    ensures forall m | 0 <= m < |h| && h[m].file < index[inst].file :: h[m].rec.inst <= inst
    ensures forall i | i in index && index[i].file < index[inst].file :: i <= inst
  {
    var n := NewestOnDisk(env, files, h, fileId, offset, index, inst);
    hide FileBytes, FileOk, Placed;
    forall i | i in index && index[i].file < index[inst].file
      ensures i <= inst
    {
      var m := NewestOnDisk(env, files, h, fileId, offset, index, i);
    }
  }
}
