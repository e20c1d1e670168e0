/** The durable log in the form the program has: `LogStore` owns the data files, `Database` the index
    into them. The ghost history says what was appended; the methods keep the files laid out as it says
    and the index pointing into it, so that the database is a map from instance to value. */
module LogStorage {
  import opened Common
  import opened LogFormat
  import opened LogRecovery
  import opened LogState
  import opened MapTop

  class LogStore {
    const env: Env
    var files: Files
    var metaFileId: nat
    var fileId: nat
    var nowOffset: nat
    var nowSize: nat
    var deletedMax: int
    ghost var history: History

    ghost predicate Valid()
      reads this
    {
      && env.maxFileSize >= 1
      && metaFileId == fileId
      && deletedMax < fileId
      && StoreOk(files, history, fileId, nowOffset)
    }

    /** The process starts on whatever is on disk. */
    constructor (env: Env, files: Files, metaFileId: nat)
      ensures this.env == env && this.files == files && this.metaFileId == metaFileId
      ensures fileId == metaFileId && nowOffset == 0 && deletedMax == -1
    {
      this.env := env;
      this.files := files;
      this.metaFileId := metaFileId;
      fileId, nowOffset, nowSize, deletedMax := metaFileId, 0, 0, -1;
      history := [];
    }

    // ---- writing ----

    method ExpandFile(f: nat)
      requires f in files && env.maxFileSize >= 1
      modifies this`files, this`nowSize, this`nowOffset
      ensures files == Expanded(old(files), f, env.maxFileSize)
      ensures nowOffset == if old(files)[f] == [] then 0 else old(nowOffset)
      ensures nowSize == |files[f]|
    {
      nowSize := |files[f]|;
      if nowSize == 0 {
        files := files[f := WriteAt(files[f], env.maxFileSize - 1, [0])];
        assert files[f] == Zeros(env.maxFileSize);
        nowSize := env.maxFileSize;
        nowOffset := 0;
      }
    }

    /** Where the next frame goes: into the current file, or into a new one when it does not fit. */
    method GetFileFD(needWriteSize: nat)
      requires Valid()
      modifies this`files, this`nowSize, this`nowOffset, this`fileId, this`metaFileId
      ensures Valid()
      ensures if old(nowOffset) + needWriteSize > old(nowSize)
              then fileId == old(fileId) + 1 && nowOffset == 0 && nowSize == env.maxFileSize
                   && fileId !in old(files) && files == old(files)[fileId := Zeros(env.maxFileSize)]
              else fileId == old(fileId) && nowOffset == old(nowOffset) && nowSize == old(nowSize) && files == old(files)
    {
      hide StoreOk;
      if nowOffset + needWriteSize > nowSize {
        NewFileOk(files, history, fileId, nowOffset, env.maxFileSize);
        metaFileId := fileId + 1;
        fileId := fileId + 1;
        files := Opened(files, fileId);
        ExpandFile(fileId);
        assert files == old(files)[fileId := Zeros(env.maxFileSize)];
      }
    }

    /** A record goes behind the last one of the current file, or to the start of a new file. */
    method Append(inst: nat, buffer: Bytes) returns (id: FileId)
      requires Valid() && Rec(inst, buffer).Storable()
      modifies this`files, this`nowSize, this`nowOffset, this`fileId, this`metaFileId, this`history
      ensures Valid()
      ensures var e := Entry(id.file, id.offset, Rec(inst, buffer));
              history == old(history) + [e] && id == e.Id(env.crc)
      ensures if old(nowOffset) + 12 + |buffer| > old(nowSize) then id.file == old(fileId) + 1 && id.offset == 0
              else id.file == old(fileId) && id.offset == old(nowOffset)
      ensures Live(files, id.file) && forall f | f != id.file :: Live(files, f) <==> Live(old(files), f)
    {
      hide StoreOk, WriteAt;
      var len := 8 + |buffer|;
      GetFileFD(len + 4);
      assert fileId in files by {
        CurrentFile(files, history, fileId, nowOffset);
      }
      var frame := Encode(len, 4) + (Encode(inst, 8) + buffer);
      ghost var r := Rec(inst, buffer);
      assert frame == r.Frame();
      AppendOk(files, history, fileId, nowOffset, r);
      id := FileId(fileId, nowOffset, env.crc(Encode(inst, 8) + buffer));
      files := files[fileId := WriteAt(files[fileId], nowOffset, frame)];
      nowOffset := nowOffset + |frame|;
      history := history + [Entry(id.file, id.offset, r)];
    }

    // ---- reading ----

    /** Reading back any record that lies at the place the id names. */
    method Read(id: FileId) returns (ret: int, inst: nat, buffer: Bytes)
      modifies this`files
      ensures files == Opened(old(files), id.file)
      ensures !Live(old(files), id.file) ==> ret == -1
      ensures forall r: Rec |
                Live(old(files), id.file) && r.Storable() && id.offset + |r.Frame()| <= |old(files)[id.file]|
                && old(files)[id.file][id.offset..id.offset + |r.Frame()|] == r.Frame() && id.checksum == env.crc(r.Body())
                :: ret == 0 && inst == r.inst && buffer == r.value
    {
      ret, inst, buffer := -1, 0, [];
      files := Opened(files, id.file);
      var b := files[id.file];
      forall r: Rec | r.Storable() && id.offset + |r.Frame()| <= |b| && b[id.offset..id.offset + |r.Frame()|] == r.Frame()
        ensures |r.Frame()| == 4 + |r.Body()| && |r.Body()| >= 8
        ensures DecodeInt(b[id.offset..id.offset + 4]) == |r.Body()|
        ensures b[id.offset + 4..id.offset + 4 + |r.Body()|] == r.Body()
        ensures Decode(r.Body()[..8]) == r.inst && r.Body()[8..] == r.value
      {
        FrameParses(b, id.offset, r);
      }
      if id.offset + 4 > |b| {
        return;
      }
      var len := DecodeInt(b[id.offset..id.offset + 4]);
      if len < 8 || id.offset + 4 + len > |b| {
        return;
      }
      var body := b[id.offset + 4..id.offset + 4 + len];
      if env.crc(body) != id.checksum {
        ret := -2;
        return;
      }
      ret, inst, buffer := 0, Decode(body[..8]), body[8..];
    }

    // ---- deleting ----

    /** Files up to `f` go, but those more than 2000 before the first file ever deleted stay. */
    method DeleteFile(f: nat)
      requires f < fileId && Valid()
      modifies this`files, this`deletedMax
      ensures Valid()
      ensures files.Keys <= old(files.Keys)
      ensures forall k | k in files :: files[k] == old(files[k])
      ensures forall k | k in old(files) && k !in files :: k <= f
      ensures forall k | k in old(files) && old(deletedMax) < k <= f && k > f - 2000 :: k !in files
      ensures deletedMax == if old(deletedMax) > f then old(deletedMax) else f
    {
      hide StoreOk;
      CurrentFile(files, history, fileId, nowOffset);
      if deletedMax == -1 {
        if f - 2000 > 0 {
          deletedMax := f - 2000;
        }
      }
      if f <= deletedMax {
        return;
      }
      var d := deletedMax + 1;
      while d <= f
        invariant d == deletedMax + 1 && d <= f + 1
        invariant d >= 0 || d > old(deletedMax)
        invariant Valid() && fileId in files
        invariant files.Keys <= old(files.Keys)
        invariant forall k | k in files :: files[k] == old(files[k])
        invariant forall k | k in old(files) && k !in files :: k < d
        invariant forall k | k in old(files) && old(deletedMax) < k < d && k > f - 2000 :: k !in files
      {
        if d >= 0 && d in files {
          FewerFilesOk(files, files - {d}, history, fileId, nowOffset);
          files := files - {d};
        }
        deletedMax := d;
        d := d + 1;
      }
    }

    method Del(id: FileId) returns (ret: int)
      requires Valid()
      modifies this`files, this`deletedMax
      ensures Valid()
      ensures ret == if id.file > fileId then -2 else 0
      ensures files.Keys <= old(files.Keys)
      ensures forall k | k in files :: files[k] == old(files[k])
      ensures forall k | k in old(files) && k !in files :: k < id.file && ret == 0
      ensures ret == 0 ==> forall k | k in old(files) && old(deletedMax) < k < id.file && k > id.file - 2001 :: k !in files
    {
      if id.file > fileId {
        return -2;
      }
      if id.file > 0 {
        DeleteFile(id.file - 1);
      }
      return 0;
    }

    // ---- recovery ----

    /** The start of a process. What a crash left of any history becomes that history again. */
    method Init(db: Database, ghost h: History, ghost j: nat) returns (ret: int)
      requires env.maxFileSize >= 1 && metaFileId == fileId && deletedMax == -1 && nowOffset == 0
      modifies this, db`index
      ensures var r := Rebuild(env, old(files), fileId, old(db.index), 0);
              db.index == r.index && ret == if r.ret == 0 then 0 else -1
      ensures fileId == old(fileId) && metaFileId == old(metaFileId)
      ensures CrashOf(env, old(files), fileId, old(db.index), h, j) ==>
                && ret == 0 && Valid() && history == h
                && db.index == IndexOf(env.crc, h)
                && forall n | 0 <= n < |h| :: Live(files, h[n].file)
    {
      hide StoreOk, FileBytes, Holds, GoodTail, Rebuild;
      ghost var sound := CrashOf(env, files, fileId, db.index, h, j);
      if sound {
        Recovers(env, files, fileId, db.index, h, j);
        assert forall n | 0 <= n < |h| :: h[n].file in files;
      }
      ret := RebuildIndex(db);
      if ret != 0 {
        return -1;
      }
      history := h;
      if sound {
        OpenedOk(files, h, fileId, env.maxFileSize);
      }
      files := Opened(files, fileId);
      ExpandFile(fileId);
    }

    /** Reads the record at an offset, if a complete one is there. */
    method ReadOne(b: Bytes, offset: nat, now: nat) returns (met: Met)
      ensures met == Meet(env, b, offset, now)
    {
      hide Decode, DecodeInt;
      var rest := if offset <= |b| then |b| - offset else 0;
      if rest == 0 {
        return DataEnd;
      }
      if rest < 4 {
        return Short;
      }
      var len := DecodeInt(b[offset..offset + 4]);
      if len == 0 {
        return DataEnd;
      }
      if len > |b| || len < 8 {
        return Wrong;
      }
      if rest - 4 < len {
        return Short;
      }
      var body := b[offset + 4..offset + 4 + len];
      var inst := Decode(body[..8]);
      if inst < now {
        return Wrong;
      }
      if !env.parses(body[8..]) {
        return Unparsable(inst);
      }
      return Complete(len, inst, body);
    }

    /** The scan of one file: every complete record is entered in the index. */
    method ScanFile(b: Bytes, f: nat, off: nat, db: Database, now: nat) returns (s: Scanned)
      modifies this`nowOffset, db`index
      ensures s == Scan(env, b, f, off, old(db.index), old(nowOffset), now)
      ensures db.index == s.index && nowOffset == s.writeOffset
    {
      hide Meet, Scan, IdAt;
      var offset: nat := off;
      var last := now;
      ghost var goal := Scan(env, b, f, off, db.index, nowOffset, now);
      while true
        invariant goal == Scan(env, b, f, offset, db.index, nowOffset, last)
        decreases if offset <= |b| then |b| - offset else 0
      {
        ScanMeets(env, b, f, offset, db.index, nowOffset, last);
        var met := ReadOne(b, offset, last);
        match met {
          case DataEnd =>
            nowOffset := offset;
            return Scanned(0, db.index, nowOffset, last, |b|);
          case Short =>
            return Scanned(0, db.index, nowOffset, last, offset);
          case Wrong =>
            return Scanned(-1, db.index, nowOffset, last, |b|);
          case Unparsable(inst) =>
            nowOffset := offset;
            return Scanned(0, db.index, nowOffset, inst, offset);
          case Complete(len, inst, body) =>
            last := inst;
            db.RebuildOneIndex(inst, IdAt(env, f, offset, body));
            offset := offset + 4 + len;
        }
      }
    }

    method RebuildIndexForOneFile(f: nat, off: nat, db: Database, now: nat) returns (ret: int, last: nat)
      modifies this`files, this`nowOffset, db`index
      ensures f !in old(files) ==>
                ret == 1 && last == now && files == old(files) && nowOffset == old(nowOffset) && db.index == old(db.index)
      ensures f in old(files) ==>
                var s := Scan(env, old(files)[f], f, off, old(db.index), old(nowOffset), now);
                && ret == s.ret && last == s.now && nowOffset == s.writeOffset && db.index == s.index
                && files == old(files)[f := old(files)[f][..s.keep]] && ret != 1
    {
      hide Meet, Scan;
      if f !in files {
        return 1, now;
      }
      var s := ScanFile(files[f], f, off, db, now);
      Truncate(f, s.keep);
      return s.ret, s.now;
    }

    /** Cuts a file off behind its last complete record. */
    method Truncate(f: nat, keep: nat)
      requires f in files && keep <= |files[f]|
      modifies this`files
      ensures files == old(files)[f := old(files)[f][..keep]]
    {
      if keep < |files[f]| {
        files := files[f := files[f][..keep]];
      } else {
        assert files[f][..keep] == files[f];
      }
    }

    method RebuildIndex(db: Database) returns (ret: int)
      modifies this`files, this`nowOffset, db`index
      ensures var r := Rebuild(env, old(files), fileId, old(db.index), old(nowOffset));
              ret == r.ret && files == r.files && db.index == r.index && nowOffset == r.writeOffset
    {
      var id, now := db.GetMaxInstanceIDFileID();
      var f: nat, off: nat := 0, 0;
      if id.Some? {
        f, off := id.value.file, id.value.offset;
      }
      if f > fileId {
        return -2;
      }
      hide Scan, FilesFrom;
      ghost var r := RebuildFrom(env, files, fileId, f, off, db.index, nowOffset, now);
      ret := 0;
      var done := false;
      while !done
        invariant !done ==> ret == 0 && r == RebuildFrom(env, files, fileId, f, off, db.index, nowOffset, now)
        invariant done ==> r == Rebuilt(ret, files, db.index, nowOffset)
        decreases if done then 0 else 1, |FilesFrom(files, f)|
      {
        ghost var before := files;
        ret, now := RebuildIndexForOneFile(f, off, db, now);
        if ret != 0 && ret != 1 {
          done := true;
        } else if ret == 1 {
          ret := if f != 0 && f != fileId + 1 then -1 else 0;
          done := true;
        } else {
          OneFileLess(before, files, f);
          f := f + 1;
          off := 0;
        }
      }
    }
  }

  class Database {
    const store: LogStore
    var index: Index
    var minChosen: nat

    ghost predicate Valid()
      reads this, store
    {
      store.Valid() && IndexOk(store.env, store.history, index)
    }

    /** The map the database stands for: the newest value of every instance whose file is still there. */
    ghost function Contents(): map<nat, Bytes>
      reads this, store
    {
      ContentsOf(store.files, store.history, index)
    }

    constructor (env: Env, files: Files, metaFileId: nat, index: Index, minChosen: nat)
      ensures this.index == index && this.minChosen == minChosen && fresh(store)
      ensures store.env == env && store.files == files && store.metaFileId == metaFileId
      ensures store.fileId == metaFileId && store.nowOffset == 0 && store.deletedMax == -1
    {
      store := new LogStore(env, files, metaFileId);
      this.index := index;
      this.minChosen := minChosen;
    }

    method GetMaxInstanceIDFileID() returns (id: Option<FileId>, inst: nat)
      ensures index == map[] ==> id == None && inst == 0
      ensures index != map[] ==> id == Some(index[Top(index)]) && inst == Top(index)
    {
      if index == map[] {
        return None, 0;
      }
      TopIs(index, Top(index));
      var k :| k in index && forall j | j in index :: j <= k;
      TopIs(index, k);
      return Some(index[k]), k;
    }

    method RebuildOneIndex(inst: nat, id: FileId)
      modifies this`index
      ensures index == old(index)[inst := id]
    {
      index := index[inst := id];
    }

    /** A restart after a crash: the data files hold the history (or nothing was ever written), of the index
        any prefix of its writes survived, and the current file has no tail of one to three bytes. The
        database then stands for the same map as before the crash. */
    method Init(ghost h: History, ghost j: nat) returns (ret: int)
      requires store.env.maxFileSize >= 1 && store.metaFileId == store.fileId
      requires store.deletedMax == -1 && store.nowOffset == 0
      modifies this`index, store
      ensures ret == if Rebuild(store.env, old(store.files), store.fileId, old(index), 0).ret == 0 then 0 else -1
      ensures CrashOf(store.env, old(store.files), store.fileId, old(index), h, j) ==>
                && Valid() && store.history == h && store.fileId == old(store.fileId)
                && index == IndexOf(store.env.crc, h) && Contents() == Latest(h)
    {
      hide StoreOk, CrashOf, Rebuild;
      ghost var sound := CrashOf(store.env, store.files, store.fileId, index, h, j);
      ret := store.Init(this, h, j);
      if sound {
        forall i
          ensures i in Latest(h) <==> i in index
          ensures i in Latest(h) ==> Live(store.files, index[i].file)
        {
          var n := IndexPointsAtNewest(store.env.crc, h, i);
        }
      }
    }

    method Put(inst: nat, value: Bytes)
      requires Valid() && Rec(inst, value).Storable()
      modifies this`index, store
      ensures Valid() && Contents() == old(Contents())[inst := value]
      ensures |store.history| == old(|store.history|) + 1 && store.history[..old(|store.history|)] == old(store.history)
      ensures store.history[old(|store.history|)].rec == Rec(inst, value)
      ensures index.Keys == old(index.Keys) + {inst}
    {
      hide StoreOk, IndexOk, ContentsOf, IndexOf;
      var id := store.Append(inst, value);
      ghost var e := Entry(id.file, id.offset, Rec(inst, value));
      PutOk(store.env, old(store.history), index, e);
      PutContents(store.env, old(store.files), old(store.history), old(store.fileId), old(store.nowOffset), index, store.files, e);
      index := index[inst := id];
    }

    method Get(inst: nat) returns (ret: int, value: Bytes)
      requires Valid()
      modifies store`files
      ensures Valid() && Contents() == old(Contents())
      ensures ret == if inst !in index then 1 else if inst in Contents() then 0 else -1
      ensures inst in Contents() ==> value == Contents()[inst]
    {
      hide StoreOk, IndexOk;
      if inst !in index {
        return 1, [];
      }
      var id := index[inst];
      var n := NewestOnDisk(store.env, store.files, store.history, store.fileId, store.nowOffset, index, inst);
      if id.file !in store.files {
        EmptyFileOk(store.files, store.history, store.fileId, store.nowOffset, id.file);
      }
      var fileInst;
      ret, fileInst, value := store.Read(id);
      if ret == 0 && fileInst != inst {
        ret := -2;
      }
    }

    /** Only about one deletion in a hundred (`cleanFiles`) looks at the data files. */
    method Del(inst: nat, cleanFiles: bool) returns (ret: int)
      requires Valid()
      modifies this`index, store`files, store`deletedMax
      ensures Valid() && ret == 0 && index == old(index) - {inst}
      ensures store.files.Keys <= old(store.files.Keys)
      ensures cleanFiles && inst in old(index) ==>
                forall k | k in old(store.files) && old(store.deletedMax) < k < old(index)[inst].file && k > old(index)[inst].file - 2001 ::
                  k !in store.files
      ensures forall i | i in Contents() :: i in old(Contents()) && i != inst && Contents()[i] == old(Contents())[i]
      ensures Ascending(store.history) ==>
                forall n | 0 <= n < |store.history| && store.history[n].file in old(store.files.Keys) - store.files.Keys ::
                  store.history[n].rec.inst <= inst
      ensures Ascending(store.history) ==> forall i | i in old(Contents()) && i > inst :: i in Contents()
    {
      hide StoreOk, IndexOf, Latest;
      ghost var before := store.files;
      ret := 0;
      if cleanFiles {
        if inst !in index {
          assert index == index - {inst};
          return 0;
        }
        if Ascending(store.history) {
          FilesBeforeOk(store.env, store.files, store.history, store.fileId, store.nowOffset, index, inst);
        }
        var n := NewestOnDisk(store.env, store.files, store.history, store.fileId, store.nowOffset, index, inst);
        ret := store.Del(index[inst]);
        assert forall k | k in before && k !in store.files :: k < index[inst].file;
      }
      index := index - {inst};
      assert forall i | i in index :: Indexed(store.env, store.history, old(index), i);
    }
  }
}
