/** Deletion of old log records: the cleaner, the cursors of the checkpoint manager, and what stays
    readable while instances are learned, checkpoints advance and the process restarts. */
module LogCleaner {
  import opened LogFormat
  import opened LogState
  import opened LogStorage

  const CAN_DELETE_DELTA: nat := 1000000
  const DELETE_SAVE_INTERVAL: nat := 100

  /** `checkpoint` is the first instance the state machines' checkpoint does not cover. */
  class CheckpointMgr {
    const db: Database
    var minChosen: nat
    var maxChosen: nat
    var checkpoint: nat

    ghost predicate Valid()
      reads this, db, db.store
    {
      && db.Valid()
      && Ascending(db.store.history)
      && (forall n | 0 <= n < |db.store.history| :: db.store.history[n].rec.inst <= maxChosen)
      && db.minChosen <= minChosen <= checkpoint <= maxChosen
    }

    /** Every finished instance above the cursor can be read. */
    ghost predicate Readable()
      reads this, db, db.store
    {
      forall i | minChosen < i < maxChosen :: i in db.Contents()
    }

    /** Between the saved cursor and `next` everything is gone; from `next` on, what is indexed can be read. */
    ghost predicate DeletedUpTo(next: nat)
      reads this, db, db.store
    {
      && (forall i | db.minChosen <= i < next :: i !in db.index)
      && (forall i | i in db.index && i >= next :: i in db.Contents())
    }

    constructor (db: Database, minChosen: nat, maxChosen: nat, checkpoint: nat)
      ensures this.db == db && this.minChosen == minChosen && this.maxChosen == maxChosen && this.checkpoint == checkpoint
    {
      this.db := db;
      this.minChosen := minChosen;
      this.maxChosen := maxChosen;
      this.checkpoint := checkpoint;
    }

    method SetMinChosenInstanceID(inst: nat)
      modifies this`minChosen, db`minChosen
      ensures minChosen == inst && db.minChosen == inst
    {
      db.minChosen := inst;
      minChosen := inst;
    }
  }

  class Cleaner {
    const mgr: CheckpointMgr
    var lastSave: nat
    var holdCount: nat
    // Where the current pass of the loop stands, and what it read when it began; other threads may write
    // records, finish instances and move the checkpoint between two of its steps.
    var next: nat
    var cpSeen: nat
    var maxSeen: nat

    ghost function Parts(): set<object>
      reads this, mgr, mgr.db
    {
      {this, mgr, mgr.db, mgr.db.store}
    }

    ghost predicate Valid()
      reads this, mgr, mgr.db, mgr.db.store
    {
      && mgr.Valid() && mgr.Readable() && mgr.DeletedUpTo(next)
      && mgr.minChosen <= next <= mgr.minChosen + 1
      && next <= mgr.checkpoint
      && cpSeen <= mgr.checkpoint && maxSeen <= mgr.maxChosen
      && (mgr.minChosen == mgr.db.minChosen || mgr.minChosen < lastSave + DELETE_SAVE_INTERVAL)
      && (lastSave == 0 || lastSave < mgr.db.minChosen)
    }

    /** A cleaner for a process that has just repaired its cursor. */
    constructor (mgr: CheckpointMgr)
      requires mgr.Valid() && mgr.Readable() && mgr.DeletedUpTo(mgr.minChosen) && mgr.db.minChosen == mgr.minChosen
      ensures Valid() && this.mgr == mgr && holdCount == CAN_DELETE_DELTA
    {
      this.mgr := mgr;
      lastSave := 0;
      holdCount := CAN_DELETE_DELTA;
      next, cpSeen, maxSeen := mgr.minChosen, 0, 0;
    }

    method SetHoldPaxosLogCount(count: nat)
      requires Valid()
      modifies this`holdCount
      ensures Valid() && holdCount == if count < 300 then 300 else count
    {
      hide StoreOk, IndexOk, ContentsOf;
      holdCount := if count < 300 then 300 else count;
    }

    method DeleteOne(inst: nat, cleanFiles: bool) returns (ok: bool)
      requires Valid() && inst == next && inst < mgr.checkpoint
      modifies mgr`minChosen, this`lastSave, mgr.db`minChosen, mgr.db`index, mgr.db.store`files, mgr.db.store`deletedMax
      ensures ok && mgr.Valid() && mgr.Readable() && mgr.DeletedUpTo(inst + 1)
      ensures inst <= mgr.minChosen <= inst + 1
      ensures mgr.minChosen == mgr.db.minChosen || mgr.minChosen < lastSave + DELETE_SAVE_INTERVAL
      ensures lastSave == 0 || lastSave < mgr.db.minChosen
      ensures forall i | i in old(mgr.db.Contents()) && i > inst :: i in mgr.db.Contents()
      ensures forall i | i in mgr.db.Contents() ::
                i in old(mgr.db.Contents()) && mgr.db.Contents()[i] == old(mgr.db.Contents())[i]
      ensures forall n | 0 <= n < |mgr.db.store.history|
                         && mgr.db.store.history[n].file in old(mgr.db.store.files.Keys) - mgr.db.store.files.Keys ::
                mgr.db.store.history[n].rec.inst <= inst
    {
      hide StoreOk, IndexOk, ContentsOf;
      var ret := mgr.db.Del(inst, cleanFiles);
      if ret != 0 {
        return false;
      }
      mgr.minChosen := inst;
      if inst >= lastSave + DELETE_SAVE_INTERVAL {
        mgr.SetMinChosenInstanceID(inst + 1);
        lastSave := inst;
      }
      return true;
    }

    // ---- one pass of the loop ----

    method BeginPass()
      requires Valid()
      modifies this`next, this`cpSeen, this`maxSeen
      ensures Valid()
      ensures next == mgr.minChosen && cpSeen == mgr.checkpoint && maxSeen == mgr.maxChosen
    {
      next := mgr.minChosen;
      cpSeen := mgr.checkpoint;
      maxSeen := mgr.maxChosen;
    }

    /** One round of the inner loop. Whatever is within the hold count of the checkpoint or of the newest
        instance, as they are now, stays; a data file goes only if all its records are up to the deleted
        instance. */
    method Step() returns (more: bool)
      requires Valid()
      modifies Parts() - {mgr.db.store}, mgr.db.store`files, mgr.db.store`deletedMax
      ensures Valid()
      ensures unchanged(mgr`maxChosen, mgr`checkpoint, this`holdCount, this`cpSeen, this`maxSeen)
      ensures more == (old(next) + holdCount < cpSeen && old(next) + holdCount < maxSeen)
      ensures next == if more then old(next) + 1 else old(next)
      ensures forall i | i in old(mgr.db.Contents()) && i >= next :: i in mgr.db.Contents()
      ensures forall i | i in old(mgr.db.Contents()) && (i + holdCount >= mgr.checkpoint || i + holdCount >= mgr.maxChosen) ::
                i in mgr.db.Contents()
      ensures forall i | i in mgr.db.Contents() ::
                i in old(mgr.db.Contents()) && mgr.db.Contents()[i] == old(mgr.db.Contents())[i]
      ensures forall n | 0 <= n < |mgr.db.store.history|
                         && mgr.db.store.history[n].file in old(mgr.db.store.files.Keys) - mgr.db.store.files.Keys ::
                mgr.db.store.history[n].rec.inst <= old(next)
    {
      hide StoreOk, IndexOk, ContentsOf;
      more := next + holdCount < cpSeen && next + holdCount < maxSeen;
      if more {
        var cleanFiles: bool := *;
        var ok := DeleteOne(next, cleanFiles);
        next := next + 1;
      }
    }

    /** A whole pass without anybody in between deletes exactly up to the hold count. */
    method Pass()
      requires Valid()
      modifies Parts() - {mgr.db.store}, mgr.db.store`files, mgr.db.store`deletedMax
      ensures Valid()
      ensures unchanged(mgr`maxChosen, mgr`checkpoint, this`holdCount)
      ensures next + holdCount >= mgr.checkpoint || next + holdCount >= mgr.maxChosen
      ensures next == old(mgr.minChosen) || (next + holdCount <= mgr.checkpoint && next + holdCount <= mgr.maxChosen)
      ensures forall i | i in old(mgr.db.Contents()) && i >= next ::
                i in mgr.db.Contents() && mgr.db.Contents()[i] == old(mgr.db.Contents())[i]
    {
      hide StoreOk, IndexOk, ContentsOf;
      BeginPass();
      var more := true;
      while more
        invariant Valid()
        invariant unchanged(mgr`maxChosen, mgr`checkpoint, this`holdCount)
        invariant cpSeen == mgr.checkpoint && maxSeen == mgr.maxChosen
        invariant !more ==> next + holdCount >= cpSeen || next + holdCount >= maxSeen
        invariant next == old(mgr.minChosen) || (next + holdCount <= cpSeen && next + holdCount <= maxSeen)
        invariant forall i | i in old(mgr.db.Contents()) && i >= next ::
                    i in mgr.db.Contents() && mgr.db.Contents()[i] == old(mgr.db.Contents())[i]
        decreases if more then 1 else 0, cpSeen - next
      {
        more := Step();
        assert more ==> next <= cpSeen;
      }
    }

    // ---- the other threads of the node ----

    /** The acceptor or the learner writes a record of the current instance. */
    method WriteRecord(value: Bytes)
      requires Valid() && Rec(mgr.maxChosen, value).Storable()
      modifies mgr.db`index, mgr.db.store
      ensures Valid() && mgr.db.Contents() == old(mgr.db.Contents())[mgr.maxChosen := value]
    {
      hide StoreOk, IndexOk, ContentsOf;
      mgr.db.Put(mgr.maxChosen, value);
    }

    /** The current instance, whose record is written, is finished. */
    method FinishInstance()
      requires Valid() && mgr.maxChosen in mgr.db.Contents()
      modifies mgr`maxChosen
      ensures Valid() && mgr.maxChosen == old(mgr.maxChosen) + 1
    {
      hide StoreOk, IndexOk, ContentsOf;
      mgr.maxChosen := mgr.maxChosen + 1;
    }

    method AdvanceCheckpoint(checkpoint: nat)
      requires Valid() && mgr.checkpoint <= checkpoint <= mgr.maxChosen
      modifies mgr`checkpoint
      ensures Valid() && mgr.checkpoint == checkpoint
    {
      hide StoreOk, IndexOk, ContentsOf;
      mgr.checkpoint := checkpoint;
    }

    // ---- restart ----

    /** What a crash leaves. Deletions from the index are not synchronised: those from `c` on may have been
        lost with the machine. Data files are deleted from the oldest on. With `c == next` nothing was lost. */
    ghost predicate Undone(c: nat)
      reads this, mgr, mgr.db, mgr.db.store
    {
      && mgr.Valid() && mgr.Readable()
      && mgr.db.minChosen <= c <= next && mgr.minChosen <= next <= mgr.minChosen + 1 && next <= mgr.checkpoint
      && (mgr.minChosen == mgr.db.minChosen || mgr.minChosen < lastSave + DELETE_SAVE_INTERVAL)
      && (lastSave == 0 || lastSave < mgr.db.minChosen)
      && (forall i | mgr.db.minChosen <= i < c :: i !in mgr.db.index)
      && (c < next ==> forall i | c <= i <= mgr.minChosen && i < mgr.maxChosen :: i in mgr.db.index)
      && (forall i, j | c <= i < j && i in mgr.db.Contents() && j in mgr.db.index :: j in mgr.db.Contents())
      && (forall i | i >= next && i in mgr.db.index :: i in mgr.db.Contents())
    }

    /** The deletions of a process that stopped are all there. */
    lemma NothingUndone()
      requires Valid()
      ensures Undone(next)
    {
      hide StoreOk, IndexOk, ContentsOf;
    }

    /** The cursor of a new process is the saved one, which lags behind. Skipping the missing instances
        brings it past everything deleted before the crash: nothing above it is missing. If deletions were
        undone it fails exactly when the first instance that came back has lost its data file. */
    method FixMinChosenInstanceID(ghost c: nat) returns (ret: int)
      requires Undone(c)
      modifies mgr`minChosen, mgr.db`minChosen, mgr.db.store`files, this
      ensures ret == if c < old(next) && c !in old(mgr.db.Contents()) then -1 else 0
      ensures mgr.db.Contents() == old(mgr.db.Contents())
      ensures ret == 0 ==> Valid() && mgr.minChosen == mgr.db.minChosen
      ensures ret == 0 ==> mgr.minChosen >= (if c < old(next) then c else old(mgr.minChosen))
      ensures ret == 0 ==> mgr.minChosen <= old(mgr.db.minChosen) + DELETE_SAVE_INTERVAL
    {
      hide StoreOk, IndexOk, ContentsOf, Ascending;
      ghost var lost := next;
      mgr.minChosen := mgr.db.minChosen;
      lastSave := 0;
      var was := mgr.minChosen;
      var fixed := was;
      var inst := was;
      var found := false;
      while inst < was + DELETE_SAVE_INTERVAL && inst < mgr.checkpoint && !found
        invariant was <= fixed <= inst <= was + DELETE_SAVE_INTERVAL && fixed <= mgr.checkpoint
        invariant fixed == inst && lastSave == 0 && mgr.minChosen == was && mgr.db.minChosen == was
        invariant found ==> inst in mgr.db.Contents() && inst >= c
        invariant c < lost ==> inst <= c
        invariant mgr.db.index == old(mgr.db.index) && mgr.db.Valid() && mgr.db.Contents() == old(mgr.db.Contents())
        invariant forall i | was <= i < fixed :: i !in mgr.db.index
        decreases was + DELETE_SAVE_INTERVAL - inst, if found then 0 else 1
      {
        var value;
        ret, value := mgr.db.Get(inst);
        if ret != 0 && ret != 1 {
          return -1;
        } else if ret == 1 {
          fixed := inst + 1;
          inst := inst + 1;
        } else {
          found := true;
        }
      }
      ret := 0;
      if fixed > was {
        mgr.SetMinChosenInstanceID(fixed);
      }
      next, cpSeen, maxSeen := mgr.minChosen, 0, 0;
    }
  }
}
