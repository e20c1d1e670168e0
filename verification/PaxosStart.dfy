/** When a process starts again after a crash: with a checkpoint of the process before it always does, it
    repeats exactly what lies behind the checkpoint, and it remembers its vote. */
module PaxosStart {
  import opened Common
  import opened PaxosTypes
  import opened PaxosNode
  import opened MapTop
  import opened PaxosRestart
  import PaxosChecksums
  import PaxosRuns

  /** The log is written from the current instance on and nothing is removed from it. */
  ghost predicate LogGrows(s: Node, t: Node) {
    s.inst <= t.inst && forall k :: (k in s.log ==> k in t.log) && (k in t.log ==> k in s.log || s.inst <= k)
  }

  /** The record of the current instance, if there is one, is the acceptor's state. */
  ghost predicate CurrentOnDisk(s: Node) {
    && LogBelow(s)
    && (s.inst in s.log ==> s.log[s.inst] == Record(s.acc.promise, s.acc.accepted, s.acc.value, s.acc.checksum))
    && (s.inst !in s.log ==> s.acc.accepted.IsNull())
  }

  ghost predicate Stores(s: Node, t: Node) {
    LogGrows(s, t) && CurrentOnDisk(t)
  }

  lemma StoresThen(s: Node, t: Node, u: Node)
    requires Stores(s, t) && Stores(t, u)
    ensures Stores(s, u)
  {
  }

  lemma Stored(s: Node, t: Node)
    requires Stores(s, t)
    ensures CurrentOnDisk(t)
  {
  }

  lemma SameStores(s: Node, t: Node)
    requires CurrentOnDisk(s) && t.acc == s.acc && t.log == s.log && t.inst == s.inst
    ensures Stores(s, t)
  {
  }

  lemma PrepareStores(cfg: Config, s: Node, from: NodeId, pid: nat)
    requires CurrentOnDisk(s)
    ensures Stores(s, OnPrepare(cfg, s, from, pid))
  {
  }

  lemma AcceptStores(cfg: Config, s: Node, from: NodeId, pid: nat, value: Value)
    requires CurrentOnDisk(s)
    ensures Stores(s, OnAccept(cfg, s, from, pid, value))
  {
  }

  lemma SuccessStores(s: Node, inst: nat, from: NodeId, pid: nat)
    requires CurrentOnDisk(s)
    ensures Stores(s, OnSuccess(s, inst, from, pid))
  {
  }

  lemma LearnStores(cfg: Config, s: Node, inst: nat, ballot: Ballot, value: Value)
    requires CurrentOnDisk(s)
    ensures Stores(s, OnLearnValue(cfg, s, inst, ballot, value))
  {
  }

  lemma AcceptReplyStores(cfg: Config, s: Node, from: NodeId, pid: nat, reject: nat)
    requires CurrentOnDisk(s)
    ensures Stores(s, OnAcceptReply(cfg, s, from, pid, reject))
  {
    hide OnSuccess, CurrentOnDisk, Stores;
    SameStores(s, s);
    SameStores(s, CountAcceptReply(s, from, reject));
    var p := CountAcceptReply(s, from, reject).prop;
    var t := Send(s.(prop := p.(accepting := false)), Success(s.inst, s.me, p.pid, s.last));
    SameStores(s, t);
    Stored(s, t);
    SuccessStores(t, t.inst, t.me, t.prop.pid);
    StoresThen(s, t, OnSuccess(t, t.inst, t.me, t.prop.pid));
  }

  lemma DoAcceptStores(cfg: Config, s: Node)
    requires CurrentOnDisk(s)
    ensures Stores(s, DoAccept(cfg, s))
  {
    hide CurrentOnDisk, Stores, OnAccept, OnAcceptReply;
    var s1 := StartAccept(s);
    SameStores(s, s1);
    Stored(s, s1);
    var s2 := OnAccept(cfg, s1, s1.me, s1.prop.pid, s1.prop.value);
    AcceptStores(cfg, s1, s1.me, s1.prop.pid, s1.prop.value);
    Stored(s1, s2);
    var r := AcceptAnswer(s1, s1.me, s1.prop.pid);
    AcceptReplyStores(cfg, s2, r.from, r.pid, r.reject);
    StoresThen(s, s1, s2);
    StoresThen(s, s2, DoAccept(cfg, s));
  }

  lemma PrepareReplyStores(cfg: Config, s: Node, from: NodeId, pid: nat, reject: nat, pre: Ballot, value: Value)
    requires CurrentOnDisk(s)
    ensures Stores(s, OnPrepareReply(cfg, s, from, pid, reject, pre, value))
    ensures var h := HaltedReply(cfg, s, from, pid, reject, pre, value); h.Some? ==> Stores(s, h.value)
  {
    hide CurrentOnDisk, Stores, DoAccept, StartAccept;
    SameStores(s, s);
    var s1 := CountPrepareReply(s, from, reject, pre, value);
    SameStores(s, s1);
    var s2 := s1.(prop := s1.prop.(canSkip := true));
    SameStores(s, s2);
    Stored(s, s2);
    DoAcceptStores(cfg, s2);
    StoresThen(s, s2, DoAccept(cfg, s2));
    StartStores(s, s2);
  }

  lemma StartStores(s: Node, t: Node)
    requires CurrentOnDisk(s) && t.acc == s.acc && t.log == s.log && t.inst == s.inst
    ensures Stores(s, StartAccept(t))
  {
  }

  lemma DoPrepareStores(cfg: Config, s: Node, needNew: bool)
    requires CurrentOnDisk(s)
    ensures Stores(s, DoPrepare(cfg, s, needNew))
    ensures var h := HaltedPrepare(cfg, s, needNew); h.Some? ==> Stores(s, h.value)
  {
    hide CurrentOnDisk, Stores, OnPrepare, OnPrepareReply, HaltedReply;
    var s1 := StartPrepare(s, needNew);
    SameStores(s, s1);
    Stored(s, s1);
    var r := PrepareAnswer(s1, s1.me, s1.prop.pid);
    var s2 := OnPrepare(cfg, s1, s1.me, s1.prop.pid);
    PrepareStores(cfg, s1, s1.me, s1.prop.pid);
    Stored(s1, s2);
    PrepareReplyStores(cfg, s2, r.from, r.pid, r.reject, r.pre, r.value);
    StoresThen(s, s1, s2);
    StoresThen(s, s2, DoPrepare(cfg, s, needNew));
    if HaltedPrepare(cfg, s, needNew).Some? {
      StoresThen(s, s2, HaltedPrepare(cfg, s, needNew).value);
    }
  }

  lemma ReceiveStores(cfg: Config, s: Node, m: Msg)
    requires CurrentOnDisk(s)
    ensures Stores(s, OnReceive(cfg, s, m))
  {
    hide CurrentOnDisk, Stores, OnPrepare, OnAccept, OnSuccess, OnLearnValue, OnPrepareReply, OnAcceptReply;
    SameStores(s, s);
    var s0 := AdoptChecksum(s, m);
    SameStores(s, s0);
    Stored(s, s0);
    if m.PrepareReply? {
      SameStores(s, s.(prop := NoteReject(s.prop, m.reject)));
      PrepareReplyStores(cfg, s, m.from, m.pid, m.reject, m.pre, m.value);
    } else if m.AcceptReply? {
      SameStores(s, s.(prop := NoteReject(s.prop, m.reject)));
      AcceptReplyStores(cfg, s, m.from, m.pid, m.reject);
    } else if m.Success? {
      SuccessStores(s0, m.inst, m.from, m.pid);
      StoresThen(s, s0, OnSuccess(s0, m.inst, m.from, m.pid));
    } else if m.LearnValue? {
      LearnStores(cfg, s0, m.inst, m.ballot, m.value);
      StoresThen(s, s0, OnLearnValue(cfg, s0, m.inst, m.ballot, m.value));
    } else {
      SuccessStores(s0, s0.inst, m.from, m.pid);
      var s1 := if m.inst == s0.inst + 1 then OnSuccess(s0, s0.inst, m.from, m.pid) else s0;
      StoresThen(s, s0, s1);
      Stored(s, s1);
      PrepareStores(cfg, s1, m.from, m.pid);
      StoresThen(s, s1, OnPrepare(cfg, s1, m.from, m.pid));
      if m.Accept? {
        AcceptStores(cfg, s1, m.from, m.pid, m.value);
        StoresThen(s, s1, OnAccept(cfg, s1, m.from, m.pid, m.value));
      }
    }
  }

  lemma HandleStores(cfg: Config, s: Node, i: Input)
    requires CurrentOnDisk(s)
    ensures Stores(s, Handle(cfg, s, i))
    ensures Halted(cfg, s, i).Some? ==> Stores(s, Halted(cfg, s, i).value)
  {
    hide CurrentOnDisk, Stores, OnReceive, DoAccept, DoPrepare, StartAccept, HaltedReply, HaltedPrepare, OnPrepareReply;
    match i
    case Receive(m) =>
      ReceiveStores(cfg, s, m);
      if m.PrepareReply? {
        PrepareReplyStores(cfg, s, m.from, m.pid, m.reject, m.pre, m.value);
      }
    case Client(value) =>
      var s1 := if |s.prop.value| == 0 then s.(prop := s.prop.(value := value)) else s;
      SameStores(s, s1);
      Stored(s, s1);
      DoAcceptStores(cfg, s1);
      DoPrepareStores(cfg, s1, s1.prop.rejected);
      StoresThen(s, s1, NewValue(cfg, s, value));
      StartStores(s, s1);
      if HaltedPrepare(cfg, s1, s1.prop.rejected).Some? {
        StoresThen(s, s1, HaltedPrepare(cfg, s1, s1.prop.rejected).value);
      }
    case Timer =>
      SameStores(s, s);
      DoPrepareStores(cfg, s, s.prop.rejected);
    case CommitTimer => SameStores(s, OnCommitTimeout(s));
  }

  // ---- runs ----

  /** A process that has executed nothing began right behind its log, or with no log to speak of. */
  ghost predicate BeganWell(s: Node, cp: nat) {
    s.inst == cp ==> cp <= LoadedInst(s.log) + 1 || LoadedInst(s.log) == 0
  }

  ghost predicate Startable(s: Node, cp: nat) {
    Sound(s, cp, false) && CurrentOnDisk(s) && BeganWell(s, cp)
  }

  lemma StoringKeeps(s: Node, t: Node, cp: nat)
    requires Startable(s, cp) && Stores(s, t) && Sound(t, cp, false)
    ensures Startable(t, cp)
  {
    if t.inst == cp {
      if s.inst in t.log {
        assert IsTop(t.log, s.inst);
        TopIs(t.log, s.inst);
      } else {
        assert t.log.Keys == s.log.Keys;
        if s.log != map[] {
          var k := Top(s.log);
          assert IsTop(s.log, k);
          assert IsTop(t.log, k);
          TopIs(t.log, k);
        } else {
          assert t.log == map[];
        }
      }
    }
  }

  lemma RestartKeeps(s: Node, cp0: nat, cp: nat, min: nat)
    requires Startable(s, cp0) && Restart(s, cp, min).Some?
    ensures Startable(Restart(s, cp, min).value, cp)
  {
    RestartSound(s, cp0, false, cp, min);
    LoadedIs(s);
  }

  lemma LoadedIs(s: Node)
    requires LogBelow(s)
    ensures LoadedInst(s.log) <= s.inst && forall k | k in s.log :: k <= LoadedInst(s.log)
    ensures s.log != map[] ==> LoadedInst(s.log) in s.log
    ensures s.inst in s.log ==> LoadedInst(s.log) == s.inst
    ensures s.inst > 0 && s.inst - 1 in s.log ==> s.inst <= LoadedInst(s.log) + 1
  {
    if s.log != map[] {
      var k := Top(s.log);
      assert IsTop(s.log, k);
    }
  }

  lemma StepKeeps(cfg: Config, p: Process, e: Event)
    requires Startable(p.s, p.cp) && Possible(cfg, p, e)
    ensures var q := Next(cfg, p, e); Startable(q.s, q.cp)
  {
    hide Sound, CurrentOnDisk, Stores, BeganWell, Restart, Handle, Halted;
    match e
    case Live(i) =>
      HandleSound(cfg, p.s, p.cp, false, i);
      HandleStores(cfg, p.s, i);
      StoringKeeps(p.s, Handle(cfg, p.s, i), p.cp);
    case Crash(cp, min) => RestartKeeps(p.s, p.cp, cp, min);
    case CrashInAccept(i, cp, min) =>
      CrashKeeps(cfg, p, e, Halted(cfg, p.s, i).value);
      RestartKeeps(Halted(cfg, p.s, i).value, p.cp, cp, min);
  }

  lemma CrashKeeps(cfg: Config, p: Process, e: Event, t: Node)
    requires Startable(p.s, p.cp) && CrashesAt(cfg, p, e, t)
    ensures Startable(t, p.cp)
  {
    hide Sound, CurrentOnDisk, Stores, BeganWell, Handle, Halted;
    if e.CrashInAccept? {
      HandleSound(cfg, p.s, p.cp, false, e.i);
      HandleStores(cfg, p.s, e.i);
      StoringKeeps(p.s, t, p.cp);
    }
  }

  lemma {:induction false} RunKeeps(cfg: Config, p: Process, run: seq<Event>, q: Process)
    requires Startable(p.s, p.cp) && Leads(cfg, p, run, q)
    ensures Startable(q.s, q.cp)
    decreases |run|
  {
    hide Startable, Possible;
    if run != [] {
      StepKeeps(cfg, p, run[0]);
      RunKeeps(cfg, Next(cfg, p, run[0]), run[1..], q);
    }
  }

  lemma PlayedIs(s: Node, cp: nat, begin: nat, end: nat)
    requires GapFree(s, cp) && cp <= begin <= end <= s.inst
    ensures Playable(s.log, begin, end) && PlayLog(s.log, begin, end) == s.executed[begin - cp..end - cp]
  {
    var vs := PlayLog(s.log, begin, end);
    forall k | 0 <= k < |vs|
      ensures vs[k] == s.executed[begin - cp..end - cp][k]
    {
      var i := begin + k;
      assert i in s.log && s.log[i].value == s.executed[i - cp];
      assert vs[i - begin] == s.log[i].value;
    }
  }

  /** After any run, with a crash at any point: a start from any checkpoint the process has reached, above what
      was deleted from the log, succeeds. It is then where the log ends, having executed again exactly the
      values behind the checkpoint, or at the checkpoint if the log ends before it. If anything was stored for
      the current instance, promise, vote and value are all there again; if not, there was no vote. */
  lemma StartSucceeds(cfg: Config, me: NodeId, run: seq<Event>, p: Process, e: Event, t: Node, cp: nat, min: nat)
    requires Leads(cfg, Initial(me), run, p) && CrashesAt(cfg, p, e, t)
    requires p.cp <= cp <= t.inst && min <= cp
    ensures Restart(t, cp, min).Some?
    ensures var q := Restart(t, cp, min).value;
            var end := LoadedInst(t.log);
            if cp <= end then end - p.cp <= |t.executed| && q.inst == end && q.executed == t.executed[cp - p.cp..end - p.cp]
            else q.inst == cp && q.executed == []
    ensures var q := Restart(t, cp, min).value;
            if t.inst in t.log then q.inst == t.inst && q.acc == t.acc else t.acc.accepted.IsNull() && q.inst + 1 >= t.inst
  {
    hide Sound, Leads, CrashesAt, Restart;
    InitSound(me);
    SoundIsWeaker(Initial(me).s, 0);
    InitStartable(me);
    RunKeeps(cfg, Initial(me), run, p);
    CrashKeeps(cfg, p, e, t);
    StartFrom(t, p.cp, cp, min);
  }

  lemma InitStartable(me: NodeId)
    ensures Startable(Initial(me).s, 0)
  {
  }

  lemma StartBehind(t: Node, cp: nat, min: nat)
    requires cp < LoadedInst(t.log) && min <= cp && Playable(t.log, cp, LoadedInst(t.log))
    ensures Restart(t, cp, min).Some?
    ensures var q := Restart(t, cp, min).value;
            && q.inst == LoadedInst(t.log) && q.acc == LoadedAcceptor(t.log)
            && q.executed == PlayLog(t.log, cp, LoadedInst(t.log))
  {
    hide PlayLog, Playable;
  }

  lemma StartHere(t: Node, cp: nat, min: nat)
    requires cp >= LoadedInst(t.log) && (cp <= LoadedInst(t.log) + 1 || LoadedInst(t.log) == 0)
    ensures Restart(t, cp, min).Some?
    ensures var q := Restart(t, cp, min).value;
            q.inst == cp && q.executed == [] && (cp == LoadedInst(t.log) ==> q.acc == LoadedAcceptor(t.log))
  {
    hide PlayLog, Playable;
  }

  lemma LoadedIsCurrent(t: Node)
    requires CurrentOnDisk(t) && t.inst in t.log
    ensures LoadedInst(t.log) == t.inst && LoadedAcceptor(t.log) == t.acc
  {
    LoadedIs(t);
  }

  lemma StartFrom(t: Node, cp0: nat, cp: nat, min: nat)
    requires Startable(t, cp0) && cp0 <= cp <= t.inst && min <= cp
    ensures Restart(t, cp, min).Some?
    ensures var q := Restart(t, cp, min).value;
            var end := LoadedInst(t.log);
            if cp <= end then end - cp0 <= |t.executed| && q.inst == end && q.executed == t.executed[cp - cp0..end - cp0]
            else q.inst == cp && q.executed == []
    ensures var q := Restart(t, cp, min).value;
            if t.inst in t.log then q.inst == t.inst && q.acc == t.acc else t.acc.accepted.IsNull() && q.inst + 1 >= t.inst
  {
    hide Restart, LoadedInst, LoadedAcceptor, PlayLog, Playable, CurrentOnDisk, Startable, Sound, GapFree;
    StartableMeans(t, cp0);
    var end := LoadedInst(t.log);
    if t.inst in t.log {
      LoadedIsCurrent(t);
    }
    if cp <= end {
      PlayedIs(t, cp0, cp, end);
    }
    if cp < end {
      StartBehind(t, cp, min);
    } else {
      StartHere(t, cp, min);
    }
  }

  lemma StartableMeans(t: Node, cp: nat)
    requires Startable(t, cp)
    ensures GapFree(t, cp) && CurrentOnDisk(t) && t.inst == cp + |t.executed|
    ensures LoadedInst(t.log) <= t.inst && (t.inst <= LoadedInst(t.log) + 1 || (LoadedInst(t.log) == 0 && t.inst == cp))
    ensures t.inst !in t.log ==> t.acc.accepted.IsNull()
  {
    LoadedIs(t);
    if t.inst > cp {
      assert t.inst - 1 in t.log;
    }
  }

  /** The first crash of a member of a cluster does not cost it the checksum of the past, unless the records it
      would need were deleted. */
  lemma RestartKnowsThePast(cfg: Config, w: map<NodeId, Node>, q: NodeId, cp: nat, min: nat)
    requires PaxosRuns.Reachable(cfg, w) && q in w && Restart(w[q], cp, min).Some?
    requires Restart(w[q], cp, min).value.inst == w[q].inst && w[q].inst > min && cp <= w[q].inst
    ensures Restart(w[q], cp, min).value.last == w[q].last
  {
    hide PaxosRuns.Reachable, PaxosChecksums.Chain;
    PaxosChecksums.ChecksumsAreExact(cfg, w, q);
    assert w[q].executed[..w[q].inst] == w[q].executed;
    assert w[q].inst - 1 in w[q].log;
    assert IsTop(w[q].log, Top(w[q].log));
  }
}
