/** One node, its log on disk, and crashes at any point: a process executes the instances from its
    checkpoint on without a gap, and when a restart may use a proposal id again. Messages from the network
    are arbitrary here. */
module PaxosRestart {
  import opened Common
  import opened PaxosTypes
  import opened PaxosNode
  import opened MapTop

  /** Loading the newest record, or nothing from an empty log. */
  ghost function LoadedInst(log: map<nat, Record>): nat {
    if log == map[] then 0 else Top(log)
  }

  ghost function LoadedAcceptor(log: map<nat, Record>): Acceptor {
    if log == map[] then Acceptor(NULL_BALLOT, NULL_BALLOT, [], 0)
    else var r := log[Top(log)]; Acceptor(r.promise, r.accepted, r.value, r.checksum)
  }

  predicate Playable(log: map<nat, Record>, begin: nat, end: nat) {
    forall i | begin <= i < end :: i in log
  }

  function PlayLog(log: map<nat, Record>, begin: nat, end: nat): (vs: seq<Value>)
    requires Playable(log, begin, end)
    ensures |vs| == if begin < end then end - begin else 0
    ensures forall i | begin <= i < end :: vs[i - begin] == log[i].value
    decreases end - begin
  {
    if begin >= end then [] else [log[begin].value] + PlayLog(log, begin + 1, end)
  }

  lemma {:induction false} PlayLogAppend(log: map<nat, Record>, begin: nat, end: nat)
    requires begin <= end && Playable(log, begin, end) && end in log
    ensures PlayLog(log, begin, end + 1) == PlayLog(log, begin, end) + [log[end].value]
    decreases end - begin
  {
    if begin < end {
      PlayLogAppend(log, begin + 1, end);
    }
  }

  function RestartChecksum(log: map<nat, Record>, now: nat, minChosen: nat): nat {
    if now == 0 || now <= minChosen then 0
    else if now - 1 in log then log[now - 1].checksum
    else 0
  }

  /** The start of a process from the log of an earlier one; `cp` is the first instance not covered by
      the state machine's checkpoint. It fails when the log and the checkpoint do not fit together. */
  ghost function Restart(s: Node, cp: nat, minChosen: nat): Option<Node> {
    var inst0 := LoadedInst(s.log);
    var acc0 := LoadedAcceptor(s.log);
    var prop := Proposer(acc0.promise.pid + 1, 0, [], NULL_BALLOT, false, false, false, false, NEW_ROUND, 0);
    if cp < inst0 then
      if cp < minChosen || !Playable(s.log, cp, inst0) then None
      else Some(s.(inst := inst0, acc := acc0, prop := prop, executed := PlayLog(s.log, cp, inst0),
                   last := RestartChecksum(s.log, inst0, minChosen)))
    else if cp == inst0 then
      Some(s.(inst := cp, acc := acc0, prop := prop, executed := [], last := RestartChecksum(s.log, cp, minChosen)))
    else if cp <= inst0 + 1 || inst0 == 0 then
      var min := if cp <= inst0 + 1 then minChosen else cp;
      Some(s.(inst := cp, acc := Acceptor(acc0.promise, NULL_BALLOT, [], 0), prop := prop, executed := [],
              last := RestartChecksum(s.log, cp, min)))
    else None
  }

  // ---- handling that stops in the middle of an accept ----

  datatype Input =
    | Receive(m: Msg)
    | Client(value: Value)
    | Timer
    | CommitTimer

  predicate Feasible(s: Node, i: Input) {
    match i
    case Receive(m) => m.from != s.me
    case Client(value) => value != []
    case Timer => s.prop.preparing || s.prop.accepting
    case CommitTimer => true
  }

  function Handle(cfg: Config, s: Node, i: Input): Node {
    match i
    case Receive(m) => OnReceive(cfg, s, m)
    case Client(value) => NewValue(cfg, s, value)
    case Timer => OnTimeout(cfg, s)
    case CommitTimer => OnCommitTimeout(s)
  }

  // An accept goes out before the node's own acceptor hears of it. These functions follow the handlers up to
  // that point, if they get there.

  function HaltedReply(cfg: Config, s: Node, from: NodeId, pid: nat, reject: nat, pre: Ballot, value: Value): Option<Node> {
    if !s.prop.preparing || pid != s.prop.pid then None
    else
      var s1 := CountPrepareReply(s, from, reject, pre, value);
      if Passed(cfg, s1.prop) then Some(StartAccept(s1.(prop := s1.prop.(canSkip := true)))) else None
  }

  function HaltedPrepare(cfg: Config, s: Node, needNew: bool): Option<Node> {
    var s1 := StartPrepare(s, needNew);
    var answer := PrepareAnswer(s1, s1.me, s1.prop.pid);
    var s2 := OnPrepare(cfg, s1, s1.me, s1.prop.pid);
    HaltedReply(cfg, s2, answer.from, answer.pid, answer.reject, answer.pre, answer.value)
  }

  function Halted(cfg: Config, s: Node, i: Input): Option<Node> {
    match i
    case Receive(m) =>
      if m.PrepareReply? && m.from in cfg.members && m.inst == s.inst
      then HaltedReply(cfg, s, m.from, m.pid, m.reject, m.pre, m.value) else None
    case Client(value) =>
      var s1 := if |s.prop.value| == 0 then s.(prop := s.prop.(value := value)) else s;
      if s1.prop.canSkip && !s1.prop.rejected then Some(StartAccept(s1)) else HaltedPrepare(cfg, s1, s1.prop.rejected)
    case Timer =>
      if s.inst != s.prop.timeoutInst then None else HaltedPrepare(cfg, s, s.prop.rejected)
    case CommitTimer => None
  }

  /** The own acceptor hears of the accept, and its answer is counted. */
  function FinishAccept(cfg: Config, s: Node): Node {
    var answer := AcceptAnswer(s, s.me, s.prop.pid);
    OnAcceptReply(cfg, OnAccept(cfg, s, s.me, s.prop.pid, s.prop.value), answer.from, answer.pid, answer.reject)
  }

  /** The handlers do go through the point where they may halt. */
  lemma HandlesThroughHalt(cfg: Config, s: Node, i: Input)
    requires Halted(cfg, s, i).Some?
    ensures Handle(cfg, s, i) == FinishAccept(cfg, Halted(cfg, s, i).value)
  {
    hide OnAccept, OnAcceptReply, OnPrepare;
  }

  // ---- runs ----

  datatype Event =
    | Live(i: Input)
    | Crash(cp: nat, minChosen: nat)
    | CrashInAccept(i: Input, cp: nat, minChosen: nat)

  /** `cp` is the first instance this process executes. `risky` says that the newest record was written by
      log shipping, which stores the learned ballot in place of the promise, and that the ballot was not
      high enough. */
  datatype Process = Process(s: Node, cp: nat, risky: bool)

  /** The node at the moment of a crash. */
  ghost predicate CrashesAt(cfg: Config, p: Process, e: Event, t: Node) {
    match e
    case Live(_) => false
    case Crash(_, _) => t == p.s
    case CrashInAccept(i, _, _) => Feasible(p.s, i) && Halted(cfg, p.s, i) == Some(t)
  }

  ghost predicate Possible(cfg: Config, p: Process, e: Event) {
    match e
    case Live(i) => Feasible(p.s, i)
    case Crash(cp, min) => Restart(p.s, cp, min).Some?
    case CrashInAccept(i, cp, min) =>
      Feasible(p.s, i) && Halted(cfg, p.s, i).Some? && Restart(Halted(cfg, p.s, i).value, cp, min).Some?
  }

  predicate Ships(s: Node, i: Input) {
    i.Receive? && i.m.LearnValue? && i.m.inst == s.inst
  }

  ghost function Next(cfg: Config, p: Process, e: Event): Process
    requires Possible(cfg, p, e)
  {
    match e
    case Live(i) =>
      var t := Handle(cfg, p.s, i);
      Process(t, p.cp, if Ships(p.s, i) then !HighEnough(p.s, i.m.ballot.pid) else p.risky && t.log == p.s.log)
    case Crash(cp, min) => Process(Restart(p.s, cp, min).value, cp, false)
    case CrashInAccept(i, cp, min) => Process(Restart(Halted(cfg, p.s, i).value, cp, min).value, cp, false)
  }

  ghost predicate Leads(cfg: Config, p: Process, run: seq<Event>, q: Process)
    decreases |run|
  {
    if run == [] then q == p else Possible(cfg, p, run[0]) && Leads(cfg, Next(cfg, p, run[0]), run[1..], q)
  }

  function Initial(me: NodeId): Process {
    Process(InitNode(me), 0, false)
  }

  // ---- proposal ids ----

  /** Every proposal id the node ever sent. */
  ghost function Ids(s: Node): set<nat> {
    set m | m in s.sent && (m.Prepare? || m.Accept?) :: m.pid
  }

  /** The own acceptor would refuse this id. */
  predicate Refuses(s: Node, q: nat) {
    !Ballot(q, s.me).Ge(s.acc.promise)
  }

  /** The next prepare may use this id: a higher one, or the present one as long as nobody rejected it. */
  predicate MayUse(s: Node, q: nat) {
    q > s.prop.pid || (q == s.prop.pid && !s.prop.rejected)
  }

  /** An id at or above everything sent, and above everything that may still be sent without being stored. */
  ghost predicate HighEnough(s: Node, id: nat) {
    && (forall q | q in Ids(s) :: q <= id)
    && (forall q: nat | Refuses(s, q) && MayUse(s, q) :: q <= id)
  }

  /** The highest id the own acceptor refuses; below zero there is none. */
  function LastRefused(s: Node): int {
    if s.acc.promise.node > s.me then s.acc.promise.pid else s.acc.promise.pid - 1
  }

  function FirstUsable(s: Node): nat {
    s.prop.pid + if s.prop.rejected then 1 else 0
  }

  /** Two comparisons decide it: with the highest id sent, and with the highest one that may still be refused. */
  lemma HighEnoughIff(s: Node, id: nat)
    ensures HighEnough(s, id) <==>
              && (forall q | q in Ids(s) :: q <= id)
              && (LastRefused(s) >= FirstUsable(s) ==> LastRefused(s) <= id)
  {
    assert forall q: nat :: Refuses(s, q) <==> q <= LastRefused(s);
    assert forall q: nat :: MayUse(s, q) <==> q >= FirstUsable(s);
    if LastRefused(s) >= FirstUsable(s) {
      assert Refuses(s, LastRefused(s)) && MayUse(s, LastRefused(s));
    }
  }

  /** A restart at this moment begins above every id ever sent. */
  ghost predicate StartsAbove(s: Node, cp: nat, minChosen: nat)
    requires Restart(s, cp, minChosen).Some?
  {
    forall q | q in Ids(s) :: q < Restart(s, cp, minChosen).value.prop.pid
  }

  // ---- the invariant ----

  ghost predicate LogBelow(s: Node) {
    forall k | k in s.log :: k <= s.inst
  }

  ghost predicate AcceptedOnDisk(s: Node) {
    !s.acc.accepted.IsNull() ==> s.inst in s.log && s.log[s.inst].value == s.acc.value
  }

  ghost predicate GapFree(s: Node, cp: nat) {
    && s.inst == cp + |s.executed|
    && forall i | cp <= i < s.inst :: i in s.log && s.log[i].value == s.executed[i - cp]
  }

  /** An id in use has been sent. */
  ghost predicate Used(s: Node) {
    s.prop.pid >= 1 && (s.prop.preparing || s.prop.canSkip || s.prop.accepting ==> s.prop.pid in Ids(s))
  }

  /** Nothing was sent above the promise: the own acceptor heard of every ballot first. */
  ghost predicate PromiseFirst(s: Node) {
    forall q | q in Ids(s) :: q <= s.prop.pid && q <= s.acc.promise.pid
  }

  /** What holds in every run; `b` asks for what holds as long as no restart went too low. */
  ghost predicate Sound(s: Node, cp: nat, b: bool) {
    LogBelow(s) && AcceptedOnDisk(s) && GapFree(s, cp) && Used(s) && (b ==> PromiseFirst(s))
  }

  /** The newest record carries the current promise. */
  ghost predicate OnDisk(s: Node) {
    if s.log == map[] then s.acc.promise == NULL_BALLOT else s.log[Top(s.log)].promise == s.acc.promise
  }

  /** The newest record carries an id that is high enough. */
  ghost predicate SafeOnDisk(s: Node) {
    s.log != map[] && HighEnough(s, s.log[Top(s.log)].promise.pid)
  }

  /** Nothing is stored, and whatever is sent was sent before or is refused by the own acceptor. */
  ghost predicate Quiet(s: Node, t: Node) {
    && t.me == s.me && t.log == s.log && t.acc.promise == s.acc.promise
    && (forall q | q in Ids(t) :: q in Ids(s) || (Refuses(s, q) && MayUse(s, q)))
    && (forall q: nat | MayUse(t, q) :: MayUse(s, q))
  }

  /** Either the node was quiet, or the newest record has its promise. */
  ghost predicate Written(s: Node, t: Node) {
    Quiet(s, t) || (t.log != map[] && t.me == s.me && OnDisk(t))
  }

  lemma WrittenThen(s: Node, t: Node, u: Node)
    requires Written(s, t) && Written(t, u)
    ensures Written(s, u)
  {
    if Quiet(t, u) && Quiet(s, t) {
      forall q | q in Ids(u)
        ensures q in Ids(s) || (Refuses(s, q) && MayUse(s, q))
      {
        assert q in Ids(t) || MayUse(t, q);
      }
    }
  }

  lemma QuietKeepsSafe(s: Node, t: Node)
    requires Quiet(s, t) && SafeOnDisk(s)
    ensures SafeOnDisk(t)
  {
  }

  lemma PersistSound(cfg: Config, s: Node, cp: nat, b: bool)
    requires LogBelow(s) && GapFree(s, cp) && Used(s) && (b ==> PromiseFirst(s))
    ensures var t := Persist(cfg, s); Sound(t, cp, b) && t.log != map[] && OnDisk(t)
  {
    var t := Persist(cfg, s);
    assert IsTop(t.log, s.inst);
    TopIs(t.log, s.inst);
    assert Ids(t) == Ids(s);
  }

  lemma SendOther(s: Node, m: Msg)
    requires !m.Prepare? && !m.Accept?
    ensures Ids(Send(s, m)) == Ids(s)
  {
  }

  lemma OnPrepareSound(cfg: Config, s: Node, cp: nat, b: bool, from: NodeId, pid: nat)
    requires Sound(s, cp, b)
    ensures var t := OnPrepare(cfg, s, from, pid); Sound(t, cp, b) && Written(s, t) && Ids(t) == Ids(s)
    ensures !Ballot(pid, from).Ge(s.acc.promise) ==> OnPrepare(cfg, s, from, pid) == Send(s, PrepareAnswer(s, from, pid))
    ensures Ballot(pid, from).Ge(s.acc.promise) ==> var t := OnPrepare(cfg, s, from, pid); t.log != map[] && OnDisk(t) && t.acc.promise == Ballot(pid, from)
  {
    var answer := PrepareAnswer(s, from, pid);
    if Ballot(pid, from).Ge(s.acc.promise) {
      var s1 := s.(acc := s.acc.(promise := Ballot(pid, from)));
      assert Ids(s1) == Ids(s);
      PersistSound(cfg, s1, cp, b);
      assert Ids(Persist(cfg, s1)) == Ids(s1);
      SendOther(Persist(cfg, s1), answer);
    } else {
      SendOther(s, answer);
    }
  }

  lemma OnAcceptSound(cfg: Config, s: Node, cp: nat, b: bool, from: NodeId, pid: nat, value: Value)
    requires Sound(s, cp, b)
    ensures var t := OnAccept(cfg, s, from, pid, value); Sound(t, cp, b) && Written(s, t) && Ids(t) == Ids(s)
  {
    var answer := AcceptAnswer(s, from, pid);
    if Ballot(pid, from).Ge(s.acc.promise) {
      var s1 := s.(acc := s.acc.(promise := Ballot(pid, from), accepted := Ballot(pid, from), value := value));
      assert Ids(s1) == Ids(s);
      PersistSound(cfg, s1, cp, b);
      assert Ids(Persist(cfg, s1)) == Ids(s1);
      SendOther(Persist(cfg, s1), answer);
    } else {
      SendOther(s, answer);
    }
  }

  lemma OnSuccessSound(s: Node, cp: nat, b: bool, inst: nat, from: NodeId, pid: nat)
    requires Sound(s, cp, b)
    ensures var t := OnSuccess(s, inst, from, pid); Sound(t, cp, b) && Quiet(s, t)
  {
    assert Ids(OnSuccess(s, inst, from, pid)) == Ids(s);
  }

  lemma OnAcceptReplySound(cfg: Config, s: Node, cp: nat, b: bool, from: NodeId, pid: nat, reject: nat)
    requires Sound(s, cp, b)
    ensures var t := OnAcceptReply(cfg, s, from, pid, reject); Sound(t, cp, b) && Quiet(s, t)
  {
    hide OnSuccess;
    if s.prop.accepting && pid == s.prop.pid {
      var s1 := CountAcceptReply(s, from, reject);
      assert Ids(s1) == Ids(s);
      if Passed(cfg, s1.prop) {
        var s2 := s1.(prop := s1.prop.(accepting := false));
        assert Ids(s2) == Ids(s);
        var m := Success(s2.inst, s2.me, s2.prop.pid, s2.last);
        SendOther(s2, m);
        OnSuccessSound(Send(s2, m), cp, b, s2.inst, s2.me, s2.prop.pid);
      }
    }
  }

  /** An accept with an id that is in use sends nothing new. */
  lemma StartAcceptSound(s: Node, cp: nat, b: bool)
    requires Sound(s, cp, b) && s.prop.pid in Ids(s)
    ensures var t := StartAccept(s); Sound(t, cp, b) && Quiet(s, t) && Ids(t) == Ids(s)
  {
    var t := StartAccept(s);
    assert forall q | q in Ids(t) :: q in Ids(s);
    assert forall q | q in Ids(s) :: q in Ids(t) by {
      forall q | q in Ids(s)
        ensures q in Ids(t)
      {
        var m :| m in s.sent && (m.Prepare? || m.Accept?) && m.pid == q;
        assert m in t.sent;
      }
    }
  }

  lemma DoAcceptSound(cfg: Config, s: Node, cp: nat, b: bool)
    requires Sound(s, cp, b) && s.prop.pid in Ids(s)
    ensures var t := DoAccept(cfg, s); Sound(t, cp, b) && Written(s, t)
  {
    hide Sound, Written, Quiet, OnAccept, OnAcceptReply;
    var s1 := StartAccept(s);
    StartAcceptSound(s, cp, b);
    var s2 := OnAccept(cfg, s1, s1.me, s1.prop.pid, s1.prop.value);
    OnAcceptSound(cfg, s1, cp, b, s1.me, s1.prop.pid, s1.prop.value);
    var answer := AcceptAnswer(s1, s1.me, s1.prop.pid);
    OnAcceptReplySound(cfg, s2, cp, b, answer.from, answer.pid, answer.reject);
    QuietIsWritten(s, s1);
    QuietIsWritten(s2, DoAccept(cfg, s));
    WrittenThen(s, s1, s2);
    WrittenThen(s, s2, DoAccept(cfg, s));
  }

  lemma QuietIsWritten(s: Node, t: Node)
    requires Quiet(s, t)
    ensures Written(s, t)
  {
  }

  lemma CountReplySound(s: Node, cp: nat, b: bool, m: Msg, skip: bool)
    requires Sound(s, cp, b) && m.PrepareReply? && s.prop.preparing
    ensures var t := CountPrepareReply(s, m.from, m.reject, m.pre, m.value);
            var u := t.(prop := t.prop.(canSkip := t.prop.canSkip || skip));
            Sound(u, cp, b) && Quiet(s, u) && Ids(u) == Ids(s) && u.prop.pid in Ids(u)
  {
    var t := CountPrepareReply(s, m.from, m.reject, m.pre, m.value);
    var u := t.(prop := t.prop.(canSkip := t.prop.canSkip || skip));
    assert Ids(u) == Ids(s);
  }

  lemma OnPrepareReplySound(cfg: Config, s: Node, cp: nat, b: bool, m: Msg)
    requires Sound(s, cp, b) && m.PrepareReply?
    ensures var t := OnPrepareReply(cfg, s, m.from, m.pid, m.reject, m.pre, m.value); Sound(t, cp, b) && Written(s, t)
    ensures var h := HaltedReply(cfg, s, m.from, m.pid, m.reject, m.pre, m.value);
            h.Some? ==> Sound(h.value, cp, b) && Written(s, h.value)
  {
    hide DoAccept, Sound, Written, Quiet, StartAccept, CountPrepareReply;
    var t := OnPrepareReply(cfg, s, m.from, m.pid, m.reject, m.pre, m.value);
    if s.prop.preparing && m.pid == s.prop.pid {
      var s1 := CountPrepareReply(s, m.from, m.reject, m.pre, m.value);
      if Passed(cfg, s1.prop) {
        CountReplySound(s, cp, b, m, true);
        var s2 := s1.(prop := s1.prop.(canSkip := true));
        QuietIsWritten(s, s2);
        DoAcceptSound(cfg, s2, cp, b);
        WrittenThen(s, s2, t);
        StartAcceptSound(s2, cp, b);
        QuietIsWritten(s2, StartAccept(s2));
        WrittenThen(s, s2, StartAccept(s2));
      } else {
        CountReplySound(s, cp, b, m, false);
        assert s1.(prop := s1.prop.(canSkip := s1.prop.canSkip || false)) == s1;
        QuietIsWritten(s, s1);
      }
    } else {
      SameIsQuiet(s);
    }
  }

  lemma SameIsQuiet(s: Node)
    ensures Quiet(s, s) && Written(s, s)
  {
  }

  /** The own acceptor's answer to a prepare: stored, or refused and flagged. */
  lemma OwnAnswerSound(cfg: Config, s: Node, cp: nat, b: bool)
    requires Sound(s, cp, b)
    ensures var s1 := StartPrepare(s, s.prop.rejected);
            var s2 := OnPrepare(cfg, s1, s1.me, s1.prop.pid);
            && Sound(s2, cp, b)
            && (!Refuses(s, s1.prop.pid) ==> s2.log != map[] && OnDisk(s2) && s2.me == s.me)
            && (Refuses(s, s1.prop.pid) ==>
                  s2.log == s.log && s2.acc == s.acc && s2.prop == s1.prop && Ids(s2) == Ids(s) + {s1.prop.pid} && s2.me == s.me)
  {
    hide OnPrepare;
    var pid := NextPid(s.prop, s.prop.rejected);
    var s1 := StartPrepare(s, s.prop.rejected);
    // The same two changes in the other order, which keeps the invariant at every point.
    var q := s.(prop := s.prop.(pid := pid, highestPre := NULL_BALLOT, preparing := false, accepting := false,
                                canSkip := false, rejected := false, counter := NEW_ROUND, timeoutInst := s.inst));
    assert Ids(q) == Ids(s);
    assert Sound(q, cp, b);
    OnPrepareSound(cfg, q, cp, b, s1.me, pid);
    SwapAnswer(cfg, s, q);
    var s2 := OnPrepare(cfg, s1, s1.me, pid);
    var r2 := OnPrepare(cfg, q, s1.me, pid);
    assert Ids(s2) == Ids(r2) + {pid};
  }

  lemma SwapAnswer(cfg: Config, s: Node, q: Node)
    requires q == s.(prop := q.prop) && q.prop.pid == NextPid(s.prop, s.prop.rejected)
    ensures var s1 := StartPrepare(s, s.prop.rejected);
            var s2 := OnPrepare(cfg, s1, s1.me, s1.prop.pid);
            var r2 := OnPrepare(cfg, q, s1.me, s1.prop.pid);
            && s2 == r2.(prop := s1.prop, sent := s2.sent)
            && s2.sent == r2.sent + {Prepare(s.inst, s.me, s1.prop.pid)}
            && Ids(s2) == Ids(r2) + {s1.prop.pid}
  {
    var s1 := StartPrepare(s, s.prop.rejected);
    var s2 := OnPrepare(cfg, s1, s1.me, s1.prop.pid);
    var r2 := OnPrepare(cfg, q, s1.me, s1.prop.pid);
    var m := Prepare(s.inst, s.me, s1.prop.pid);
    assert s2.sent == r2.sent + {m};
    MoreIds(r2.sent, m, s2, r2);
    assert Ids(s2) == Ids(r2) + {s1.prop.pid};
    assert s2.acc == r2.acc && s2.log == r2.log;
    assert s2 == r2.(prop := s1.prop, sent := s2.sent);
  }

  lemma MoreIds(sent: set<Msg>, m: Msg, s2: Node, r2: Node)
    requires r2.sent == sent && s2.sent == sent + {m} && m.Prepare?
    ensures Ids(s2) == Ids(r2) + {m.pid}
  {
    assert m in s2.sent;
    forall q | q in Ids(r2)
      ensures q in Ids(s2)
    {
      var x :| x in r2.sent && (x.Prepare? || x.Accept?) && x.pid == q;
      assert x in s2.sent;
    }
  }

  /** A prepare: the own acceptor hears the new ballot before anything counts on it. */
  lemma DoPrepareSound(cfg: Config, s: Node, cp: nat, b: bool)
    requires Sound(s, cp, b)
    ensures var t := DoPrepare(cfg, s, s.prop.rejected); Sound(t, cp, b) && Written(s, t)
    ensures var h := HaltedPrepare(cfg, s, s.prop.rejected); h.Some? ==> Sound(h.value, cp, b) && Written(s, h.value)
  {
    hide Sound, Written, OnPrepare, OnPrepareReply, HaltedReply;
    var s1 := StartPrepare(s, s.prop.rejected);
    var s2 := OnPrepare(cfg, s1, s1.me, s1.prop.pid);
    OwnAnswerSound(cfg, s, cp, b);
    PreparedIsWritten(cfg, s, s2);
    var r := PrepareAnswer(s1, s1.me, s1.prop.pid);
    OnPrepareReplySound(cfg, s2, cp, b, r);
    WrittenThen(s, s2, DoPrepare(cfg, s, s.prop.rejected));
    if HaltedPrepare(cfg, s, s.prop.rejected).Some? {
      WrittenThen(s, s2, HaltedPrepare(cfg, s, s.prop.rejected).value);
    }
  }

  lemma PreparedIsWritten(cfg: Config, s: Node, s2: Node)
    requires var s1 := StartPrepare(s, s.prop.rejected);
             && (!Refuses(s, s1.prop.pid) ==> s2.log != map[] && OnDisk(s2) && s2.me == s.me)
             && (Refuses(s, s1.prop.pid) ==>
                   s2.log == s.log && s2.acc == s.acc && s2.prop == s1.prop && Ids(s2) == Ids(s) + {s1.prop.pid} && s2.me == s.me)
    ensures Written(s, s2)
  {
  }

  lemma LearnValueSound(cfg: Config, s: Node, cp: nat, b: bool, m: Msg)
    requires Sound(s, cp, b) && m.LearnValue?
    ensures Sound(OnLearnValue(cfg, s, m.inst, m.ballot, m.value), cp, b)
    ensures m.inst != s.inst ==> OnLearnValue(cfg, s, m.inst, m.ballot, m.value) == s
    ensures m.inst == s.inst ==>
              var t := OnLearnValue(cfg, s, m.inst, m.ballot, m.value);
              && t.log != map[] && Top(t.log) == s.inst && t.log[s.inst].promise == m.ballot
              && (HighEnough(t, m.ballot.pid) <==> HighEnough(s, m.ballot.pid))
              && t.acc.promise == s.acc.promise && t.me == s.me && Ids(t) == Ids(s)
              && t.prop.pid == s.prop.pid && t.prop.rejected == s.prop.rejected && t.prop.canSkip == s.prop.canSkip
              && t.inst == s.inst + 1 && t.acc.accepted == NULL_BALLOT
  {
    if m.inst == s.inst {
      var t := OnLearnValue(cfg, s, m.inst, m.ballot, m.value);
      assert Ids(t) == Ids(s);
      assert IsTop(t.log, s.inst);
      TopIs(t.log, s.inst);
      assert forall q: nat :: (Refuses(t, q) <==> Refuses(s, q)) && (MayUse(t, q) <==> MayUse(s, q));
    }
  }

  lemma AdoptSound(s: Node, cp: nat, b: bool, m: Msg)
    requires Sound(s, cp, b)
    ensures var t := AdoptChecksum(s, m); Sound(t, cp, b) && Quiet(s, t) && Ids(t) == Ids(s)
  {
    assert Ids(AdoptChecksum(s, m)) == Ids(s);
  }

  lemma HighEnoughSame(s: Node, t: Node, id: nat)
    requires Ids(t) == Ids(s) && t.me == s.me && t.acc == s.acc && t.prop == s.prop
    ensures HighEnough(s, id) <==> HighEnough(t, id)
  {
    assert forall q: nat :: (Refuses(t, q) <==> Refuses(s, q)) && (MayUse(t, q) <==> MayUse(s, q));
  }

  lemma RejectSound(s: Node, cp: nat, b: bool, reject: nat)
    requires Sound(s, cp, b)
    ensures var t := s.(prop := NoteReject(s.prop, reject)); Sound(t, cp, b) && Quiet(s, t)
  {
    assert Ids(s.(prop := NoteReject(s.prop, reject))) == Ids(s);
  }

  lemma ReplySound(cfg: Config, s: Node, cp: nat, b: bool, m: Msg)
    requires Sound(s, cp, b) && (m.PrepareReply? || m.AcceptReply?)
    ensures var t := ReceiveForProposer(cfg, s, m); Sound(t, cp, b) && Written(s, t)
  {
    hide Sound, Written, Quiet, OnAcceptReply, OnPrepareReply;
    SameIsQuiet(s);
    if m.inst != s.inst {
      RejectSound(s, cp, b, m.reject);
      QuietIsWritten(s, s.(prop := NoteReject(s.prop, m.reject)));
    } else if m.PrepareReply? {
      OnPrepareReplySound(cfg, s, cp, b, m);
    } else {
      OnAcceptReplySound(cfg, s, cp, b, m.from, m.pid, m.reject);
      QuietIsWritten(s, OnAcceptReply(cfg, s, m.from, m.pid, m.reject));
    }
  }

  lemma AcceptorSound(cfg: Config, s: Node, cp: nat, b: bool, m: Msg)
    requires Sound(s, cp, b) && (m.Prepare? || m.Accept?)
    ensures var t := ReceiveForAcceptor(cfg, s, m); Sound(t, cp, b) && Written(s, t)
  {
    hide Sound, Written, Quiet, OnSuccess, OnPrepare, OnAccept;
    SameIsQuiet(s);
    OnSuccessSound(s, cp, b, s.inst, m.from, m.pid);
    var s1 := if m.inst == s.inst + 1 then OnSuccess(s, s.inst, m.from, m.pid) else s;
    QuietIsWritten(s, s1);
    OnPrepareSound(cfg, s1, cp, b, m.from, m.pid);
    WrittenThen(s, s1, OnPrepare(cfg, s1, m.from, m.pid));
    if m.Accept? {
      OnAcceptSound(cfg, s1, cp, b, m.from, m.pid, m.value);
      WrittenThen(s, s1, OnAccept(cfg, s1, m.from, m.pid, m.value));
    }
  }

  lemma ReceiveSound(cfg: Config, s: Node, cp: nat, b: bool, m: Msg)
    requires Sound(s, cp, b)
    ensures var t := OnReceive(cfg, s, m); Sound(t, cp, b) && (Ships(s, Receive(m)) || Written(s, t))
  {
    hide Sound, Written, Quiet, ReceiveForProposer, ReceiveForAcceptor, OnSuccess, OnLearnValue;
    SameIsQuiet(s);
    if m.PrepareReply? || m.AcceptReply? {
      ReplySound(cfg, s, cp, b, m);
    } else {
      var s1 := AdoptChecksum(s, m);
      AdoptSound(s, cp, b, m);
      QuietIsWritten(s, s1);
      if m.Prepare? || m.Accept? {
        AcceptorSound(cfg, s1, cp, b, m);
        WrittenThen(s, s1, ReceiveForAcceptor(cfg, s1, m));
      } else if m.Success? {
        OnSuccessSound(s1, cp, b, m.inst, m.from, m.pid);
        QuietIsWritten(s1, OnSuccess(s1, m.inst, m.from, m.pid));
        WrittenThen(s, s1, OnSuccess(s1, m.inst, m.from, m.pid));
      } else {
        LearnValueSound(cfg, s1, cp, b, m);
      }
    }
  }

  lemma SetValueSound(s: Node, cp: nat, b: bool, value: Value)
    requires Sound(s, cp, b)
    ensures var t := s.(prop := s.prop.(value := value));
            Sound(t, cp, b) && Quiet(s, t) && (s.prop.canSkip ==> t.prop.pid in Ids(t))
  {
    assert Ids(s.(prop := s.prop.(value := value))) == Ids(s);
  }

  lemma ClientSound(cfg: Config, s: Node, cp: nat, b: bool, value: Value)
    requires Sound(s, cp, b)
    ensures var t := NewValue(cfg, s, value); Sound(t, cp, b) && Written(s, t)
    ensures var h := Halted(cfg, s, Client(value)); h.Some? ==> Sound(h.value, cp, b) && Written(s, h.value)
  {
    hide Sound, Written, Quiet, DoAccept, DoPrepare, HaltedPrepare, StartAccept;
    var s1 := if |s.prop.value| == 0 then s.(prop := s.prop.(value := value)) else s;
    SetValueSound(s, cp, b, if |s.prop.value| == 0 then value else s.prop.value);
    assert s.(prop := s.prop.(value := s.prop.value)) == s;
    QuietIsWritten(s, s1);
    if s1.prop.canSkip && !s1.prop.rejected {
      DoAcceptSound(cfg, s1, cp, b);
      StartAcceptSound(s1, cp, b);
      QuietIsWritten(s1, StartAccept(s1));
      WrittenThen(s, s1, StartAccept(s1));
    } else {
      DoPrepareSound(cfg, s1, cp, b);
      if HaltedPrepare(cfg, s1, s1.prop.rejected).Some? {
        WrittenThen(s, s1, HaltedPrepare(cfg, s1, s1.prop.rejected).value);
      }
    }
    WrittenThen(s, s1, NewValue(cfg, s, value));
  }

  lemma CommitTimeoutSound(s: Node, cp: nat, b: bool)
    requires Sound(s, cp, b)
    ensures Sound(OnCommitTimeout(s), cp, b) && Quiet(s, OnCommitTimeout(s))
  {
    assert Ids(OnCommitTimeout(s)) == Ids(s);
  }

  /** Every input keeps what holds in every run, also when the handling halts in the middle of an accept. */
  lemma HandleSound(cfg: Config, s: Node, cp: nat, b: bool, i: Input)
    requires Sound(s, cp, b)
    ensures var t := Handle(cfg, s, i); Sound(t, cp, b) && (Ships(s, i) || Written(s, t))
    ensures var h := Halted(cfg, s, i); h.Some? ==> Sound(h.value, cp, b) && Written(s, h.value)
  {
    hide Sound, Written, Quiet, OnReceive, NewValue, DoPrepare, HaltedReply, HaltedPrepare, OnPrepareReply;
    SameIsQuiet(s);
    match i
    case Receive(m) =>
      ReceiveSound(cfg, s, cp, b, m);
      if m.PrepareReply? {
        OnPrepareReplySound(cfg, s, cp, b, m);
      }
    case Client(value) => ClientSound(cfg, s, cp, b, value);
    case Timer => DoPrepareSound(cfg, s, cp, b);
    case CommitTimer =>
      CommitTimeoutSound(s, cp, b);
      QuietIsWritten(s, OnCommitTimeout(s));
  }

  // ---- gap-free execution, over all runs ----

  lemma RestartSound(s: Node, cp0: nat, b: bool, cp: nat, minChosen: nat)
    requires Sound(s, cp0, b) && Restart(s, cp, minChosen).Some?
    ensures Sound(Restart(s, cp, minChosen).value, cp, false)
  {
  }

  lemma StepIsSound(cfg: Config, p: Process, e: Event)
    requires Sound(p.s, p.cp, false) && Possible(cfg, p, e)
    ensures var q := Next(cfg, p, e); Sound(q.s, q.cp, false)
  {
    hide Sound, Restart, Handle, Halted;
    match e
    case Live(i) => HandleSound(cfg, p.s, p.cp, false, i);
    case Crash(cp, min) => RestartSound(p.s, p.cp, false, cp, min);
    case CrashInAccept(i, cp, min) =>
      HandleSound(cfg, p.s, p.cp, false, i);
      RestartSound(Halted(cfg, p.s, i).value, p.cp, false, cp, min);
  }

  lemma InitSound(me: NodeId)
    ensures Sound(Initial(me).s, 0, true) && OnDisk(Initial(me).s)
  {
  }

  lemma {:induction false} RunIsSound(cfg: Config, p: Process, run: seq<Event>, q: Process)
    requires Sound(p.s, p.cp, false) && Leads(cfg, p, run, q)
    ensures Sound(q.s, q.cp, false)
    decreases |run|
  {
    hide Sound, Possible;
    if run != [] {
      StepIsSound(cfg, p, run[0]);
      RunIsSound(cfg, Next(cfg, p, run[0]), run[1..], q);
    }
  }

  /** Gap-free execution: after any run, with crashes at any point and restarts from any record, the values
      executed by the current process are those logged for the instances from its checkpoint on, one after
      the other, up to the current instance. */
  lemma ExecutionHasNoGap(cfg: Config, me: NodeId, run: seq<Event>, p: Process)
    requires Leads(cfg, Initial(me), run, p)
    ensures p.s.inst == p.cp + |p.s.executed|
    ensures forall i | p.cp <= i < p.s.inst :: i in p.s.log && p.s.log[i].value == p.s.executed[i - p.cp]
  {
    hide Sound, Leads, Restart;
    InitSound(me);
    SoundIsWeaker(Initial(me).s, 0);
    RunIsSound(cfg, Initial(me), run, p);
    SoundIsGapFree(p.s, p.cp);
  }

  lemma SoundIsGapFree(s: Node, cp: nat)
    requires Sound(s, cp, false)
    ensures GapFree(s, cp)
  {
  }

  // ---- no ballot is used again ----

  /** The newest record of a process that is not at risk has the promise, or an id that is high enough. */
  ghost predicate BallotsOk(p: Process) {
    Sound(p.s, p.cp, true) && (!p.risky ==> OnDisk(p.s) || SafeOnDisk(p.s))
  }

  /** The crash hits a process whose newest record is not at risk. */
  ghost predicate Careful(cfg: Config, p: Process, e: Event) {
    match e
    case Live(_) => true
    case Crash(_, _) => !p.risky
    case CrashInAccept(i, _, _) => !p.risky || (Halted(cfg, p.s, i).Some? && Halted(cfg, p.s, i).value.log != p.s.log)
  }

  lemma WrittenIsOk(s: Node, t: Node, risky: bool)
    requires !risky ==> OnDisk(s) || SafeOnDisk(s)
    requires Written(s, t)
    ensures !(risky && t.log == s.log) ==> OnDisk(t) || SafeOnDisk(t)
  {
    if !risky && Quiet(s, t) && SafeOnDisk(s) {
      QuietKeepsSafe(s, t);
    }
  }

  lemma RestartIsAbove(s: Node, cp0: nat, cp: nat, minChosen: nat)
    requires Sound(s, cp0, true) && (OnDisk(s) || SafeOnDisk(s)) && Restart(s, cp, minChosen).Some?
    ensures StartsAbove(s, cp, minChosen)
    ensures var t := Restart(s, cp, minChosen).value; Sound(t, cp, true) && OnDisk(t)
  {
    var t := Restart(s, cp, minChosen).value;
    assert Ids(t) == Ids(s);
  }

  lemma StepIsOk(cfg: Config, p: Process, e: Event)
    requires BallotsOk(p) && Possible(cfg, p, e) && Careful(cfg, p, e)
    ensures BallotsOk(Next(cfg, p, e))
  {
    hide Sound, OnDisk, SafeOnDisk, Written, Restart, Handle, Halted;
    match e
    case Live(i) =>
      HandleSound(cfg, p.s, p.cp, true, i);
      if Ships(p.s, i) && HighEnough(p.s, i.m.ballot.pid) {
        ShippedIsOk(cfg, p.s, p.cp, i);
      } else if !Ships(p.s, i) {
        WrittenIsOk(p.s, Handle(cfg, p.s, i), p.risky);
      }
    case Crash(cp, min) => RestartIsAbove(p.s, p.cp, cp, min);
    case CrashInAccept(i, cp, min) =>
      HandleSound(cfg, p.s, p.cp, true, i);
      WrittenIsOk(p.s, Halted(cfg, p.s, i).value, p.risky);
      RestartIsAbove(Halted(cfg, p.s, i).value, p.cp, cp, min);
  }

  lemma ShippedIsOk(cfg: Config, s: Node, cp: nat, i: Input)
    requires Sound(s, cp, true) && Ships(s, i) && HighEnough(s, i.m.ballot.pid)
    ensures SafeOnDisk(Handle(cfg, s, i))
  {
    var s1 := AdoptChecksum(s, i.m);
    AdoptSound(s, cp, true, i.m);
    HighEnoughSame(s, s1, i.m.ballot.pid);
    hide Sound, OnLearnValue;
    LearnValueSound(cfg, s1, cp, true, i.m);
  }

  ghost predicate CarefulRun(cfg: Config, p: Process, run: seq<Event>)
    decreases |run|
  {
    run != [] && Possible(cfg, p, run[0]) ==> Careful(cfg, p, run[0]) && CarefulRun(cfg, Next(cfg, p, run[0]), run[1..])
  }

  lemma {:induction false} RunIsOk(cfg: Config, p: Process, run: seq<Event>, q: Process)
    requires BallotsOk(p) && Leads(cfg, p, run, q) && CarefulRun(cfg, p, run)
    ensures BallotsOk(q)
    decreases |run|
  {
    hide BallotsOk, Possible, Careful;
    if run != [] {
      StepIsOk(cfg, p, run[0]);
      RunIsOk(cfg, Next(cfg, p, run[0]), run[1..], q);
    }
  }

  /** No ballot reuse: after any run, with crashes at any point, also between the sending of an accept and its
      storing, a crash leads to a restart above every proposal id this node ever sent, as long as neither it
      nor an earlier one hit a process whose newest record was shipped with too low a ballot. */
  lemma RestartNeverReusesABallot(cfg: Config, me: NodeId, run: seq<Event>, p: Process, e: Event, t: Node)
    requires Leads(cfg, Initial(me), run, p) && CarefulRun(cfg, Initial(me), run)
    requires Possible(cfg, p, e) && CrashesAt(cfg, p, e, t) && Careful(cfg, p, e)
    ensures forall q | q in Ids(t) :: q < Next(cfg, p, e).s.prop.pid
  {
    hide Sound, OnDisk, SafeOnDisk, Written, Restart, Handle, Halted;
    InitSound(me);
    RunIsOk(cfg, Initial(me), run, p);
    match e
    case Live(_) =>
    case Crash(cp, min) => RestartIsAbove(p.s, p.cp, cp, min);
    case CrashInAccept(i, cp, min) =>
      HandleSound(cfg, p.s, p.cp, true, i);
      WrittenIsOk(p.s, t, p.risky);
      RestartIsAbove(t, p.cp, cp, min);
  }

  /** Every shipped value of the run had a high enough ballot when it was learned. */
  ghost predicate LearnsHigh(cfg: Config, p: Process, run: seq<Event>)
    decreases |run|
  {
    run != [] && Possible(cfg, p, run[0]) ==>
      && (run[0].Live? && Ships(p.s, run[0].i) ==> HighEnough(p.s, run[0].i.m.ballot.pid))
      && LearnsHigh(cfg, Next(cfg, p, run[0]), run[1..])
  }

  /** Checking the ballot when a value is learned is enough: such a run never has a process at risk. */
  lemma {:induction false} LearningHighIsCareful(cfg: Config, p: Process, run: seq<Event>, q: Process)
    requires !p.risky && Leads(cfg, p, run, q) && LearnsHigh(cfg, p, run)
    ensures !q.risky && CarefulRun(cfg, p, run)
    decreases |run|
  {
    hide Restart, Handle, Halted, HighEnough;
    if run != [] {
      LearningHighIsCareful(cfg, Next(cfg, p, run[0]), run[1..], q);
    }
  }

  // ---- exactly when learning a shipped value is safe ----

  /** A run of the same process in which nothing is written to the log. */
  ghost predicate LeadsUnwritten(cfg: Config, p: Process, run: seq<Event>, q: Process)
    decreases |run|
  {
    if run == [] then q == p
    else
      && run[0].Live? && Possible(cfg, p, run[0]) && Next(cfg, p, run[0]).s.log == p.s.log
      && LeadsUnwritten(cfg, Next(cfg, p, run[0]), run[1..], q)
  }

  /** Before the log is written again, a crash can lead to a restart that does not begin above all ids sent. */
  ghost predicate ReusesFrom(cfg: Config, p: Process, run: seq<Event>, q: Process, cp: nat, minChosen: nat) {
    LeadsUnwritten(cfg, p, run, q) && Restart(q.s, cp, minChosen).Some? && !StartsAbove(q.s, cp, minChosen)
  }

  lemma OnDiskIsSafe(s: Node)
    requires s.log != map[] && OnDisk(s) && PromiseFirst(s)
    ensures SafeOnDisk(s)
  {
  }

  lemma UnwrittenStepIsSafe(cfg: Config, p: Process, e: Event)
    requires Sound(p.s, p.cp, true) && SafeOnDisk(p.s)
    requires e.Live? && Possible(cfg, p, e) && Next(cfg, p, e).s.log == p.s.log
    ensures Sound(Next(cfg, p, e).s, p.cp, true) && SafeOnDisk(Next(cfg, p, e).s)
  {
    hide Handle, HighEnough, Quiet;
    var t := Handle(cfg, p.s, e.i);
    HandleSound(cfg, p.s, p.cp, true, e.i);
    if Ships(p.s, e.i) {
      ShippedSame(cfg, p.s, p.cp, e.i);
    } else if Quiet(p.s, t) {
      QuietKeepsSafe(p.s, t);
    } else {
      OnDiskIsSafe(t);
    }
  }

  lemma ShippedSame(cfg: Config, s: Node, cp: nat, i: Input)
    requires Sound(s, cp, true) && Ships(s, i) && SafeOnDisk(s) && Handle(cfg, s, i).log == s.log
    ensures SafeOnDisk(Handle(cfg, s, i))
  {
    var s1 := AdoptChecksum(s, i.m);
    AdoptSound(s, cp, true, i.m);
    HighEnoughSame(s, s1, i.m.ballot.pid);
    hide Sound, OnLearnValue, HighEnough;
    LearnValueSound(cfg, s1, cp, true, i.m);
  }

  lemma {:induction false} UnwrittenIsSafe(cfg: Config, p: Process, run: seq<Event>, q: Process)
    requires Sound(p.s, p.cp, true) && SafeOnDisk(p.s) && LeadsUnwritten(cfg, p, run, q)
    ensures Sound(q.s, q.cp, true) && SafeOnDisk(q.s)
    decreases |run|
  {
    hide Sound, SafeOnDisk, Possible;
    if run != [] {
      UnwrittenStepIsSafe(cfg, p, run[0]);
      UnwrittenIsSafe(cfg, Next(cfg, p, run[0]), run[1..], q);
    }
  }

  /** A node right after it learned a shipped value. */
  ghost predicate JustLearned(s: Node, ballot: Ballot) {
    && s.inst >= 1 && s.log != map[] && Top(s.log) == s.inst - 1 && s.log[s.inst - 1].promise == ballot
    && s.prop.value == [] && s.prop.highestOther == 0 && s.prop.pid >= 1
  }

  lemma LearnsShipped(cfg: Config, s: Node, cp: nat, m: Msg)
    requires Sound(s, cp, false) && m.LearnValue? && m.inst == s.inst
    ensures var t := OnReceive(cfg, s, m);
            && JustLearned(t, m.ballot) && t.me == s.me && Ids(t) == Ids(s)
            && (HighEnough(t, m.ballot.pid) <==> HighEnough(s, m.ballot.pid))
  {
    var s1 := AdoptChecksum(s, m);
    AdoptSound(s, cp, false, m);
    HighEnoughSame(s, s1, m.ballot.pid);
    LearnValueSound(cfg, s1, cp, false, m);
  }

  /** A restart from the shipped record begins right above its ballot. */
  lemma RestartsAtBallot(s: Node, ballot: Ballot, v: Node)
    requires JustLearned(s, ballot) && v.log == s.log
    ensures Restart(v, s.inst, 0).Some? && Restart(v, s.inst, 0).value.prop.pid == ballot.pid + 1
  {
  }

  /** A refused id is sent and nothing is stored. */
  lemma SendsRefused(cfg: Config, s: Node, q: nat)
    requires s.prop.value == [] && q >= 1 && Refuses(s, q)
    requires (q == s.prop.pid && !s.prop.rejected) || (q == NextPid(s.prop, true) && s.prop.rejected)
    ensures var v := NewValue(cfg, s, "x"); v.log == s.log && q in Ids(v)
  {
    var v := NewValue(cfg, s, "x");
    var none: set<NodeId> := {};
    assert |none| == 0;
    if s.prop.canSkip && !s.prop.rejected {
      var m := Accept(s.inst, s.me, q, "x", s.last);
      assert m in v.sent;
    } else {
      var m := Prepare(s.inst, s.me, q);
      assert m in v.sent;
    }
  }

  /** A late rejection of the id last used lifts the next one to any height. */
  lemma LateReject(cfg: Config, s: Node, ballot: Ballot, other: NodeId, q: nat)
    requires JustLearned(s, ballot) && other in cfg.members && q > s.prop.pid
    ensures var t := OnReceive(cfg, s, AcceptReply(s.inst - 1, other, s.me, s.prop.pid, q - 1));
            && t == s.(prop := t.prop) && t.prop.rejected && NextPid(t.prop, true) == q && t.prop.value == []
  {
  }

  lemma TooLowReuses(cfg: Config, p: Process, ballot: Ballot, other: NodeId)
    returns (run: seq<Event>, q: Process, cp: nat)
    requires JustLearned(p.s, ballot) && other in cfg.members && other != p.s.me && !HighEnough(p.s, ballot.pid)
    ensures ReusesFrom(cfg, p, run, q, cp, 0)
  {
    hide OnReceive, NewValue;
    cp := p.s.inst;
    if id :| id in Ids(p.s) && id > ballot.pid {
      run, q := [], p;
      RestartsAtBallot(p.s, ballot, q.s);
      IsReuse(cfg, p, run, q, cp, id);
    } else {
      var id: nat :| Refuses(p.s, id) && MayUse(p.s, id) && id > ballot.pid;
      var client := Live(Client("x"));
      if id == p.s.prop.pid {
        SendsRefused(cfg, p.s, id);
        q := Next(cfg, p, client);
        run := [client];
        assert run[1..] == [];
      } else {
        var late := Live(Receive(AcceptReply(p.s.inst - 1, other, p.s.me, p.s.prop.pid, id - 1)));
        LateReject(cfg, p.s, ballot, other, id);
        var p1 := Next(cfg, p, late);
        SendsRefused(cfg, p1.s, id);
        q := Next(cfg, p1, client);
        run := [late, client];
        assert run[1..] == [client] && run[1..][1..] == [];
        assert LeadsUnwritten(cfg, p1, run[1..], q);
      }
      RestartsAtBallot(p.s, ballot, q.s);
      IsReuse(cfg, p, run, q, cp, id);
    }
  }

  lemma IsReuse(cfg: Config, p: Process, run: seq<Event>, q: Process, cp: nat, id: nat)
    requires LeadsUnwritten(cfg, p, run, q) && Restart(q.s, cp, 0).Some? && id in Ids(q.s)
    requires id >= Restart(q.s, cp, 0).value.prop.pid
    ensures ReusesFrom(cfg, p, run, q, cp, 0)
  {
  }

  /** Learning a shipped value is safe if and only if its ballot is high enough at that moment: then no crash
      before the log is written again, after any further messages, values and timers, leads to a reused id;
      otherwise some continuation does. */
  lemma LearningIsSafeIff(cfg: Config, me: NodeId, before: seq<Event>, p: Process, m: Msg, other: NodeId)
    requires Leads(cfg, Initial(me), before, p) && CarefulRun(cfg, Initial(me), before)
    requires m.LearnValue? && m.inst == p.s.inst && m.from != p.s.me && other in cfg.members && other != p.s.me
    ensures HighEnough(p.s, m.ballot.pid) <==>
              (forall run, q, cp, min :: !ReusesFrom(cfg, Next(cfg, p, Live(Receive(m))), run, q, cp, min))
  {
    hide Sound, OnDisk, SafeOnDisk, HighEnough, OnReceive, ReusesFrom;
    InitSound(me);
    RunIsOk(cfg, Initial(me), before, p);
    SoundIsWeaker(p.s, p.cp);
    LearnsShipped(cfg, p.s, p.cp, m);
    var p1 := Next(cfg, p, Live(Receive(m)));
    if HighEnough(p.s, m.ballot.pid) {
      HandleSound(cfg, p.s, p.cp, true, Receive(m));
      ShippedIsOk(cfg, p.s, p.cp, Receive(m));
      forall run, q, cp, min
        ensures !ReusesFrom(cfg, p1, run, q, cp, min)
      {
        SafeNeverReuses(cfg, p1, run, q, cp, min);
      }
    } else {
      var run, q, cp := TooLowReuses(cfg, p1, m.ballot, other);
      assert ReusesFrom(cfg, p1, run, q, cp, 0);
    }
  }

  lemma SoundIsWeaker(s: Node, cp: nat)
    requires Sound(s, cp, true)
    ensures Sound(s, cp, false)
  {
  }

  lemma SafeNeverReuses(cfg: Config, p: Process, run: seq<Event>, q: Process, cp: nat, minChosen: nat)
    requires Sound(p.s, p.cp, true) && SafeOnDisk(p.s)
    ensures !ReusesFrom(cfg, p, run, q, cp, minChosen)
  {
    if ReusesFrom(cfg, p, run, q, cp, minChosen) {
      hide Sound, SafeOnDisk;
      UnwrittenIsSafe(cfg, p, run, q);
      RestartIsAbove(q.s, q.cp, cp, minChosen);
      assert false;
    }
  }
}
