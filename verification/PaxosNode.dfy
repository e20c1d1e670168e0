/** One node of the consensus core on values: what each message handler, timer and client call
    makes of the node's state. The classes in PaxosInstance.dfy are proved to compute exactly
    these functions; the safety proof is about runs of them. */
module PaxosNode {
  import opened Common
  import opened PaxosTypes

  datatype Acceptor = Acceptor(promise: Ballot, accepted: Ballot, value: Value, checksum: nat)

  datatype Counter = Counter(received: set<NodeId>, rejects: set<NodeId>, passes: set<NodeId>)

  const NEW_ROUND := Counter({}, {}, {})

  datatype Proposer = Proposer(
    pid: nat, highestOther: nat, value: Value, highestPre: Ballot,
    preparing: bool, accepting: bool, canSkip: bool, rejected: bool,
    counter: Counter, timeoutInst: nat)

  /** What the log keeps for one instance. */
  datatype Record = Record(promise: Ballot, accepted: Ballot, value: Value, checksum: nat)

  /** `executed` is the sequence of values handed to the state machine; `sent` is every message the
      node ever handed to the network or to itself, so it is the network and the history at once. */
  datatype Node = Node(
    me: NodeId, inst: nat, acc: Acceptor, prop: Proposer, last: nat,
    log: map<nat, Record>, executed: seq<Value>, sent: set<Msg>)

  function InitNode(me: NodeId): Node {
    Node(me, 0, Acceptor(NULL_BALLOT, NULL_BALLOT, [], 0),
         Proposer(1, 0, [], NULL_BALLOT, false, false, false, false, NEW_ROUND, 0),
         0, map[], [], {})
  }

  function Send(s: Node, m: Msg): Node {
    s.(sent := s.sent + {m})
  }

  // ---- acceptor ----

  /** The checksum stored with `value` when the checksum of the instances before is `last`. */
  function NextChecksum(cfg: Config, inst: nat, last: nat, value: Value, prior: nat): nat {
    if inst > 0 && last == 0 then 0
    else if |value| > 0 then cfg.crc(last, value)
    else prior
  }

  function Persist(cfg: Config, s: Node): Node {
    var checksum := NextChecksum(cfg, s.inst, s.last, s.acc.value, s.acc.checksum);
    s.(acc := s.acc.(checksum := checksum),
       log := s.log[s.inst := Record(s.acc.promise, s.acc.accepted, s.acc.value, checksum)])
  }

  function PrepareAnswer(s: Node, from: NodeId, pid: nat): Msg {
    if Ballot(pid, from).Ge(s.acc.promise) then
      PrepareReply(s.inst, s.me, from, pid, 0, s.acc.accepted, if s.acc.accepted.pid > 0 then s.acc.value else [])
    else
      PrepareReply(s.inst, s.me, from, pid, s.acc.promise.pid, NULL_BALLOT, [])
  }

  function OnPrepare(cfg: Config, s: Node, from: NodeId, pid: nat): Node {
    var answer := PrepareAnswer(s, from, pid);
    var b := Ballot(pid, from);
    Send(if b.Ge(s.acc.promise) then Persist(cfg, s.(acc := s.acc.(promise := b))) else s, answer)
  }

  function AcceptAnswer(s: Node, from: NodeId, pid: nat): Msg {
    AcceptReply(s.inst, s.me, from, pid, if Ballot(pid, from).Ge(s.acc.promise) then 0 else s.acc.promise.pid)
  }

  function OnAccept(cfg: Config, s: Node, from: NodeId, pid: nat, value: Value): Node {
    var answer := AcceptAnswer(s, from, pid);
    var b := Ballot(pid, from);
    Send(if b.Ge(s.acc.promise)
         then Persist(cfg, s.(acc := s.acc.(promise := b, accepted := b, value := value)))
         else s, answer)
  }

  // ---- learner ----

  /** The value of the current instance is known: run the state machine, remember the checksum and
      start the next instance. The promise and the proposer's ballot survive. */
  function Learn(s: Node, value: Value, checksum: nat): Node {
    s.(inst := s.inst + 1,
       acc := s.acc.(accepted := NULL_BALLOT, value := [], checksum := 0),
       prop := s.prop.(highestOther := 0, value := [], preparing := false, accepting := false, counter := NEW_ROUND),
       last := checksum,
       executed := s.executed + [value])
  }

  /** A success message carries no value: it is learned when the ballot is the one accepted here. */
  predicate SuccessApplies(s: Node, inst: nat, from: NodeId, pid: nat) {
    && inst == s.inst
    && !s.acc.accepted.IsNull()
    && s.acc.accepted == Ballot(pid, from)
  }

  function OnSuccess(s: Node, inst: nat, from: NodeId, pid: nat): Node {
    if SuccessApplies(s, inst, from, pid) then Learn(s, s.acc.value, s.acc.checksum) else s
  }

  function OnLearnValue(cfg: Config, s: Node, inst: nat, ballot: Ballot, value: Value): Node {
    if inst != s.inst then s
    else
      var checksum := NextChecksum(cfg, s.inst, s.last, value, 0);
      Learn(s.(log := s.log[s.inst := Record(ballot, ballot, value, checksum)]), value, checksum)
  }

  // ---- proposer ----

  function Count(c: Counter, from: NodeId, reject: nat): Counter {
    Counter(c.received + {from},
            if reject == 0 then c.rejects else c.rejects + {from},
            if reject == 0 then c.passes + {from} else c.passes)
  }

  function NoteReject(p: Proposer, reject: nat): Proposer {
    p.(rejected := true, highestOther := if reject > p.highestOther then reject else p.highestOther)
  }

  function AddPreAccept(p: Proposer, pre: Ballot, value: Value): Proposer {
    if pre.IsNull() then p
    else if pre.Gt(p.highestPre) then p.(highestPre := pre, value := value)
    else p
  }

  predicate Passed(cfg: Config, p: Proposer) {
    |p.counter.passes| >= cfg.Majority()
  }

  /** Own messages handled after a ballot has been accepted by a majority: tell everybody, self first. */
  function SendSuccess(s: Node): Node {
    OnSuccess(Send(s, Success(s.inst, s.me, s.prop.pid, s.last)), s.inst, s.me, s.prop.pid)
  }

  function CountAcceptReply(s: Node, from: NodeId, reject: nat): Node {
    var p := s.prop.(counter := Count(s.prop.counter, from, reject));
    s.(prop := if reject == 0 then p else NoteReject(p, reject))
  }

  function OnAcceptReply(cfg: Config, s: Node, from: NodeId, pid: nat, reject: nat): Node {
    if !s.prop.accepting || pid != s.prop.pid then s
    else
      var s1 := CountAcceptReply(s, from, reject);
      if Passed(cfg, s1.prop) then SendSuccess(s1.(prop := s1.prop.(accepting := false))) else s1
  }

  function StartAccept(s: Node): Node {
    Send(s.(prop := s.prop.(preparing := false, accepting := true, counter := NEW_ROUND, timeoutInst := s.inst)),
         Accept(s.inst, s.me, s.prop.pid, s.prop.value, s.last))
  }

  /** Broadcast an accept; the node's own acceptor answers within the same step. */
  function DoAccept(cfg: Config, s: Node): Node {
    var s1 := StartAccept(s);
    var answer := AcceptAnswer(s1, s1.me, s1.prop.pid);
    var s2 := OnAccept(cfg, s1, s1.me, s1.prop.pid, s1.prop.value);
    OnAcceptReply(cfg, s2, answer.from, answer.pid, answer.reject)
  }

  function CountPrepareReply(s: Node, from: NodeId, reject: nat, pre: Ballot, value: Value): Node {
    var p := s.prop.(counter := Count(s.prop.counter, from, reject));
    s.(prop := if reject == 0 then AddPreAccept(p, pre, value) else NoteReject(p, reject))
  }

  function AfterPrepareReply(cfg: Config, s: Node): Node {
    if Passed(cfg, s.prop) then DoAccept(cfg, s.(prop := s.prop.(canSkip := true))) else s
  }

  function OnPrepareReply(cfg: Config, s: Node, from: NodeId, pid: nat, reject: nat, pre: Ballot, value: Value): Node {
    if !s.prop.preparing || pid != s.prop.pid then s
    else AfterPrepareReply(cfg, CountPrepareReply(s, from, reject, pre, value))
  }

  function NextPid(p: Proposer, needNew: bool): nat {
    if !needNew then p.pid
    else (if p.pid > p.highestOther then p.pid else p.highestOther) + 1
  }

  function StartPrepare(s: Node, needNew: bool): Node {
    var pid := NextPid(s.prop, needNew);
    Send(s.(prop := s.prop.(pid := pid, highestPre := NULL_BALLOT, preparing := true, accepting := false,
                            canSkip := false, rejected := false, counter := NEW_ROUND, timeoutInst := s.inst)),
         Prepare(s.inst, s.me, pid))
  }

  /** Broadcast a prepare, the node's own acceptor answering first, within the same step. */
  function DoPrepare(cfg: Config, s: Node, needNew: bool): Node {
    var s1 := StartPrepare(s, needNew);
    var answer := PrepareAnswer(s1, s1.me, s1.prop.pid);
    var s2 := OnPrepare(cfg, s1, s1.me, s1.prop.pid);
    OnPrepareReply(cfg, s2, answer.from, answer.pid, answer.reject, answer.pre, answer.value)
  }

  function NewValue(cfg: Config, s: Node, value: Value): Node {
    var s1 := if |s.prop.value| == 0 then s.(prop := s.prop.(value := value)) else s;
    if s1.prop.canSkip && !s1.prop.rejected then DoAccept(cfg, s1)
    else DoPrepare(cfg, s1, s1.prop.rejected)
  }

  /** Prepare and accept timeouts do the same thing. */
  function OnTimeout(cfg: Config, s: Node): Node {
    if s.inst != s.prop.timeoutInst then s else DoPrepare(cfg, s, s.prop.rejected)
  }

  function OnCommitTimeout(s: Node): Node {
    s.(prop := s.prop.(preparing := false, accepting := false))
  }

  // ---- dispatch ----

  /** A node that lost track of the checksum of the past takes over the one it is told. */
  function AdoptChecksum(s: Node, m: Msg): Node {
    if m.Last() != 0 && m.inst == s.inst && s.inst > 0 && s.last == 0 then s.(last := m.Last()) else s
  }

  /** What the code asserts when a message with a checksum arrives. */
  predicate ChecksumAssertion(s: Node, m: Msg) {
    m.Last() != 0 && m.inst == s.inst ==> (s.inst > 0 && s.last == 0) || m.Last() == s.last
  }

  /** A prepare or accept for the next instance stands for the success message of this one. */
  predicate ShortcutFires(s: Node, m: Msg) {
    (m.Prepare? || m.Accept?) && m.inst == s.inst + 1 && SuccessApplies(s, s.inst, m.from, m.pid)
  }

  function ReceiveForAcceptor(cfg: Config, s: Node, m: Msg): Node
    requires m.Prepare? || m.Accept?
  {
    var s1 := if m.inst == s.inst + 1 then OnSuccess(s, s.inst, m.from, m.pid) else s;
    if m.inst != s1.inst then s1
    else if m.Prepare? then OnPrepare(cfg, s1, m.from, m.pid)
    else OnAccept(cfg, s1, m.from, m.pid, m.value)
  }

  function ReceiveForProposer(cfg: Config, s: Node, m: Msg): Node
    requires m.PrepareReply? || m.AcceptReply?
  {
    if m.inst != s.inst then
      if m.inst + 1 == s.inst && m.reject != 0 then s.(prop := NoteReject(s.prop, m.reject)) else s
    else if m.PrepareReply? then OnPrepareReply(cfg, s, m.from, m.pid, m.reject, m.pre, m.value)
    else OnAcceptReply(cfg, s, m.from, m.pid, m.reject)
  }

  function ReceiveForLearner(cfg: Config, s: Node, m: Msg): Node
    requires m.Success? || m.LearnValue?
  {
    if m.Success? then OnSuccess(s, m.inst, m.from, m.pid)
    else OnLearnValue(cfg, s, m.inst, m.ballot, m.value)
  }

  function OnReceive(cfg: Config, s: Node, m: Msg): Node {
    if m.from !in cfg.members && !m.Success? && !m.LearnValue? then s
    else if m.PrepareReply? || m.AcceptReply? then ReceiveForProposer(cfg, s, m)
    else
      var s1 := AdoptChecksum(s, m);
      if m.Prepare? || m.Accept? then ReceiveForAcceptor(cfg, s1, m)
      else ReceiveForLearner(cfg, s1, m)
  }

  /** Log shipping: the record of a finished instance, with the checksum of the record before it
      when that one was shipped in the same run and none otherwise. */
  function ShipRecord(s: Node, inst: nat, to: NodeId, withChecksum: bool): Node
    requires inst < s.inst && inst in s.log
    requires withChecksum ==> inst > 0 && inst - 1 in s.log
  {
    var r := s.log[inst];
    Send(s, LearnValue(inst, s.me, to, r.accepted, r.value, if withChecksum then s.log[inst - 1].checksum else 0))
  }

  /** Shipping a run of records one after the other. */
  function ShipRun(s: Node, begin: nat, end: nat, to: NodeId): (t: Node)
    requires end <= s.inst && forall i | begin <= i < end :: i in s.log
    ensures t.inst == s.inst && t.log == s.log
    decreases end
  {
    if end <= begin then s
    else ShipRecord(ShipRun(s, begin, end - 1, to), end - 1, to, end - 1 > begin)
  }
}
