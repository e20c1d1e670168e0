/** The chain of checksums is really built: without crashes every node always has, and stores with every
    record, exactly the checksum of all that was decided so far. */
module PaxosChecksums {
  import opened Common
  import opened PaxosTypes
  import opened PaxosNode
  import opened PaxosInvariant
  import opened PaxosSteps
  import opened PaxosAgreement
  import opened PaxosRuns

  /** What the chain comes to if each link is the checksum function of the link before and the value; a link of
      zero behind the first instance means that the past is unknown, and it stays unknown. */
  ghost function Chain(crc: (nat, Value) -> nat, vs: seq<Value>): nat {
    if |vs| == 0 then 0
    else
      var before := Chain(crc, vs[..|vs| - 1]);
      if |vs| > 1 && before == 0 then 0 else crc(before, vs[|vs| - 1])
  }

  ghost function ChainNext(cfg: Config, es: seq<Value>, value: Value): nat {
    if |es| > 0 && Chain(cfg.crc, es) == 0 then 0 else cfg.crc(Chain(cfg.crc, es), value)
  }

  lemma ChainAppend(cfg: Config, es: seq<Value>, value: Value)
    ensures Chain(cfg.crc, es + [value]) == ChainNext(cfg, es, value)
  {
    assert (es + [value])[..|es|] == es;
  }

  /** Accept and success carry the checksum of what their sender executed before; a shipped value may carry
      nothing instead. */
  ghost predicate Tells(cfg: Config, es: seq<Value>, m: Msg) {
    (m.Last() == 0 && !m.Accept? && !m.Success?) || (m.inst <= |es| && m.Last() == Chain(cfg.crc, es[..m.inst]))
  }

  ghost predicate Exact(cfg: Config, s: Node) {
    && |s.executed| == s.inst && s.last == Chain(cfg.crc, s.executed)
    && (if s.acc.accepted.IsNull() then s.acc.value == [] && s.acc.checksum == 0
        else s.acc.value != [] && s.acc.checksum == ChainNext(cfg, s.executed, s.acc.value))
    && (forall i | 0 <= i < s.inst && i in s.log :: s.log[i].checksum == Chain(cfg.crc, s.executed[..i + 1]))
    && (!s.acc.accepted.IsNull() ==> s.inst in s.log && s.log[s.inst].checksum == s.acc.checksum)
    && (forall m | m in s.sent :: Tells(cfg, s.executed, m))
  }

  lemma PersistExact(cfg: Config, s: Node, t: Node)
    requires Exact(cfg, s) && t == s.(acc := t.acc)
    requires t.acc.accepted.IsNull() ==> t.acc.value == [] && t.acc.checksum == 0
    requires !t.acc.accepted.IsNull() ==> t.acc.value != []
    ensures Exact(cfg, Persist(cfg, t))
  {
  }

  lemma SendExact(cfg: Config, s: Node, m: Msg)
    requires Exact(cfg, s) && ((m.Last() == 0 && !m.Accept? && !m.Success?) || (m.inst == s.inst && m.Last() == s.last))
    ensures Exact(cfg, Send(s, m))
  {
    assert s.executed[..s.inst] == s.executed;
  }

  lemma OnPrepareExact(cfg: Config, s: Node, from: NodeId, pid: nat)
    requires Exact(cfg, s)
    ensures Exact(cfg, OnPrepare(cfg, s, from, pid))
  {
    hide Exact, Persist;
    var t := s.(acc := s.acc.(promise := Ballot(pid, from)));
    if Ballot(pid, from).Ge(s.acc.promise) {
      AcceptorOf(cfg, s);
      PersistExact(cfg, s, t);
      SendExact(cfg, Persist(cfg, t), PrepareAnswer(s, from, pid));
    } else {
      SendExact(cfg, s, PrepareAnswer(s, from, pid));
    }
  }

  lemma AcceptorOf(cfg: Config, s: Node)
    requires Exact(cfg, s)
    ensures if s.acc.accepted.IsNull() then s.acc.value == [] && s.acc.checksum == 0 else s.acc.value != []
  {
  }

  lemma OnAcceptExact(cfg: Config, s: Node, from: NodeId, pid: nat, value: Value)
    requires Exact(cfg, s) && value != [] && pid >= 1
    ensures Exact(cfg, OnAccept(cfg, s, from, pid, value))
  {
    hide Exact, Persist;
    var b := Ballot(pid, from);
    var t := s.(acc := s.acc.(promise := b, accepted := b, value := value));
    if b.Ge(s.acc.promise) {
      PersistExact(cfg, s, t);
      SendExact(cfg, Persist(cfg, t), AcceptAnswer(s, from, pid));
    } else {
      SendExact(cfg, s, AcceptAnswer(s, from, pid));
    }
  }

  lemma LearnExact(cfg: Config, s: Node, value: Value)
    requires Exact(cfg, s) && s.inst in s.log && s.log[s.inst].checksum == ChainNext(cfg, s.executed, value)
    ensures Exact(cfg, Learn(s, value, s.log[s.inst].checksum))
  {
    LearnedExact(cfg, s, s, value);
  }

  lemma LearnedExact(cfg: Config, s: Node, s1: Node, value: Value)
    requires Exact(cfg, s) && s1 == s.(log := s1.log) && s.inst in s1.log && s1.log == s.log[s.inst := s1.log[s.inst]]
    requires s1.log[s.inst].checksum == ChainNext(cfg, s.executed, value)
    ensures Exact(cfg, Learn(s1, value, s1.log[s.inst].checksum))
  {
    var es := s.executed + [value];
    ChainAppend(cfg, s.executed, value);
    assert es[..s.inst] == s.executed && es[..s.inst + 1] == es;
    forall k | 0 <= k <= s.inst
      ensures es[..k] == s.executed[..k]
    {
    }
  }

  lemma OnSuccessExact(cfg: Config, s: Node, inst: nat, from: NodeId, pid: nat)
    requires Exact(cfg, s)
    ensures Exact(cfg, OnSuccess(s, inst, from, pid))
  {
    if SuccessApplies(s, inst, from, pid) {
      LearnExact(cfg, s, s.acc.value);
    }
  }

  lemma OnLearnValueExact(cfg: Config, s: Node, inst: nat, ballot: Ballot, value: Value)
    requires Exact(cfg, s) && value != []
    ensures Exact(cfg, OnLearnValue(cfg, s, inst, ballot, value))
  {
    if inst == s.inst {
      var checksum := NextChecksum(cfg, s.inst, s.last, value, 0);
      var s1 := s.(log := s.log[s.inst := Record(ballot, ballot, value, checksum)]);
      LearnedExact(cfg, s, s1, value);
    }
  }

  lemma ProposerExact(cfg: Config, s: Node, p: Proposer)
    requires Exact(cfg, s)
    ensures Exact(cfg, s.(prop := p))
  {
  }

  lemma OnAcceptReplyExact(cfg: Config, s: Node, from: NodeId, pid: nat, reject: nat)
    requires Exact(cfg, s)
    ensures Exact(cfg, OnAcceptReply(cfg, s, from, pid, reject))
  {
    hide Exact, OnSuccess;
    var s1 := CountAcceptReply(s, from, reject);
    ProposerExact(cfg, s, s1.prop);
    var p := s1.prop.(accepting := false);
    ProposerExact(cfg, s, p);
    var s2 := s.(prop := p);
    var m := Success(s2.inst, s2.me, s2.prop.pid, s2.last);
    SendExact(cfg, s2, m);
    OnSuccessExact(cfg, Send(s2, m), s2.inst, s2.me, s2.prop.pid);
  }

  lemma DoAcceptExact(cfg: Config, s: Node)
    requires Exact(cfg, s) && s.prop.value != [] && s.prop.pid >= 1
    ensures Exact(cfg, DoAccept(cfg, s))
  {
    hide Exact, OnAccept, OnAcceptReply;
    var s1 := StartAccept(s);
    ProposerExact(cfg, s, s1.prop);
    SendExact(cfg, s.(prop := s1.prop), Accept(s.inst, s.me, s.prop.pid, s.prop.value, s.last));
    var answer := AcceptAnswer(s1, s1.me, s1.prop.pid);
    OnAcceptExact(cfg, s1, s1.me, s1.prop.pid, s1.prop.value);
    OnAcceptReplyExact(cfg, OnAccept(cfg, s1, s1.me, s1.prop.pid, s1.prop.value), answer.from, answer.pid, answer.reject);
  }

  lemma OnPrepareReplyExact(cfg: Config, s: Node, from: NodeId, pid: nat, reject: nat, pre: Ballot, value: Value)
    requires Exact(cfg, s) && s.prop.pid >= 1 && (s.prop.preparing ==> s.prop.value != []) && (reject == 0 && !pre.IsNull() ==> value != [])
    ensures Exact(cfg, OnPrepareReply(cfg, s, from, pid, reject, pre, value))
  {
    hide Exact, DoAccept;
    var p := CountPrepareReply(s, from, reject, pre, value).prop;
    ProposerExact(cfg, s, p);
    ProposerExact(cfg, s, p.(canSkip := true));
    if s.prop.preparing && pid == s.prop.pid && Passed(cfg, p) {
      DoAcceptExact(cfg, s.(prop := p.(canSkip := true)));
    }
  }

  lemma DoPrepareExact(cfg: Config, s: Node, needNew: bool)
    requires Exact(cfg, s) && s.prop.value != [] && s.prop.pid >= 1
    ensures Exact(cfg, DoPrepare(cfg, s, needNew))
  {
    hide Exact, OnPrepareReply;
    var s1 := StartPrepare(s, needNew);
    ProposerExact(cfg, s, s1.prop);
    SendExact(cfg, s.(prop := s1.prop), Prepare(s.inst, s.me, s1.prop.pid));
    AcceptorOf(cfg, s);
    var r := PrepareAnswer(s1, s1.me, s1.prop.pid);
    OnPrepareExact(cfg, s1, s1.me, s1.prop.pid);
    OnPrepareReplyExact(cfg, OnPrepare(cfg, s1, s1.me, s1.prop.pid), r.from, r.pid, r.reject, r.pre, r.value);
  }

  // ---- messages between nodes ----

  /** A message that keeps the chain exact: it tells nothing the receiver does not know, and its value, where it
      matters, is not empty. */
  ghost predicate Proper(s: Node, m: Msg) {
    && (m.Last() != 0 && m.inst == s.inst && s.inst > 0 ==> s.last != 0)
    && (m.Accept? ==> m.value != [] && m.pid >= 1)
    && (m.LearnValue? ==> m.value != [])
    && (m.IsPromise() && !m.pre.IsNull() ==> m.value != [])
  }

  lemma ReceiveExact(cfg: Config, s: Node, m: Msg)
    requires Exact(cfg, s) && Proper(s, m) && s.prop.pid >= 1 && (s.prop.preparing ==> s.prop.value != [])
    ensures Exact(cfg, OnReceive(cfg, s, m))
  {
    hide Exact, OnPrepare, OnAccept, OnSuccess, OnLearnValue, OnPrepareReply, OnAcceptReply;
    assert AdoptChecksum(s, m) == s;
    match m
    case Prepare(inst, from, pid) =>
      OnSuccessExact(cfg, s, s.inst, from, pid);
      var s1 := if inst == s.inst + 1 then OnSuccess(s, s.inst, from, pid) else s;
      OnPrepareExact(cfg, s1, from, pid);
    case Accept(inst, from, pid, value, last) =>
      OnSuccessExact(cfg, s, s.inst, from, pid);
      var s1 := if inst == s.inst + 1 then OnSuccess(s, s.inst, from, pid) else s;
      OnAcceptExact(cfg, s1, from, pid, value);
    case PrepareReply(inst, from, to, pid, reject, pre, value) =>
      ProposerExact(cfg, s, NoteReject(s.prop, reject));
      OnPrepareReplyExact(cfg, s, from, pid, reject, pre, value);
    case AcceptReply(inst, from, to, pid, reject) =>
      ProposerExact(cfg, s, NoteReject(s.prop, reject));
      OnAcceptReplyExact(cfg, s, from, pid, reject);
    case Success(inst, from, pid, last) => OnSuccessExact(cfg, s, inst, from, pid);
    case LearnValue(inst, from, to, ballot, value, last) => OnLearnValueExact(cfg, s, inst, ballot, value);
  }

  ghost predicate AllExact(cfg: Config, w: World) {
    WorldInv(cfg, w) && forall n | n in w :: Exact(cfg, w[n])
  }

  /** What the safety invariant says of a node and of what it sent. */
  lemma NodeFacts(cfg: Config, w: World, n: NodeId)
    requires WorldInv(cfg, w) && n in w
    ensures w[n].me == n && w[n].prop.pid >= 1 && (w[n].prop.preparing || w[n].prop.accepting ==> w[n].prop.value != [])
    ensures forall m | m in w[n].sent :: m.inst <= w[n].inst
    ensures forall m | m in w[n].sent && m.Accept? :: m.value != [] && m.pid >= 1
    ensures forall m | m in w[n].sent && m.IsPromise() && !m.pre.IsNull() :: m.value != []
  {
    assert NodeOk(cfg, w, n);
  }

  /** No message ever tells a node what it should know and does not: both have the same chain. */
  lemma SaidProper(cfg: Config, w: World, q: NodeId, m: Msg)
    requires AllExact(cfg, w) && q in w && Said(w, m)
    ensures Proper(w[q], m)
  {
    hide WorldInv, ChosenValue;
    NodeFacts(cfg, w, m.from);
    if m.LearnValue? {
      ShippedNotEmpty(cfg, w, m);
    }
    if m.Last() != 0 && m.inst == w[q].inst {
      var p := m.from;
      assert Exact(cfg, w[p]) && Exact(cfg, w[q]) && Tells(cfg, w[p].executed, m);
      forall i | 0 <= i < m.inst
        ensures w[p].executed[i] == w[q].executed[i]
      {
        ExecutedAgree(cfg, w, p, q, i);
      }
      assert w[p].executed[..m.inst] == w[q].executed;
    }
  }

  lemma ShippedNotEmpty(cfg: Config, w: World, m: Msg)
    requires WorldInv(cfg, w) && Said(w, m) && m.LearnValue?
    ensures m.value != []
  {
    LearnSaid(cfg, w, m);
    var b :| Chosen(cfg, w, m.inst, b) && Proposed(w, m.inst, b, m.value);
    var last :| Said(w, Accept(m.inst, b.node, b.pid, m.value, last));
    NodeFacts(cfg, w, b.node);
  }

  lemma HandleExact(cfg: Config, w: World, e: Event)
    requires AllExact(cfg, w) && Enabled(cfg, w, e)
    ensures Exact(cfg, Handle(cfg, w[e.q], e))
  {
    hide WorldInv, Exact, DoAccept, DoPrepare, OnReceive;
    var s := w[e.q];
    assert Exact(cfg, s);
    NodeFacts(cfg, w, e.q);
    match e
    case Deliver(q, m) =>
      SaidProper(cfg, w, q, m);
      ReceiveExact(cfg, s, m);
    case Propose(q, value) =>
      var s1 := if |s.prop.value| == 0 then s.(prop := s.prop.(value := value)) else s;
      ProposerExact(cfg, s, s1.prop);
      DoAcceptExact(cfg, s1);
      DoPrepareExact(cfg, s1, s1.prop.rejected);
    case Timeout(q) => DoPrepareExact(cfg, s, s.prop.rejected);
    case CommitTimeout(q) => ProposerExact(cfg, s, OnCommitTimeout(s).prop);
    case Ship(q, inst, to, withChecksum) => ShipExact(cfg, s, inst, to, withChecksum);
  }

  lemma ShipExact(cfg: Config, s: Node, inst: nat, to: NodeId, withChecksum: bool)
    requires Exact(cfg, s) && inst < s.inst && inst in s.log && (withChecksum ==> inst > 0 && inst - 1 in s.log)
    ensures Exact(cfg, ShipRecord(s, inst, to, withChecksum))
  {
  }

  lemma {:induction false} RunKeepsExact(cfg: Config, w: World, run: seq<Event>, v: World)
    requires AllExact(cfg, w) && Leads(cfg, w, run, v)
    ensures AllExact(cfg, v)
    decreases |run|
  {
    hide WorldInv, Exact, Enabled, Handle;
    if run != [] {
      HandleExact(cfg, w, run[0]);
      StepKeepsInv(cfg, w, run[0]);
      RunKeepsExact(cfg, Apply(cfg, w, run[0]), run[1..], v);
    }
  }

  /** In every reachable world every node has exactly the checksum of what it executed, and every record of a
      finished instance exactly that of the values up to it. */
  lemma ChecksumsAreExact(cfg: Config, w: World, q: NodeId)
    requires Reachable(cfg, w) && q in w
    ensures |w[q].executed| == w[q].inst && w[q].last == Chain(cfg.crc, w[q].executed)
    ensures forall i | 0 <= i < w[q].inst ::
              i in w[q].log && i < |w[q].executed| && w[q].log[i].checksum == Chain(cfg.crc, w[q].executed[..i + 1])
  {
    hide WorldInv, Leads;
    var run :| Leads(cfg, InitWorld(cfg), run, w);
    InitInv(cfg);
    RunKeepsExact(cfg, InitWorld(cfg), run, w);
    LogFull(cfg, w, q);
  }

  lemma LogFull(cfg: Config, w: World, q: NodeId)
    requires WorldInv(cfg, w) && q in w
    ensures forall i | 0 <= i < w[q].inst :: i in w[q].log
  {
    assert NodeOk(cfg, w, q);
  }

  lemma {:induction false} ChainIsFold(crc: (nat, Value) -> nat, vs: seq<Value>)
    requires forall before, value :: crc(before, value) != 0
    ensures Chain(crc, vs) == Fold(crc, vs) && (vs != [] ==> Chain(crc, vs) != 0)
    decreases |vs|
  {
    if vs != [] {
      ChainIsFold(crc, vs[..|vs| - 1]);
    }
  }

  /** Every accept and every success carries exactly the checksum of what came before its instance. */
  lemma MessagesCarryTheChain(cfg: Config, w: World, m: Msg)
    requires Reachable(cfg, w) && Said(w, m) && (m.Accept? || m.Success?)
    ensures m.inst <= |w[m.from].executed| && m.Last() == Chain(cfg.crc, w[m.from].executed[..m.inst])
  {
    hide WorldInv, Leads;
    var run :| Leads(cfg, InitWorld(cfg), run, w);
    InitInv(cfg);
    RunKeepsExact(cfg, InitWorld(cfg), run, w);
    assert Exact(cfg, w[m.from]) && Tells(cfg, w[m.from].executed, m);
  }

  /** With a checksum function that is never zero, no checksum is ever unknown. */
  lemma ChecksumsAreNeverLost(cfg: Config, w: World, q: NodeId)
    requires Reachable(cfg, w) && q in w && forall before, value :: cfg.crc(before, value) != 0
    ensures w[q].last == Fold(cfg.crc, w[q].executed) && (w[q].executed != [] ==> w[q].last != 0)
    ensures forall i | 0 <= i < w[q].inst ::
              i in w[q].log && i < |w[q].executed| && w[q].log[i].checksum == Fold(cfg.crc, w[q].executed[..i + 1])
  {
    hide Reachable, Chain;
    ChecksumsAreExact(cfg, w, q);
    ChainIsFold(cfg.crc, w[q].executed);
    forall i | 0 <= i < w[q].inst
      ensures i in w[q].log && i < |w[q].executed| && w[q].log[i].checksum == Fold(cfg.crc, w[q].executed[..i + 1])
    {
      ChainIsFold(cfg.crc, w[q].executed[..i + 1]);
    }
  }

  // ---- a checksum that was lost in a restart ----

  /** A node that does not know the checksum of the past takes it from the next accept or shipped value of its
      instance, and the chain goes on from there. */
  lemma LostChecksumComesBack(cfg: Config, s: Node, m: Msg)
    requires s.inst > 0 && s.last == 0 && m.inst == s.inst && m.Last() != 0 && m.from != s.me
    requires m.LearnValue? || (m.Accept? && m.from in cfg.members && m.pid >= 1 && Ballot(m.pid, m.from).Ge(s.acc.promise))
    requires m.value != []
    ensures m.LearnValue? ==>
              var t := OnReceive(cfg, s, m); t.last == cfg.crc(m.Last(), m.value) && t.log[s.inst].checksum == t.last
    ensures m.Accept? ==>
              var t := OnReceive(cfg, s, m);
              var u := OnReceive(cfg, t, Success(s.inst, m.from, m.pid, m.last));
              t.last == m.last && u.last == cfg.crc(m.last, m.value) && u.inst == s.inst + 1 && u.log[s.inst].checksum == u.last
  {
  }
}
