/** Every change a handler makes keeps the node invariant. A handler is a chain of such changes. */
module PaxosSteps {
  import opened Common
  import opened PaxosTypes
  import opened PaxosNode
  import opened PaxosInvariant

  ghost predicate InWorld(cfg: Config, w: World, s: Node) {
    && w.Keys == cfg.members && s.me in w && w[s.me] == s && NodeInv(cfg, w, s)
  }

  ghost function Put(w: World, s: Node): World {
    w[s.me := s]
  }

  lemma PutExtends(w: World, s: Node)
    requires s.me in w && w[s.me].sent <= s.sent
    ensures Extends(w, Put(w, s))
  {
  }

  // ---- parts a change does not touch ----

  lemma FrameAcceptor(w: World, s: Node, t: Node, N: set<Msg>)
    requires AcceptorInv(w, s)
    requires t.me == s.me && t.inst == s.inst && t.acc == s.acc && t.sent == s.sent + N
    requires s.inst in s.log ==> s.inst in t.log && t.log[s.inst] == s.log[s.inst]
    requires forall m | m in N :: !m.IsPromise() && !m.IsAccepted()
    ensures AcceptorInv(w, t)
  {
  }

  lemma FrameProposer(cfg: Config, w: World, s: Node, t: Node, N: set<Msg>)
    requires ProposerInv(cfg, w, s)
    requires t.me == s.me && t.inst == s.inst && t.prop == s.prop && t.sent == s.sent + N
    requires forall m | m in N :: !m.Prepare? && !m.Accept? && !m.Success?
    ensures ProposerInv(cfg, w, t)
  {
    if AcceptedNow(s) {
      var v, last :| Accept(s.inst, s.me, s.prop.pid, v, last) in s.sent;
      assert Accept(t.inst, t.me, t.prop.pid, v, last) in t.sent;
    }
    if AcceptedNow(t) {
      var v, last :| Accept(t.inst, t.me, t.prop.pid, v, last) in t.sent;
      assert Accept(s.inst, s.me, s.prop.pid, v, last) in s.sent;
    }
  }

  lemma FrameLearner(cfg: Config, w: World, s: Node, t: Node, N: set<Msg>)
    requires LearnerInv(cfg, w, s)
    requires t.me == s.me && t.inst == s.inst && t.executed == s.executed && t.sent == s.sent + N
    requires forall i | i in s.log && i < s.inst :: i in t.log && t.log[i] == s.log[i]
    requires forall m | m in N :: !m.LearnValue?
    ensures LearnerInv(cfg, w, t)
  {
  }

  lemma FrameChecksum(cfg: Config, s: Node, t: Node, N: set<Msg>)
    requires |s.executed| == s.inst && ChecksumInv(cfg, s)
    requires t.inst == s.inst && t.executed == s.executed && t.last == s.last && t.sent == s.sent + N
    requires t.acc.checksum == s.acc.checksum && t.acc.value == s.acc.value
    requires forall i | i in t.log && i < s.inst :: i in s.log && t.log[i] == s.log[i]
    requires forall m | m in N && m.Last() != 0 :: m.inst == s.inst && m.Last() == s.last
    ensures ChecksumInv(cfg, t)
  {
    assert s.executed[..s.inst] == s.executed;
  }

  lemma FrameOwn(s: Node, t: Node, N: set<Msg>)
    requires OwnMessages(s)
    requires t.me == s.me && t.inst == s.inst && t.prop.pid == s.prop.pid && t.sent == s.sent + N
    requires forall m | m in N :: m.from == s.me && m.inst <= s.inst
    requires forall m | m in N && (m.Prepare? || m.Accept? || m.Success?) :: m.pid == s.prop.pid
    ensures OwnMessages(t)
  {
  }

  /** A change of the proposer's fields alone. */
  lemma ProposerChange(cfg: Config, w: World, s: Node, t: Node)
    requires InWorld(cfg, w, s) && t == s.(prop := t.prop) && t.prop.pid == s.prop.pid
    requires ProposerInv(cfg, w, t)
    ensures InWorld(cfg, Put(w, t), t)
  {
    hide AcceptorInv, ProposerInv, LearnerInv, ChecksumInv, OwnMessages;
    var w' := Put(w, t);
    PutExtends(w, t);
    assert t.sent == s.sent + {};
    assert AcceptorInv(w', t) by {
      AcceptorInvMono(w, w', s);
      FrameAcceptor(w', s, t, {});
    }
    ProposerInvMono(cfg, w, w', t);
    assert LearnerInv(cfg, w', t) by {
      LearnerInvMono(cfg, w, w', s);
      FrameLearner(cfg, w', s, t, {});
    }
    assert ChecksumInv(cfg, t) by {
      ExecutedLength(cfg, w, s);
      FrameChecksum(cfg, s, t, {});
    }
    FrameOwn(s, t, {});
  }

  lemma ExecutedLength(cfg: Config, w: World, s: Node)
    requires LearnerInv(cfg, w, s)
    ensures |s.executed| == s.inst
  {
  }

  /** A message that matters to nobody's argument: a rejection. */
  lemma RejectInv(cfg: Config, w: World, s: Node, m: Msg)
    requires InWorld(cfg, w, s)
    requires m.PrepareReply? || m.AcceptReply?
    requires m.from == s.me && m.inst == s.inst && m.reject != 0
    ensures InWorld(cfg, Put(w, Send(s, m)), Send(s, m))
  {
    hide AcceptorInv, ProposerInv, LearnerInv, ChecksumInv, OwnMessages;
    var t := Send(s, m);
    var w' := Put(w, t);
    PutExtends(w, t);
    assert AcceptorInv(w', t) by {
      AcceptorInvMono(w, w', s);
      FrameAcceptor(w', s, t, {m});
    }
    assert ProposerInv(cfg, w', t) by {
      ProposerInvMono(cfg, w, w', s);
      FrameProposer(cfg, w', s, t, {m});
    }
    assert LearnerInv(cfg, w', t) by {
      LearnerInvMono(cfg, w, w', s);
      FrameLearner(cfg, w', s, t, {m});
    }
    assert ChecksumInv(cfg, t) by {
      ExecutedLength(cfg, w, s);
      FrameChecksum(cfg, s, t, {m});
    }
    FrameOwn(s, t, {m});
  }

  // ---- acceptor ----

  lemma PromiseAcceptor(cfg: Config, w: World, s: Node, t: Node, from: NodeId, pid: nat)
    requires AcceptorInv(w, s) && OwnMessages(s)
    requires Ballot(pid, from).Ge(s.acc.promise) && t == OnPrepare(cfg, s, from, pid)
    ensures AcceptorInv(w, t)
  {
    var answer := PrepareAnswer(s, from, pid);
    assert t.sent == s.sent + {answer};
    assert AcceptsBelow(s) && PromisesBelow(s) && PromiseKept(s);
    assert PromiseKept(t);
  }

  lemma PromiseChecksum(cfg: Config, w: World, s: Node, from: NodeId, pid: nat)
    requires AcceptorInv(w, s) && LearnerInv(cfg, w, s) && ChecksumInv(cfg, s)
    requires Ballot(pid, from).Ge(s.acc.promise)
    ensures ChecksumInv(cfg, OnPrepare(cfg, s, from, pid))
  {
    hide LearnerInv, PromiseKept, AcceptsBelow, PromisesBelow, RepliesOk;
    ExecutedLength(cfg, w, s);
    var p := Persist(cfg, s.(acc := s.acc.(promise := Ballot(pid, from))));
    assert ChecksumInv(cfg, p);
    FrameChecksum(cfg, p, OnPrepare(cfg, s, from, pid), {PrepareAnswer(s, from, pid)});
  }

  lemma PromiseInv(cfg: Config, w: World, s: Node, from: NodeId, pid: nat)
    requires InWorld(cfg, w, s)
    requires Ballot(pid, from).Ge(s.acc.promise)
    ensures var t := OnPrepare(cfg, s, from, pid); InWorld(cfg, Put(w, t), t)
  {
    hide AcceptorInv, ProposerInv, LearnerInv, ChecksumInv, OwnMessages;
    var t := OnPrepare(cfg, s, from, pid);
    var answer := PrepareAnswer(s, from, pid);
    var w' := Put(w, t);
    PutExtends(w, t);
    assert AcceptorInv(w', t) by {
      AcceptorInvMono(w, w', s);
      PromiseAcceptor(cfg, w', s, t, from, pid);
    }
    assert ProposerInv(cfg, w', t) by {
      ProposerInvMono(cfg, w, w', s);
      FrameProposer(cfg, w', s, t, {answer});
    }
    assert LearnerInv(cfg, w', t) by {
      LearnerInvMono(cfg, w, w', s);
      FrameLearner(cfg, w', s, t, {answer});
    }
    PromiseChecksum(cfg, w, s, from, pid);
    FrameOwn(s, t, {answer});
  }

  lemma OnPrepareInv(cfg: Config, w: World, s: Node, from: NodeId, pid: nat)
    requires InWorld(cfg, w, s) && pid >= 1
    ensures var t := OnPrepare(cfg, s, from, pid); InWorld(cfg, Put(w, t), t)
  {
    hide InWorld;
    if Ballot(pid, from).Ge(s.acc.promise) {
      PromiseInv(cfg, w, s, from, pid);
    } else {
      RejectInv(cfg, w, s, PrepareAnswer(s, from, pid));
    }
  }

  lemma AcceptAcceptor(cfg: Config, w: World, s: Node, t: Node, from: NodeId, pid: nat, value: Value)
    requires AcceptorInv(w, s) && OwnMessages(s) && pid >= 1 && value != []
    requires Proposed(w, s.inst, Ballot(pid, from), value)
    requires Ballot(pid, from).Ge(s.acc.promise) && t == OnAccept(cfg, s, from, pid, value)
    ensures AcceptorInv(w, t)
  {
    var answer := AcceptAnswer(s, from, pid);
    assert t.sent == s.sent + {answer};
    assert AcceptsBelow(s) && PromisesBelow(s) && PromiseKept(s);
    assert PromiseKept(t);
    assert answer.ReplyBallot() == Ballot(pid, from);
  }

  lemma AcceptChecksum(cfg: Config, w: World, s: Node, from: NodeId, pid: nat, value: Value)
    requires LearnerInv(cfg, w, s) && ChecksumInv(cfg, s) && value != []
    requires Ballot(pid, from).Ge(s.acc.promise)
    ensures ChecksumInv(cfg, OnAccept(cfg, s, from, pid, value))
  {
    hide LearnerInv;
    ExecutedLength(cfg, w, s);
    var p := Persist(cfg, s.(acc := s.acc.(promise := Ballot(pid, from), accepted := Ballot(pid, from), value := value)));
    assert ChecksumInv(cfg, p);
    FrameChecksum(cfg, p, OnAccept(cfg, s, from, pid, value), {AcceptAnswer(s, from, pid)});
  }

  lemma AcceptInv(cfg: Config, w: World, s: Node, from: NodeId, pid: nat, value: Value)
    requires InWorld(cfg, w, s) && pid >= 1 && value != []
    requires Proposed(w, s.inst, Ballot(pid, from), value)
    requires Ballot(pid, from).Ge(s.acc.promise)
    ensures var t := OnAccept(cfg, s, from, pid, value); InWorld(cfg, Put(w, t), t)
  {
    hide AcceptorInv, ProposerInv, LearnerInv, ChecksumInv, OwnMessages, Proposed;
    var t := OnAccept(cfg, s, from, pid, value);
    var answer := AcceptAnswer(s, from, pid);
    var w' := Put(w, t);
    PutExtends(w, t);
    assert AcceptorInv(w', t) by {
      SaidMono(w, w');
      AcceptorInvMono(w, w', s);
      AcceptAcceptor(cfg, w', s, t, from, pid, value);
    }
    assert ProposerInv(cfg, w', t) by {
      ProposerInvMono(cfg, w, w', s);
      FrameProposer(cfg, w', s, t, {answer});
    }
    assert LearnerInv(cfg, w', t) by {
      LearnerInvMono(cfg, w, w', s);
      FrameLearner(cfg, w', s, t, {answer});
    }
    AcceptChecksum(cfg, w, s, from, pid, value);
    FrameOwn(s, t, {answer});
  }

  lemma OnAcceptInv(cfg: Config, w: World, s: Node, from: NodeId, pid: nat, value: Value)
    requires InWorld(cfg, w, s) && pid >= 1 && value != []
    requires Proposed(w, s.inst, Ballot(pid, from), value)
    ensures var t := OnAccept(cfg, s, from, pid, value); InWorld(cfg, Put(w, t), t)
  {
    hide InWorld;
    if Ballot(pid, from).Ge(s.acc.promise) {
      AcceptInv(cfg, w, s, from, pid, value);
    } else {
      RejectInv(cfg, w, s, AcceptAnswer(s, from, pid));
    }
  }

  // ---- learner ----

  function WithRecord(s: Node, rec: Record): Node {
    s.(log := s.log[s.inst := rec])
  }

  /** `rec` may become the record of the current instance and be learned. */
  ghost predicate Learnable(cfg: Config, w: World, s: Node, rec: Record) {
    && ChosenValue(cfg, w, s.inst, rec.value)
    && (rec.checksum != 0 ==> (s.inst == 0 || s.last != 0) && rec.checksum == cfg.crc(s.last, rec.value))
  }

  lemma LearnChecksum(cfg: Config, s: Node, t: Node, rec: Record)
    requires |s.executed| == s.inst && ChecksumInv(cfg, s) && OwnMessages(s)
    requires rec.checksum != 0 ==> (s.inst == 0 || s.last != 0) && rec.checksum == cfg.crc(s.last, rec.value)
    requires t == Learn(WithRecord(s, rec), rec.value, rec.checksum)
    ensures ChecksumInv(cfg, t)
  {
    assert s.inst == 0 ==> s.executed == [];
    assert t.executed[..s.inst] == s.executed;
    forall i | 0 <= i <= s.inst ensures t.executed[..i] == s.executed[..i] {
    }
    assert t.executed[..t.inst] == t.executed;
  }

  lemma LearnLearner(cfg: Config, w: World, s: Node, t: Node, rec: Record)
    requires LearnerInv(cfg, w, s) && ChosenValue(cfg, w, s.inst, rec.value)
    requires t == Learn(WithRecord(s, rec), rec.value, rec.checksum)
    ensures LearnerInv(cfg, w, t)
  {
  }

  lemma LearnAcceptor(w: World, s: Node, t: Node, rec: Record)
    requires AcceptorInv(w, s) && OwnMessages(s)
    requires t == Learn(WithRecord(s, rec), rec.value, rec.checksum)
    ensures AcceptorInv(w, t)
  {
  }

  lemma PromisedBefore(w: World, Q: set<NodeId>, top: Ballot, inst: nat, b: Ballot, v: Value, later: nat)
    requires JustifiedBy(w, Q, top, inst, b, v) && inst < later
    ensures AllVotedBefore(w, Q, later, b)
  {
    forall q | q in Q ensures VotedBefore(w, q, later, b) {
      assert Votes(w, q, inst, b, top);
      var r :| VotesFor(w, r, q, inst, b, top);
      assert VotesFor(w, r, q, later, b, NULL_BALLOT);
    }
  }

  lemma StillVotedBefore(w: World, Q: set<NodeId>, inst: nat, b: Ballot, later: nat)
    requires AllVotedBefore(w, Q, inst, b) && inst <= later
    ensures AllVotedBefore(w, Q, later, b)
  {
    forall q | q in Q ensures VotedBefore(w, q, later, b) {
      assert VotedBefore(w, q, inst, b);
      var r :| VotesFor(w, r, q, inst, b, NULL_BALLOT) && r.inst < inst;
      assert VotesFor(w, r, q, later, b, NULL_BALLOT);
    }
  }

  /** The promises behind a skipped prepare keep their worth in the next instance. */
  lemma LearnCanSkip(cfg: Config, w: World, s: Node, t: Node, rec: Record)
    requires ProposerInv(cfg, w, s)
    requires t == Learn(WithRecord(s, rec), rec.value, rec.checksum)
    ensures CanSkipOk(cfg, w, t)
  {
    if t.prop.canSkip {
      if AcceptedNow(s) {
        var v, last :| Accept(s.inst, s.me, s.prop.pid, v, last) in s.sent;
        assert Justified(cfg, w, s.inst, MyBallot(s), v);
        var Q, top :| IsQuorum(cfg, Q) && JustifiedBy(w, Q, top, s.inst, MyBallot(s), v);
        PromisedBefore(w, Q, top, s.inst, MyBallot(s), v, t.inst);
      } else {
        var Q :| IsQuorum(cfg, Q) && AllVotedBefore(w, Q, s.inst, MyBallot(s));
        StillVotedBefore(w, Q, s.inst, MyBallot(s), t.inst);
      }
    }
  }

  lemma LearnProposer(cfg: Config, w: World, s: Node, t: Node, rec: Record)
    requires ProposerInv(cfg, w, s)
    requires t == Learn(WithRecord(s, rec), rec.value, rec.checksum)
    ensures ProposerInv(cfg, w, t)
  {
    hide Justified, Chosen;
    LearnCanSkip(cfg, w, s, t, rec);
  }

  lemma LearnInv(cfg: Config, w: World, s: Node, rec: Record)
    requires InWorld(cfg, w, s) && Learnable(cfg, w, s, rec)
    ensures var t := Learn(WithRecord(s, rec), rec.value, rec.checksum); InWorld(cfg, Put(w, t), t)
  {
    hide AcceptorInv, ProposerInv, LearnerInv, ChecksumInv, ChosenValue;
    var t := Learn(WithRecord(s, rec), rec.value, rec.checksum);
    var w' := Put(w, t);
    PutExtends(w, t);
    assert AcceptorInv(w', t) by {
      AcceptorInvMono(w, w', s);
      LearnAcceptor(w', s, t, rec);
    }
    assert ProposerInv(cfg, w', t) by {
      ProposerInvMono(cfg, w, w', s);
      LearnProposer(cfg, w', s, t, rec);
    }
    assert LearnerInv(cfg, w', t) by {
      LearnerInvMono(cfg, w, w', s);
      ChosenMono(cfg, w, w');
      LearnLearner(cfg, w', s, t, rec);
    }
    ExecutedLength(cfg, w, s);
    LearnChecksum(cfg, s, t, rec);
  }

  /** A new instance starts with no accept of its own. */
  lemma LearnStep(s: Node, rec: Record)
    requires OwnMessages(s) && SelfAcceptOrFlag(s)
    ensures var t := Learn(WithRecord(s, rec), rec.value, rec.checksum); Pinned(t) && SelfAcceptOrFlag(t)
  {
  }

  lemma OnSuccessInv(cfg: Config, w: World, s: Node, inst: nat, from: NodeId, pid: nat)
    requires InWorld(cfg, w, s) && Fixed(cfg, s) && SelfAcceptOrFlag(s)
    requires SuccessApplies(s, inst, from, pid) ==> ChosenValue(cfg, w, s.inst, s.acc.value)
    ensures var t := OnSuccess(s, inst, from, pid); InWorld(cfg, Put(w, t), t) && Fixed(cfg, t) && SelfAcceptOrFlag(t)
  {
    hide ProposerInv, LearnerInv, ChosenValue;
    if SuccessApplies(s, inst, from, pid) {
      var rec := s.log[s.inst];
      assert s.log[s.inst := rec] == s.log;
      ExecutedLength(cfg, w, s);
      LearnInv(cfg, w, s, rec);
      LearnStep(s, rec);
    } else {
      assert Put(w, s) == w;
    }
  }

  lemma OnLearnValueInv(cfg: Config, w: World, s: Node, inst: nat, ballot: Ballot, value: Value)
    requires InWorld(cfg, w, s) && Fixed(cfg, s) && SelfAcceptOrFlag(s)
    requires ChosenValue(cfg, w, inst, value)
    ensures var t := OnLearnValue(cfg, s, inst, ballot, value);
            InWorld(cfg, Put(w, t), t) && Fixed(cfg, t) && SelfAcceptOrFlag(t)
  {
    hide AcceptorInv, ProposerInv, LearnerInv, ChecksumInv, ChosenValue;
    if inst == s.inst {
      var rec := Record(ballot, ballot, value, NextChecksum(cfg, s.inst, s.last, value, 0));
      LearnInv(cfg, w, s, rec);
      LearnStep(s, rec);
    } else {
      assert Put(w, s) == w;
    }
  }

  // ---- proposer: counting replies ----

  /** A prepare reply worth believing: a rejection, or a promise whose report is a real proposal. */
  ghost predicate GoodPrepareReply(w: World, s: Node, r: Msg) {
    && Said(w, r) && r.PrepareReply? && r.inst == s.inst && r.to == s.me && r.pid == s.prop.pid
    && (r.reject == 0 ==>
          && MyBallot(s).Ge(r.pre)
          && (if r.pre.IsNull() then r.pre == NULL_BALLOT else r.value != [] && Proposed(w, s.inst, r.pre, r.value)))
  }

  lemma GeTransitive(a: Ballot, b: Ballot, c: Ballot)
    ensures a.Ge(b) && b.Ge(c) ==> a.Ge(c)
    ensures a.Gt(b) && b.Ge(c) ==> a.Ge(c)
    ensures !a.Gt(b) ==> b.Ge(a)
    ensures a.IsNull() && a == NULL_BALLOT ==> b.Ge(a)
  {
  }

  lemma CountPreparing(cfg: Config, w: World, s: Node, t: Node, r: Msg)
    requires PreparingOk(cfg, w, s) && s.prop.preparing
    requires GoodPrepareReply(w, s, r) && r.from in cfg.members
    requires t == CountPrepareReply(s, r.from, r.reject, r.pre, r.value)
    ensures PreparingOk(cfg, w, t)
  {
    if r.reject == 0 {
      assert t.prop.highestPre.Ge(s.prop.highestPre) && t.prop.highestPre.Ge(r.pre);
      forall q | q in t.prop.counter.passes ensures VotesNow(w, q, t.inst, MyBallot(t), t.prop.highestPre) {
        if q == r.from {
          assert VotesFor(w, r, q, t.inst, MyBallot(t), t.prop.highestPre);
        } else {
          assert VotesNow(w, q, s.inst, MyBallot(s), s.prop.highestPre);
          var m :| VotesFor(w, m, q, s.inst, MyBallot(s), s.prop.highestPre) && m.inst == s.inst;
          GeTransitive(t.prop.highestPre, s.prop.highestPre, m.pre);
          assert VotesFor(w, m, q, t.inst, MyBallot(t), t.prop.highestPre);
        }
      }
    }
  }

  lemma CountPrepareProposer(cfg: Config, w: World, s: Node, t: Node, r: Msg)
    requires ProposerInv(cfg, w, s) && s.prop.preparing
    requires GoodPrepareReply(w, s, r) && r.from in cfg.members
    requires t == CountPrepareReply(s, r.from, r.reject, r.pre, r.value)
    ensures ProposerInv(cfg, w, t)
  {
    hide Justified, Chosen, VotesFor;
    CountPreparing(cfg, w, s, t, r);
  }

  lemma CountPrepareInv(cfg: Config, w: World, s: Node, r: Msg)
    requires InWorld(cfg, w, s) && s.prop.preparing
    requires GoodPrepareReply(w, s, r) && r.from in cfg.members
    ensures var t := CountPrepareReply(s, r.from, r.reject, r.pre, r.value);
            InWorld(cfg, Put(w, t), t) && t.prop.preparing
  {
    hide AcceptorInv, LearnerInv, ChecksumInv, ProposerInv, OwnMessages;
    var t := CountPrepareReply(s, r.from, r.reject, r.pre, r.value);
    CountPrepareProposer(cfg, w, s, t, r);
    ProposerChange(cfg, w, s, t);
  }

  /** A pinned value stays pinned: nobody can report a ballot above the one being prepared. */
  lemma CountPreparePinned(s: Node, r: Msg)
    requires Pinned(s) && s.prop.preparing && (r.PrepareReply? && (r.reject == 0 ==> MyBallot(s).Ge(r.pre)))
    ensures Pinned(CountPrepareReply(s, r.from, r.reject, r.pre, r.value))
  {
  }

  lemma CountPrepareFlag(s: Node, r: Msg)
    requires SelfAcceptOrFlag(s) && r.PrepareReply?
    ensures SelfAcceptOrFlag(CountPrepareReply(s, r.from, r.reject, r.pre, r.value))
  {
  }

  lemma CountAcceptProposer(cfg: Config, w: World, s: Node, t: Node, from: NodeId, reject: nat)
    requires ProposerInv(cfg, w, s) && s.prop.accepting && from in cfg.members
    requires reject == 0 ==> AcceptedBy(w, from, s.inst, MyBallot(s))
    requires t == CountAcceptReply(s, from, reject)
    ensures ProposerInv(cfg, w, t)
  {
    hide Justified, Chosen, VotesFor;
    assert AcceptedNow(t) by {
      var v, last :| Accept(s.inst, s.me, s.prop.pid, v, last) in s.sent;
      assert Accept(t.inst, t.me, t.prop.pid, v, last) in t.sent;
    }
  }

  lemma CountAcceptInv(cfg: Config, w: World, s: Node, from: NodeId, reject: nat)
    requires InWorld(cfg, w, s) && s.prop.accepting && from in cfg.members
    requires reject == 0 ==> AcceptedBy(w, from, s.inst, MyBallot(s))
    ensures var t := CountAcceptReply(s, from, reject); InWorld(cfg, Put(w, t), t) && t.prop.accepting
  {
    hide AcceptorInv, LearnerInv, ChecksumInv, ProposerInv, OwnMessages;
    var t := CountAcceptReply(s, from, reject);
    CountAcceptProposer(cfg, w, s, t, from, reject);
    ProposerChange(cfg, w, s, t);
  }

  lemma NoteRejectInv(cfg: Config, w: World, s: Node, reject: nat)
    requires InWorld(cfg, w, s) && Fixed(cfg, s) && SelfAcceptOrFlag(s)
    ensures var t := s.(prop := NoteReject(s.prop, reject));
            InWorld(cfg, Put(w, t), t) && Fixed(cfg, t) && SelfAcceptOrFlag(t)
  {
    hide AcceptorInv, LearnerInv, ChecksumInv, OwnMessages, ProposerInv;
    var t := s.(prop := NoteReject(s.prop, reject));
    assert ProposerInv(cfg, w, t) by {
      SameBallotUse(cfg, w, s, t);
    }
    ProposerChange(cfg, w, s, t);
  }

  /** Fields of the proposer that the invariant does not look at, or only when it is working. */
  lemma SameBallotUse(cfg: Config, w: World, s: Node, t: Node)
    requires ProposerInv(cfg, w, s)
    requires t == s.(prop := t.prop) && t.prop.pid == s.prop.pid
    requires t.prop.canSkip ==> s.prop.canSkip
    requires t.prop.preparing ==> t.prop.(rejected := s.prop.rejected, highestOther := s.prop.highestOther, accepting := s.prop.accepting) == s.prop
    requires t.prop.accepting ==> s.prop.accepting && t.prop.counter == s.prop.counter
    ensures ProposerInv(cfg, w, t)
  {
    hide Justified, Chosen, VotesFor, Proposed;
    if AcceptedNow(s) {
      var v, last :| Accept(s.inst, s.me, s.prop.pid, v, last) in s.sent;
      assert Accept(t.inst, t.me, t.prop.pid, v, last) in t.sent;
    }
    if AcceptedNow(t) {
      var v, last :| Accept(t.inst, t.me, t.prop.pid, v, last) in t.sent;
      assert Accept(s.inst, s.me, s.prop.pid, v, last) in s.sent;
    }
  }

  lemma CommitTimeoutInv(cfg: Config, w: World, s: Node)
    requires InWorld(cfg, w, s) && Fixed(cfg, s) && SelfAcceptOrFlag(s)
    ensures var t := OnCommitTimeout(s); InWorld(cfg, Put(w, t), t) && Fixed(cfg, t) && SelfAcceptOrFlag(t)
  {
    hide AcceptorInv, LearnerInv, ChecksumInv, OwnMessages, ProposerInv;
    var t := OnCommitTimeout(s);
    assert ProposerInv(cfg, w, t) by {
      SameBallotUse(cfg, w, s, t);
    }
    ProposerChange(cfg, w, s, t);
  }

  lemma SetValueInv(cfg: Config, w: World, s: Node, value: Value)
    requires InWorld(cfg, w, s) && Fixed(cfg, s) && SelfAcceptOrFlag(s) && s.prop.value == []
    ensures var t := s.(prop := s.prop.(value := value));
            InWorld(cfg, Put(w, t), t) && Fixed(cfg, t) && SelfAcceptOrFlag(t)
  {
    hide AcceptorInv, LearnerInv, ChecksumInv, OwnMessages, Justified, Chosen, VotesFor;
    var t := s.(prop := s.prop.(value := value));
    assert ProposerInv(cfg, w, t) by {
      SameBallotUse(cfg, w, s, t);
    }
    ProposerChange(cfg, w, s, t);
  }

  lemma PutPut(w: World, a: Node, b: Node)
    requires a.me == b.me
    ensures Put(Put(w, a), b) == Put(w, b)
  {
  }

  // ---- proposer: accept ----

  /** Everything sent with the current ballot in earlier instances was accepted here. */
  ghost predicate SelfAcceptedEarlier(s: Node) {
    forall a | a in s.sent && a.Accept? && a.pid == s.prop.pid && a.inst < s.inst :: SelfAccepted(s, a.inst, a.pid)
  }

  function SetSkip(s: Node, c: bool): Node {
    s.(prop := s.prop.(canSkip := c))
  }

  /** The proposer may send an accept with its value. */
  ghost predicate MayAccept(cfg: Config, w: World, s: Node) {
    && s.prop.value != [] && Justified(cfg, w, s.inst, MyBallot(s), s.prop.value)
    && Pinned(s) && SelfAcceptedEarlier(s)
  }

  lemma StartAcceptProposer(cfg: Config, w: World, s: Node, t: Node)
    requires ProposerInv(cfg, w, s) && OwnMessages(s) && MayAccept(cfg, w, s) && t == StartAccept(SetSkip(s, t.prop.canSkip))
    ensures ProposerInv(cfg, w, t)
  {
    hide Justified, Chosen, VotesFor, Proposed;
    assert Accept(t.inst, t.me, t.prop.pid, s.prop.value, s.last) in t.sent;
    assert AcceptedNow(t);
  }

  lemma StartAcceptInv(cfg: Config, w: World, s: Node, c: bool)
    requires InWorld(cfg, w, s) && MayAccept(cfg, w, s)
    ensures var t := StartAccept(SetSkip(s, c)); InWorld(cfg, Put(w, t), t) && Proposed(Put(w, t), t.inst, MyBallot(t), t.prop.value)
  {
    hide AcceptorInv, ProposerInv, LearnerInv, ChecksumInv, OwnMessages, Justified, Pinned, SelfAcceptedEarlier;
    var t := StartAccept(SetSkip(s, c));
    var m := Accept(s.inst, s.me, s.prop.pid, s.prop.value, s.last);
    var w' := Put(w, t);
    PutExtends(w, t);
    assert AcceptorInv(w', t) by {
      AcceptorInvMono(w, w', s);
      FrameAcceptor(w', s, t, {m});
    }
    assert ProposerInv(cfg, w', t) by {
      ProposerInvMono(cfg, w, w', s);
      JustifiedMono(cfg, w, w');
      StartAcceptProposer(cfg, w', s, t);
    }
    assert LearnerInv(cfg, w', t) by {
      LearnerInvMono(cfg, w, w', s);
      FrameLearner(cfg, w', s, t, {m});
    }
    assert ChecksumInv(cfg, t) by {
      ExecutedLength(cfg, w, s);
      FrameChecksum(cfg, s, t, {m});
    }
    assert OwnMessages(t) by {
      OwnPid(s);
      FrameOwn(s, t, {m});
    }
    assert Said(w', m);
  }

  lemma OwnPid(s: Node)
    requires OwnMessages(s)
    ensures s.prop.pid >= 1
  {
  }

  /** After the node's own acceptor answered: it accepted, or the rejection is noted. */
  lemma OwnAnswerCounted(cfg: Config, s: Node, t: Node, u: Node, from: NodeId)
    requires MayAcceptLocal(s) && OwnMessages(s)
    requires t == StartAccept(SetSkip(s, t.prop.canSkip)) && from == s.me
    requires u == CountAcceptReply(OnAccept(cfg, t, s.me, s.prop.pid, s.prop.value), from, AcceptAnswer(t, s.me, s.prop.pid).reject)
    ensures Pinned(u) && SelfAcceptOrFlag(u)
  {
    var answer := AcceptAnswer(t, s.me, s.prop.pid);
    assert answer in u.sent;
    assert answer.reject == 0 ==> SelfAccepted(u, s.inst, s.prop.pid);
    forall a | a in u.sent && a.Accept? && a.pid == u.prop.pid ensures SelfAccepted(u, a.inst, a.pid) || u.prop.rejected {
      if a in s.sent && a.inst < s.inst {
        assert SelfAccepted(s, a.inst, a.pid);
      }
    }
  }

  ghost predicate MayAcceptLocal(s: Node) {
    Pinned(s) && SelfAcceptedEarlier(s)
  }

  lemma AcceptPassedInv(cfg: Config, w: World, s: Node)
    requires InWorld(cfg, w, s) && Pinned(s) && SelfAcceptOrFlag(s)
    requires s.prop.accepting && Passed(cfg, s.prop)
    ensures var t := SendSuccess(s.(prop := s.prop.(accepting := false)));
            InWorld(cfg, Put(w, t), t) && Fixed(cfg, t) && SelfAcceptOrFlag(t)
  {
    hide AcceptorInv, LearnerInv, ChecksumInv, OwnMessages, ProposerInv, Fixed;
    assert Chosen(cfg, w, s.inst, MyBallot(s)) by {
      PassedIsChosen(cfg, w, s);
    }
    var t0 := s.(prop := s.prop.(accepting := false));
    assert ProposerInv(cfg, w, t0) by {
      SameBallotUse(cfg, w, s, t0);
    }
    ProposerChange(cfg, w, s, t0);
    var w0 := Put(w, t0);
    PutExtends(w, t0);
    ChosenMono(cfg, w, w0);
    SuccessSent(cfg, w0, t0);
    var m := Success(t0.inst, t0.me, t0.prop.pid, t0.last);
    var t1 := Send(t0, m);
    var w1 := Put(w0, t1);
    PutPut(w, t0, t1);
    assert Fixed(cfg, t1) && SelfAcceptOrFlag(t1) by {
      SentHarmless(t0, t1, m);
      PinnedIsFixed(cfg, t1);
    }
    if SuccessApplies(t1, t1.inst, t1.me, t1.prop.pid) {
      PutExtends(w0, t1);
      ChosenMono(cfg, w0, w1);
      AcceptedAndChosen(cfg, w1, t1);
    }
    OnSuccessInv(cfg, w1, t1, t1.inst, t1.me, t1.prop.pid);
    PutPut(w, t1, OnSuccess(t1, t1.inst, t1.me, t1.prop.pid));
  }

  lemma PassedIsChosen(cfg: Config, w: World, s: Node)
    requires ProposerInv(cfg, w, s) && s.prop.accepting && Passed(cfg, s.prop)
    ensures Chosen(cfg, w, s.inst, MyBallot(s))
  {
    assert IsQuorum(cfg, s.prop.counter.passes);
  }

  lemma AcceptedAndChosen(cfg: Config, w: World, s: Node)
    requires InWorld(cfg, w, s) && !s.acc.accepted.IsNull() && Chosen(cfg, w, s.inst, s.acc.accepted)
    ensures ChosenValue(cfg, w, s.inst, s.acc.value)
  {
    hide ProposerInv, LearnerInv, ChecksumInv, OwnMessages, Chosen;
    assert AcceptedOk(w, s);
    assert Proposed(w, s.inst, s.acc.accepted, s.acc.value);
  }

  lemma SentHarmless(s: Node, t: Node, m: Msg)
    requires SelfAcceptOrFlag(s) && t == Send(s, m) && !m.Accept?
    ensures (Pinned(s) ==> Pinned(t)) && SelfAcceptOrFlag(t)
  {
  }

  lemma PinnedIsFixed(cfg: Config, s: Node)
    requires Pinned(s)
    ensures Fixed(cfg, s)
  {
  }

  lemma SuccessSent(cfg: Config, w: World, s: Node)
    requires InWorld(cfg, w, s) && Chosen(cfg, w, s.inst, MyBallot(s))
    ensures var t := Send(s, Success(s.inst, s.me, s.prop.pid, s.last)); InWorld(cfg, Put(w, t), t)
  {
    hide AcceptorInv, ProposerInv, LearnerInv, ChecksumInv, OwnMessages, Chosen;
    var m := Success(s.inst, s.me, s.prop.pid, s.last);
    var t := Send(s, m);
    var w' := Put(w, t);
    PutExtends(w, t);
    assert AcceptorInv(w', t) by {
      AcceptorInvMono(w, w', s);
      FrameAcceptor(w', s, t, {m});
    }
    assert ProposerInv(cfg, w', t) by {
      ProposerInvMono(cfg, w, w', s);
      ChosenMono(cfg, w, w');
      SuccessProposer(cfg, w', s, t, m);
    }
    assert LearnerInv(cfg, w', t) by {
      LearnerInvMono(cfg, w, w', s);
      FrameLearner(cfg, w', s, t, {m});
    }
    assert ChecksumInv(cfg, t) by {
      ExecutedLength(cfg, w, s);
      FrameChecksum(cfg, s, t, {m});
    }
    assert OwnMessages(t) by {
      OwnPid(s);
      FrameOwn(s, t, {m});
    }
  }

  lemma SuccessProposer(cfg: Config, w: World, s: Node, t: Node, m: Msg)
    requires ProposerInv(cfg, w, s) && m.Success? && t == Send(s, m)
    requires Chosen(cfg, w, m.inst, Ballot(m.pid, s.me))
    ensures ProposerInv(cfg, w, t)
  {
    hide Justified, Chosen, VotesFor, Proposed;
    if AcceptedNow(s) {
      var v, last :| Accept(s.inst, s.me, s.prop.pid, v, last) in s.sent;
      assert Accept(t.inst, t.me, t.prop.pid, v, last) in t.sent;
    }
    if AcceptedNow(t) {
      var v, last :| Accept(t.inst, t.me, t.prop.pid, v, last) in t.sent;
      assert Accept(s.inst, s.me, s.prop.pid, v, last) in s.sent;
    }
  }

  lemma OnAcceptReplyInv(cfg: Config, w: World, s: Node, from: NodeId, pid: nat, reject: nat)
    requires InWorld(cfg, w, s) && Fixed(cfg, s) && SelfAcceptOrFlag(s) && from in cfg.members
    requires reject == 0 ==> AcceptedBy(w, from, s.inst, Ballot(pid, s.me))
    ensures var t := OnAcceptReply(cfg, s, from, pid, reject);
            InWorld(cfg, Put(w, t), t) && Fixed(cfg, t) && SelfAcceptOrFlag(t)
  {
    hide NodeInv, Pinned, Fixed, SelfAcceptOrFlag;
    if !s.prop.accepting || pid != s.prop.pid {
      assert Put(w, s) == w;
    } else {
      var s1 := CountAcceptReply(s, from, reject);
      CountAcceptInv(cfg, w, s, from, reject);
      FixedIsPinned(cfg, s);
      CountAcceptStep(s, from, reject);
      PinnedIsFixed(cfg, s1);
      if Passed(cfg, s1.prop) {
        AcceptPassedInv(cfg, Put(w, s1), s1);
        PutPut(w, s1, OnAcceptReply(cfg, s, from, pid, reject));
      }
    }
  }

  lemma CountAcceptStep(s: Node, from: NodeId, reject: nat)
    requires Pinned(s) && SelfAcceptOrFlag(s)
    ensures Pinned(CountAcceptReply(s, from, reject)) && SelfAcceptOrFlag(CountAcceptReply(s, from, reject))
  {
  }

  lemma DoAcceptInv(cfg: Config, w: World, s: Node, c: bool)
    requires InWorld(cfg, w, s) && MayAccept(cfg, w, s)
    ensures var t := DoAccept(cfg, SetSkip(s, c)); InWorld(cfg, Put(w, t), t) && Fixed(cfg, t) && SelfAcceptOrFlag(t)
  {
    hide AcceptorInv, ProposerInv, LearnerInv, ChecksumInv, OwnMessages, Pinned, Fixed, SelfAcceptOrFlag, Proposed, Justified;
    OwnPid(s);
    var s1 := StartAccept(SetSkip(s, c));
    StartAcceptInv(cfg, w, s, c);
    var w1 := Put(w, s1);
    var answer := AcceptAnswer(s1, s1.me, s1.prop.pid);
    var s2 := OnAccept(cfg, s1, s1.me, s1.prop.pid, s1.prop.value);
    OnAcceptInv(cfg, w1, s1, s1.me, s1.prop.pid, s1.prop.value);
    var w2 := Put(w1, s2);
    PutPut(w, s1, s2);
    var s3 := CountAcceptReply(s2, answer.from, answer.reject);
    assert answer in s2.sent;
    assert answer.reject == 0 ==> AcceptedBy(w2, answer.from, s2.inst, MyBallot(s2));
    CountAcceptInv(cfg, w2, s2, answer.from, answer.reject);
    PutPut(w, s2, s3);
    OwnAnswerCounted(cfg, s, s1, s3, answer.from);
    PinnedIsFixed(cfg, s3);
    if Passed(cfg, s3.prop) {
      AcceptPassedInv(cfg, Put(w, s3), s3);
      PutPut(w, s3, DoAccept(cfg, SetSkip(s, c)));
    }
  }

  // ---- proposer: prepare ----

  /** A prepare that repeats a ballot already used for an accept in this instance must find the
      node's own acceptor still bound by that ballot. */
  predicate ReprepareOk(s: Node, needNew: bool) {
    needNew
    || (forall a | a in s.sent && a.Accept? && a.inst == s.inst && a.pid == s.prop.pid :: !s.acc.promise.Gt(MyBallot(s)))
  }

  /** The condition under which a prepare is safe: in a cluster of one or two there is none. */
  predicate PrepareGuard(cfg: Config, s: Node) {
    |cfg.members| <= 2 || ReprepareOk(s, s.prop.rejected)
  }

  lemma StartPrepareProposer(cfg: Config, w: World, s: Node, t: Node, needNew: bool)
    requires ProposerInv(cfg, w, s) && OwnMessages(s) && SelfAcceptOrFlag(s)
    requires needNew || !s.prop.rejected
    requires s.prop.value != [] && t == StartPrepare(s, needNew)
    ensures ProposerInv(cfg, w, t)
  {
    hide Justified, Chosen, VotesFor, Proposed;
  }

  lemma StartPrepareInv(cfg: Config, w: World, s: Node, needNew: bool)
    requires InWorld(cfg, w, s) && SelfAcceptOrFlag(s) && s.prop.value != []
    requires needNew || !s.prop.rejected
    ensures var t := StartPrepare(s, needNew); InWorld(cfg, Put(w, t), t) && t.prop.preparing && t.prop.pid >= 1
  {
    hide AcceptorInv, ProposerInv, LearnerInv, ChecksumInv, SelfAcceptOrFlag;
    var t := StartPrepare(s, needNew);
    var m := Prepare(s.inst, s.me, t.prop.pid);
    var w' := Put(w, t);
    PutExtends(w, t);
    assert AcceptorInv(w', t) by {
      AcceptorInvMono(w, w', s);
      FrameAcceptor(w', s, t, {m});
    }
    assert ProposerInv(cfg, w', t) by {
      ProposerInvMono(cfg, w, w', s);
      StartPrepareProposer(cfg, w', s, t, needNew);
    }
    assert LearnerInv(cfg, w', t) by {
      LearnerInvMono(cfg, w, w', s);
      FrameLearner(cfg, w', s, t, {m});
    }
    assert ChecksumInv(cfg, t) by {
      ExecutedLength(cfg, w, s);
      FrameChecksum(cfg, s, t, {m});
    }
  }

  lemma StartPrepareFlag(s: Node, needNew: bool)
    requires SelfAcceptOrFlag(s) && OwnMessages(s) && (needNew || !s.prop.rejected)
    ensures SelfAcceptOrFlag(StartPrepare(s, needNew))
    ensures SelfAcceptedEarlier(StartPrepare(s, needNew))
  {
  }

  /** The reply of the node's own acceptor is a good one. */
  lemma OwnReplyGood(cfg: Config, w: World, s: Node, t: Node)
    requires InWorld(cfg, w, s) && t == OnPrepare(cfg, s, s.me, s.prop.pid) && InWorld(cfg, Put(w, t), t)
    requires s.prop.pid >= 1
    ensures GoodPrepareReply(Put(w, t), t, PrepareAnswer(s, s.me, s.prop.pid))
  {
    hide ProposerInv, LearnerInv, ChecksumInv;
    var r := PrepareAnswer(s, s.me, s.prop.pid);
    assert r in t.sent;
    assert RepliesOk(Put(w, t), t);
  }

  /** When the ballot was already used in this instance, the own reply brings its value back. */
  lemma OwnReplyPins(cfg: Config, w: World, s: Node, t: Node, u: Node)
    requires InWorld(cfg, w, s) && Pinned(s) && SelfAcceptOrFlag(s) && !s.prop.rejected && ReprepareOk(s, false)
    requires t == OnPrepare(cfg, StartPrepare(s, false), s.me, s.prop.pid)
    requires var r := PrepareAnswer(StartPrepare(s, false), s.me, s.prop.pid);
             u == CountPrepareReply(t, r.from, r.reject, r.pre, r.value)
    ensures Pinned(u)
  {
    hide LearnerInv, ChecksumInv, Justified, Chosen, VotesFor, PreparingOk, CanSkipOk, AcceptingOk, SuccessOk, RepliesOk, PromiseKept, PromisesBelow;
    forall a | a in u.sent && a.Accept? && a.inst == u.inst && a.pid == u.prop.pid
      ensures u.prop.value == a.value && (u.prop.preparing ==> u.prop.highestPre == MyBallot(u))
    {
      assert a in s.sent;
      var b := MyBallot(s);
      var k := AcceptReply(s.inst, s.me, s.me, s.prop.pid, 0);
      assert SelfAccepted(s, a.inst, a.pid) && k in s.sent && k.IsAccepted() && k.ReplyBallot() == b;
      assert s.acc.accepted == b;
      assert Proposed(w, s.inst, b, s.acc.value);
    }
  }

  lemma FixedIsPinned(cfg: Config, s: Node)
    requires Fixed(cfg, s) && (!s.prop.rejected || s.prop.canSkip || s.prop.accepting)
    ensures Pinned(s)
  {
  }

  lemma OwnRejectionLoses(cfg: Config, s: Node, t: Node, u: Node)
    requires |cfg.members| <= 2 && OwnMessages(s) && !ReprepareOk(s, false)
    requires t == OnPrepare(cfg, StartPrepare(s, false), s.me, s.prop.pid)
    requires var r := PrepareAnswer(StartPrepare(s, false), s.me, s.prop.pid);
             u == CountPrepareReply(t, r.from, r.reject, r.pre, r.value)
    ensures Fixed(cfg, u) && !Passed(cfg, u.prop)
  {
    assert Lost(cfg, u);
  }

  lemma PreparingPasses(cfg: Config, w: World, s: Node)
    requires InWorld(cfg, w, s) && s.prop.preparing
    ensures s.prop.counter.passes <= cfg.members && s.me in cfg.members
  {
    hide AcceptorInv, LearnerInv, ChecksumInv, OwnMessages, Justified;
  }

  /** A lost prepare never passes: one other node is no majority. */
  lemma LostStaysLost(cfg: Config, s: Node, r: Msg)
    requires Lost(cfg, s) && s.me in cfg.members && r.PrepareReply? && r.from != s.me && r.from in cfg.members
    requires s.prop.counter.passes <= cfg.members
    ensures var t := CountPrepareReply(s, r.from, r.reject, r.pre, r.value);
            Lost(cfg, t) && !Passed(cfg, t.prop) && t.prop.counter.passes <= cfg.members - {s.me}
  {
    var t := CountPrepareReply(s, r.from, r.reject, r.pre, r.value);
    assert t.prop.counter.passes <= cfg.members - {s.me};
    SubsetSize(t.prop.counter.passes, cfg.members - {s.me});
  }

  lemma {:induction false} SubsetSize(a: set<NodeId>, b: set<NodeId>)
    requires a <= b
    ensures |a| <= |b|
    decreases |a|
  {
    if a != {} {
      var x :| x in a;
      SubsetSize(a - {x}, b - {x});
    }
  }

  lemma OwnReplyPinsNew(cfg: Config, s: Node, t: Node, u: Node)
    requires OwnMessages(s)
    requires t == OnPrepare(cfg, StartPrepare(s, true), s.me, NextPid(s.prop, true))
    requires var r := PrepareAnswer(StartPrepare(s, true), s.me, NextPid(s.prop, true));
             u == CountPrepareReply(t, r.from, r.reject, r.pre, r.value)
    ensures Pinned(u)
  {
  }

  /** Preparing in this instance with a ballot means every earlier accept with it was self-accepted. */
  lemma PreparingSelfAccepted(cfg: Config, w: World, s: Node)
    requires PreparingOk(cfg, w, s) && SelfAcceptBefore(s) && s.prop.preparing
    ensures SelfAcceptedEarlier(s)
  {
  }

  lemma NotProposedNow(w: World, s: Node)
    requires s.me in w && w[s.me] == s && !AcceptedNow(s)
    ensures forall v :: !Proposed(w, s.inst, MyBallot(s), v)
  {
  }

  lemma PassedJustified(cfg: Config, w: World, s: Node)
    requires PreparingOk(cfg, w, s) && s.prop.pid >= 1 && s.me in w && w[s.me] == s
    requires s.prop.preparing && Passed(cfg, s.prop) && !AcceptedNow(s)
    ensures Justified(cfg, w, s.inst, MyBallot(s), s.prop.value)
  {
    var top, b, Q := s.prop.highestPre, MyBallot(s), s.prop.counter.passes;
    forall q | q in Q ensures Votes(w, q, s.inst, b, top) {
      assert VotesNow(w, q, s.inst, b, top);
    }
    NotProposedNow(w, s);
    assert IsQuorum(cfg, Q) && JustifiedBy(w, Q, top, s.inst, b, s.prop.value);
  }

  /** A prepare that passes gives the right to send an accept. */
  lemma PassedPrepareMayAccept(cfg: Config, w: World, s: Node)
    requires ProposerInv(cfg, w, s) && Pinned(s) && OwnMessages(s)
    requires s.me in w && w[s.me] == s
    requires s.prop.preparing && Passed(cfg, s.prop)
    ensures MayAccept(cfg, w, s)
  {
    hide Chosen, VotesFor, Justified, Passed, Proposed;
    PreparingSelfAccepted(cfg, w, s);
    if AcceptedNow(s) {
      var v, last :| Accept(s.inst, s.me, s.prop.pid, v, last) in s.sent;
      assert Justified(cfg, w, s.inst, MyBallot(s), v);
    } else {
      PassedJustified(cfg, w, s);
    }
  }

  lemma AfterPrepareReplyInv(cfg: Config, w: World, s: Node)
    requires InWorld(cfg, w, s) && Fixed(cfg, s) && SelfAcceptOrFlag(s) && s.prop.preparing
    requires Pinned(s) || !Passed(cfg, s.prop)
    ensures var t := AfterPrepareReply(cfg, s); InWorld(cfg, Put(w, t), t) && Fixed(cfg, t) && SelfAcceptOrFlag(t)
  {
    hide AcceptorInv, LearnerInv, ChecksumInv, ProposerInv, OwnMessages, Justified, Passed, Fixed;
    if Passed(cfg, s.prop) {
      PassedPrepareMayAccept(cfg, w, s);
      DoAcceptInv(cfg, w, s, true);
    } else {
      assert Put(w, s) == w;
    }
  }

  lemma OnPrepareReplyInv(cfg: Config, w: World, s: Node, r: Msg)
    requires InWorld(cfg, w, s) && Fixed(cfg, s) && SelfAcceptOrFlag(s)
    requires r.PrepareReply? && r.from in cfg.members && r.from != s.me && (r.pid == s.prop.pid ==> GoodPrepareReply(w, s, r))
    ensures var t := OnPrepareReply(cfg, s, r.from, r.pid, r.reject, r.pre, r.value);
            InWorld(cfg, Put(w, t), t) && Fixed(cfg, t) && SelfAcceptOrFlag(t)
  {
    hide NodeInv, Pinned, Lost, SelfAcceptOrFlag, Said, Proposed, AfterPrepareReply;
    if !s.prop.preparing || r.pid != s.prop.pid {
      assert Put(w, s) == w;
    } else {
      var s1 := CountPrepareReply(s, r.from, r.reject, r.pre, r.value);
      CountPrepareInv(cfg, w, s, r);
      if Pinned(s) {
        CountPreparePinned(s, r);
      } else {
        PreparingPasses(cfg, w, s);
        LostStaysLost(cfg, s, r);
      }
      CountPrepareFlag(s, r);
      AfterPrepareReplyInv(cfg, Put(w, s1), s1);
      AfterPrepareReplyMe(cfg, s1);
      PutPut(w, s1, AfterPrepareReply(cfg, s1));
    }
  }

  lemma AfterPrepareReplyMe(cfg: Config, s: Node)
    ensures AfterPrepareReply(cfg, s).me == s.me
  {
  }

  lemma DoPrepareInv(cfg: Config, w: World, s: Node)
    requires InWorld(cfg, w, s) && Fixed(cfg, s) && SelfAcceptOrFlag(s) && s.prop.value != []
    requires PrepareGuard(cfg, s)
    ensures var t := DoPrepare(cfg, s, s.prop.rejected); InWorld(cfg, Put(w, t), t) && Fixed(cfg, t) && SelfAcceptOrFlag(t)
  {
    hide AcceptorInv, LearnerInv, ChecksumInv, ProposerInv, OwnMessages, Pinned, Fixed, Passed, SelfAcceptOrFlag, ReprepareOk;
    var needNew := s.prop.rejected;
    var s1 := StartPrepare(s, needNew);
    StartPrepareInv(cfg, w, s, needNew);
    StartPrepareFlag(s, needNew);
    var w1 := Put(w, s1);
    var r := PrepareAnswer(s1, s1.me, s1.prop.pid);
    var s2 := OnPrepare(cfg, s1, s1.me, s1.prop.pid);
    OnPrepareInv(cfg, w1, s1, s1.me, s1.prop.pid);
    OwnReplyGood(cfg, w1, s1, s2);
    var w2 := Put(w1, s2);
    PutPut(w, s1, s2);
    var s3 := CountPrepareReply(s2, r.from, r.reject, r.pre, r.value);
    CountPrepareInv(cfg, w2, s2, r);
    PutPut(w, s2, s3);
    if needNew {
      OwnReplyPinsNew(cfg, s, s2, s3);
      PinnedIsFixed(cfg, s3);
    } else if ReprepareOk(s, needNew) {
      FixedIsPinned(cfg, s);
      OwnReplyPins(cfg, w, s, s2, s3);
      PinnedIsFixed(cfg, s3);
    } else {
      OwnRejectionLoses(cfg, s, s2, s3);
    }
    assert SelfAcceptOrFlag(s3) by {
      OwnReplyFlag(cfg, s1, s2);
      CountPrepareFlag(s2, r);
    }
    AfterPrepareReplyInv(cfg, Put(w, s3), s3);
    PutPut(w, s3, AfterPrepareReply(cfg, s3));
  }

  lemma OwnReplyFlag(cfg: Config, s: Node, t: Node)
    requires SelfAcceptOrFlag(s) && t == OnPrepare(cfg, s, s.me, s.prop.pid)
    ensures SelfAcceptOrFlag(t)
  {
  }
}
