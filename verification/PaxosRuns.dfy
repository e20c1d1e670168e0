/** Runs: sequences of deliveries, client proposals, timers and log shipping, and the safety theorems
    over all of them. */
module PaxosRuns {
  import opened Common
  import opened PaxosTypes
  import opened PaxosNode
  import opened PaxosInvariant
  import opened PaxosSteps
  import opened PaxosAgreement

  /** A message stays in `sent` for ever, so it may arrive late, out of order, repeatedly or never. */
  datatype Event =
    | Deliver(q: NodeId, m: Msg)
    | Propose(q: NodeId, value: Value)
    | Timeout(q: NodeId)
    | CommitTimeout(q: NodeId)
    | Ship(q: NodeId, inst: nat, to: NodeId, withChecksum: bool)

  ghost predicate Enabled(cfg: Config, w: World, e: Event) {
    e.q in w &&
    var s := w[e.q];
    match e
    case Deliver(q, m) =>
      Said(w, m) && m.AddressedTo(q) && (|cfg.members| <= 4 || !ShortcutFires(s, m))
    case Propose(q, value) =>
      value != [] && ((s.prop.canSkip && !s.prop.rejected) || PrepareGuard(cfg, s))
    case Timeout(q) =>
      (s.prop.preparing || s.prop.accepting) && PrepareGuard(cfg, s)
    case CommitTimeout(q) => true
    case Ship(q, inst, to, withChecksum) =>
      inst < s.inst && inst in s.log && (withChecksum ==> inst > 0 && inst - 1 in s.log)
  }

  function Handle(cfg: Config, s: Node, e: Event): Node
    requires e.Ship? ==> e.inst < s.inst && e.inst in s.log && (e.withChecksum ==> e.inst > 0 && e.inst - 1 in s.log)
  {
    match e
    case Deliver(q, m) => OnReceive(cfg, s, m)
    case Propose(q, value) => NewValue(cfg, s, value)
    case Timeout(q) => OnTimeout(cfg, s)
    case CommitTimeout(q) => OnCommitTimeout(s)
    case Ship(q, inst, to, withChecksum) => ShipRecord(s, inst, to, withChecksum)
  }

  ghost function Apply(cfg: Config, w: World, e: Event): World
    requires Enabled(cfg, w, e)
  {
    w[e.q := Handle(cfg, w[e.q], e)]
  }

  ghost function InitWorld(cfg: Config): World {
    map n | n in cfg.members :: InitNode(n)
  }

  /** `run` is legal and leads from `w` to `w'`. */
  ghost predicate Leads(cfg: Config, w: World, run: seq<Event>, w': World)
    decreases |run|
  {
    if run == [] then w' == w
    else Enabled(cfg, w, run[0]) && Leads(cfg, Apply(cfg, w, run[0]), run[1..], w')
  }

  ghost predicate Reachable(cfg: Config, w: World) {
    exists run :: Leads(cfg, InitWorld(cfg), run, w)
  }

  // ---- nothing a node sent is ever taken back ----

  ghost predicate Grows(s: Node, t: Node) {
    t.me == s.me && s.sent <= t.sent
  }

  lemma DoAcceptGrows(cfg: Config, s: Node)
    ensures Grows(s, DoAccept(cfg, s))
  {
  }

  lemma DoPrepareGrows(cfg: Config, s: Node, needNew: bool)
    ensures Grows(s, DoPrepare(cfg, s, needNew))
  {
    hide DoAccept;
    var s1 := StartPrepare(s, needNew);
    var s2 := OnPrepare(cfg, s1, s1.me, s1.prop.pid);
    var r := PrepareAnswer(s1, s1.me, s1.prop.pid);
    var s3 := CountPrepareReply(s2, r.from, r.reject, r.pre, r.value);
    DoAcceptGrows(cfg, s3.(prop := s3.prop.(canSkip := true)));
  }

  lemma OnReceiveGrows(cfg: Config, s: Node, m: Msg)
    ensures Grows(s, OnReceive(cfg, s, m))
  {
    hide DoAccept;
    if m.PrepareReply? {
      var s1 := CountPrepareReply(s, m.from, m.reject, m.pre, m.value);
      DoAcceptGrows(cfg, s1.(prop := s1.prop.(canSkip := true)));
    }
  }

  lemma HandleGrows(cfg: Config, w: World, e: Event)
    requires Enabled(cfg, w, e)
    ensures Grows(w[e.q], Handle(cfg, w[e.q], e))
  {
    hide DoAccept, DoPrepare, OnReceive;
    var s := w[e.q];
    match e
    case Deliver(q, m) => OnReceiveGrows(cfg, s, m);
    case Propose(q, value) =>
      var s1 := if |s.prop.value| == 0 then s.(prop := s.prop.(value := value)) else s;
      DoAcceptGrows(cfg, s1);
      DoPrepareGrows(cfg, s1, s1.prop.rejected);
    case Timeout(q) => DoPrepareGrows(cfg, s, s.prop.rejected);
    case CommitTimeout(q) =>
    case Ship(q, inst, to, withChecksum) =>
  }

  // ---- what a message says about the node that sent it ----

  ghost predicate Settled(cfg: Config, w: World, s: Node) {
    InWorld(cfg, w, s) && Fixed(cfg, s) && SelfAcceptOrFlag(s)
  }

  lemma NodeSettled(cfg: Config, w: World, q: NodeId)
    requires WorldInv(cfg, w) && q in w
    ensures Settled(cfg, w, w[q]) && w[q].me == q
  {
    hide NodeInv, Fixed, SelfAcceptOrFlag;
    assert NodeOk(cfg, w, q);
  }

  lemma PrepareReplySaid(cfg: Config, w: World, q: NodeId, m: Msg)
    requires WorldInv(cfg, w) && q in w && w[q].me == q && Said(w, m) && m.PrepareReply?
    requires m.to == q && m.inst == w[q].inst && m.pid == w[q].prop.pid
    ensures GoodPrepareReply(w, w[q], m)
  {
    hide ProposerInv, LearnerInv, ChecksumInv;
    assert NodeOk(cfg, w, m.from);
    assert RepliesOk(w, w[m.from]);
  }

  lemma AcceptSaid(cfg: Config, w: World, m: Msg)
    requires WorldInv(cfg, w) && Said(w, m) && (m.Accept? || m.Prepare?)
    ensures m.pid >= 1
    ensures m.Accept? ==> m.value != [] && Proposed(w, m.inst, Ballot(m.pid, m.from), m.value)
  {
    hide AcceptorInv, LearnerInv, ChecksumInv;
    assert NodeOk(cfg, w, m.from);
    if m.Accept? {
      assert AcceptsJustified(cfg, w, w[m.from]);
      assert Said(w, Accept(m.inst, m.from, m.pid, m.value, m.last));
    }
  }

  lemma SuccessSaid(cfg: Config, w: World, m: Msg)
    requires WorldInv(cfg, w) && Said(w, m) && m.Success?
    ensures Chosen(cfg, w, m.inst, Ballot(m.pid, m.from))
  {
    hide AcceptorInv, LearnerInv, ChecksumInv;
    assert NodeOk(cfg, w, m.from);
    assert SuccessOk(cfg, w, w[m.from]);
  }

  lemma LearnSaid(cfg: Config, w: World, m: Msg)
    requires WorldInv(cfg, w) && Said(w, m) && m.LearnValue?
    ensures ChosenValue(cfg, w, m.inst, m.value)
  {
    hide AcceptorInv, ProposerInv, ChecksumInv;
    assert NodeOk(cfg, w, m.from);
    assert LearnerInv(cfg, w, w[m.from]);
  }

  // ---- every event keeps its node settled ----

  lemma AdoptInv(cfg: Config, w: World, s: Node, m: Msg)
    requires Settled(cfg, w, s)
    requires m.Last() != 0 && m.inst == s.inst ==> m.Last() == Fold(cfg.crc, s.executed)
    ensures var t := AdoptChecksum(s, m); Settled(cfg, Put(w, t), t)
  {
    hide AcceptorInv, LearnerInv, ProposerInv;
    var t := AdoptChecksum(s, m);
    var w' := Put(w, t);
    PutExtends(w, t);
    assert t.sent == s.sent + {};
    assert AcceptorInv(w', t) by {
      AcceptorInvMono(w, w', s);
      FrameAcceptor(w', s, t, {});
    }
    assert ProposerInv(cfg, w', t) by {
      ProposerInvMono(cfg, w, w', s);
      FrameProposer(cfg, w', s, t, {});
    }
    assert LearnerInv(cfg, w', t) by {
      LearnerInvMono(cfg, w, w', s);
      FrameLearner(cfg, w', s, t, {});
    }
    ExecutedLength(cfg, w, s);
  }

  lemma ShipInv(cfg: Config, w: World, s: Node, inst: nat, to: NodeId, withChecksum: bool)
    requires Settled(cfg, w, s)
    requires inst < s.inst && inst in s.log && (withChecksum ==> inst > 0 && inst - 1 in s.log)
    ensures var t := ShipRecord(s, inst, to, withChecksum); Settled(cfg, Put(w, t), t)
  {
    hide AcceptorInv, ProposerInv, LearnerInv, ChecksumInv, OwnMessages;
    var t := ShipRecord(s, inst, to, withChecksum);
    var r := s.log[inst];
    var m := LearnValue(inst, s.me, to, r.accepted, r.value, if withChecksum then s.log[inst - 1].checksum else 0);
    var w' := Put(w, t);
    PutExtends(w, t);
    assert AcceptorInv(w', t) by {
      AcceptorInvMono(w, w', s);
      FrameAcceptor(w', s, t, {m});
    }
    assert ProposerInv(cfg, w', t) by {
      ProposerInvMono(cfg, w, w', s);
      FrameProposer(cfg, w', s, t, {m});
    }
    LearnerInvMono(cfg, w, w', s);
    ShippedFacts(cfg, w', s, t, m, withChecksum);
    SentHarmless(s, t, m);
    assert OwnMessages(t) by {
      FrameOwn(s, t, {m});
    }
  }

  lemma ShippedFacts(cfg: Config, w: World, s: Node, t: Node, m: Msg, withChecksum: bool)
    requires LearnerInv(cfg, w, s) && ChecksumInv(cfg, s)
    requires m.LearnValue? && m.inst < s.inst && m.inst in s.log && t == Send(s, m)
    requires m.value == s.log[m.inst].value
    requires m.last == if withChecksum && m.inst > 0 && m.inst - 1 in s.log then s.log[m.inst - 1].checksum else 0
    ensures LearnerInv(cfg, w, t) && ChecksumInv(cfg, t)
  {
    hide ChosenValue;
  }

  lemma NewValueInv(cfg: Config, w: World, s: Node, value: Value)
    requires Settled(cfg, w, s) && value != []
    requires (s.prop.canSkip && !s.prop.rejected) || PrepareGuard(cfg, s)
    ensures var t := NewValue(cfg, s, value); Settled(cfg, Put(w, t), t)
  {
    hide NodeInv, Lost, Pinned, SelfAcceptOrFlag, MayAccept, DoAccept, DoPrepare;
    var s1 := if |s.prop.value| == 0 then s.(prop := s.prop.(value := value)) else s;
    var w1 := Put(w, s1);
    if |s.prop.value| == 0 {
      SetValueInv(cfg, w, s, value);
    } else {
      assert Put(w, s) == w;
    }
    var t := NewValue(cfg, s, value);
    if s1.prop.canSkip && !s1.prop.rejected {
      SkipMayAccept(cfg, w1, s1);
      assert SetSkip(s1, s1.prop.canSkip) == s1;
      DoAcceptInv(cfg, w1, s1, s1.prop.canSkip);
      DoAcceptGrows(cfg, s1);
    } else {
      assert PrepareGuard(cfg, s1);
      DoPrepareInv(cfg, w1, s1);
      DoPrepareGrows(cfg, s1, s1.prop.rejected);
    }
    PutPut(w, s1, t);
  }

  lemma SkipJustified(cfg: Config, w: World, s: Node)
    requires CanSkipOk(cfg, w, s) && s.prop.canSkip && !AcceptedNow(s) && s.prop.pid >= 1
    ensures Justified(cfg, w, s.inst, MyBallot(s), s.prop.value)
  {
    var Q :| IsQuorum(cfg, Q) && AllVotedBefore(w, Q, s.inst, MyBallot(s));
    forall q | q in Q ensures Votes(w, q, s.inst, MyBallot(s), NULL_BALLOT) {
      assert VotedBefore(w, q, s.inst, MyBallot(s));
    }
    assert JustifiedBy(w, Q, NULL_BALLOT, s.inst, MyBallot(s), s.prop.value);
  }

  /** Skipping the prepare is as good as a prepare: the old promises still hold. */
  lemma SkipMayAccept(cfg: Config, w: World, s: Node)
    requires Settled(cfg, w, s) && s.prop.canSkip && !s.prop.rejected && s.prop.value != []
    ensures MayAccept(cfg, w, s)
  {
    hide AcceptorInv, LearnerInv, ChecksumInv, Justified, Chosen, VotesFor, Proposed;
    if AcceptedNow(s) {
      var v, last :| Accept(s.inst, s.me, s.prop.pid, v, last) in s.sent;
      assert Justified(cfg, w, s.inst, MyBallot(s), v);
    } else {
      SkipJustified(cfg, w, s);
    }
  }

  lemma WorkingHasValue(cfg: Config, w: World, s: Node)
    requires Settled(cfg, w, s) && (s.prop.preparing || s.prop.accepting)
    ensures s.prop.value != []
  {
    hide AcceptorInv, LearnerInv, ChecksumInv, Justified, Chosen, VotesFor, Proposed;
    if s.prop.accepting {
      var v, last :| Accept(s.inst, s.me, s.prop.pid, v, last) in s.sent;
      assert AcceptsJustified(cfg, w, s);
    }
  }

  lemma TimeoutInv(cfg: Config, w: World, s: Node)
    requires Settled(cfg, w, s) && (s.prop.preparing || s.prop.accepting)
    requires PrepareGuard(cfg, s)
    ensures var t := OnTimeout(cfg, s); Settled(cfg, Put(w, t), t)
  {
    hide NodeInv, Fixed, SelfAcceptOrFlag, DoPrepare;
    WorkingHasValue(cfg, w, s);
    if s.inst == s.prop.timeoutInst {
      DoPrepareInv(cfg, w, s);
    } else {
      assert Put(w, s) == w;
    }
  }

  lemma ReplyHarmless(cfg: Config, s: Node, t: Node, m: Msg)
    requires Fixed(cfg, s) && SelfAcceptOrFlag(s) && !m.Accept?
    requires t.me == s.me && t.inst == s.inst && t.prop == s.prop && t.sent == s.sent + {m}
    ensures Fixed(cfg, t) && SelfAcceptOrFlag(t)
  {
  }

  lemma OnPrepareSettled(cfg: Config, w: World, s: Node, from: NodeId, pid: nat)
    requires Settled(cfg, w, s) && pid >= 1
    ensures var t := OnPrepare(cfg, s, from, pid); Settled(cfg, Put(w, t), t)
  {
    hide NodeInv, Fixed, SelfAcceptOrFlag;
    OnPrepareInv(cfg, w, s, from, pid);
    ReplyHarmless(cfg, s, OnPrepare(cfg, s, from, pid), PrepareAnswer(s, from, pid));
  }

  lemma OnAcceptSettled(cfg: Config, w: World, s: Node, from: NodeId, pid: nat, value: Value)
    requires Settled(cfg, w, s) && pid >= 1 && value != [] && Proposed(w, s.inst, Ballot(pid, from), value)
    ensures var t := OnAccept(cfg, s, from, pid, value); Settled(cfg, Put(w, t), t)
  {
    hide NodeInv, Fixed, SelfAcceptOrFlag, Proposed;
    OnAcceptInv(cfg, w, s, from, pid, value);
    ReplyHarmless(cfg, s, OnAccept(cfg, s, from, pid, value), AcceptAnswer(s, from, pid));
  }

  lemma ReceiveForAcceptorInv(cfg: Config, w: World, s: Node, m: Msg)
    requires Settled(cfg, w, s) && (m.Prepare? || m.Accept?) && m.pid >= 1
    requires m.Accept? ==> m.value != [] && Proposed(w, m.inst, Ballot(m.pid, m.from), m.value)
    requires ShortcutFires(s, m) ==> ChosenValue(cfg, w, s.inst, s.acc.value)
    ensures var t := ReceiveForAcceptor(cfg, s, m); Settled(cfg, Put(w, t), t)
  {
    hide NodeInv, Fixed, SelfAcceptOrFlag, Proposed, ChosenValue;
    var s1 := if m.inst == s.inst + 1 then OnSuccess(s, s.inst, m.from, m.pid) else s;
    var w1 := Put(w, s1);
    if m.inst == s.inst + 1 {
      OnSuccessInv(cfg, w, s, s.inst, m.from, m.pid);
    } else {
      assert w1 == w;
    }
    assert Extends(w, w1);
    SaidMono(w, w1);
    if m.inst == s1.inst {
      if m.Prepare? {
        OnPrepareSettled(cfg, w1, s1, m.from, m.pid);
      } else {
        OnAcceptSettled(cfg, w1, s1, m.from, m.pid, m.value);
      }
    }
    PutPut(w, s1, ReceiveForAcceptor(cfg, s, m));
  }

  lemma ReceiveForProposerInv(cfg: Config, w: World, s: Node, m: Msg)
    requires Settled(cfg, w, s) && (m.PrepareReply? || m.AcceptReply?) && m.from != s.me && m.from in cfg.members && m.to == s.me && Said(w, m)
    requires m.PrepareReply? && m.inst == s.inst && m.pid == s.prop.pid ==> GoodPrepareReply(w, s, m)
    ensures var t := ReceiveForProposer(cfg, s, m); Settled(cfg, Put(w, t), t)
  {
    hide NodeInv, Fixed, SelfAcceptOrFlag, GoodPrepareReply, OnPrepareReply, OnAcceptReply;
    if m.inst != s.inst {
      if m.inst + 1 == s.inst && m.reject != 0 {
        NoteRejectInv(cfg, w, s, m.reject);
      } else {
        assert Put(w, s) == w;
      }
    } else if m.PrepareReply? {
      OnPrepareReplyInv(cfg, w, s, m);
    } else {
      assert m.reject == 0 ==> AcceptedBy(w, m.from, s.inst, Ballot(m.pid, s.me));
      OnAcceptReplyInv(cfg, w, s, m.from, m.pid, m.reject);
    }
  }

  lemma ReceiveForLearnerInv(cfg: Config, w: World, s: Node, m: Msg)
    requires Settled(cfg, w, s) && (m.Success? || m.LearnValue?)
    requires m.Success? ==> Chosen(cfg, w, m.inst, Ballot(m.pid, m.from))
    requires m.LearnValue? ==> ChosenValue(cfg, w, m.inst, m.value)
    ensures var t := ReceiveForLearner(cfg, s, m); Settled(cfg, Put(w, t), t)
  {
    hide NodeInv, Fixed, SelfAcceptOrFlag, Chosen, ChosenValue;
    if m.Success? {
      if SuccessApplies(s, m.inst, m.from, m.pid) {
        AcceptedAndChosen(cfg, w, s);
      }
      OnSuccessInv(cfg, w, s, m.inst, m.from, m.pid);
    } else {
      OnLearnValueInv(cfg, w, s, m.inst, m.ballot, m.value);
    }
  }

  lemma DeliverInv(cfg: Config, w: World, q: NodeId, m: Msg)
    requires WorldInv(cfg, w) && q in w && Said(w, m) && m.AddressedTo(q)
    requires |cfg.members| <= 4 || !ShortcutFires(w[q], m)
    ensures var t := OnReceive(cfg, w[q], m); Settled(cfg, Put(w, t), t)
  {
    hide Settled, Said, NodeOk, GoodPrepareReply, Chosen, ChosenValue, ReceiveForAcceptor, ReceiveForProposer, ReceiveForLearner, Proposed;
    var s := w[q];
    NodeSettled(cfg, w, q);
    assert m.from in w by {
      assert Said(w, m);
      SaidFrom(w, m);
    }
    if m.PrepareReply? || m.AcceptReply? {
      if m.PrepareReply? && m.inst == s.inst && m.pid == s.prop.pid {
        PrepareReplySaid(cfg, w, q, m);
      }
      ReceiveForProposerInv(cfg, w, s, m);
    } else {
      if m.Last() != 0 && m.inst == s.inst {
        ChecksumsAgree(cfg, w, q, m);
      }
      AdoptInv(cfg, w, s, m);
      var s1 := AdoptChecksum(s, m);
      var w1 := Put(w, s1);
      assert Extends(w, w1);
      SaidMono(w, w1);
      ChosenMono(cfg, w, w1);
      if m.Prepare? || m.Accept? {
        AcceptSaid(cfg, w, m);
        if ShortcutFires(s1, m) {
          ShortcutIsSound(cfg, w, q, m);
        }
        ReceiveForAcceptorInv(cfg, w1, s1, m);
      } else {
        if m.Success? {
          SuccessSaid(cfg, w, m);
        } else {
          LearnSaid(cfg, w, m);
        }
        ReceiveForLearnerInv(cfg, w1, s1, m);
      }
      OnReceiveGrows(cfg, s, m);
      PutPut(w, s1, OnReceive(cfg, s, m));
    }
  }

  lemma SaidFrom(w: World, m: Msg)
    requires Said(w, m)
    ensures m.from in w
  {
  }

  // ---- runs ----

  lemma HandleInv(cfg: Config, w: World, e: Event)
    requires WorldInv(cfg, w) && Enabled(cfg, w, e)
    ensures Settled(cfg, Apply(cfg, w, e), Handle(cfg, w[e.q], e))
  {
    hide Settled, NodeOk, Said, OnReceive, NewValue, OnTimeout, OnCommitTimeout, ShipRecord;
    NodeSettled(cfg, w, e.q);
    HandleGrows(cfg, w, e);
    var s := w[e.q];
    match e
    case Deliver(q, m) => DeliverInv(cfg, w, q, m);
    case Propose(q, value) => NewValueInv(cfg, w, s, value);
    case Timeout(q) => TimeoutInv(cfg, w, s);
    case CommitTimeout(q) => CommitTimeoutSettled(cfg, w, s);
    case Ship(q, inst, to, withChecksum) => ShipInv(cfg, w, s, inst, to, withChecksum);
  }

  lemma CommitTimeoutSettled(cfg: Config, w: World, s: Node)
    requires Settled(cfg, w, s)
    ensures var t := OnCommitTimeout(s); Settled(cfg, Put(w, t), t)
  {
    hide NodeInv, Fixed, SelfAcceptOrFlag;
    CommitTimeoutInv(cfg, w, s);
  }

  /** One event keeps the invariant of every node. */
  lemma StepKeepsInv(cfg: Config, w: World, e: Event)
    requires WorldInv(cfg, w) && Enabled(cfg, w, e)
    ensures WorldInv(cfg, Apply(cfg, w, e)) && Extends(w, Apply(cfg, w, e))
  {
    hide NodeInv, Fixed, SelfAcceptOrFlag, Handle, Enabled;
    HandleInv(cfg, w, e);
    HandleGrows(cfg, w, e);
    NodeSettled(cfg, w, e.q);
    var w' := Apply(cfg, w, e);
    assert Extends(w, w');
    forall n | n in w' ensures NodeOk(cfg, w', n) {
      if n != e.q {
        assert NodeOk(cfg, w, n);
        NodeInvMono(cfg, w, w', w[n]);
      }
    }
  }

  lemma InitInv(cfg: Config)
    ensures WorldInv(cfg, InitWorld(cfg))
  {
    forall n | n in InitWorld(cfg) ensures NodeOk(cfg, InitWorld(cfg), n) {
    }
  }

  lemma {:induction false} RunKeepsInv(cfg: Config, w: World, run: seq<Event>, w': World)
    requires WorldInv(cfg, w) && Leads(cfg, w, run, w')
    ensures WorldInv(cfg, w') && Extends(w, w')
    decreases |run|
  {
    hide NodeOk, Enabled;
    if run != [] {
      StepKeepsInv(cfg, w, run[0]);
      RunKeepsInv(cfg, Apply(cfg, w, run[0]), run[1..], w');
    }
  }

  lemma ReachableInv(cfg: Config, w: World)
    requires Reachable(cfg, w)
    ensures WorldInv(cfg, w)
  {
    hide NodeOk, InitWorld;
    var run :| Leads(cfg, InitWorld(cfg), run, w);
    InitInv(cfg);
    RunKeepsInv(cfg, InitWorld(cfg), run, w);
  }
}
