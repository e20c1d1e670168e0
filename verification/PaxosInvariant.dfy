/** What holds of every node in every reachable world, and why it implies agreement. A world is
    the node states; the messages ever sent are part of them. */
module PaxosInvariant {
  import opened Common
  import opened PaxosTypes
  import opened PaxosNode

  type World = map<NodeId, Node>

  // ---- facts about the messages of a world; all of them stay true when more is sent ----

  ghost predicate Said(w: World, m: Msg) {
    m.from in w && m in w[m.from].sent
  }

  ghost predicate Proposed(w: World, inst: nat, b: Ballot, v: Value) {
    exists last :: Said(w, Accept(inst, b.node, b.pid, v, last))
  }

  ghost predicate AcceptedBy(w: World, q: NodeId, inst: nat, b: Ballot) {
    Said(w, AcceptReply(inst, q, b.node, b.pid, 0))
  }

  ghost predicate IsQuorum(cfg: Config, Q: set<NodeId>) {
    Q <= cfg.members && |Q| >= cfg.Majority()
  }

  ghost predicate AllAccepted(w: World, Q: set<NodeId>, inst: nat, b: Ballot) {
    forall q | q in Q :: AcceptedBy(w, q, inst, b)
  }

  ghost predicate Chosen(cfg: Config, w: World, inst: nat, b: Ballot) {
    exists Q :: IsQuorum(cfg, Q) && AllAccepted(w, Q, inst, b)
  }

  ghost predicate ChosenValue(cfg: Config, w: World, inst: nat, v: Value) {
    exists b :: Chosen(cfg, w, inst, b) && Proposed(w, inst, b, v)
  }

  /** `r` is a promise by `q` for ballot `b`, made in an earlier instance, or made in this one and
      reporting nothing above `top`. */
  ghost predicate VotesFor(w: World, r: Msg, q: NodeId, inst: nat, b: Ballot, top: Ballot) {
    && Said(w, r) && r.IsPromise() && r.from == q && r.ReplyBallot() == b
    && (r.inst < inst || (r.inst == inst && top.Ge(r.pre)))
  }

  ghost predicate Votes(w: World, q: NodeId, inst: nat, b: Ballot, top: Ballot) {
    exists r :: VotesFor(w, r, q, inst, b, top)
  }

  /** A promise for `b` made in this very instance, reporting nothing above `top`. */
  ghost predicate VotesNow(w: World, q: NodeId, inst: nat, b: Ballot, top: Ballot) {
    exists r :: VotesFor(w, r, q, inst, b, top) && r.inst == inst
  }

  /** A promise for `b` made in an earlier instance. */
  ghost predicate VotedBefore(w: World, q: NodeId, inst: nat, b: Ballot) {
    exists r :: VotesFor(w, r, q, inst, b, NULL_BALLOT) && r.inst < inst
  }

  ghost predicate AllVotedBefore(w: World, Q: set<NodeId>, inst: nat, b: Ballot) {
    forall q | q in Q :: VotedBefore(w, q, inst, b)
  }

  ghost predicate JustifiedBy(w: World, Q: set<NodeId>, top: Ballot, inst: nat, b: Ballot, v: Value) {
    && (forall q | q in Q :: Votes(w, q, inst, b, top))
    && b.Gt(top)
    && (top.IsNull() || Proposed(w, inst, top, v))
  }

  /** Why `v` may be proposed at ballot `b`: a quorum promised `b`, and `v` is the value of the
      highest ballot those promises reported, if they reported any. */
  ghost predicate Justified(cfg: Config, w: World, inst: nat, b: Ballot, v: Value) {
    exists Q, top :: IsQuorum(cfg, Q) && JustifiedBy(w, Q, top, inst, b, v)
  }

  function MyBallot(s: Node): Ballot {
    Ballot(s.prop.pid, s.me)
  }

  // ---- the node invariant ----

  ghost predicate OwnMessages(s: Node) {
    && s.prop.pid >= 1
    && (forall m | m in s.sent :: m.from == s.me && m.inst <= s.inst)
    && (forall m | m in s.sent && (m.Prepare? || m.Accept? || m.Success?) :: 1 <= m.pid <= s.prop.pid)
  }

  ghost predicate AcceptedOk(w: World, s: Node) {
    && s.acc.promise.Ge(s.acc.accepted)
    && if s.acc.accepted.IsNull() then s.acc.accepted == NULL_BALLOT && s.acc.value == [] && s.acc.checksum == 0
       else
         && s.acc.value != []
         && AcceptReply(s.inst, s.me, s.acc.accepted.node, s.acc.accepted.pid, 0) in s.sent
         && Proposed(w, s.inst, s.acc.accepted, s.acc.value)
         && s.inst in s.log && s.log[s.inst].accepted == s.acc.accepted
         && s.log[s.inst].value == s.acc.value && s.log[s.inst].checksum == s.acc.checksum
  }

  ghost predicate AcceptsBelow(s: Node) {
    forall m | m in s.sent && m.IsAccepted() ::
      s.acc.promise.Ge(m.ReplyBallot()) && (m.inst == s.inst ==> s.acc.accepted.Ge(m.ReplyBallot()))
  }

  ghost predicate PromisesBelow(s: Node) {
    forall m | m in s.sent && m.IsPromise() :: s.acc.promise.Ge(m.ReplyBallot())
  }

  /** A promise binds: later instances see no lower ballot accepted, and in its own instance every
      lower accepted ballot was covered by what the promise reported. */
  ghost predicate PromiseKept(s: Node) {
    forall m, a | m in s.sent && m.IsPromise() && a in s.sent && a.IsAccepted() ::
      && (a.inst > m.inst ==> a.ReplyBallot().Ge(m.ReplyBallot()))
      && (a.inst == m.inst && m.ReplyBallot().Gt(a.ReplyBallot()) ==> m.pre.Ge(a.ReplyBallot()))
  }

  ghost predicate RepliesOk(w: World, s: Node) {
    && (forall m | m in s.sent && m.IsPromise() ::
          && m.ReplyBallot().Ge(m.pre)
          && (if m.pre.IsNull() then m.pre == NULL_BALLOT else m.value != [] && Proposed(w, m.inst, m.pre, m.value)))
    && (forall m | m in s.sent && m.IsAccepted() :: exists v :: Proposed(w, m.inst, m.ReplyBallot(), v))
  }

  ghost predicate AcceptorInv(w: World, s: Node) {
    AcceptedOk(w, s) && AcceptsBelow(s) && PromisesBelow(s) && PromiseKept(s) && RepliesOk(w, s)
  }

  ghost predicate OneValue(s: Node) {
    forall a, b | a in s.sent && a.Accept? && b in s.sent && b.Accept? && a.inst == b.inst && a.pid == b.pid ::
      a.value == b.value
  }

  ghost predicate SelfAccepted(s: Node, inst: nat, pid: nat) {
    AcceptReply(inst, s.me, s.me, pid, 0) in s.sent
  }

  /** A ballot carried into a later instance was accepted by its owner in the earlier one. */
  ghost predicate SelfAcceptBefore(s: Node) {
    forall a, m | a in s.sent && a.Accept? && m in s.sent && (m.Prepare? || m.Accept?) && a.pid == m.pid && a.inst < m.inst ::
      SelfAccepted(s, a.inst, a.pid)
  }

  ghost predicate AcceptsJustified(cfg: Config, w: World, s: Node) {
    forall a | a in s.sent && a.Accept? ::
      a.value != [] && Justified(cfg, w, a.inst, Ballot(a.pid, s.me), a.value)
  }

  ghost predicate PreparingOk(cfg: Config, w: World, s: Node) {
    s.prop.preparing ==>
      && !s.prop.accepting && !s.prop.canSkip && s.prop.value != []
      && Prepare(s.inst, s.me, s.prop.pid) in s.sent
      && s.prop.counter.passes <= cfg.members
      && (forall q | q in s.prop.counter.passes :: VotesNow(w, q, s.inst, MyBallot(s), s.prop.highestPre))
      && MyBallot(s).Ge(s.prop.highestPre)
      && (s.prop.highestPre.IsNull() || Proposed(w, s.inst, s.prop.highestPre, s.prop.value))
  }

  ghost predicate AcceptedNow(s: Node) {
    exists v, last :: Accept(s.inst, s.me, s.prop.pid, v, last) in s.sent
  }

  ghost predicate CanSkipOk(cfg: Config, w: World, s: Node) {
    s.prop.canSkip && !AcceptedNow(s) ==>
      exists Q :: IsQuorum(cfg, Q) && AllVotedBefore(w, Q, s.inst, MyBallot(s))
  }

  ghost predicate AcceptingOk(cfg: Config, w: World, s: Node) {
    s.prop.accepting ==>
      && AcceptedNow(s)
      && s.prop.counter.passes <= cfg.members
      && AllAccepted(w, s.prop.counter.passes, s.inst, MyBallot(s))
  }

  ghost predicate SuccessOk(cfg: Config, w: World, s: Node) {
    forall m | m in s.sent && m.Success? :: Chosen(cfg, w, m.inst, Ballot(m.pid, s.me))
  }

  ghost predicate ProposerInv(cfg: Config, w: World, s: Node) {
    && OneValue(s) && SelfAcceptBefore(s) && AcceptsJustified(cfg, w, s)
    && PreparingOk(cfg, w, s) && CanSkipOk(cfg, w, s) && AcceptingOk(cfg, w, s) && SuccessOk(cfg, w, s)
  }

  ghost predicate LearnerInv(cfg: Config, w: World, s: Node) {
    && |s.executed| == s.inst
    && (forall i | 0 <= i < s.inst ::
          i in s.log && s.log[i].value == s.executed[i] && ChosenValue(cfg, w, i, s.executed[i]))
    && (forall m | m in s.sent && m.LearnValue? :: m.inst < s.inst && m.value == s.executed[m.inst])
  }

  /** The checksum of a finished prefix of instances. */
  ghost function Fold(crc: (nat, Value) -> nat, vs: seq<Value>): nat {
    if |vs| == 0 then 0 else crc(Fold(crc, vs[..|vs| - 1]), vs[|vs| - 1])
  }

  ghost predicate ChecksumInv(cfg: Config, s: Node)
    requires |s.executed| == s.inst
  {
    && (s.last != 0 ==> s.last == Fold(cfg.crc, s.executed))
    && (s.inst == 0 ==> s.last == 0)
    && (s.acc.checksum != 0 ==>
          (s.inst == 0 || s.last != 0) && s.acc.value != [] && s.acc.checksum == cfg.crc(s.last, s.acc.value))
    && (forall i | 0 <= i < s.inst && i in s.log && s.log[i].checksum != 0 ::
          s.log[i].checksum == Fold(cfg.crc, s.executed[..i + 1]))
    && (forall m | m in s.sent && m.Last() != 0 ::
          m.inst <= s.inst && m.Last() == Fold(cfg.crc, s.executed[..m.inst]))
  }

  /** Kept by every single change a handler makes. */
  ghost predicate NodeInv(cfg: Config, w: World, s: Node) {
    && s.me in cfg.members
    && OwnMessages(s) && AcceptorInv(w, s) && ProposerInv(cfg, w, s) && LearnerInv(cfg, w, s) && ChecksumInv(cfg, s)
  }

  /** While a ballot is in use its value is fixed, also during a prepare that repeats the ballot. */
  ghost predicate Pinned(s: Node) {
    forall a | a in s.sent && a.Accept? && a.inst == s.inst && a.pid == s.prop.pid ::
      s.prop.value == a.value && (s.prop.preparing ==> s.prop.highestPre == MyBallot(s))
  }

  /** In a cluster of one or two a prepare that the node's own acceptor rejected cannot pass, and the next one
      takes a new ballot. */
  ghost predicate Lost(cfg: Config, s: Node) {
    && |cfg.members| <= 2
    && s.prop.rejected && !s.prop.canSkip && !s.prop.accepting
    && s.me !in s.prop.counter.passes
  }

  ghost predicate Fixed(cfg: Config, s: Node) {
    Pinned(s) || Lost(cfg, s)
  }

  /** An accept of the current ballot was accepted by the node itself, or it knows of a rejection. */
  ghost predicate SelfAcceptOrFlag(s: Node) {
    forall a | a in s.sent && a.Accept? && a.pid == s.prop.pid ::
      SelfAccepted(s, a.inst, a.pid) || s.prop.rejected
  }

  /** Holds between steps. */
  ghost predicate StepInv(cfg: Config, w: World, s: Node) {
    NodeInv(cfg, w, s) && Fixed(cfg, s) && SelfAcceptOrFlag(s)
  }

  ghost predicate NodeOk(cfg: Config, w: World, n: NodeId)
    requires n in w
  {
    w[n].me == n && StepInv(cfg, w, w[n])
  }

  ghost predicate WorldInv(cfg: Config, w: World) {
    && w.Keys == cfg.members
    && forall n {:trigger NodeOk(cfg, w, n)} | n in w :: NodeOk(cfg, w, n)
  }

  // ---- more messages never invalidate a fact ----

  ghost predicate Extends(w: World, w': World) {
    forall n | n in w :: n in w' && w[n].sent <= w'[n].sent
  }

  lemma SaidMono(w: World, w': World)
    requires Extends(w, w')
    ensures forall m | Said(w, m) :: Said(w', m)
    ensures forall inst, b, v | Proposed(w, inst, b, v) :: Proposed(w', inst, b, v)
    ensures forall q, inst, b | AcceptedBy(w, q, inst, b) :: AcceptedBy(w', q, inst, b)
    ensures forall r, q, inst, b, top | VotesFor(w, r, q, inst, b, top) :: VotesFor(w', r, q, inst, b, top)
    ensures forall q, inst, b, top | Votes(w, q, inst, b, top) :: Votes(w', q, inst, b, top)
    ensures forall q, inst, b, top | VotesNow(w, q, inst, b, top) :: VotesNow(w', q, inst, b, top)
    ensures forall q, inst, b | VotedBefore(w, q, inst, b) :: VotedBefore(w', q, inst, b)
  {
    forall inst, b, v | Proposed(w, inst, b, v) ensures Proposed(w', inst, b, v) {
      var last :| Said(w, Accept(inst, b.node, b.pid, v, last));
      assert Said(w', Accept(inst, b.node, b.pid, v, last));
    }
    forall q, inst, b, top | Votes(w, q, inst, b, top) ensures Votes(w', q, inst, b, top) {
      var r :| VotesFor(w, r, q, inst, b, top);
      assert VotesFor(w', r, q, inst, b, top);
    }
    forall q, inst, b, top | VotesNow(w, q, inst, b, top) ensures VotesNow(w', q, inst, b, top) {
      var r :| VotesFor(w, r, q, inst, b, top) && r.inst == inst;
      assert VotesFor(w', r, q, inst, b, top);
    }
    forall q, inst, b | VotedBefore(w, q, inst, b) ensures VotedBefore(w', q, inst, b) {
      var r :| VotesFor(w, r, q, inst, b, NULL_BALLOT) && r.inst < inst;
      assert VotesFor(w', r, q, inst, b, NULL_BALLOT);
    }
  }

  lemma ChosenMono(cfg: Config, w: World, w': World)
    requires Extends(w, w')
    ensures forall inst, b | Chosen(cfg, w, inst, b) :: Chosen(cfg, w', inst, b)
    ensures forall inst, v | ChosenValue(cfg, w, inst, v) :: ChosenValue(cfg, w', inst, v)
  {
    SaidMono(w, w');
    forall inst, b | Chosen(cfg, w, inst, b) ensures Chosen(cfg, w', inst, b) {
      var Q :| IsQuorum(cfg, Q) && AllAccepted(w, Q, inst, b);
      assert AllAccepted(w', Q, inst, b);
    }
    forall inst, v | ChosenValue(cfg, w, inst, v) ensures ChosenValue(cfg, w', inst, v) {
      var b :| Chosen(cfg, w, inst, b) && Proposed(w, inst, b, v);
      assert Chosen(cfg, w', inst, b) && Proposed(w', inst, b, v);
    }
  }

  lemma JustifiedMono(cfg: Config, w: World, w': World)
    requires Extends(w, w')
    ensures forall inst, b, v | Justified(cfg, w, inst, b, v) :: Justified(cfg, w', inst, b, v)
  {
    SaidMono(w, w');
    forall inst, b, v | Justified(cfg, w, inst, b, v) ensures Justified(cfg, w', inst, b, v) {
      var Q, top :| IsQuorum(cfg, Q) && JustifiedBy(w, Q, top, inst, b, v);
      assert JustifiedBy(w', Q, top, inst, b, v);
    }
  }

  lemma AcceptorInvMono(w: World, w': World, s: Node)
    requires Extends(w, w') && AcceptorInv(w, s)
    ensures AcceptorInv(w', s)
  {
    SaidMono(w, w');
    forall m | m in s.sent && m.IsAccepted() ensures exists v :: Proposed(w', m.inst, m.ReplyBallot(), v) {
      var v :| Proposed(w, m.inst, m.ReplyBallot(), v);
      assert Proposed(w', m.inst, m.ReplyBallot(), v);
    }
  }

  lemma CanSkipOkMono(cfg: Config, w: World, w': World, s: Node)
    requires Extends(w, w') && CanSkipOk(cfg, w, s)
    ensures CanSkipOk(cfg, w', s)
  {
    SaidMono(w, w');
    if s.prop.canSkip && !AcceptedNow(s) {
      var Q :| IsQuorum(cfg, Q) && AllVotedBefore(w, Q, s.inst, MyBallot(s));
      assert AllVotedBefore(w', Q, s.inst, MyBallot(s));
    }
  }

  lemma ProposerInvMono(cfg: Config, w: World, w': World, s: Node)
    requires Extends(w, w') && ProposerInv(cfg, w, s)
    ensures ProposerInv(cfg, w', s)
  {
    SaidMono(w, w');
    ChosenMono(cfg, w, w');
    JustifiedMono(cfg, w, w');
    CanSkipOkMono(cfg, w, w', s);
  }

  lemma LearnerInvMono(cfg: Config, w: World, w': World, s: Node)
    requires Extends(w, w') && LearnerInv(cfg, w, s)
    ensures LearnerInv(cfg, w', s)
  {
    ChosenMono(cfg, w, w');
  }

  lemma NodeInvMono(cfg: Config, w: World, w': World, s: Node)
    requires Extends(w, w') && NodeInv(cfg, w, s)
    ensures NodeInv(cfg, w', s)
  {
    AcceptorInvMono(w, w', s);
    ProposerInvMono(cfg, w, w', s);
    LearnerInvMono(cfg, w, w', s);
  }
}
