/** The safety theorems of the consensus core, for every legal run of any length. */
module PaxosTheorems {
  import opened Common
  import opened PaxosTypes
  import opened PaxosNode
  import opened PaxosInvariant
  import opened PaxosSteps
  import opened PaxosAgreement
  import opened PaxosRuns

  /** Agreement: in every reachable world two nodes executed the same values, one possibly fewer. */
  lemma Agreement(cfg: Config, w: World, p: NodeId, q: NodeId)
    requires Reachable(cfg, w) && p in w && q in w
    requires |w[p].executed| <= |w[q].executed|
    ensures w[p].executed <= w[q].executed
  {
    hide WorldInv, Reachable;
    ReachableInv(cfg, w);
    forall i | 0 <= i < |w[p].executed| ensures w[p].executed[i] == w[q].executed[i] {
      ExecutedAgree(cfg, w, p, q, i);
    }
  }

  /** Every accept sent at one (instance, ballot) carries the same value, whatever was re-prepared,
      repeated or timed out in between. */
  lemma OneValuePerInstanceAndBallot(cfg: Config, w: World, inst: nat, b: Ballot, v: Value, u: Value)
    requires Reachable(cfg, w) && Proposed(w, inst, b, v) && Proposed(w, inst, b, u)
    ensures v == u
  {
    hide WorldInv, Reachable, Proposed;
    ReachableInv(cfg, w);
    InvariantIsSafe(cfg, w);
    OneValuePerBallot(cfg, w, inst, b, v, u);
  }

  /** An accept for `u` at ballot `c` is safe for ever: whatever is chosen below `c` in that instance,
      before it or at any later moment of any continuation, is `u`. */
  lemma ProposalsAreSafe(cfg: Config, w: World, run: seq<Event>, w': World, inst: nat, c: Ballot, u: Value, b: Ballot, v: Value)
    requires Reachable(cfg, w) && Leads(cfg, w, run, w')
    requires Proposed(w, inst, c, u)
    requires Chosen(cfg, w', inst, b) && Proposed(w', inst, b, v) && c.Gt(b)
    ensures v == u
  {
    hide WorldInv, Reachable, Proposed, Leads, BallotsSafe;
    ReachableInv(cfg, w);
    RunKeepsInv(cfg, w, run, w');
    SaidMono(w, w');
    InvariantIsSafe(cfg, w');
    var B :| IsQuorum(cfg, B) && AllAccepted(w', B, inst, b);
    QuorumIsBlocking(cfg, B);
    SafeProposal(cfg, w', B, inst, b, v, c, u);
  }

  /** Every finished instance was decided by a majority, its log record holds the decided value, and
      every value shipped to another node is a decided one. */
  lemma LogRecordsAreChosen(cfg: Config, w: World, p: NodeId, i: nat)
    requires Reachable(cfg, w) && p in w && i < w[p].inst
    ensures i in w[p].log && ChosenValue(cfg, w, i, w[p].log[i].value)
  {
    hide WorldInv, Reachable, ChosenValue;
    ReachableInv(cfg, w);
    NodeSettled(cfg, w, p);
  }

  lemma ShippedValuesAreChosen(cfg: Config, w: World, m: Msg)
    requires Reachable(cfg, w) && Said(w, m) && m.LearnValue?
    ensures ChosenValue(cfg, w, m.inst, m.value)
  {
    hide WorldInv, Reachable, ChosenValue;
    ReachableInv(cfg, w);
    LearnSaid(cfg, w, m);
  }

  /** What a receiver learns from a success message, which names only a ballot, was chosen. */
  lemma SuccessTeachesTheChosenValue(cfg: Config, w: World, q: NodeId, m: Msg)
    requires Reachable(cfg, w) && q in w && Said(w, m) && m.Success?
    requires SuccessApplies(w[q], m.inst, m.from, m.pid)
    ensures ChosenValue(cfg, w, w[q].inst, w[q].acc.value)
  {
    hide WorldInv, Reachable, ChosenValue, Chosen, NodeInv;
    ReachableInv(cfg, w);
    SuccessSaid(cfg, w, m);
    NodeSettled(cfg, w, q);
    AcceptedAndChosen(cfg, w, w[q]);
  }

  /** With at most four nodes, so does a prepare or accept for the next instance carrying the ballot
      accepted in this one. */
  lemma NextInstanceTeachesTheChosenValue(cfg: Config, w: World, q: NodeId, m: Msg)
    requires Reachable(cfg, w) && q in w && Said(w, m) && m.AddressedTo(q)
    requires |cfg.members| <= 4 && ShortcutFires(w[q], m)
    ensures ChosenValue(cfg, w, w[q].inst, w[q].acc.value)
  {
    hide WorldInv, Reachable, ChosenValue;
    ReachableInv(cfg, w);
    ShortcutIsSound(cfg, w, q, m);
  }

  /** The assertion on the checksum of an arriving message never fails. */
  lemma ChecksumAssertionNeverFails(cfg: Config, w: World, q: NodeId, m: Msg)
    requires Reachable(cfg, w) && Said(w, m) && q in w
    ensures ChecksumAssertion(w[q], m)
  {
    hide WorldInv, Reachable;
    ReachableInv(cfg, w);
    if m.Last() != 0 && m.inst == w[q].inst {
      ChecksumsAgree(cfg, w, q, m);
    }
  }

  /** A known checksum is the fold over exactly the decided prefix. */
  lemma ChecksumIsFoldOfChosen(cfg: Config, w: World, q: NodeId)
    requires Reachable(cfg, w) && q in w
    ensures |w[q].executed| == w[q].inst
    ensures forall i | 0 <= i < w[q].inst :: ChosenValue(cfg, w, i, w[q].executed[i])
    ensures w[q].last != 0 ==> w[q].last == Fold(cfg.crc, w[q].executed)
    ensures forall i | 0 <= i < w[q].inst && i in w[q].log && w[q].log[i].checksum != 0 ::
              w[q].log[i].checksum == Fold(cfg.crc, w[q].executed[..i + 1])
  {
    hide WorldInv, Reachable, ChosenValue, ProposerInv, AcceptorInv;
    ReachableInv(cfg, w);
    NodeSettled(cfg, w, q);
  }

  // ---- execution never goes back ----

  lemma DoAcceptExecutes(cfg: Config, s: Node)
    ensures s.executed <= DoAccept(cfg, s).executed
    ensures s.log.Keys <= DoAccept(cfg, s).log.Keys
  {
  }

  lemma DoPrepareExecutes(cfg: Config, s: Node, needNew: bool)
    ensures s.executed <= DoPrepare(cfg, s, needNew).executed
  {
    hide DoAccept;
    var s1 := StartPrepare(s, needNew);
    var s2 := OnPrepare(cfg, s1, s1.me, s1.prop.pid);
    var r := PrepareAnswer(s1, s1.me, s1.prop.pid);
    var s3 := CountPrepareReply(s2, r.from, r.reject, r.pre, r.value);
    DoAcceptExecutes(cfg, s3.(prop := s3.prop.(canSkip := true)));
  }

  lemma OnReceiveExecutes(cfg: Config, s: Node, m: Msg)
    ensures s.executed <= OnReceive(cfg, s, m).executed
  {
    hide DoAccept;
    if m.PrepareReply? {
      var s1 := CountPrepareReply(s, m.from, m.reject, m.pre, m.value);
      DoAcceptExecutes(cfg, s1.(prop := s1.prop.(canSkip := true)));
    }
  }

  lemma HandleExecutes(cfg: Config, w: World, e: Event)
    requires Enabled(cfg, w, e)
    ensures w[e.q].executed <= Handle(cfg, w[e.q], e).executed
  {
    hide DoAccept, DoPrepare, OnReceive;
    var s := w[e.q];
    match e
    case Deliver(q, m) => OnReceiveExecutes(cfg, s, m);
    case Propose(q, value) =>
      var s1 := if |s.prop.value| == 0 then s.(prop := s.prop.(value := value)) else s;
      DoAcceptExecutes(cfg, s1);
      DoPrepareExecutes(cfg, s1, s1.prop.rejected);
    case Timeout(q) => DoPrepareExecutes(cfg, s, s.prop.rejected);
    case CommitTimeout(q) =>
    case Ship(q, inst, to, withChecksum) =>
  }

  /** What a node executed stays a prefix of what it executes later, and of what any node executes. */
  lemma {:induction false} ExecutionOnlyGrows(cfg: Config, w: World, run: seq<Event>, w': World, p: NodeId)
    requires WorldInv(cfg, w) && Leads(cfg, w, run, w') && p in w
    ensures p in w' && w[p].executed <= w'[p].executed
    decreases |run|
  {
    hide NodeOk, Enabled, Handle;
    if run != [] {
      StepKeepsInv(cfg, w, run[0]);
      HandleExecutes(cfg, w, run[0]);
      ExecutionOnlyGrows(cfg, Apply(cfg, w, run[0]), run[1..], w', p);
    }
  }

  /** Agreement across time: a node at one moment and another node at any later moment. */
  lemma AgreementOverTime(cfg: Config, w: World, run: seq<Event>, w': World, p: NodeId, q: NodeId, i: nat)
    requires Reachable(cfg, w) && Leads(cfg, w, run, w') && p in w && q in w'
    requires i < |w[p].executed| && i < |w'[q].executed|
    ensures w[p].executed[i] == w'[q].executed[i]
  {
    hide WorldInv, Reachable, Leads;
    ReachableInv(cfg, w);
    RunKeepsInv(cfg, w, run, w');
    ExecutionOnlyGrows(cfg, w, run, w', p);
    ExecutedAgree(cfg, w', p, q, i);
  }
}
