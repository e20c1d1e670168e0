/** Consequences of the world invariant alone: one value per ballot, safe proposals, one chosen
    value per instance, and the meaning of a success message inferred from the next instance. */
module PaxosAgreement {
  import opened Common
  import opened PaxosTypes
  import opened PaxosNode
  import opened PaxosInvariant

  /** The part of the world invariant the argument about ballots rests on. */
  ghost predicate BallotsSafe(cfg: Config, w: World) {
    && (forall n | n in w :: w[n].me == n)
    && (forall n | n in w :: PromiseKept(w[n]))
    && (forall n | n in w :: OneValue(w[n]))
    && (forall inst, b, v | Proposed(w, inst, b, v) :: b.pid >= 1 && Justified(cfg, w, inst, b, v))
    && (forall q, inst, b | AcceptedBy(w, q, inst, b) :: b.pid >= 1)
  }

  lemma AcceptedBallotIsReal(cfg: Config, w: World, q: NodeId, inst: nat, b: Ballot)
    requires WorldInv(cfg, w) && AcceptedBy(w, q, inst, b)
    ensures b.pid >= 1
  {
    var a := AcceptReply(inst, q, b.node, b.pid, 0);
    assert NodeOk(cfg, w, q) && RepliesOk(w, w[q]) && a in w[q].sent && a.IsAccepted() && a.ReplyBallot() == b;
    var v :| Proposed(w, inst, b, v);
    assert NodeOk(cfg, w, b.node) && OwnMessages(w[b.node]);
  }

  lemma InvariantIsSafe(cfg: Config, w: World)
    requires WorldInv(cfg, w)
    ensures BallotsSafe(cfg, w)
  {
    forall n | n in w ensures w[n].me == n && PromiseKept(w[n]) && OneValue(w[n]) {
      assert NodeOk(cfg, w, n);
    }
    forall inst, b, v | Proposed(w, inst, b, v) ensures b.pid >= 1 && Justified(cfg, w, inst, b, v) {
      assert NodeOk(cfg, w, b.node) && OwnMessages(w[b.node]) && AcceptsJustified(cfg, w, w[b.node]);
    }
    forall q, inst, b | AcceptedBy(w, q, inst, b) ensures b.pid >= 1 {
      AcceptedBallotIsReal(cfg, w, q, inst, b);
    }
  }

  /** A set of nodes that meets every quorum. Every quorum is one. */
  ghost predicate Blocking(cfg: Config, B: set<NodeId>) {
    B <= cfg.members && |B| + cfg.Majority() > |cfg.members|
  }

  lemma QuorumIsBlocking(cfg: Config, Q: set<NodeId>)
    requires IsQuorum(cfg, Q)
    ensures Blocking(cfg, Q)
  {
  }

  lemma BlockingMeetsQuorum(cfg: Config, B: set<NodeId>, Q: set<NodeId>) returns (q: NodeId)
    requires Blocking(cfg, B) && IsQuorum(cfg, Q)
    ensures q in B && q in Q
  {
    CardinalityLe(B + Q, cfg.members);
    assert |B + Q| == |B| + |Q| - |B * Q|;
    assert B * Q != {};
    q :| q in B * Q;
  }

  lemma {:induction false} CardinalityLe(A: set<NodeId>, B: set<NodeId>)
    requires A <= B
    ensures |A| <= |B|
  {
    assert B == A + (B - A);
    assert |A + (B - A)| == |A| + |B - A| - |A * (B - A)|;
    assert A * (B - A) == {};
  }

  /** Every accept sent at one instance and ballot carries the same value. */
  lemma OneValuePerBallot(cfg: Config, w: World, inst: nat, b: Ballot, v: Value, v': Value)
    requires BallotsSafe(cfg, w)
    requires Proposed(w, inst, b, v) && Proposed(w, inst, b, v')
    ensures v == v'
  {
    assert OneValue(w[b.node]);
  }

  /** A node that accepted `b` and promised a higher ballot `c` made the promise in the same
      instance and reported `b` or something above it. */
  lemma VoteCoversAccept(cfg: Config, w: World, q: NodeId, inst: nat, b: Ballot, c: Ballot, top: Ballot)
    requires BallotsSafe(cfg, w) && AcceptedBy(w, q, inst, b) && Votes(w, q, inst, c, top) && c.Gt(b)
    ensures top.Ge(b)
  {
    var r :| VotesFor(w, r, q, inst, c, top);
    assert PromiseKept(w[q]);
    var a := AcceptReply(inst, q, b.node, b.pid, 0);
    assert a in w[q].sent && a.IsAccepted() && a.ReplyBallot() == b;
  }

  /** Once a blocking set accepted `b` with value `v`, no higher ballot proposes anything else. */
  lemma {:induction false} SafeProposal(cfg: Config, w: World, B: set<NodeId>, inst: nat, b: Ballot, v: Value, c: Ballot, u: Value)
    requires BallotsSafe(cfg, w)
    requires Blocking(cfg, B) && AllAccepted(w, B, inst, b) && Proposed(w, inst, b, v)
    requires Proposed(w, inst, c, u) && c.Ge(b)
    ensures u == v
    decreases c.pid, c.node
  {
    if c == b {
      OneValuePerBallot(cfg, w, inst, b, u, v);
    } else {
      var Q, top :| IsQuorum(cfg, Q) && JustifiedBy(w, Q, top, inst, c, u);
      var q := BlockingMeetsQuorum(cfg, B, Q);
      VoteCoversAccept(cfg, w, q, inst, b, c, top);
      assert AcceptedBy(w, q, inst, b);
      SafeProposal(cfg, w, B, inst, b, v, top, u);
    }
  }

  /** Two ballots chosen for one instance carry the same value. */
  lemma OneChosenValue(cfg: Config, w: World, inst: nat, v: Value, u: Value)
    requires BallotsSafe(cfg, w)
    requires ChosenValue(cfg, w, inst, v) && ChosenValue(cfg, w, inst, u)
    ensures v == u
  {
    var b :| Chosen(cfg, w, inst, b) && Proposed(w, inst, b, v);
    var c :| Chosen(cfg, w, inst, c) && Proposed(w, inst, c, u);
    var B :| IsQuorum(cfg, B) && AllAccepted(w, B, inst, b);
    var C :| IsQuorum(cfg, C) && AllAccepted(w, C, inst, c);
    QuorumIsBlocking(cfg, B);
    QuorumIsBlocking(cfg, C);
    if c.Ge(b) {
      SafeProposal(cfg, w, B, inst, b, v, c, u);
    } else {
      SafeProposal(cfg, w, C, inst, c, u, b, v);
    }
  }

  /** A blocking set that accepted one ballot fixes what can be chosen, below and above it. */
  lemma BlockedValueIsTheChosenOne(cfg: Config, w: World, B: set<NodeId>, inst: nat, b: Ballot, v: Value, u: Value)
    requires BallotsSafe(cfg, w)
    requires Blocking(cfg, B) && AllAccepted(w, B, inst, b) && Proposed(w, inst, b, v)
    requires ChosenValue(cfg, w, inst, u)
    ensures u == v
  {
    var c :| Chosen(cfg, w, inst, c) && Proposed(w, inst, c, u);
    if c.Ge(b) {
      SafeProposal(cfg, w, B, inst, b, v, c, u);
    } else {
      var C :| IsQuorum(cfg, C) && AllAccepted(w, C, inst, c);
      QuorumIsBlocking(cfg, C);
      SafeProposal(cfg, w, C, inst, c, u, b, v);
    }
  }

  /** Agreement: wherever two nodes have both finished an instance they executed the same value. */
  lemma ExecutedAgree(cfg: Config, w: World, p: NodeId, q: NodeId, i: nat)
    requires WorldInv(cfg, w) && p in w && q in w
    requires i < |w[p].executed| && i < |w[q].executed|
    ensures w[p].executed[i] == w[q].executed[i]
  {
    InvariantIsSafe(cfg, w);
    assert NodeOk(cfg, w, p) && NodeOk(cfg, w, q);
    OneChosenValue(cfg, w, i, w[p].executed[i], w[q].executed[i]);
  }

  /** The checksum a message carries about the instances before it is the one its receiver, being
      in that very instance, would compute; so the assertion on arrival cannot fail. */
  lemma ChecksumsAgree(cfg: Config, w: World, q: NodeId, m: Msg)
    requires WorldInv(cfg, w) && q in w && Said(w, m)
    requires m.Last() != 0 && m.inst == w[q].inst
    ensures m.Last() == Fold(cfg.crc, w[q].executed)
    ensures ChecksumAssertion(w[q], m)
  {
    var p := m.from;
    assert NodeOk(cfg, w, p) && NodeOk(cfg, w, q);
    forall i | 0 <= i < m.inst ensures w[p].executed[i] == w[q].executed[i] {
      ExecutedAgree(cfg, w, p, q, i);
    }
    assert w[p].executed[..m.inst] == w[q].executed;
  }

  /** The owner of the ballot accepted here, having moved on with it, accepted it as well. */
  lemma OwnerAcceptedToo(w: World, q: NodeId, m: Msg)
    requires q in w && w[q].me == q && AcceptedOk(w, w[q])
    requires Said(w, m) && w[m.from].me == m.from && SelfAcceptBefore(w[m.from])
    requires ShortcutFires(w[q], m)
    ensures AllAccepted(w, {m.from, q}, w[q].inst, w[q].acc.accepted)
    ensures Proposed(w, w[q].inst, w[q].acc.accepted, w[q].acc.value)
  {
    var s, p := w[q], m.from;
    var last :| Said(w, Accept(s.inst, p, m.pid, s.acc.value, last));
    assert SelfAccepted(w[p], s.inst, m.pid);
  }

  lemma NodeHistory(cfg: Config, w: World, n: NodeId)
    requires WorldInv(cfg, w) && n in w
    ensures w[n].me == n && AcceptedOk(w, w[n]) && SelfAcceptBefore(w[n])
  {
    assert NodeOk(cfg, w, n);
  }

  lemma FinishedIsChosen(cfg: Config, w: World, n: NodeId, i: nat)
    requires WorldInv(cfg, w) && n in w && i < w[n].inst
    ensures |w[n].executed| == w[n].inst && ChosenValue(cfg, w, i, w[n].executed[i])
  {
    assert NodeOk(cfg, w, n);
  }

  lemma SenderReached(cfg: Config, w: World, m: Msg)
    requires WorldInv(cfg, w) && Said(w, m)
    ensures m.inst <= w[m.from].inst
  {
    assert NodeOk(cfg, w, m.from);
  }

  /** With at most four nodes, a prepare or accept for the next instance from the owner of the ballot
      accepted here shows that the accepted value is the chosen one. */
  lemma ShortcutIsSound(cfg: Config, w: World, q: NodeId, m: Msg)
    requires WorldInv(cfg, w) && q in w && Said(w, m) && m.AddressedTo(q)
    requires |cfg.members| <= 4
    requires ShortcutFires(w[q], m)
    ensures ChosenValue(cfg, w, w[q].inst, w[q].acc.value)
  {
    var p := m.from;
    NodeHistory(cfg, w, q);
    NodeHistory(cfg, w, p);
    OwnerAcceptedToo(w, q, m);
    SenderReached(cfg, w, m);
    FinishedIsChosen(cfg, w, p, w[q].inst);
    var u := w[p].executed[w[q].inst];
    var B := {p, q};
    assert |B| == 2 && Blocking(cfg, B);
    InvariantIsSafe(cfg, w);
    BlockedValueIsTheChosenOne(cfg, w, B, w[q].inst, w[q].acc.accepted, w[q].acc.value, u);
  }
}
