/** A run of a whole cluster after which a restart from a shipped record uses a proposal id again. */
module PaxosReuse {
  import opened Common
  import opened PaxosTypes
  import opened PaxosNode
  import opened PaxosInvariant
  import opened PaxosSteps
  import opened PaxosRuns
  import opened MapTop
  import Limits = PaxosLimits
  import Restarts = PaxosRestart

  function Three(crc: (nat, Value) -> nat): Config {
    Config({1, 2, 3}, crc)
  }

  function Trying(pid: nat, other: nat, value: Value, rejected: bool, counter: Counter): Proposer {
    Proposer(pid, other, value, NULL_BALLOT, true, false, false, rejected, counter, 0)
  }

  /** The acceptor refuses and names its promise. */
  lemma RefuseStep(cfg: Config, s: Node, from: NodeId, pid: nat)
    requires from in cfg.members && from != s.me && s.inst == 0 && !Ballot(pid, from).Ge(s.acc.promise)
    ensures OnReceive(cfg, s, Prepare(0, from, pid)) == Send(s, PrepareReply(0, s.me, from, pid, s.acc.promise.pid, NULL_BALLOT, []))
  {
  }

  lemma PromiseStep(cfg: Config, s: Node, from: NodeId, pid: nat)
    requires from in cfg.members && from != s.me && Ballot(pid, from).Ge(s.acc.promise)
    requires Limits.Is(s, s.me, s.acc.promise, NULL_BALLOT, [], s.prop)
    ensures var t := OnReceive(cfg, s, Prepare(0, from, pid));
            && Limits.Is(t, s.me, Ballot(pid, from), NULL_BALLOT, [], s.prop)
            && PrepareReply(0, s.me, from, pid, 0, NULL_BALLOT, []) in t.sent
  {
  }

  /** A rejection is counted. */
  lemma RejectedStep(cfg: Config, s: Node, n: NodeId, q: NodeId, value: Value, reject: nat)
    requires cfg.Majority() == 2 && q in cfg.members && q != n && reject > 0
    requires Limits.Waiting(s, n, value, {n})
    ensures var t := OnReceive(cfg, s, PrepareReply(0, q, n, 1, reject, NULL_BALLOT, []));
            Limits.Is(t, n, Ballot(1, n), NULL_BALLOT, [], Trying(1, reject, value, true, Counter({n, q}, {q}, {n})))
  {
    assert |{n}| == 1;
    assert {n} + {q} == {n, q} && {} + {q} == {q};
  }

  /** After a rejection a timer brings a new ballot. */
  lemma NewBallotStep(cfg: Config, s: Node, n: NodeId, q: NodeId, value: Value, reject: nat)
    requires cfg.Majority() == 2 && n in cfg.members && reject > 0
    requires Limits.Is(s, n, Ballot(1, n), NULL_BALLOT, [], Trying(1, reject, value, true, Counter({n, q}, {q}, {n})))
    ensures PrepareGuard(cfg, s)
    ensures var t := OnTimeout(cfg, s);
            && Limits.Is(t, n, Ballot(reject + 1, n), NULL_BALLOT, [], Trying(reject + 1, reject, value, false, Limits.Round({n})))
            && Prepare(0, n, reject + 1) in t.sent
  {
    assert |{n}| == 1;
  }

  lemma PassStep(cfg: Config, s: Node, n: NodeId, q: NodeId, pid: nat, other: nat, value: Value)
    requires cfg.Majority() == 2 && n in cfg.members && q in cfg.members && q != n && value != [] && pid > 0
    requires Limits.Is(s, n, Ballot(pid, n), NULL_BALLOT, [], Trying(pid, other, value, false, Limits.Round({n})))
    ensures var t := OnReceive(cfg, s, PrepareReply(0, q, n, pid, 0, NULL_BALLOT, []));
            && Accepting(t, n, pid, other, value) && Accept(0, n, pid, value, 0) in t.sent
  {
    assert |{n, q}| == 2 && |{n}| == 1;
    assert {n} + {q} == {n, q};
  }

  predicate Accepting(s: Node, n: NodeId, pid: nat, other: nat, value: Value) {
    && Limits.Is(s, n, Ballot(pid, n), Ballot(pid, n), value,
                 Proposer(pid, other, value, NULL_BALLOT, false, true, true, false, Limits.Round({n}), 0))
    && 0 in s.log && s.log[0].accepted == Ballot(pid, n) && s.log[0].value == value
  }

  lemma AcceptStep(cfg: Config, s: Node, from: NodeId, pid: nat, value: Value)
    requires from in cfg.members && from != s.me && Ballot(pid, from).Ge(s.acc.promise)
    requires Limits.Is(s, s.me, s.acc.promise, NULL_BALLOT, [], s.prop)
    ensures AcceptReply(0, s.me, from, pid, 0) in OnReceive(cfg, s, Accept(0, from, pid, value, 0)).sent
  {
  }

  lemma ChosenStep(cfg: Config, s: Node, n: NodeId, q: NodeId, pid: nat, other: nat, value: Value)
    requires cfg.Majority() == 2 && q in cfg.members && q != n && pid > 0 && Accepting(s, n, pid, other, value)
    ensures var t := OnReceive(cfg, s, AcceptReply(0, q, n, pid, 0));
            t.me == n && t.inst == 1 && t.log == s.log
  {
    assert |{n, q}| == 2;
    assert {n} + {q} == {n, q};
  }

  lemma LearnStep(cfg: Config, s: Node, from: NodeId, ballot: Ballot, value: Value)
    requires s.inst == 0 && s.last == 0 && LogFirst(s)
    ensures var t := OnReceive(cfg, s, LearnValue(0, from, s.me, ballot, value, 0));
            && t.inst == 1 && t.sent == s.sent && t.log.Keys == {0} && t.log[0].promise == ballot
  {
  }

  predicate LogFirst(s: Node) {
    forall k | k in s.log :: k == 0
  }

  /** In the first instance nothing but its record is written. */
  lemma FirstBallotLog(cfg: Config, s: Node, n: NodeId, v: Value)
    requires cfg.Majority() == 2 && v != [] && LogFirst(s)
    requires Limits.Is(s, n, NULL_BALLOT, NULL_BALLOT, [], Limits.FRESH)
    ensures LogFirst(NewValue(cfg, s, v))
  {
    assert |{n}| == 1;
  }

  lemma StartLog(cfg: Config)
    ensures forall n | n in cfg.members :: LogFirst(InitWorld(cfg)[n])
  {
  }

  /** Node 1 has promised the first ballot of node 3 and refused that of node 2. */
  lemma TwoTry(crc: (nat, Value) -> nat) returns (w: World)
    ensures var cfg := Three(crc);
            && Limits.Reached(cfg, Limits.BOTH, w) && w.Keys == {1, 2, 3}
            && Limits.Waiting(w[3], 3, "v", {3}) && Prepare(0, 3, 1) in w[3].sent && LogFirst(w[3])
            && Limits.Is(w[1], 1, Ballot(1, 3), NULL_BALLOT, [], Limits.FRESH)
            && Limits.Waiting(w[2], 2, "u", {2}) && PrepareReply(0, 1, 2, 1, 1, NULL_BALLOT, []) in w[1].sent
  {
    hide Limits.Reached, InitWorld, OnReceive, NewValue;
    var cfg := Three(crc);
    assert |{1, 2, 3}| == 3;
    Limits.StartReached(cfg, Limits.BOTH);
    Limits.StartsFresh(cfg);
    StartLog(cfg);
    w := InitWorld(cfg);
    Limits.ProposeStep(cfg, w[3], 3, "v");
    FirstBallotLog(cfg, w[3], 3, "v");
    w := Limits.NextReached(cfg, Limits.BOTH, w, Propose(3, "v"));
    PromiseStep(cfg, w[1], 3, 1);
    w := Limits.NextReached(cfg, Limits.BOTH, w, Deliver(1, Prepare(0, 3, 1)));
    Limits.ProposeStep(cfg, w[2], 2, "u");
    w := Limits.NextReached(cfg, Limits.BOTH, w, Propose(2, "u"));
    RefuseStep(cfg, w[1], 2, 1);
    w := Limits.NextReached(cfg, Limits.BOTH, w, Deliver(1, Prepare(0, 2, 1)));
  }

  /** Node 2 comes back with a second ballot and gets its promise; it refuses the first of node 3. */
  lemma SecondBallot(crc: (nat, Value) -> nat) returns (w: World)
    ensures var cfg := Three(crc);
            && Limits.Reached(cfg, Limits.BOTH, w) && w.Keys == {1, 2, 3}
            && Limits.Waiting(w[3], 3, "v", {3}) && LogFirst(w[3])
            && Limits.Is(w[1], 1, Ballot(2, 2), NULL_BALLOT, [], Limits.FRESH)
            && Accepting(w[2], 2, 2, 1, "u") && Accept(0, 2, 2, "u", 0) in w[2].sent
            && PrepareReply(0, 2, 3, 1, 2, NULL_BALLOT, []) in w[2].sent
  {
    hide Limits.Reached, InitWorld, OnReceive, OnTimeout;
    var cfg := Three(crc);
    assert |{1, 2, 3}| == 3;
    w := TwoTry(crc);
    RejectedStep(cfg, w[2], 2, 1, "u", 1);
    w := Limits.NextReached(cfg, Limits.BOTH, w, Deliver(2, PrepareReply(0, 1, 2, 1, 1, NULL_BALLOT, [])));
    NewBallotStep(cfg, w[2], 2, 1, "u", 1);
    w := Limits.NextReached(cfg, Limits.BOTH, w, Timeout(2));
    PromiseStep(cfg, w[1], 2, 2);
    w := Limits.NextReached(cfg, Limits.BOTH, w, Deliver(1, Prepare(0, 2, 2)));
    PassStep(cfg, w[2], 2, 1, 2, 1, "u");
    w := Limits.NextReached(cfg, Limits.BOTH, w, Deliver(2, PrepareReply(0, 1, 2, 2, 0, NULL_BALLOT, [])));
    RefuseStep(cfg, w[2], 3, 1);
    w := Limits.NextReached(cfg, Limits.BOTH, w, Deliver(2, Prepare(0, 3, 1)));
  }

  /** Node 3, rejected, has sent a third ballot; node 2 has finished and ships its value. */
  lemma ThirdBallot(crc: (nat, Value) -> nat) returns (w: World)
    ensures var cfg := Three(crc);
            && Limits.Reached(cfg, Limits.BOTH, w) && w.Keys == {1, 2, 3}
            && w[3].me == 3 && w[3].inst == 0 && w[3].last == 0 && LogFirst(w[3]) && Prepare(0, 3, 3) in w[3].sent
            && w[2].me == 2 && LearnValue(0, 2, 3, Ballot(2, 2), "u", 0) in w[2].sent
  {
    hide Limits.Reached, InitWorld, OnReceive, OnTimeout;
    var cfg := Three(crc);
    assert |{1, 2, 3}| == 3;
    w := SecondBallot(crc);
    RejectedStep(cfg, w[3], 3, 2, "v", 2);
    RejectedLog(cfg, w[3], 3, 2, 2);
    w := Limits.NextReached(cfg, Limits.BOTH, w, Deliver(3, PrepareReply(0, 2, 3, 1, 2, NULL_BALLOT, [])));
    NewBallotStep(cfg, w[3], 3, 2, "v", 2);
    NewBallotLog(cfg, w[3], 3);
    w := Limits.NextReached(cfg, Limits.BOTH, w, Timeout(3));
    AcceptStep(cfg, w[1], 2, 2, "u");
    w := Limits.NextReached(cfg, Limits.BOTH, w, Deliver(1, Accept(0, 2, 2, "u", 0)));
    ChosenStep(cfg, w[2], 2, 1, 2, 1, "u");
    w := Limits.NextReached(cfg, Limits.BOTH, w, Deliver(2, AcceptReply(0, 1, 2, 2, 0)));
    w := Limits.NextReached(cfg, Limits.BOTH, w, Ship(2, 0, 3, false));
  }

  lemma RejectedLog(cfg: Config, s: Node, n: NodeId, q: NodeId, reject: nat)
    requires cfg.Majority() == 2 && q != n && reject > 0 && Limits.Waiting(s, n, "v", {n}) && LogFirst(s)
    ensures LogFirst(OnReceive(cfg, s, PrepareReply(0, q, n, 1, reject, NULL_BALLOT, [])))
  {
    assert |{n}| == 1;
  }

  lemma NewBallotLog(cfg: Config, s: Node, n: NodeId)
    requires cfg.Majority() == 2 && LogFirst(s)
    requires Limits.Is(s, n, Ballot(1, n), NULL_BALLOT, [], Trying(1, 2, "v", true, Counter({n, 2}, {2}, {n})))
    ensures LogFirst(OnTimeout(cfg, s))
  {
    assert |{n}| == 1;
  }

  /** A legal run of three nodes: node 3 has prepared its third ballot and then learns, by log shipping, a value
      chosen at a second one. A restart from that record begins with the id it has used. */
  lemma ShippedRecordReusesABallot(crc: (nat, Value) -> nat) returns (w: World)
    ensures Reachable(Three(crc), w) && 3 in w
    ensures var r := Restarts.Restart(w[3], 1, 0); r.Some? && Prepare(0, 3, r.value.prop.pid) in w[3].sent
  {
    hide Limits.Reached, InitWorld, OnReceive;
    var cfg := Three(crc);
    w := ThirdBallot(crc);
    LearnStep(cfg, w[3], 2, Ballot(2, 2), "u");
    Limits.KnownSender(w, 2);
    w := Limits.NextReached(cfg, Limits.BOTH, w, Deliver(3, LearnValue(0, 2, 3, Ballot(2, 2), "u", 0)));
    Limits.ReachedIsLegal(cfg, Limits.BOTH, w);
    TopIs(w[3].log, 0);
  }
}
