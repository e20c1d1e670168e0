/** Why runs carry two side conditions: what the handlers do without them. The first concerns a
    prepare that repeats a used ballot, the second a success message inferred from the next instance.
    For each it is shown in exactly which clusters agreement needs it. */
module PaxosLimits {
  import opened Common
  import opened PaxosTypes
  import opened PaxosNode
  import opened PaxosInvariant
  import opened PaxosSteps
  import opened PaxosRuns
  import PaxosTheorems

  /** Which of the two conditions the runs keep. */
  datatype Guards = Guards(prepare: bool, shortcut: bool)

  const BOTH := Guards(true, true)

  /** What the network, the clients and the clocks can do. */
  ghost predicate Allowed(cfg: Config, g: Guards, w: World, e: Event) {
    e.q in w &&
    match e
    case Deliver(q, m) =>
      Said(w, m) && m.AddressedTo(q) && (g.shortcut ==> |cfg.members| <= 4 || !ShortcutFires(w[q], m))
    case Propose(q, value) =>
      value != [] && (g.prepare ==> (w[q].prop.canSkip && !w[q].prop.rejected) || PrepareGuard(cfg, w[q]))
    case Timeout(q) =>
      (w[q].prop.preparing || w[q].prop.accepting) && (g.prepare ==> PrepareGuard(cfg, w[q]))
    case CommitTimeout(q) => true
    case Ship(q, inst, to, withChecksum) =>
      inst < w[q].inst && inst in w[q].log && (withChecksum ==> inst > 0 && inst - 1 in w[q].log)
  }

  ghost predicate IsStep(cfg: Config, g: Guards, v: World, e: Event, w: World) {
    Allowed(cfg, g, v, e) && w == v[e.q := Handle(cfg, v[e.q], e)]
  }

  ghost predicate IsRun(cfg: Config, g: Guards, ws: seq<World>, run: seq<Event>) {
    && |ws| == |run| + 1 && ws[0] == InitWorld(cfg)
    && forall i | 0 <= i < |run| :: IsStep(cfg, g, ws[i], run[i], ws[i + 1])
  }

  ghost predicate Reached(cfg: Config, g: Guards, w: World) {
    exists ws, run :: IsRun(cfg, g, ws, run) && ws[|run|] == w
  }

  lemma StartReached(cfg: Config, g: Guards)
    ensures Reached(cfg, g, InitWorld(cfg))
  {
    assert IsRun(cfg, g, [InitWorld(cfg)], []);
  }

  lemma NextReached(cfg: Config, g: Guards, v: World, e: Event) returns (w: World)
    requires Reached(cfg, g, v) && Allowed(cfg, g, v, e)
    ensures Reached(cfg, g, w) && w == v[e.q := Handle(cfg, v[e.q], e)]
    ensures v[e.q].sent <= w[e.q].sent
  {
    hide InitWorld, OnReceive, NewValue, OnTimeout, OnCommitTimeout;
    var ws, run :| IsRun(cfg, g, ws, run) && ws[|run|] == v;
    w := v[e.q := Handle(cfg, v[e.q], e)];
    assert IsStep(cfg, g, v, e, w);
    assert IsRun(cfg, g, ws + [w], run + [e]);
    AnyEventGrows(cfg, v[e.q], e);
  }

  lemma AnyEventGrows(cfg: Config, s: Node, e: Event)
    requires e.Ship? ==> e.inst < s.inst && e.inst in s.log && (e.withChecksum ==> e.inst > 0 && e.inst - 1 in s.log)
    ensures Grows(s, Handle(cfg, s, e))
  {
    hide DoAccept, DoPrepare, OnReceive;
    match e
    case Deliver(q, m) => OnReceiveGrows(cfg, s, m);
    case Propose(q, value) =>
      var s1 := if |s.prop.value| == 0 then s.(prop := s.prop.(value := value)) else s;
      DoAcceptGrows(cfg, s1);
      DoPrepareGrows(cfg, s1, s1.prop.rejected);
    case Timeout(q) => DoPrepareGrows(cfg, s, s.prop.rejected);
    case CommitTimeout(q) =>
    case Ship(q, inst, to, withChecksum) =>
  }

  // ---- small clusters need neither condition ----

  /** The runs keep every condition that their cluster needs. */
  predicate Suffices(cfg: Config, g: Guards) {
    (g.prepare || |cfg.members| <= 2) && (g.shortcut || |cfg.members| <= 4)
  }

  lemma {:induction false} SuffixIsLegal(cfg: Config, g: Guards, ws: seq<World>, run: seq<Event>, i: nat)
    requires Suffices(cfg, g) && IsRun(cfg, g, ws, run) && i <= |run|
    ensures Leads(cfg, ws[i], run[i..], ws[|run|])
    decreases |run| - i
  {
    hide Handle;
    if i < |run| {
      assert IsStep(cfg, g, ws[i], run[i], ws[i + 1]);
      SuffixIsLegal(cfg, g, ws, run, i + 1);
      assert run[i..][1..] == run[i + 1..];
      assert Enabled(cfg, ws[i], run[i]);
    } else {
      assert run[i..] == [];
    }
  }

  lemma ReachedIsLegal(cfg: Config, g: Guards, w: World)
    requires Suffices(cfg, g) && Reached(cfg, g, w)
    ensures Reachable(cfg, w)
  {
    hide InitWorld;
    var ws, run :| IsRun(cfg, g, ws, run) && ws[|run|] == w;
    SuffixIsLegal(cfg, g, ws, run, 0);
    assert run[0..] == run;
  }

  /** No two nodes executed different values in one instance. */
  ghost predicate Agrees(w: World) {
    forall p, q | p in w && q in w && |w[p].executed| <= |w[q].executed| :: w[p].executed <= w[q].executed
  }

  lemma SufficientGuardsAgree(cfg: Config, g: Guards, w: World)
    requires Suffices(cfg, g) && Reached(cfg, g, w)
    ensures Agrees(w)
  {
    ReachedIsLegal(cfg, g, w);
    forall p, q | p in w && q in w && |w[p].executed| <= |w[q].executed|
      ensures w[p].executed <= w[q].executed
    {
      PaxosTheorems.Agreement(cfg, w, p, q);
    }
  }

  // ---- nodes in the first instance ----

  const FRESH := Proposer(1, 0, [], NULL_BALLOT, false, false, false, false, NEW_ROUND, 0)

  /** A node in the first instance; the checksum and the log do not matter here. A fresh proposer has sent
      no accept. */
  predicate Is(s: Node, me: NodeId, promise: Ballot, accepted: Ballot, value: Value, p: Proposer) {
    && s.me == me && s.inst == 0 && s.last == 0 && s.executed == []
    && s.acc.promise == promise && s.acc.accepted == accepted && s.acc.value == value && s.prop == p
    && (p == FRESH ==> forall m | m in s.sent :: !m.Accept?)
  }

  function Round(got: set<NodeId>): Counter {
    Counter(got, {}, got)
  }

  function Preparing(n: NodeId, value: Value, pre: Ballot, got: set<NodeId>): Proposer {
    Proposer(1, 0, value, pre, true, false, false, false, Round(got), 0)
  }

  function Accepting(value: Value, got: set<NodeId>): Proposer {
    Proposer(1, 0, value, NULL_BALLOT, false, true, true, false, Round(got), 0)
  }

  predicate Waiting(s: Node, n: NodeId, v: Value, got: set<NodeId>) {
    Is(s, n, Ballot(1, n), NULL_BALLOT, [], Preparing(n, v, NULL_BALLOT, got))
  }

  predicate Voting(s: Node, n: NodeId, v: Value, got: set<NodeId>) {
    Is(s, n, Ballot(1, n), Ballot(1, n), v, Accepting(v, got))
  }

  /** A node that has accepted nothing and may still promise the ballot of `n`. */
  predicate Free(s: Node, r: NodeId, n: NodeId) {
    Is(s, r, s.acc.promise, NULL_BALLOT, [], s.prop) && Ballot(1, n).Ge(s.acc.promise)
  }

  function Promised(s: Node, from: NodeId): Msg {
    PrepareReply(0, s.me, from, 1, 0, s.acc.accepted, s.acc.value)
  }

  function Plain(r: NodeId, n: NodeId): Msg {
    PrepareReply(0, r, n, 1, 0, NULL_BALLOT, [])
  }

  lemma StartsFresh(cfg: Config)
    ensures InitWorld(cfg).Keys == cfg.members
    ensures forall r | r in cfg.members :: Is(InitWorld(cfg)[r], r, NULL_BALLOT, NULL_BALLOT, [], FRESH)
  {
  }

  lemma ProposeStep(cfg: Config, s: Node, n: NodeId, v: Value)
    requires cfg.Majority() >= 2 && n in cfg.members && v != []
    requires Is(s, n, s.acc.promise, s.acc.accepted, s.acc.value, FRESH) && Ballot(1, n).Ge(s.acc.promise)
    requires s.acc.accepted.IsNull() ==> s.acc.accepted == NULL_BALLOT && s.acc.value == []
    ensures PrepareGuard(cfg, s)
    ensures var t := NewValue(cfg, s, v);
            && Is(t, n, Ballot(1, n), s.acc.accepted, s.acc.value,
                  Preparing(n, if s.acc.accepted.IsNull() then v else s.acc.value, s.acc.accepted, {n}))
            && Prepare(0, n, 1) in t.sent
  {
    assert |{n}| == 1;
  }

  lemma PromiseStep(cfg: Config, s: Node, from: NodeId)
    requires from in cfg.members && from != s.me
    requires Is(s, s.me, s.acc.promise, s.acc.accepted, s.acc.value, s.prop) && Ballot(1, from).Ge(s.acc.promise)
    requires s.acc.accepted.IsNull() ==> s.acc.value == []
    ensures var t := OnReceive(cfg, s, Prepare(0, from, 1));
            Is(t, s.me, Ballot(1, from), s.acc.accepted, s.acc.value, s.prop) && Promised(s, from) in t.sent
  {
  }

  lemma AcceptStep(cfg: Config, s: Node, from: NodeId, v: Value)
    requires from in cfg.members && from != s.me
    requires Is(s, s.me, s.acc.promise, s.acc.accepted, s.acc.value, s.prop) && Ballot(1, from).Ge(s.acc.promise)
    ensures var t := OnReceive(cfg, s, Accept(0, from, 1, v, 0));
            Is(t, s.me, Ballot(1, from), Ballot(1, from), v, s.prop) && AcceptReply(0, s.me, from, 1, 0) in t.sent
  {
  }

  lemma CountPromise(cfg: Config, s: Node, n: NodeId, r: NodeId, v: Value, got: set<NodeId>)
    requires cfg.Majority() >= 2 && n in cfg.members && r in cfg.members && v != []
    requires Waiting(s, n, v, got) && n in got && r !in got
    ensures var t := OnReceive(cfg, s, Plain(r, n));
            if |got| + 1 < cfg.Majority() then Waiting(t, n, v, got + {r})
            else Voting(t, n, v, {n}) && Accept(0, n, 1, v, 0) in t.sent && 0 in t.log && t.log[0].value == v
  {
    assert |got + {r}| == |got| + 1;
    assert |{n}| == 1;
  }

  lemma CountAccept(cfg: Config, s: Node, n: NodeId, r: NodeId, v: Value, got: set<NodeId>)
    requires n in cfg.members && r in cfg.members && Voting(s, n, v, got) && n in got && r !in got
    ensures var t := OnReceive(cfg, s, AcceptReply(0, r, n, 1, 0));
            && t.log == s.log
            && if |got| + 1 < cfg.Majority() then Voting(t, n, v, got + {r})
               else t.me == n && t.inst == 1 && t.executed == [v]
  {
    assert |got + {r}| == |got| + 1;
  }

  /** Node `n` collects the promises it lacks, one node after the other, and sends its accept. */
  lemma {:induction false} CollectPromises(cfg: Config, g: Guards, v0: World, n: NodeId, v: Value,
                                           got: set<NodeId>, todo: set<NodeId>)
    returns (w: World)
    requires Reached(cfg, g, v0) && v0.Keys == cfg.members && n in cfg.members && v != []
    requires Waiting(v0[n], n, v, got) && n in got && Prepare(0, n, 1) in v0[n].sent
    requires todo <= cfg.members && todo !! got && todo != {} && |got| + |todo| == cfg.Majority()
    requires forall r | r in todo :: Free(v0[r], r, n)
    ensures Reached(cfg, g, w) && w.Keys == cfg.members
    ensures Voting(w[n], n, v, {n}) && Accept(0, n, 1, v, 0) in w[n].sent && 0 in w[n].log && w[n].log[0].value == v
    ensures v0[n].sent <= w[n].sent
    ensures forall r | r in todo :: Is(w[r], r, Ballot(1, n), NULL_BALLOT, [], v0[r].prop) && Plain(r, n) in w[r].sent
    ensures forall r | r in cfg.members && r != n && r !in todo :: w[r] == v0[r]
    decreases |todo|
  {
    hide Reached, InitWorld, OnReceive;
    var r :| r in todo;
    assert Free(v0[r], r, n);
    PromiseStep(cfg, v0[r], n);
    w := NextReached(cfg, g, v0, Deliver(r, Prepare(0, n, 1)));
    CountPromise(cfg, w[n], n, r, v, got);
    w := NextReached(cfg, g, w, Deliver(n, Plain(r, n)));
    var rest := todo - {r};
    assert |rest| == |todo| - 1;
    if rest != {} {
      assert forall x | x in rest :: w[x] == v0[x];
      var before := w;
      w := CollectPromises(cfg, g, w, n, v, got + {r}, rest);
      assert w[r] == before[r];
    }
  }

  /** Node `n` collects the votes it lacks and finishes the instance. */
  lemma {:induction false} CollectVotes(cfg: Config, g: Guards, v0: World, n: NodeId, v: Value,
                                        got: set<NodeId>, todo: set<NodeId>)
    returns (w: World)
    requires Reached(cfg, g, v0) && v0.Keys == cfg.members && n in cfg.members
    requires Voting(v0[n], n, v, got) && n in got && Accept(0, n, 1, v, 0) in v0[n].sent
    requires todo <= cfg.members && todo !! got && todo != {} && |got| + |todo| == cfg.Majority()
    requires forall r | r in todo :: Is(v0[r], r, Ballot(1, n), NULL_BALLOT, [], v0[r].prop)
    ensures Reached(cfg, g, w) && w.Keys == cfg.members
    ensures w[n].me == n && w[n].inst == 1 && w[n].executed == [v] && w[n].log == v0[n].log
    ensures forall r | r in cfg.members && r != n && r !in todo :: w[r] == v0[r]
    decreases |todo|
  {
    hide Reached, InitWorld, OnReceive;
    var r :| r in todo;
    AcceptStep(cfg, v0[r], n, v);
    w := NextReached(cfg, g, v0, Deliver(r, Accept(0, n, 1, v, 0)));
    CountAccept(cfg, w[n], n, r, v, got);
    w := NextReached(cfg, g, w, Deliver(n, AcceptReply(0, r, n, 1, 0)));
    var rest := todo - {r};
    assert |rest| == |todo| - 1;
    if rest != {} {
      assert forall x | x in rest :: w[x] == v0[x];
      w := CollectVotes(cfg, g, w, n, v, got + {r}, rest);
    }
  }

  lemma {:induction false} TakeSome(all: set<NodeId>, k: nat) returns (some: set<NodeId>)
    requires k <= |all|
    ensures some <= all && |some| == k
    decreases k
  {
    if k == 0 {
      some := {};
    } else {
      some := TakeSome(all, k - 1);
      assert all == some + (all - some);
      var x :| x in all - some;
      some := some + {x};
    }
  }

  // ---- a ballot at work ----

  /** A node proposes and is promised its ballot. */
  lemma Proposes(cfg: Config, g: Guards, v0: World, n: NodeId, v: Value, todo: set<NodeId>) returns (w: World)
    requires Reached(cfg, g, v0) && v0.Keys == cfg.members && n in cfg.members && v != [] && cfg.Majority() >= 2
    requires Is(v0[n], n, v0[n].acc.promise, NULL_BALLOT, [], FRESH) && Ballot(1, n).Ge(v0[n].acc.promise)
    requires todo <= cfg.members - {n} && 1 + |todo| == cfg.Majority() && forall r | r in todo :: Free(v0[r], r, n)
    ensures Reached(cfg, g, w) && w.Keys == cfg.members
    ensures Voting(w[n], n, v, {n}) && 0 in w[n].log && w[n].log[0].value == v
    ensures Prepare(0, n, 1) in w[n].sent && Accept(0, n, 1, v, 0) in w[n].sent
    ensures forall r | r in todo :: Is(w[r], r, Ballot(1, n), NULL_BALLOT, [], v0[r].prop) && Plain(r, n) in w[r].sent
    ensures forall r | r in cfg.members && r != n && r !in todo :: w[r] == v0[r]
  {
    hide Reached, InitWorld, OnReceive, NewValue;
    ProposeStep(cfg, v0[n], n, v);
    w := NextReached(cfg, g, v0, Propose(n, v));
    assert |{n}| == 1;
    assert forall r | r in todo :: w[r] == v0[r];
    w := CollectPromises(cfg, g, w, n, v, {n}, todo);
  }

  // ---- three or more nodes: a used ballot prepared again carries a second value ----

  // The roles, by rising ballot: `r` proposes "u" and keeps it to itself; `p` gets "v" accepted by the voters
  // and is the one to prepare its ballot again; `o`, one of the voters, makes its acceptor promise more.

  function Lonely(p: NodeId): Counter {
    Counter({p}, {p}, {})
  }

  /** Preparing again, the own acceptor having rejected. */
  function Again(p: NodeId): Proposer {
    Proposer(1, 1, "v", NULL_BALLOT, true, false, false, true, Lonely(p), 0)
  }

  /** Having taken over "u", with the promises of `got`. */
  function Switched(p: NodeId, r: NodeId, got: set<NodeId>): Proposer {
    Proposer(1, 1, "u", Ballot(1, r), true, false, false, true, Counter({p} + got, {p}, got), 0)
  }

  /** Accepting "u" at the ballot that carried "v", with the votes of `got`. */
  function Second(p: NodeId, r: NodeId, got: set<NodeId>): Proposer {
    Proposer(1, 1, "u", Ballot(1, r), false, true, true, true, Counter({p} + got, {p}, got), 0)
  }

  /** The acceptor of `p`: it voted for "v" and has promised `o`. */
  predicate Torn(s: Node, p: NodeId, o: NodeId, q: Proposer) {
    Is(s, p, Ballot(1, o), Ballot(1, p), "v", q)
  }

  lemma AgainStep(cfg: Config, s: Node, p: NodeId, o: NodeId)
    requires cfg.Majority() >= 2 && p in cfg.members && p < o && Torn(s, p, o, Accepting("v", {p}))
    ensures var t := OnTimeout(cfg, s); Torn(t, p, o, Again(p)) && Prepare(0, p, 1) in t.sent
  {
  }

  lemma SwitchStep(cfg: Config, s: Node, p: NodeId, r: NodeId, o: NodeId)
    requires cfg.Majority() >= 2 && r in cfg.members && r != p && Torn(s, p, o, Again(p))
    ensures Torn(OnReceive(cfg, s, PrepareReply(0, r, p, 1, 0, Ballot(1, r), "u")), p, o, Switched(p, r, {r}))
  {
    assert |{r}| == 1;
    assert {p} + {r} == {p, r};
  }

  lemma CountOldPromise(cfg: Config, s: Node, p: NodeId, r: NodeId, o: NodeId, x: NodeId, got: set<NodeId>)
    requires p in cfg.members && x in cfg.members && x != p && p < o
    requires Torn(s, p, o, Switched(p, r, got)) && x !in got
    ensures var t := OnReceive(cfg, s, Plain(x, p));
            if |got| + 1 < cfg.Majority() then Torn(t, p, o, Switched(p, r, got + {x}))
            else Torn(t, p, o, Second(p, r, {})) && Accept(0, p, 1, "u", 0) in t.sent
  {
    assert |got + {x}| == |got| + 1;
    assert {p} + got + {x} == {p} + (got + {x});
    assert {p} + {} == {p};
  }

  lemma CountOldVote(cfg: Config, s: Node, p: NodeId, r: NodeId, o: NodeId, x: NodeId, got: set<NodeId>)
    requires p in cfg.members && x in cfg.members && x != p
    requires Torn(s, p, o, Second(p, r, got)) && x !in got
    ensures var t := OnReceive(cfg, s, AcceptReply(0, x, p, 1, 0));
            if |got| + 1 < cfg.Majority() then Torn(t, p, o, Second(p, r, got + {x}))
            else t.executed == ["v"] && Success(0, p, 1, 0) in t.sent
  {
    assert |got + {x}| == |got| + 1;
    assert {p} + got + {x} == {p} + (got + {x});
  }

  /** Promises made before are delivered once more. */
  lemma {:induction false} OldPromises(cfg: Config, g: Guards, v0: World, p: NodeId, r: NodeId, o: NodeId,
                                       got: set<NodeId>, todo: set<NodeId>)
    returns (w: World)
    requires Reached(cfg, g, v0) && v0.Keys == cfg.members && p in cfg.members && p < o
    requires Torn(v0[p], p, o, Switched(p, r, got)) && todo != {} && todo !! got && |got| + |todo| == cfg.Majority()
    requires todo <= cfg.members - {p} && forall x | x in todo :: Plain(x, p) in v0[x].sent
    ensures Reached(cfg, g, w) && w.Keys == cfg.members && w == v0[p := w[p]] && v0[p].sent <= w[p].sent
    ensures Torn(w[p], p, o, Second(p, r, {})) && Accept(0, p, 1, "u", 0) in w[p].sent
    decreases |todo|
  {
    hide Reached, InitWorld, OnReceive;
    var x :| x in todo;
    CountOldPromise(cfg, v0[p], p, r, o, x, got);
    w := NextReached(cfg, g, v0, Deliver(p, Plain(x, p)));
    var rest := todo - {x};
    assert |rest| == |todo| - 1;
    if rest != {} {
      w := OldPromises(cfg, g, w, p, r, o, got + {x}, rest);
    }
  }

  /** Votes cast before are counted for the new value. */
  lemma {:induction false} OldVotes(cfg: Config, g: Guards, v0: World, p: NodeId, r: NodeId, o: NodeId,
                                    got: set<NodeId>, todo: set<NodeId>)
    returns (w: World)
    requires Reached(cfg, g, v0) && v0.Keys == cfg.members && p in cfg.members
    requires Torn(v0[p], p, o, Second(p, r, got)) && todo != {} && todo !! got && |got| + |todo| == cfg.Majority()
    requires todo <= cfg.members - {p} && forall x | x in todo :: AcceptReply(0, x, p, 1, 0) in v0[x].sent
    ensures Reached(cfg, g, w) && w.Keys == cfg.members && w == v0[p := w[p]] && v0[p].sent <= w[p].sent
    ensures w[p].executed == ["v"] && Success(0, p, 1, 0) in w[p].sent
    decreases |todo|
  {
    hide Reached, InitWorld, OnReceive;
    var x :| x in todo;
    CountOldVote(cfg, v0[p], p, r, o, x, got);
    w := NextReached(cfg, g, v0, Deliver(p, AcceptReply(0, x, p, 1, 0)));
    var rest := todo - {x};
    assert |rest| == |todo| - 1;
    if rest != {} {
      w := OldVotes(cfg, g, w, p, r, o, got + {x}, rest);
    }
  }

  /** Each voter accepts, its vote staying on the way. */
  lemma {:induction false} CastVotes(cfg: Config, g: Guards, v0: World, p: NodeId, v: Value, todo: set<NodeId>)
    returns (w: World)
    requires Reached(cfg, g, v0) && v0.Keys == cfg.members && p in cfg.members && Accept(0, p, 1, v, 0) in v0[p].sent
    requires todo <= cfg.members - {p} && v0[p].me == p
    requires forall x | x in todo :: Is(v0[x], x, Ballot(1, p), NULL_BALLOT, [], v0[x].prop)
    ensures Reached(cfg, g, w) && w.Keys == cfg.members
    ensures forall x | x in todo :: Is(w[x], x, Ballot(1, p), Ballot(1, p), v, v0[x].prop) && v0[x].sent <= w[x].sent
    ensures forall x | x in todo :: AcceptReply(0, x, p, 1, 0) in w[x].sent
    ensures forall x | x in cfg.members && x !in todo :: w[x] == v0[x]
    decreases |todo|
  {
    hide Reached, InitWorld, OnReceive;
    w := v0;
    if todo != {} {
      var x :| x in todo;
      AcceptStep(cfg, v0[x], p, v);
      var v1 := NextReached(cfg, g, v0, Deliver(x, Accept(0, p, 1, v, 0)));
      var rest := todo - {x};
      assert |rest| == |todo| - 1;
      assert forall y | y in rest :: v1[y] == v0[y];
      w := CastVotes(cfg, g, v1, p, v, rest);
      assert w[x] == v1[x];
    }
  }

  /** The voters: `o` and others, neither `r` nor `p`, one short of a majority. */
  ghost predicate Voters(cfg: Config, r: NodeId, p: NodeId, o: NodeId, voters: set<NodeId>) {
    && {r, p, o} <= cfg.members && r < p < o && cfg.Majority() >= 2
    && voters <= cfg.members && voters !! {r, p} && o in voters && 1 + |voters| == cfg.Majority()
  }

  lemma Roles(cfg: Config) returns (r: NodeId, p: NodeId, o: NodeId, voters: set<NodeId>)
    requires |cfg.members| >= 3
    ensures Voters(cfg, r, p, o, voters)
  {
    var three := TakeSome(cfg.members, 3);
    r, p, o := Sorted(three);
    var others := cfg.members - {r, p, o};
    assert |others| == |cfg.members| - 3 by {
      assert |{r, p, o}| == 3;
      assert cfg.members == others + {r, p, o};
    }
    var some := TakeSome(others, cfg.Majority() - 2);
    voters := some + {o};
    assert |voters| == |some| + 1;
  }

  lemma Sorted(three: set<NodeId>) returns (a: NodeId, b: NodeId, c: NodeId)
    requires |three| == 3
    ensures {a, b, c} <= three && a < b < c
  {
    var x :| x in three;
    assert |three - {x}| == 2;
    var y :| y in three - {x};
    assert |three - {x} - {y}| == 1;
    var z :| z in three - {x} - {y};
    a := if x < y && x < z then x else if y < z then y else z;
    c := if x > y && x > z then x else if y > z then y else z;
    b := if x != a && x != c then x else if y != a && y != c then y else z;
  }

  /** "v" has the votes of a majority at the ballot of `p`, and only `r` knows of "u". */
  ghost predicate Voted(cfg: Config, w: World, r: NodeId, p: NodeId, voters: set<NodeId>) {
    && w.Keys == cfg.members && r in w && p in w
    && Voting(w[r], r, "u", {r}) && Voting(w[p], p, "v", {p})
    && Prepare(0, p, 1) in w[p].sent && Accept(0, p, 1, "v", 0) in w[p].sent
    && forall x | x in voters ::
         x in w && Is(w[x], x, Ballot(1, p), Ballot(1, p), "v", FRESH)
         && Plain(x, p) in w[x].sent && AcceptReply(0, x, p, 1, 0) in w[x].sent
  }

  lemma VotesForTheSecond(cfg: Config, g: Guards, r: NodeId, p: NodeId, o: NodeId, voters: set<NodeId>) returns (w: World)
    requires Voters(cfg, r, p, o, voters)
    ensures Reached(cfg, g, w) && Voted(cfg, w, r, p, voters)
  {
    hide Reached, InitWorld, OnReceive, NewValue;
    StartReached(cfg, g);
    StartsFresh(cfg);
    w := Proposes(cfg, g, InitWorld(cfg), r, "u", voters);
    var v1 := w;
    w := Proposes(cfg, g, v1, p, "v", voters);
    var v2 := w;
    w := CastVotes(cfg, g, v2, p, "v", voters);
    assert forall x | x in voters :: Plain(x, p) in v2[x].sent;
  }

  /** `p` prepares its ballot again while its acceptor is bound to `o`, and takes over "u". */
  lemma PreparesAgain(cfg: Config, g: Guards, v0: World, r: NodeId, p: NodeId, o: NodeId, voters: set<NodeId>) returns (w: World)
    requires Voters(cfg, r, p, o, voters) && Reached(cfg, g, v0) && Voted(cfg, v0, r, p, voters) && !g.prepare
    ensures Reached(cfg, g, w) && w.Keys == cfg.members
    ensures Torn(w[p], p, o, Second(p, r, {})) && Accept(0, p, 1, "u", 0) in w[p].sent && Accept(0, p, 1, "v", 0) in w[p].sent
    ensures Is(w[r], r, Ballot(1, p), Ballot(1, r), "u", w[r].prop)
    ensures forall x | x in voters :: AcceptReply(0, x, p, 1, 0) in w[x].sent
  {
    hide Reached, InitWorld, OnReceive, NewValue, OnTimeout;
    ProposeStep(cfg, v0[o], o, "w");
    w := NextReached(cfg, g, v0, Propose(o, "w"));
    PromiseStep(cfg, w[p], o);
    w := NextReached(cfg, g, w, Deliver(p, Prepare(0, o, 1)));
    AgainStep(cfg, w[p], p, o);
    w := NextReached(cfg, g, w, Timeout(p));
    PromiseStep(cfg, w[r], p);
    w := NextReached(cfg, g, w, Deliver(r, Prepare(0, p, 1)));
    SwitchStep(cfg, w[p], p, r, o);
    w := NextReached(cfg, g, w, Deliver(p, PrepareReply(0, r, p, 1, 0, Ballot(1, r), "u")));
    assert |{r}| == 1;
    assert forall x | x in voters :: Plain(x, p) in w[x].sent && AcceptReply(0, x, p, 1, 0) in w[x].sent;
    var before := w;
    w := OldPromises(cfg, g, before, p, r, o, {r}, voters);
    assert forall x | x in voters :: w[x] == before[x];
  }

  lemma LearnOtherStep(cfg: Config, s: Node, r: NodeId, p: NodeId)
    requires p != r && Is(s, r, Ballot(1, p), Ballot(1, p), "u", s.prop)
    ensures OnReceive(cfg, s, Success(0, p, 1, 0)).executed == ["u"]
  {
  }

  /** Without the condition on repeated prepares, and with promises and votes delivered late or twice, two
      nodes of any cluster of three or more execute different values, and one ballot carried both. */
  lemma UnguardedReprepareDisagrees(cfg: Config) returns (w: World, r: NodeId, p: NodeId)
    requires |cfg.members| >= 3
    ensures Reached(cfg, Guards(false, true), w)
    ensures r in w && p in w && w[r].executed == ["u"] && w[p].executed == ["v"]
    ensures Proposed(w, 0, Ballot(1, p), "u") && Proposed(w, 0, Ballot(1, p), "v")
  {
    hide Reached, InitWorld, OnReceive, NewValue, OnTimeout;
    var g := Guards(false, true);
    var o, voters;
    r, p, o, voters := Roles(cfg);
    w := VotesForTheSecond(cfg, g, r, p, o, voters);
    w := PreparesAgain(cfg, g, w, r, p, o, voters);
    var v1 := w;
    AcceptStep(cfg, w[r], p, "u");
    w := NextReached(cfg, g, w, Deliver(r, Accept(0, p, 1, "u", 0)));
    CountOldVote(cfg, w[p], p, r, o, r, {});
    w := NextReached(cfg, g, w, Deliver(p, AcceptReply(0, r, p, 1, 0)));
    assert {} + {r} == {r} && |{r}| == 1;
    assert forall x | x in voters :: w[x] == v1[x];
    w := OldVotes(cfg, g, w, p, r, o, {r}, voters);
    LearnOtherStep(cfg, w[r], r, p);
    w := NextReached(cfg, g, w, Deliver(r, Success(0, p, 1, 0)));
    assert Said(w, Accept(0, p, 1, "u", 0)) && Said(w, Accept(0, p, 1, "v", 0));
  }

  /** Exactly clusters of at most two need no condition on repeated prepares. */
  lemma PrepareGuardNeededIff(cfg: Config)
    ensures (forall w | Reached(cfg, Guards(false, true), w) :: Agrees(w)) <==> |cfg.members| <= 2
  {
    hide Reached, Agrees;
    if |cfg.members| <= 2 {
      forall w | Reached(cfg, Guards(false, true), w)
        ensures Agrees(w)
      {
        SufficientGuardsAgree(cfg, Guards(false, true), w);
      }
    } else {
      var w, r, p := UnguardedReprepareDisagrees(cfg);
      Differ(w, r, p);
    }
  }

  lemma Differ(w: World, r: NodeId, p: NodeId)
    requires r in w && p in w && |w[r].executed| == |w[p].executed| && w[r].executed != w[p].executed
    ensures !Agrees(w)
  {
  }

  // ---- exactly when a repeated prepare is harmless ----

  /** A reply of this round that another node may honestly send: a promise that reports nothing, a
      lower ballot with whatever value that carries, or the ballot itself with its value `v`. */
  ghost predicate HonestPromise(cfg: Config, s: Node, v: Value, r: Msg) {
    && r.from in cfg.members && r.PrepareReply? && r.IsPromise() && r.inst == s.inst && r.to == s.me && r.pid == s.prop.pid && r.from != s.me
    && MyBallot(s).Ge(r.pre) && (r.pre == MyBallot(s) ==> r.value == v)
  }

  /** A node whose ballot already carries a value in this instance prepares it again. The value is out
      of reach of every honest promise if and only if its own acceptor is not bound to a higher ballot
      (`low` is any ballot below the node's own, so that there is something to report). */
  lemma ReprepareKeepsValueIff(cfg: Config, w: World, s: Node, low: Ballot)
    requires Settled(cfg, w, s) && cfg.Majority() >= 2
    requires !s.prop.rejected && AcceptedNow(s)
    requires !low.IsNull() && MyBallot(s).Gt(low)
    ensures var t := DoPrepare(cfg, s, false);
            ReprepareOk(s, false) <==>
            (forall r | HonestPromise(cfg, t, s.prop.value, r) ::
               CountPrepareReply(t, r.from, r.reject, r.pre, r.value).prop.value == s.prop.value)
  {
    var t := DoPrepare(cfg, s, false);
    var v, last :| Accept(s.inst, s.me, s.prop.pid, v, last) in s.sent;
    RepreparedState(cfg, w, s, v, last);
    hide Settled, DoPrepare, AcceptedNow, ReprepareOk;
    if ReprepareOk(s, false) {
      NoneTakesOver(cfg, t, s.prop.value);
    } else {
      var r := OneTakesOver(cfg, t, s.prop.value, low);
    }
  }

  /** Having reported the own ballot, no honest promise reports a higher one. */
  lemma NoneTakesOver(cfg: Config, t: Node, v: Value)
    requires t.prop.value == v && t.prop.highestPre == MyBallot(t)
    ensures forall r | HonestPromise(cfg, t, v, r) :: CountPrepareReply(t, r.from, r.reject, r.pre, r.value).prop.value == v
  {
  }

  lemma OneTakesOver(cfg: Config, t: Node, v: Value, low: Ballot) returns (r: Msg)
    requires cfg.Majority() >= 2 && t.prop.highestPre == NULL_BALLOT && !low.IsNull() && MyBallot(t).Gt(low)
    ensures HonestPromise(cfg, t, v, r) && CountPrepareReply(t, r.from, r.reject, r.pre, r.value).prop.value != v
  {
    var n := AnotherMember(cfg, t.me);
    r := PrepareReply(t.inst, n, t.me, t.prop.pid, 0, low, v + ['x']);
  }

  lemma AnotherMember(cfg: Config, n: NodeId) returns (q: NodeId)
    requires |cfg.members| >= 2
    ensures q in cfg.members && q != n
  {
    if cfg.members - {n} == {} {
      assert cfg.members <= {n};
      CardinalityOne(cfg.members, n);
      assert false;
    }
    q :| q in cfg.members - {n};
  }

  lemma CardinalityOne(a: set<NodeId>, n: NodeId)
    requires a <= {n}
    ensures |a| <= 1
  {
    assert a == {} || a == {n};
  }

  lemma RepreparedState(cfg: Config, w: World, s: Node, v: Value, last: nat)
    requires Settled(cfg, w, s) && cfg.Majority() >= 2
    requires !s.prop.rejected && Accept(s.inst, s.me, s.prop.pid, v, last) in s.sent
    ensures var t := DoPrepare(cfg, s, false);
            && t.inst == s.inst && t.me == s.me && t.prop.pid == s.prop.pid && t.prop.value == s.prop.value
            && t.prop.highestPre == (if ReprepareOk(s, false) then MyBallot(s) else NULL_BALLOT)
            && s.prop.pid >= 1
  {
    hide LearnerInv, ChecksumInv, Justified, Chosen, VotesFor, PreparingOk, CanSkipOk, AcceptingOk, SuccessOk, RepliesOk, PromiseKept, PromisesBelow;
    var a := Accept(s.inst, s.me, s.prop.pid, v, last);
    var b := MyBallot(s);
    assert a.Accept? && a.inst == s.inst && a.pid == s.prop.pid;
    var k := AcceptReply(s.inst, s.me, s.me, s.prop.pid, 0);
    assert SelfAccepted(s, a.inst, a.pid) && k in s.sent && k.IsAccepted() && k.ReplyBallot() == b;
    if !s.acc.promise.Gt(b) {
      assert s.acc.accepted == b;
      assert Proposed(w, s.inst, b, s.acc.value);
    }
    assert |{s.me}| == 1;
  }

  // ---- five or more nodes: an accept for the next instance does not prove the accepted value chosen ----

  /** The owner `o` of a ballot taught the outcome of instance 0 while it was accepting there. */
  lemma TaughtStep(cfg: Config, s: Node, o: NodeId, teacher: NodeId, ballot: Ballot, v: Value)
    requires Voting(s, o, "u", {o})
    ensures var t := OnReceive(cfg, s, LearnValue(0, teacher, o, ballot, v, 0));
            && t.me == o && t.inst == 1 && t.executed == [v]
            && t.prop.canSkip && !t.prop.rejected && t.prop.pid == 1 && t.prop.value == []
  {
  }

  lemma SkipPrepareStep(cfg: Config, s: Node, o: NodeId, x: Value)
    requires cfg.Majority() >= 2 && o in cfg.members
    requires s.me == o && s.inst == 1 && s.prop.canSkip && !s.prop.rejected && s.prop.pid == 1 && s.prop.value == []
    ensures var t := NewValue(cfg, s, x); t.executed == s.executed && Accept(1, o, 1, x, s.last) in t.sent
  {
    assert |{o}| == 1;
  }

  lemma MisledStep(cfg: Config, s: Node, o: NodeId, x: Value, last: nat)
    requires o in cfg.members && s.me != o && Is(s, s.me, Ballot(1, o), Ballot(1, o), "u", s.prop)
    ensures OnReceive(cfg, s, Accept(1, o, 1, x, last)).executed == ["u"]
  {
  }

  /** Everybody is as at the start, except that the owner of a ballot and node `q` have accepted "u" there
      and others have promised it. */
  ghost predicate Minority(cfg: Config, w: World, o: NodeId, q: NodeId) {
    && w.Keys == cfg.members && o in w && q in w
    && Voting(w[o], o, "u", {o})
    && Is(w[q], q, Ballot(1, o), Ballot(1, o), "u", FRESH)
    && forall r | r in cfg.members && r != o && r != q ::
         Is(w[r], r, w[r].acc.promise, NULL_BALLOT, [], FRESH) && Ballot(1, o).Ge(w[r].acc.promise)
  }

  lemma MinorityAccepts(cfg: Config, g: Guards, o: NodeId, q: NodeId) returns (w: World)
    requires cfg.Majority() >= 2 && o in cfg.members && q in cfg.members && o != q
    ensures Reached(cfg, g, w) && Minority(cfg, w, o, q)
  {
    hide Reached, InitWorld, OnReceive, NewValue;
    StartReached(cfg, g);
    StartsFresh(cfg);
    assert |cfg.members - {o}| == |cfg.members| - 1;
    var todo := TakeSome(cfg.members - {o}, cfg.Majority() - 1);
    w := Proposes(cfg, g, InitWorld(cfg), o, "u", todo);
    AcceptStep(cfg, w[q], o, "u");
    w := NextReached(cfg, g, w, Deliver(q, Accept(0, o, 1, "u", 0)));
  }

  lemma OtherVoters(cfg: Config, o: NodeId, q: NodeId, s: NodeId) returns (voters: set<NodeId>)
    requires |cfg.members| >= 5 && {o, q, s} <= cfg.members && o != q && o != s && q != s
    ensures voters <= cfg.members && voters !! {o, q, s} && voters != {} && 1 + |voters| == cfg.Majority()
  {
    var others := cfg.members - {o, q, s};
    assert |others| == |cfg.members| - 3 by {
      assert |{o, q, s}| == 3;
      assert cfg.members == others + {o, q, s};
    }
    voters := TakeSome(others, cfg.Majority() - 1);
  }

  /** The other nodes choose "v" at a higher ballot without hearing of "u", and its owner ships it. */
  lemma OthersChoose(cfg: Config, g: Guards, v0: World, o: NodeId, q: NodeId, s: NodeId) returns (w: World)
    requires |cfg.members| >= 5 && Reached(cfg, g, v0) && Minority(cfg, v0, o, q)
    requires o != q && s in cfg.members && s != o && s != q && s > o
    ensures Reached(cfg, g, w) && w.Keys == cfg.members
    ensures w[o] == v0[o] && w[q] == v0[q] && w[s].me == s
    ensures exists b :: LearnValue(0, s, o, b, "v", 0) in w[s].sent
  {
    hide Reached, InitWorld, OnReceive, NewValue, Voting;
    var todo := OtherVoters(cfg, o, q, s);
    assert forall r | r in todo :: Free(v0[r], r, s);
    assert |{s}| == 1;
    w := Proposes(cfg, g, v0, s, "v", todo);
    w := CollectVotes(cfg, g, w, s, "v", {s}, todo);
    var b := w[s].log[0].accepted;
    w := NextReached(cfg, g, w, Ship(s, 0, o, false));
    assert LearnValue(0, s, o, b, "v", 0) in w[s].sent;
  }

  /** With five or more nodes, whoever they are, the inferred success message breaks agreement: the owner of
      a ballot learns the chosen "v" from another node's log and goes on with its old ballot; a node that
      accepted "u" there takes that for the success of "u". */
  lemma ShortcutDisagreesBeyondFour(cfg: Config) returns (w: World, o: NodeId, q: NodeId)
    requires |cfg.members| >= 5
    ensures Reached(cfg, Guards(true, false), w)
    ensures o in w && q in w && w[o].executed == ["v"] && w[q].executed == ["u"]
  {
    hide Reached, InitWorld, OnReceive, NewValue;
    var g := Guards(true, false);
    var three := TakeSome(cfg.members, 3);
    var s;
    o, q, s := Sorted(three);
    w := MinorityAccepts(cfg, g, o, q);
    w := OthersChoose(cfg, g, w, o, q, s);
    var b :| LearnValue(0, s, o, b, "v", 0) in w[s].sent;
    TaughtStep(cfg, w[o], o, s, b, "v");
    KnownSender(w, s);
    w := NextReached(cfg, g, w, Deliver(o, LearnValue(0, s, o, b, "v", 0)));
    var last := w[o].last;
    SkipPrepareStep(cfg, w[o], o, "x");
    w := NextReached(cfg, g, w, Propose(o, "x"));
    MisledStep(cfg, w[q], o, "x", last);
    w := NextReached(cfg, g, w, Deliver(q, Accept(1, o, 1, "x", last)));
  }

  lemma KnownSender(w: World, n: NodeId)
    requires n in w
    ensures forall m | m in w[n].sent && m.from == n :: Said(w, m)
  {
  }

  /** Exactly clusters of at most four may infer success from the next instance. */
  lemma ShortcutGuardNeededIff(cfg: Config)
    ensures (forall w | Reached(cfg, Guards(true, false), w) :: Agrees(w)) <==> |cfg.members| <= 4
  {
    hide Reached, Agrees;
    if |cfg.members| <= 4 {
      forall w | Reached(cfg, Guards(true, false), w)
        ensures Agrees(w)
      {
        SufficientGuardsAgree(cfg, Guards(true, false), w);
      }
    } else {
      var w, o, q := ShortcutDisagreesBeyondFour(cfg);
      Differ(w, o, q);
    }
  }
}
