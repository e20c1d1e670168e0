/** Legal runs get somewhere: from every reachable world some continuation brings all members into step, and
    from there any member gets any value decided, executed by everybody, instance after instance. */
module PaxosProgress {
  import opened Common
  import opened PaxosTypes
  import opened PaxosNode
  import opened PaxosInvariant
  import opened PaxosSteps
  import opened PaxosAgreement
  import opened PaxosRuns
  import PaxosTheorems

  // ---- promises are owned ----

  /** A promise names a proposal id its owner has got to. */
  ghost predicate Owned(w: World, r: NodeId)
    requires r in w
  {
    var b := w[r].acc.promise;
    b.IsNull() || (b.node in w && b.pid <= w[b.node].prop.pid)
  }

  ghost predicate Inv(cfg: Config, w: World) {
    WorldInv(cfg, w) && forall r | r in w :: Owned(w, r)
  }

  /** What a handler does to the promise and the proposal id. */
  predicate Promising(s: Node, t: Node, b: Ballot) {
    && t.prop.pid >= s.prop.pid
    && (t.acc.promise == s.acc.promise || t.acc.promise == b || t.acc.promise == MyBallot(t))
    && t.me == s.me
  }

  lemma AcceptPromises(cfg: Config, s: Node, b: Ballot)
    ensures Promising(s, DoAccept(cfg, s), b) && DoAccept(cfg, s).prop.pid == s.prop.pid
  {
  }

  lemma PreparePromises(cfg: Config, s: Node, needNew: bool, b: Ballot)
    ensures Promising(s, DoPrepare(cfg, s, needNew), b)
  {
    hide DoAccept;
    var s1 := StartPrepare(s, needNew);
    var s2 := OnPrepare(cfg, s1, s1.me, s1.prop.pid);
    var r := PrepareAnswer(s1, s1.me, s1.prop.pid);
    var s3 := CountPrepareReply(s2, r.from, r.reject, r.pre, r.value);
    AcceptPromises(cfg, s3.(prop := s3.prop.(canSkip := true)), b);
  }

  lemma AnswersPromise(cfg: Config, s: Node, from: NodeId, pid: nat, value: Value)
    ensures Promising(s, OnPrepare(cfg, s, from, pid), Ballot(pid, from))
    ensures Promising(s, OnAccept(cfg, s, from, pid, value), Ballot(pid, from))
  {
  }

  lemma SuccessPromises(s: Node, inst: nat, from: NodeId, pid: nat)
    ensures var t := OnSuccess(s, inst, from, pid); t.acc.promise == s.acc.promise && t.prop.pid == s.prop.pid && t.me == s.me
  {
  }

  lemma AcceptReplyPromises(cfg: Config, s: Node, from: NodeId, pid: nat, reject: nat, b: Ballot)
    ensures Promising(s, OnAcceptReply(cfg, s, from, pid, reject), b)
  {
  }

  lemma PrepareReplyPromises(cfg: Config, s: Node, from: NodeId, pid: nat, reject: nat, pre: Ballot, value: Value, b: Ballot)
    ensures Promising(s, OnPrepareReply(cfg, s, from, pid, reject, pre, value), b)
  {
    hide DoAccept;
    var s1 := CountPrepareReply(s, from, reject, pre, value);
    AcceptPromises(cfg, s1.(prop := s1.prop.(canSkip := true)), b);
  }

  lemma ReceivePromises(cfg: Config, s: Node, m: Msg)
    ensures Promising(s, OnReceive(cfg, s, m), if m.Prepare? || m.Accept? then Ballot(m.pid, m.from) else s.acc.promise)
  {
    hide OnPrepare, OnAccept, OnSuccess, OnPrepareReply, OnAcceptReply;
    var s1 := AdoptChecksum(s, m);
    match m
    case PrepareReply(_, from, _, pid, reject, pre, value) =>
      PrepareReplyPromises(cfg, s, from, pid, reject, pre, value, s.acc.promise);
    case AcceptReply(_, from, _, pid, reject) => AcceptReplyPromises(cfg, s, from, pid, reject, s.acc.promise);
    case Success(inst, from, pid, _) => SuccessPromises(s1, inst, from, pid);
    case LearnValue(_, _, _, _, _, _) =>
    case Prepare(inst, from, pid) =>
      SuccessPromises(s1, s1.inst, from, pid);
      AnswersPromise(cfg, if inst == s1.inst + 1 then OnSuccess(s1, s1.inst, from, pid) else s1, from, pid, []);
    case Accept(inst, from, pid, value, _) =>
      SuccessPromises(s1, s1.inst, from, pid);
      AnswersPromise(cfg, if inst == s1.inst + 1 then OnSuccess(s1, s1.inst, from, pid) else s1, from, pid, value);
  }

  ghost function Heard(w: World, e: Event): Ballot
    requires e.q in w
  {
    if e.Deliver? && (e.m.Prepare? || e.m.Accept?) then Ballot(e.m.pid, e.m.from) else w[e.q].acc.promise
  }

  lemma HandlePromises(cfg: Config, w: World, e: Event)
    requires Enabled(cfg, w, e)
    ensures Promising(w[e.q], Handle(cfg, w[e.q], e), Heard(w, e))
  {
    hide DoAccept, DoPrepare, OnReceive;
    var s := w[e.q];
    match e
    case Deliver(q, m) => ReceivePromises(cfg, s, m);
    case Propose(q, value) =>
      var s1 := if |s.prop.value| == 0 then s.(prop := s.prop.(value := value)) else s;
      AcceptPromises(cfg, s1, s.acc.promise);
      PreparePromises(cfg, s1, s1.prop.rejected, s.acc.promise);
    case Timeout(q) => PreparePromises(cfg, s, s.prop.rejected, s.acc.promise);
    case CommitTimeout(q) =>
    case Ship(q, inst, to, withChecksum) =>
  }

  lemma StepKeepsOwned(cfg: Config, w: World, e: Event)
    requires Inv(cfg, w) && Enabled(cfg, w, e)
    ensures Inv(cfg, Apply(cfg, w, e))
  {
    hide WorldInv, Handle;
    StepKeepsInv(cfg, w, e);
    HandlePromises(cfg, w, e);
    var v := Apply(cfg, w, e);
    NamesItself(cfg, w, e.q);
    if e.Deliver? && (e.m.Prepare? || e.m.Accept?) {
      SaidBelow(cfg, w, e.m);
    }
    forall r | r in v
      ensures Owned(v, r)
    {
      assert Owned(w, r);
    }
  }

  lemma NamesItself(cfg: Config, w: World, q: NodeId)
    requires WorldInv(cfg, w) && q in w
    ensures w[q].me == q && w[q].prop.pid >= 1 && w.Keys == cfg.members && |w[q].executed| == w[q].inst
    ensures forall m | m in w[q].sent :: m.from == q && m.inst <= w[q].inst
    ensures !w[q].acc.accepted.IsNull() ==> w[q].acc.value != []
    ensures w[q].acc.accepted.IsNull() ==> w[q].acc.accepted == NULL_BALLOT && w[q].acc.value == []
    ensures forall i | 0 <= i < w[q].inst :: i in w[q].log
  {
    assert NodeOk(cfg, w, q);
  }

  lemma SaidBelow(cfg: Config, w: World, m: Msg)
    requires WorldInv(cfg, w) && Said(w, m) && (m.Prepare? || m.Accept?)
    ensures m.pid <= w[m.from].prop.pid
  {
    assert NodeOk(cfg, w, m.from);
  }

  // ---- continuing a run ----

  ghost predicate Goes(cfg: Config, v: World, w: World) {
    exists run :: Leads(cfg, v, run, w)
  }

  lemma {:induction false} OneMore(cfg: Config, v: World, run: seq<Event>, w: World, e: Event)
    requires Leads(cfg, v, run, w) && Enabled(cfg, w, e)
    ensures Leads(cfg, v, run + [e], Apply(cfg, w, e))
    decreases |run|
  {
    hide Enabled, Handle;
    if run == [] {
      assert [e][1..] == [];
    } else {
      assert (run + [e])[1..] == run[1..] + [e];
      OneMore(cfg, Apply(cfg, v, run[0]), run[1..], w, e);
    }
  }

  lemma Stays(cfg: Config, w: World)
    ensures Goes(cfg, w, w)
  {
    assert Leads(cfg, w, [], w);
  }

  lemma Goes1(cfg: Config, v: World, w: World, e: Event) returns (u: World)
    requires Goes(cfg, v, w) && Inv(cfg, w) && Enabled(cfg, w, e)
    ensures Goes(cfg, v, u) && Inv(cfg, u) && u == w[e.q := Handle(cfg, w[e.q], e)]
    ensures u.Keys == w.Keys == cfg.members && w[e.q].sent <= u[e.q].sent
  {
    hide Inv, Enabled, Handle;
    u := Apply(cfg, w, e);
    var run :| Leads(cfg, v, run, w);
    OneMore(cfg, v, run, w, e);
    StepKeepsOwned(cfg, w, e);
    HandleGrows(cfg, w, e);
    Members(cfg, w);
    Members(cfg, u);
  }

  lemma Members(cfg: Config, w: World)
    requires Inv(cfg, w)
    ensures w.Keys == cfg.members && WorldInv(cfg, w)
  {
  }

  lemma {:induction false} RunKeepsOwned(cfg: Config, w: World, run: seq<Event>, v: World)
    requires Inv(cfg, w) && Leads(cfg, w, run, v)
    ensures Inv(cfg, v)
    decreases |run|
  {
    hide Inv, Enabled, Handle;
    if run != [] {
      StepKeepsOwned(cfg, w, run[0]);
      RunKeepsOwned(cfg, Apply(cfg, w, run[0]), run[1..], v);
    }
  }

  lemma StartInv(cfg: Config)
    ensures Inv(cfg, InitWorld(cfg))
  {
    InitInv(cfg);
  }

  lemma ReachableInvOwned(cfg: Config, w: World)
    requires Reachable(cfg, w)
    ensures Inv(cfg, w)
  {
    hide Inv, InitWorld;
    var run :| Leads(cfg, InitWorld(cfg), run, w);
    StartInv(cfg);
    RunKeepsOwned(cfg, InitWorld(cfg), run, w);
  }

  // ---- one proposer at work ----

  /** Preparing with a ballot its own acceptor has promised, and the promises of `got`. */
  predicate Asking(cfg: Config, s: Node, got: set<NodeId>) {
    && s.prop.preparing && s.prop.value != [] && !s.prop.rejected
    && Prepare(s.inst, s.me, s.prop.pid) in s.sent
    && s.prop.counter.passes == got && s.me in got && |got| < cfg.Majority()
    && s.acc.promise == MyBallot(s)
  }

  ghost predicate SaidAccept(s: Node, inst: nat, value: Value) {
    exists last :: Accept(inst, s.me, s.prop.pid, value, last) in s.sent
  }

  ghost predicate SaidSuccess(s: Node, inst: nat) {
    exists last :: Success(inst, s.me, s.prop.pid, last) in s.sent
  }

  /** Accepting with a ballot its own acceptor has voted for, and the votes of `got`. */
  ghost predicate Counting(cfg: Config, s: Node, got: set<NodeId>) {
    && s.prop.accepting && s.prop.value != []
    && SaidAccept(s, s.inst, s.prop.value)
    && s.prop.counter.passes == got && s.me in got && |got| < cfg.Majority()
    && s.acc.promise == MyBallot(s) && s.acc.accepted == MyBallot(s) && s.acc.value == s.prop.value
  }

  /** A node that has just decided `value` in instance `inst`. */
  ghost predicate Decided(s: Node, inst: nat, value: Value) {
    && value != [] && s.inst == inst + 1 && |s.executed| == s.inst && s.executed[inst] == value
    && SaidAccept(s, inst, value) && SaidSuccess(s, inst)
    && s.acc.promise == MyBallot(s) && AtRest(s)
  }

  /** Nothing has happened in the current instance, apart from promises. */
  predicate AtRest(s: Node) {
    && s.acc.accepted == NULL_BALLOT && s.acc.value == []
    && s.prop.value == [] && !s.prop.preparing && !s.prop.accepting
    && forall m | m in s.sent && m.Accept? :: m.inst < s.inst
  }

  ghost predicate Working(cfg: Config, s: Node, inst: nat, value: Value) {
    || (s.inst == inst && s.prop.value == value && (Asking(cfg, s, {s.me}) || Counting(cfg, s, {s.me})))
    || Decided(s, inst, value)
  }

  predicate OwnBelow(s: Node) {
    |s.executed| == s.inst && forall m | m in s.sent :: m.inst <= s.inst
  }

  lemma AcceptStarts(cfg: Config, s: Node)
    requires s.me in cfg.members && s.prop.value != [] && s.prop.pid >= 1 && OwnBelow(s)
    requires MyBallot(s).Ge(s.acc.promise)
    ensures var t := DoAccept(cfg, s);
            && t.me == s.me && MyBallot(t) == MyBallot(s) && Working(cfg, t, s.inst, s.prop.value) && !Asking(cfg, t, {s.me})
  {
    var t := DoAccept(cfg, s);
    assert |{s.me}| == 1;
    assert {} + {s.me} == {s.me};
    var m := Accept(s.inst, s.me, s.prop.pid, s.prop.value, s.last);
    assert m in t.sent;
    if cfg.Majority() == 1 {
      assert Success(s.inst, s.me, s.prop.pid, s.last) in t.sent;
    }
  }

  lemma PrepareStarts(cfg: Config, s: Node, needNew: bool)
    requires s.me in cfg.members && s.prop.value != [] && s.prop.pid >= 1 && OwnBelow(s)
    requires !s.acc.accepted.IsNull() ==> s.acc.value != []
    requires Ballot(NextPid(s.prop, needNew), s.me).Ge(s.acc.promise)
    ensures var t := DoPrepare(cfg, s, needNew);
            && t.me == s.me && MyBallot(t) == Ballot(NextPid(s.prop, needNew), s.me)
            && Working(cfg, t, s.inst, if s.acc.accepted.IsNull() then s.prop.value else s.acc.value)
  {
    hide DoAccept, Working;
    var s1 := StartPrepare(s, needNew);
    var answer := PrepareAnswer(s1, s1.me, s1.prop.pid);
    var s2 := OnPrepare(cfg, s1, s1.me, s1.prop.pid);
    var s3 := CountPrepareReply(s2, answer.from, answer.reject, answer.pre, answer.value);
    var value := if s.acc.accepted.IsNull() then s.prop.value else s.acc.value;
    assert |{s.me}| == 1;
    assert {} + {s.me} == {s.me};
    assert s3.prop.value == value && s3.prop.counter.passes == {s.me};
    var t := DoPrepare(cfg, s, needNew);
    if cfg.Majority() == 1 {
      AcceptStarts(cfg, s3.(prop := s3.prop.(canSkip := true)));
    } else {
      assert Prepare(s.inst, s.me, s1.prop.pid) in t.sent;
      assert Asking(cfg, t, {t.me});
      StillWorking(cfg, t);
    }
  }

  lemma StillWorking(cfg: Config, s: Node)
    requires Asking(cfg, s, {s.me}) || Counting(cfg, s, {s.me})
    ensures Working(cfg, s, s.inst, s.prop.value)
  {
  }

  /** The own acceptor refuses the ballot: its promise is what the next proposal id must exceed. */
  predicate Refused(s: Node, t: Node, value: Value) {
    && t.me == s.me && t.inst == s.inst && t.acc == s.acc && t.executed == s.executed && t.prop.pid >= 1
    && t.prop.value == value && t.prop.rejected && t.prop.highestOther >= s.acc.promise.pid
    && (t.prop.preparing || t.prop.accepting) && t.prop.timeoutInst == s.inst
  }

  lemma AcceptRefused(cfg: Config, s: Node)
    requires s.prop.value != [] && s.prop.pid >= 1 && !MyBallot(s).Ge(s.acc.promise)
    ensures Refused(s, DoAccept(cfg, s), s.prop.value)
  {
    var none: set<NodeId> := {};
    assert |none| == 0;
  }

  lemma PrepareRefused(cfg: Config, s: Node, needNew: bool)
    requires s.prop.value != [] && s.prop.pid >= 1 && !Ballot(NextPid(s.prop, needNew), s.me).Ge(s.acc.promise)
    ensures Refused(s, DoPrepare(cfg, s, needNew), s.prop.value)
  {
    var none: set<NodeId> := {};
    assert |none| == 0;
  }

  // ---- one answer ----

  lemma Promises(cfg: Config, s: Node, n: NodeId, pid: nat)
    requires n in cfg.members && n != s.me && Ballot(pid, n).Ge(s.acc.promise)
    ensures var t := OnReceive(cfg, s, Prepare(s.inst, n, pid));
            && t == s.(acc := t.acc, log := t.log, sent := t.sent)
            && t.acc == s.acc.(promise := Ballot(pid, n), checksum := t.acc.checksum)
            && PrepareReply(s.inst, s.me, n, pid, 0, s.acc.accepted, if s.acc.accepted.pid > 0 then s.acc.value else []) in t.sent
  {
  }

  lemma Votes1(cfg: Config, s: Node, n: NodeId, pid: nat, value: Value, last: nat)
    requires n in cfg.members && n != s.me && Ballot(pid, n).Ge(s.acc.promise)
    ensures var t := OnReceive(cfg, s, Accept(s.inst, n, pid, value, last));
            && t == s.(acc := t.acc, log := t.log, sent := t.sent, last := t.last)
            && t.acc.promise == t.acc.accepted == Ballot(pid, n) && t.acc.value == value
            && AcceptReply(s.inst, s.me, n, pid, 0) in t.sent
  {
  }

  lemma CountPromise(cfg: Config, s: Node, got: set<NodeId>, r: NodeId, pre: Ballot, value: Value)
    requires Asking(cfg, s, got) && r in cfg.members && r !in got && s.me in cfg.members && s.prop.pid >= 1 && OwnBelow(s)
    requires !pre.IsNull() ==> value != []
    ensures var t := OnReceive(cfg, s, PrepareReply(s.inst, r, s.me, s.prop.pid, 0, pre, value));
            && t.me == s.me && t.inst == s.inst && MyBallot(t) == MyBallot(s)
            && (if |got| + 1 < cfg.Majority() then Asking(cfg, t, got + {r}) else Counting(cfg, t, {s.me}))
            && (t.prop.value == s.prop.value || (!pre.IsNull() && t.prop.value == value))
            && (if |got| + 1 < cfg.Majority() then t.acc == s.acc else t.acc.value == t.prop.value)
  {
    hide DoAccept, Counting;
    assert |got + {r}| == |got| + 1;
    var s1 := CountPrepareReply(s, r, 0, pre, value);
    if |got| + 1 >= cfg.Majority() {
      var s2 := s1.(prop := s1.prop.(canSkip := true));
      AcceptStarts(cfg, s2);
      CannotDecideAlone(cfg, s2);
    }
  }

  lemma CannotDecideAlone(cfg: Config, s: Node)
    requires cfg.Majority() >= 2
    ensures var t := DoAccept(cfg, s); t.inst == s.inst && t.prop.value == s.prop.value
    ensures var t := DoAccept(cfg, s); Working(cfg, t, s.inst, s.prop.value) && !Asking(cfg, t, {t.me}) ==> Counting(cfg, t, {t.me}) && t.acc.value == t.prop.value
  {
    assert |{s.me}| == 1;
    assert {} + {s.me} == {s.me};
    var none: set<NodeId> := {};
    assert |none| == 0;
  }

  lemma CountVote(cfg: Config, s: Node, got: set<NodeId>, r: NodeId)
    requires Counting(cfg, s, got) && r in cfg.members && r !in got && s.prop.pid >= 1 && OwnBelow(s)
    ensures var t := OnReceive(cfg, s, AcceptReply(s.inst, r, s.me, s.prop.pid, 0));
            && t.me == s.me && MyBallot(t) == MyBallot(s)
            && (if |got| + 1 < cfg.Majority()
                then Counting(cfg, t, got + {r}) && t.inst == s.inst && t.prop.value == s.prop.value && t.acc == s.acc
                else Decided(t, s.inst, s.prop.value))
  {
    assert |got + {r}| == |got| + 1;
    var t := OnReceive(cfg, s, AcceptReply(s.inst, r, s.me, s.prop.pid, 0));
    var last :| Accept(s.inst, s.me, s.prop.pid, s.prop.value, last) in s.sent;
    assert Accept(s.inst, s.me, s.prop.pid, s.prop.value, last) in t.sent;
    if |got| + 1 >= cfg.Majority() {
      assert Success(s.inst, s.me, s.prop.pid, s.last) in t.sent;
    }
  }

  lemma Learns(cfg: Config, s: Node, n: NodeId, pid: nat, last: nat)
    requires n != s.me && pid >= 1 && s.acc.accepted == s.acc.promise == Ballot(pid, n) && OwnBelow(s)
    ensures var t := OnReceive(cfg, s, Success(s.inst, n, pid, last));
            t.inst == s.inst + 1 && t.acc.promise == s.acc.promise && AtRest(t)
  {
  }

  // ---- a whole instance ----

  /** All others are in this instance and may still promise ballot `b`. */
  ghost predicate Level(w: World, n: NodeId, inst: nat, b: Ballot) {
    forall r | r in w && r != n :: w[r].inst == inst && b.Ge(w[r].acc.promise)
  }

  /** What others have accepted in this instance, if anything, is `x`. */
  ghost predicate Only(w: World, n: NodeId, x: Value) {
    forall r | r in w && r != n :: w[r].acc.accepted.IsNull() || w[r].acc.value == x
  }

  /** All members are at the beginning of this instance and have promised the same ballot. */
  ghost predicate Rest(w: World, inst: nat, b: Ballot) {
    forall r | r in w :: w[r].inst == inst && w[r].acc.promise == b && AtRest(w[r])
  }

  lemma NodeIs(cfg: Config, w: World, q: NodeId)
    requires Inv(cfg, w) && q in w
    ensures w[q].me == q && w[q].prop.pid >= 1 && q in cfg.members && OwnBelow(w[q])
    ensures !w[q].acc.accepted.IsNull() ==> w[q].acc.value != []
    ensures w[q].acc.accepted.IsNull() ==> w[q].acc.accepted == NULL_BALLOT && w[q].acc.value == []
    ensures forall i | 0 <= i < w[q].inst :: i in w[q].log
    ensures w.Keys == cfg.members && forall m | m in w[q].sent :: m.from == q
  {
    hide WorldInv;
    NamesItself(cfg, w, q);
  }

  /** The prepare reaches `r`, and the promise comes back. */
  lemma OnePromise(cfg: Config, v0: World, w: World, n: NodeId, got: set<NodeId>, r: NodeId, clean: bool, x: Value)
    returns (u: World)
    requires Goes(cfg, v0, w) && Inv(cfg, w) && n in w && r in w && r != n && r !in got
    requires Asking(cfg, w[n], got) && Level(w, n, w[n].inst, MyBallot(w[n]))
    requires clean ==> w[n].prop.value == x && Only(w, n, x)
    ensures Goes(cfg, v0, u) && Inv(cfg, u) && u.Keys == w.Keys
    ensures u[n].inst == w[n].inst && MyBallot(u[n]) == MyBallot(w[n]) && Level(u, n, w[n].inst, MyBallot(w[n]))
    ensures if |got| + 1 < cfg.Majority() then Asking(cfg, u[n], got + {r}) else Counting(cfg, u[n], {n})
    ensures clean ==> u[n].prop.value == x && Only(u, n, x)
  {
    hide Inv, Goes, OnReceive, Asking, Counting;
    NodeIs(cfg, w, n);
    NodeIs(cfg, w, r);
    var pid := w[n].prop.pid;
    AskingMeans(cfg, w[n], got);
    Promises(cfg, w[r], n, pid);
    var w1 := Goes1(cfg, v0, w, Deliver(r, Prepare(w[n].inst, n, pid)));
    var pre, value := w[r].acc.accepted, if w[r].acc.accepted.pid > 0 then w[r].acc.value else [];
    CountPromise(cfg, w1[n], got, r, pre, value);
    u := Goes1(cfg, v0, w1, Deliver(n, PrepareReply(w[n].inst, r, n, pid, 0, pre, value)));
  }

  lemma AskingMeans(cfg: Config, s: Node, got: set<NodeId>)
    requires Asking(cfg, s, got)
    ensures Prepare(s.inst, s.me, s.prop.pid) in s.sent && s.me in got && |got| < cfg.Majority()
  {
  }

  lemma {:induction false} CollectPromises(cfg: Config, v0: World, w: World, n: NodeId, got: set<NodeId>, todo: set<NodeId>,
                                           clean: bool, x: Value)
    returns (u: World)
    requires Goes(cfg, v0, w) && Inv(cfg, w) && n in w && todo <= w.Keys && todo !! got && |got| + |todo| >= cfg.Majority()
    requires Asking(cfg, w[n], got) && n in got && Level(w, n, w[n].inst, MyBallot(w[n]))
    requires clean ==> w[n].prop.value == x && Only(w, n, x)
    ensures Goes(cfg, v0, u) && Inv(cfg, u) && u.Keys == w.Keys
    ensures u[n].inst == w[n].inst && MyBallot(u[n]) == MyBallot(w[n]) && Level(u, n, w[n].inst, MyBallot(w[n]))
    ensures Counting(cfg, u[n], {n})
    ensures clean ==> u[n].prop.value == x
    decreases |todo|
  {
    hide Inv, Goes, Asking, Counting, Level, Only;
    AskingMeans(cfg, w[n], got);
    var r :| r in todo;
    u := OnePromise(cfg, v0, w, n, got, r, clean, x);
    if |got| + 1 < cfg.Majority() {
      assert |got + {r}| == |got| + 1 && |todo - {r}| == |todo| - 1;
      u := CollectPromises(cfg, v0, u, n, got + {r}, todo - {r}, clean, x);
    }
  }

  /** The accept reaches `r`, and the vote comes back. */
  lemma OneVote(cfg: Config, v0: World, w: World, n: NodeId, got: set<NodeId>, r: NodeId) returns (u: World)
    requires Goes(cfg, v0, w) && Inv(cfg, w) && n in w && r in w && r != n && r !in got
    requires Counting(cfg, w[n], got) && Level(w, n, w[n].inst, MyBallot(w[n]))
    ensures Goes(cfg, v0, u) && Inv(cfg, u) && u.Keys == w.Keys
    ensures MyBallot(u[n]) == MyBallot(w[n]) && Level(u, n, w[n].inst, MyBallot(w[n]))
    ensures if |got| + 1 < cfg.Majority()
            then Counting(cfg, u[n], got + {r}) && u[n].inst == w[n].inst && u[n].prop.value == w[n].prop.value
            else Decided(u[n], w[n].inst, w[n].prop.value)
  {
    hide Inv, Goes, OnReceive, Counting, Decided;
    NodeIs(cfg, w, n);
    NodeIs(cfg, w, r);
    var pid := w[n].prop.pid;
    var last := CountingMeans(cfg, w[n], got);
    Votes1(cfg, w[r], n, pid, w[n].prop.value, last);
    var w1 := Goes1(cfg, v0, w, Deliver(r, Accept(w[n].inst, n, pid, w[n].prop.value, last)));
    CountVote(cfg, w1[n], got, r);
    u := Goes1(cfg, v0, w1, Deliver(n, AcceptReply(w[n].inst, r, n, pid, 0)));
  }

  lemma CountingMeans(cfg: Config, s: Node, got: set<NodeId>) returns (last: nat)
    requires Counting(cfg, s, got)
    ensures Accept(s.inst, s.me, s.prop.pid, s.prop.value, last) in s.sent && s.me in got && |got| < cfg.Majority()
  {
    last :| Accept(s.inst, s.me, s.prop.pid, s.prop.value, last) in s.sent;
  }

  lemma {:induction false} CollectVotes(cfg: Config, v0: World, w: World, n: NodeId, got: set<NodeId>, todo: set<NodeId>)
    returns (u: World)
    requires Goes(cfg, v0, w) && Inv(cfg, w) && n in w && todo <= w.Keys && todo !! got && |got| + |todo| >= cfg.Majority()
    requires Counting(cfg, w[n], got) && n in got && Level(w, n, w[n].inst, MyBallot(w[n]))
    ensures Goes(cfg, v0, u) && Inv(cfg, u) && u.Keys == w.Keys
    ensures MyBallot(u[n]) == MyBallot(w[n]) && Level(u, n, w[n].inst, MyBallot(w[n]))
    ensures Decided(u[n], w[n].inst, w[n].prop.value)
    decreases |todo|
  {
    hide Inv, Goes, Counting, Level, Decided;
    var last := CountingMeans(cfg, w[n], got);
    var r :| r in todo;
    u := OneVote(cfg, v0, w, n, got, r);
    if |got| + 1 < cfg.Majority() {
      assert |got + {r}| == |got| + 1 && |todo - {r}| == |todo| - 1;
      u := CollectVotes(cfg, v0, u, n, got + {r}, todo - {r});
    }
  }

  /** Another member votes, maybe again, and hears of the success. */
  lemma Follows(cfg: Config, v0: World, w: World, n: NodeId, inst: nat, value: Value, r: NodeId) returns (u: World)
    requires Goes(cfg, v0, w) && Inv(cfg, w) && n in w && r in w && r != n && Decided(w[n], inst, value)
    requires w[r].inst == inst && MyBallot(w[n]).Ge(w[r].acc.promise)
    ensures Goes(cfg, v0, u) && Inv(cfg, u) && u == w[r := u[r]]
    ensures u[r].inst == inst + 1 && u[r].acc.promise == MyBallot(w[n]) && AtRest(u[r])
  {
    hide Inv, Goes, OnReceive, AtRest;
    NodeIs(cfg, w, n);
    NodeIs(cfg, w, r);
    var pid := w[n].prop.pid;
    var last :| Accept(inst, n, pid, value, last) in w[n].sent;
    var after :| Success(inst, n, pid, after) in w[n].sent;
    Votes1(cfg, w[r], n, pid, value, last);
    var w1 := Goes1(cfg, v0, w, Deliver(r, Accept(inst, n, pid, value, last)));
    NodeIs(cfg, w1, r);
    Learns(cfg, w1[r], n, pid, after);
    u := Goes1(cfg, v0, w1, Deliver(r, Success(inst, n, pid, after)));
  }

  lemma {:induction false} AllFollow(cfg: Config, v0: World, w: World, n: NodeId, inst: nat, value: Value, todo: set<NodeId>)
    returns (u: World)
    requires Goes(cfg, v0, w) && Inv(cfg, w) && n in w && Decided(w[n], inst, value) && todo <= w.Keys - {n}
    requires forall r | r in todo :: w[r].inst == inst && MyBallot(w[n]).Ge(w[r].acc.promise)
    ensures Goes(cfg, v0, u) && Inv(cfg, u) && u.Keys == w.Keys
    ensures forall r | r in todo :: u[r].inst == inst + 1 && u[r].acc.promise == MyBallot(w[n]) && AtRest(u[r])
    ensures forall r | r in w && r !in todo :: u[r] == w[r]
    decreases |todo|
  {
    hide Inv, Goes, Decided, AtRest;
    if todo == {} {
      u := w;
    } else {
      var r :| r in todo;
      var w1 := Follows(cfg, v0, w, n, inst, value, r);
      u := AllFollow(cfg, v0, w1, n, inst, value, todo - {r});
    }
  }

  /** All members executed the same. */
  ghost predicate Same(w: World, es: seq<Value>) {
    forall r | r in w :: w[r].executed == es
  }

  lemma LevelAgree(cfg: Config, w: World, n: NodeId)
    requires Inv(cfg, w) && n in w && forall r | r in w :: w[r].inst == w[n].inst
    ensures Same(w, w[n].executed)
  {
    hide WorldInv;
    forall r | r in w
      ensures w[r].executed == w[n].executed
    {
      NamesItself(cfg, w, r);
      NamesItself(cfg, w, n);
      forall i | 0 <= i < w[n].inst
        ensures w[r].executed[i] == w[n].executed[i]
      {
        ExecutedAgree(cfg, w, r, n, i);
      }
    }
  }

  /** A member at work brings the instance to its end, for everybody. */
  lemma Finishes(cfg: Config, v0: World, w: World, n: NodeId, inst: nat, value: Value, clean: bool, x: Value)
    returns (u: World)
    requires Goes(cfg, v0, w) && Inv(cfg, w) && n in w && Working(cfg, w[n], inst, value)
    requires Level(w, n, inst, MyBallot(w[n])) && (clean ==> value == x && Only(w, n, x))
    ensures Goes(cfg, v0, u) && Inv(cfg, u) && u.Keys == w.Keys && Rest(u, inst + 1, MyBallot(w[n]))
    ensures Same(u, u[n].executed) && |u[n].executed| == inst + 1 && (clean ==> u[n].executed[inst] == x)
  {
    hide Inv, Goes, Asking, Counting, Level, Only, AtRest, SaidAccept, SaidSuccess;
    NodeIs(cfg, w, n);
    var others := w.Keys - {n};
    assert |{n}| == 1 && |others| == |cfg.members| - 1;
    u := w;
    if !Decided(w[n], inst, value) {
      if Asking(cfg, w[n], {n}) {
        u := CollectPromises(cfg, v0, u, n, {n}, others, clean, x);
      }
      NodeIs(cfg, u, n);
      u := CollectVotes(cfg, v0, u, n, {n}, others);
    }
    var y := u[n].executed[inst];
    LevelMeans(u, n, inst, MyBallot(w[n]));
    u := AllFollow(cfg, v0, u, n, inst, y, others);
    LevelAgree(cfg, u, n);
  }

  lemma LevelMeans(w: World, n: NodeId, inst: nat, b: Ballot)
    requires Level(w, n, inst, b)
    ensures forall r | r in w && r != n :: w[r].inst == inst && b.Ge(w[r].acc.promise)
  {
  }

  // ---- everybody in step ----

  lemma LearnsShipped(cfg: Config, s: Node, m: Msg)
    requires m.LearnValue? && m.inst == s.inst
    ensures var t := OnReceive(cfg, s, m);
            t.inst == s.inst + 1 && t.acc.promise == s.acc.promise && t.prop.pid == s.prop.pid && t.executed == s.executed + [m.value]
  {
  }

  /** A member that lags behind `p` is shipped the records it lacks. */
  lemma {:induction false} CatchesUp(cfg: Config, v0: World, w: World, p: NodeId, q: NodeId) returns (u: World)
    requires Goes(cfg, v0, w) && Inv(cfg, w) && p in w && q in w && w[q].inst <= w[p].inst
    ensures Goes(cfg, v0, u) && Inv(cfg, u) && u.Keys == w.Keys && u[q].inst == w[p].inst == u[p].inst
    ensures u[p].executed == w[p].executed && w[q].executed <= u[q].executed
    ensures forall r | r in w && r != p && r != q :: u[r] == w[r]
    decreases w[p].inst - w[q].inst
  {
    hide Inv, Goes, OnReceive;
    if w[q].inst == w[p].inst {
      u := w;
    } else {
      NodeIs(cfg, w, p);
      NodeIs(cfg, w, q);
      var i := w[q].inst;
      var m := LearnValue(i, p, q, w[p].log[i].accepted, w[p].log[i].value, 0);
      var w1 := Goes1(cfg, v0, w, Ship(p, i, q, false));
      assert m in w1[p].sent;
      LearnsShipped(cfg, w1[q], m);
      var w2 := Goes1(cfg, v0, w1, Deliver(q, m));
      u := CatchesUp(cfg, v0, w2, p, q);
    }
  }

  lemma {:induction false} AllCatchUp(cfg: Config, v0: World, w: World, p: NodeId, todo: set<NodeId>) returns (u: World)
    requires Goes(cfg, v0, w) && Inv(cfg, w) && p in w && todo <= w.Keys - {p}
    requires forall r | r in w :: w[r].inst <= w[p].inst
    ensures Goes(cfg, v0, u) && Inv(cfg, u) && u.Keys == w.Keys && u[p].inst == w[p].inst && u[p].executed == w[p].executed
    ensures forall r | r in todo :: u[r].inst == u[p].inst
    ensures forall r | r in w && r != p && r !in todo :: u[r] == w[r]
    decreases |todo|
  {
    hide Inv, Goes;
    if todo == {} {
      u := w;
    } else {
      var q :| q in todo;
      var w1 := CatchesUp(cfg, v0, w, p, q);
      u := AllCatchUp(cfg, v0, w1, p, todo - {q});
    }
  }

  lemma {:induction false} Furthest(w: World, among: set<NodeId>) returns (p: NodeId)
    requires among <= w.Keys && among != {}
    ensures p in among && forall r | r in among :: w[r].inst <= w[p].inst
    decreases |among|
  {
    p :| p in among;
    if among != {p} {
      var q := Furthest(w, among - {p});
      if w[q].inst > w[p].inst {
        p := q;
      }
    }
  }

  lemma {:induction false} HighestPromise(w: World, among: set<NodeId>) returns (p: NodeId)
    requires among <= w.Keys && among != {}
    ensures p in among && forall r | r in among :: w[p].acc.promise.Ge(w[r].acc.promise)
    decreases |among|
  {
    p :| p in among;
    if among != {p} {
      var q := HighestPromise(w, among - {p});
      if w[q].acc.promise.Ge(w[p].acc.promise) {
        p := q;
      }
    }
  }

  /** Some member has a ballot that all acceptors would promise: the owner of the highest promise. */
  lemma SomeoneLeads(cfg: Config, w: World, n: NodeId) returns (o: NodeId)
    requires Inv(cfg, w) && n in w
    ensures o in w && forall r | r in w :: MyBallot(w[o]).Ge(w[r].acc.promise)
  {
    hide WorldInv;
    var q := HighestPromise(w, w.Keys);
    assert Owned(w, q);
    var top := w[q].acc.promise;
    o := if top.IsNull() then n else top.node;
    NamesItself(cfg, w, o);
  }

  /** That member may act, whatever it did before, and a proposal of any value puts it to work. */
  lemma LeaderStarts(cfg: Config, v0: World, w: World, o: NodeId, x: Value) returns (u: World, value: Value)
    requires Goes(cfg, v0, w) && Inv(cfg, w) && o in w && MyBallot(w[o]).Ge(w[o].acc.promise) && x != []
    ensures Goes(cfg, v0, u) && Inv(cfg, u) && u == w[o := u[o]]
    ensures Working(cfg, u[o], w[o].inst, value) && MyBallot(u[o]).Ge(MyBallot(w[o]))
    ensures AtRest(w[o]) ==> value == x
  {
    hide Inv, Goes, DoAccept, DoPrepare, Working;
    NodeIs(cfg, w, o);
    var s := w[o];
    var s1 := if |s.prop.value| == 0 then s.(prop := s.prop.(value := x)) else s;
    if s1.prop.canSkip && !s1.prop.rejected {
      AcceptStarts(cfg, s1);
      value := s1.prop.value;
    } else {
      PrepareStarts(cfg, s1, s1.prop.rejected);
      value := if s.acc.accepted.IsNull() then s1.prop.value else s.acc.value;
    }
    u := Goes1(cfg, v0, w, Propose(o, x));
  }

  lemma {:induction false} OneUp(b: Ballot, c: Ballot, d: Ballot)
    requires b.Ge(c) && c.Ge(d)
    ensures b.Ge(d)
  {
  }

  /** From every world: all members come into step and to rest, having lost nothing. */
  lemma ComesToRest(cfg: Config, w: World, n: NodeId) returns (u: World, es: seq<Value>, b: Ballot)
    requires Inv(cfg, w) && n in w
    ensures Goes(cfg, w, u) && Inv(cfg, u) && u.Keys == w.Keys && Rest(u, |es|, b) && Same(u, es)
    ensures forall q | q in w :: w[q].executed <= es
  {
    hide Inv, Goes, Rest, Working, AtRest;
    Stays(cfg, w);
    var p := Furthest(w, w.Keys);
    var w1 := AllCatchUp(cfg, w, w, p, w.Keys - {p});
    var o := SomeoneLeads(cfg, w1, n);
    var w2, value := LeaderStarts(cfg, w, w1, o, "x");
    var inst := w1[o].inst;
    assert Level(w2, o, inst, MyBallot(w2[o])) by {
      forall r | r in w2 && r != o
        ensures w2[r].inst == inst && MyBallot(w2[o]).Ge(w2[r].acc.promise)
      {
        OneUp(MyBallot(w2[o]), MyBallot(w1[o]), w1[r].acc.promise);
      }
    }
    u := Finishes(cfg, w, w2, o, inst, value, false, []);
    es, b := u[o].executed, MyBallot(w2[o]);
    NothingLost(cfg, w, u);
  }

  // ---- instance after instance ----

  /** A member whose ballot has been overtaken hears so from its own acceptor and takes a higher one. */
  lemma Overtakes(cfg: Config, v0: World, w: World, n: NodeId, x: Value) returns (u: World)
    requires Goes(cfg, v0, w) && Inv(cfg, w) && n in w && AtRest(w[n]) && x != []
    ensures Goes(cfg, v0, u) && Inv(cfg, u) && u == w[n := u[n]]
    ensures Working(cfg, u[n], w[n].inst, x) && MyBallot(u[n]).Ge(w[n].acc.promise)
  {
    hide Inv, Goes, DoAccept, DoPrepare, Working;
    NodeIs(cfg, w, n);
    var s := w[n];
    var s1 := s.(prop := s.prop.(value := x));
    var skips := s1.prop.canSkip && !s1.prop.rejected;
    var pid := if skips then s.prop.pid else NextPid(s.prop, s.prop.rejected);
    u := Goes1(cfg, v0, w, Propose(n, x));
    if Ballot(pid, n).Ge(s.acc.promise) {
      if skips {
        AcceptStarts(cfg, s1);
      } else {
        PrepareStarts(cfg, s1, s1.prop.rejected);
      }
    } else {
      if skips {
        AcceptRefused(cfg, s1);
      } else {
        PrepareRefused(cfg, s1, s1.prop.rejected);
      }
      NodeIs(cfg, u, n);
      PrepareStarts(cfg, u[n], true);
      u := Goes1(cfg, v0, u, Timeout(n));
    }
  }

  lemma NothingLost(cfg: Config, w: World, u: World)
    requires Inv(cfg, w) && Goes(cfg, w, u)
    ensures forall q | q in w :: q in u && w[q].executed <= u[q].executed
  {
    hide WorldInv, Leads;
    var run :| Leads(cfg, w, run, u);
    forall q | q in w
      ensures q in u && w[q].executed <= u[q].executed
    {
      PaxosTheorems.ExecutionOnlyGrows(cfg, w, run, u, q);
    }
  }

  /** From rest, any member gets any value decided and executed by everybody, and all are at rest again. */
  lemma RestGoesOn(cfg: Config, w: World, es: seq<Value>, b: Ballot, n: NodeId, x: Value) returns (u: World, c: Ballot)
    requires Inv(cfg, w) && n in w && Rest(w, |es|, b) && Same(w, es) && x != []
    ensures Goes(cfg, w, u) && Inv(cfg, u) && u.Keys == w.Keys && Rest(u, |es| + 1, c) && Same(u, es + [x])
  {
    hide Inv, Goes, Working;
    Stays(cfg, w);
    var w1 := Overtakes(cfg, w, w, n, x);
    c := MyBallot(w1[n]);
    assert Level(w1, n, |es|, c) && Only(w1, n, x);
    u := Finishes(cfg, w, w1, n, |es|, x, true, x);
    NothingLost(cfg, w, u);
    assert u[n].executed == es + [x];
  }

  lemma {:induction false} GoesFurther(cfg: Config, v: World, run: seq<Event>, w: World, u: World)
    requires Leads(cfg, v, run, w) && Goes(cfg, w, u)
    ensures Goes(cfg, v, u)
    decreases |run|
  {
    hide Enabled, Handle;
    if run != [] {
      var v1 := Apply(cfg, v, run[0]);
      GoesFurther(cfg, v1, run[1..], w, u);
      var rest :| Leads(cfg, v1, rest, u);
      assert ([run[0]] + rest)[1..] == rest;
      assert Leads(cfg, v, [run[0]] + rest, u);
    }
  }

  lemma GoesTrans(cfg: Config, v: World, w: World, u: World)
    requires Goes(cfg, v, w) && Goes(cfg, w, u)
    ensures Goes(cfg, v, u)
  {
    hide Leads;
    var run :| Leads(cfg, v, run, w);
    GoesFurther(cfg, v, run, w, u);
  }

  lemma {:induction false} RestGoesOnAndOn(cfg: Config, w: World, es: seq<Value>, b: Ballot, ns: seq<NodeId>, vs: seq<Value>)
    returns (u: World, c: Ballot)
    requires Inv(cfg, w) && Rest(w, |es|, b) && Same(w, es) && |ns| == |vs|
    requires forall k | 0 <= k < |vs| :: ns[k] in w && vs[k] != []
    ensures Goes(cfg, w, u) && Inv(cfg, u) && u.Keys == w.Keys && Rest(u, |es + vs|, c) && Same(u, es + vs)
    decreases |vs|
  {
    hide Inv, Goes, Rest, Same;
    if vs == [] {
      u, c := w, b;
      Stays(cfg, w);
      assert es + vs == es;
    } else {
      var w1, b1 := RestGoesOn(cfg, w, es, b, ns[0], vs[0]);
      u, c := RestGoesOnAndOn(cfg, w1, es + [vs[0]], b1, ns[1..], vs[1..]);
      GoesTrans(cfg, w, w1, u);
      assert es + [vs[0]] + vs[1..] == es + vs;
    }
  }

  // ---- the theorems ----

  /** Nothing is ever blocked for good: from every reachable world, however it came about, and for all values
      that any members, in any order, want decided, some continuation has them all executed by everybody,
      one after the other, behind whatever it took to come into step. */
  lemma EveryWorldGoesOn(cfg: Config, w: World, n: NodeId, ns: seq<NodeId>, vs: seq<Value>) returns (u: World, es: seq<Value>)
    requires Reachable(cfg, w) && n in w && |ns| == |vs| && forall k | 0 <= k < |vs| :: ns[k] in w && vs[k] != []
    ensures Goes(cfg, w, u) && u.Keys == w.Keys && forall q | q in w :: w[q].executed <= es && u[q].executed == es + vs
  {
    hide Inv, Goes, Rest, Reachable;
    ReachableInvOwned(cfg, w);
    var w1, b;
    w1, es, b := ComesToRest(cfg, w, n);
    var c;
    u, c := RestGoesOnAndOn(cfg, w1, es, b, ns, vs);
    GoesTrans(cfg, w, w1, u);
  }

  /** From the start, exactly the values proposed are executed, whoever proposes which. */
  lemma EverySequenceIsDecided(cfg: Config, ns: seq<NodeId>, vs: seq<Value>) returns (w: World)
    requires |ns| == |vs| && forall k | 0 <= k < |vs| :: ns[k] in cfg.members && vs[k] != []
    ensures Reachable(cfg, w) && w.Keys == cfg.members && forall q | q in cfg.members :: w[q].executed == vs
  {
    hide Inv, Leads;
    var start := InitWorld(cfg);
    StartInv(cfg);
    var c;
    w, c := RestGoesOnAndOn(cfg, start, [], NULL_BALLOT, ns, vs);
    assert [] + vs == vs;
  }

  // ---- what a proposer keeps and drops ----

  /** A leader whose value was just decided proposes the next one at once: no prepare, the same ballot. */
  lemma LeaderSkipsPrepare(cfg: Config, s: Node, got: set<NodeId>, r: NodeId, x: Value)
    requires Counting(cfg, s, got) && s.prop.canSkip && !s.prop.rejected && OwnBelow(s) && s.prop.pid >= 1
    requires r in cfg.members && r !in got && |got| + 1 == cfg.Majority() && x != []
    ensures var t := OnReceive(cfg, s, AcceptReply(s.inst, r, s.me, s.prop.pid, 0));
            var u := NewValue(cfg, t, x);
            && t.inst == s.inst + 1
            && (exists last :: Accept(t.inst, s.me, s.prop.pid, x, last) in u.sent)
            && forall m | m in u.sent && m.Prepare? :: m in s.sent
  {
    hide DoAccept;
    CountVote(cfg, s, got, r);
    var t := OnReceive(cfg, s, AcceptReply(s.inst, r, s.me, s.prop.pid, 0));
    assert |got + {r}| == |got| + 1;
    var s1 := t.(prop := t.prop.(value := x));
    SendsAccept(cfg, s1);
  }

  lemma SendsAccept(cfg: Config, s: Node)
    ensures Accept(s.inst, s.me, s.prop.pid, s.prop.value, s.last) in DoAccept(cfg, s).sent
    ensures forall m | m in DoAccept(cfg, s).sent && m.Prepare? :: m in s.sent
  {
  }

  function Receives(cfg: Config, s: Node, ms: seq<Msg>): Node
    decreases |ms|
  {
    if ms == [] then s else Receives(cfg, OnReceive(cfg, s, ms[0]), ms[1..])
  }

  /** A rejection of what the proposer is asking or accepting now. */
  predicate Rejects(cfg: Config, s: Node, m: Msg) {
    && (if s.prop.preparing then m.PrepareReply? else m.AcceptReply?)
    && m.from in cfg.members && m.inst == s.inst && m.pid == s.prop.pid && m.reject != 0
  }

  /** After any number of rejections, in any order, the next ballot is above every one of them. */
  lemma {:induction false} NextBallotBeatsAll(cfg: Config, s: Node, ms: seq<Msg>)
    requires (s.prop.preparing != s.prop.accepting) && !Passed(cfg, s.prop) && forall m | m in ms :: Rejects(cfg, s, m)
    ensures var t := Receives(cfg, s, ms);
            && t.inst == s.inst && t.prop.pid == s.prop.pid && (ms != [] ==> t.prop.rejected)
            && NextPid(t.prop, true) > s.prop.pid && NextPid(t.prop, true) > s.prop.highestOther
            && forall m | m in ms :: (m.PrepareReply? || m.AcceptReply?) && NextPid(t.prop, true) > m.reject
    decreases |ms|
  {
    if ms != [] {
      assert Rejects(cfg, s, ms[0]);
      var t := OnReceive(cfg, s, ms[0]);
      assert t == s.(prop := NoteReject(s.prop, ms[0].reject).(counter := t.prop.counter));
      forall m | m in ms[1..]
        ensures Rejects(cfg, t, m)
      {
        assert Rejects(cfg, s, m);
      }
      NextBallotBeatsAll(cfg, t, ms[1..]);
    }
  }

  /** Whoever gives up a value in time hears no answer about it any more, and sends nothing because of one. */
  lemma GivingUpIsFinal(cfg: Config, s: Node, m: Msg)
    requires (m.PrepareReply? || m.AcceptReply?) && m.inst == s.inst
    ensures OnReceive(cfg, OnCommitTimeout(s), m) == OnCommitTimeout(s)
  {
  }

  /** A timer that was set in an instance does nothing once the instance is over, however it ended. */
  lemma LateTimersDoNothing(cfg: Config, s: Node, m: Msg)
    requires s.prop.timeoutInst <= s.inst && (m.Success? || m.LearnValue?) && OnReceive(cfg, s, m).inst > s.inst
    ensures OnTimeout(cfg, OnReceive(cfg, s, m)) == OnReceive(cfg, s, m)
  {
    hide DoPrepare;
    TimerStays(cfg, s, m);
  }

  lemma TimerStays(cfg: Config, s: Node, m: Msg)
    requires m.Success? || m.LearnValue?
    ensures OnReceive(cfg, s, m).prop.timeoutInst == s.prop.timeoutInst
  {
  }

  /** Shipping sends every record of the range, each with the checksum before it once there is one. */
  lemma {:induction false} ShipsAll(s: Node, begin: nat, end: nat, receiver: NodeId, i: nat)
    requires end <= s.inst && (forall k | begin <= k < end :: k in s.log) && begin <= i < end
    ensures LearnValue(i, s.me, receiver, s.log[i].accepted, s.log[i].value, if i > begin then s.log[i - 1].checksum else 0)
              in ShipRun(s, begin, end, receiver).sent
    decreases end
  {
    ShippingKeeps(s, begin, end - 1, receiver);
    if i < end - 1 {
      ShipsAll(s, begin, end - 1, receiver, i);
    }
  }

  lemma {:induction false} ShippingKeeps(s: Node, begin: nat, end: nat, receiver: NodeId)
    requires end <= s.inst && forall k | begin <= k < end :: k in s.log
    ensures ShipRun(s, begin, end, receiver).me == s.me
    decreases end
  {
    if begin < end {
      ShippingKeeps(s, begin, end - 1, receiver);
    }
  }
}
