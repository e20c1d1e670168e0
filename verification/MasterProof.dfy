/** At no time in any guarded run do two nodes both report being master. */
module MasterProof {
  import opened Common
  import opened MasterLease

  function OpAt(log: seq<Option<Proposal>>, k: nat): Op
    requires Success(log, k)
  {
    log[k].value.op
  }

  function BornAt(log: seq<Option<Proposal>>, k: nat): nat
    requires Success(log, k)
  {
    log[k].value.born
  }

  /** The state machine shows the last successful operation of what the node ever executed. */
  ghost predicate SmOk(log: seq<Option<Proposal>>, x: NodeId, n: Node) {
    && n.sm.me == x != NULL_NODE
    && n.applied <= n.top <= |log|
    && n.sm.version == LastSuccess(log[..n.top])
    && if n.sm.version == NO_VERSION then n.sm.master == NULL_NODE && n.store == None
       else
         && Success(log, n.sm.version) && n.sm.version < n.top
         && var o := OpAt(log, n.sm.version);
            && n.store == Some(Vars(o.node, n.sm.version, o.timeout))
            && o.node != NULL_NODE
            && (n.sm.master == o.node || (o.node == x && n.sm.master == NULL_NODE))
  }

  /** A follower holds back for at least the lease, the master itself claims for less. */
  ghost predicate LeaseOk(log: seq<Option<Proposal>>, x: NodeId, n: Node) {
    n.sm.version != NO_VERSION && Success(log, n.sm.version) ==>
      var o := OpAt(log, n.sm.version);
      var born := BornAt(log, n.sm.version);
      && (o.node != x ==> n.sm.expire >= n.offset + born + o.timeout)
      && (o.node == x ==> n.sm.expire <= n.offset + born + MasterTimeout(o.timeout))
      && (n.sm.master == x ==> n.sm.lease == o.timeout)
  }

  /** What a try to be master knows about the version it names. */
  ghost predicate Knows(log: seq<Option<Proposal>>, x: NodeId, version: nat, time: nat) {
    version != NO_VERSION ==>
      && Success(log, version)
      && BornAt(log, version) <= time
      && (OpAt(log, version).node != x ==> BornAt(log, version) + OpAt(log, version).timeout <= time)
  }

  predicate AtMost(version: nat, other: nat) {
    version != NO_VERSION ==> other != NO_VERSION && version <= other
  }

  ghost predicate OpOk(log: seq<Option<Proposal>>, x: NodeId, version: nat, op: Op, born: nat) {
    op.node == x && Knows(log, x, op.version, born) && AtMost(op.version, version)
  }

  ghost predicate DraftOk(w: World, x: NodeId, n: Node) {
    match n.draft
    case None => true
    case Some(Read(version)) => Knows(w.log, x, version, w.time) && AtMost(version, n.sm.version)
    case Some(Made(op, born)) => op.last == 0 && born <= w.time && OpOk(w.log, x, n.sm.version, op, born)
  }

  ghost predicate NodeOk(w: World, x: NodeId)
    requires x in w.nodes
  {
    var n := w.nodes[x];
    && SmOk(w.log, x, n)
    && LeaseOk(w.log, x, n)
    && DraftOk(w, x, n)
    && (n.pending.Some? ==> n.draft == None && n.pending.value in w.proposed && n.pending.value.op.node == x)
  }

  /** The last version, if it is there, is the one all nodes have that are about to execute the operation. */
  ghost predicate LastOk(log: seq<Option<Proposal>>, op: Op) {
    op.last == 0 || op.last == LastSuccess(log)
  }

  ghost predicate ProposalOk(w: World, p: Proposal) {
    && p.op.node in w.nodes && p.born <= w.time && p.inst <= |w.log|
    && OpOk(w.log, p.op.node, w.nodes[p.op.node].sm.version, p.op, p.born)
    && (p.inst == |w.log| ==> LastOk(w.log, p.op))
  }

  ghost predicate LogOk(w: World, k: nat)
    requires k < |w.log|
  {
    w.log[k].Some? ==>
      var p := w.log[k].value;
      && p in w.proposed && p.inst == k && LastOk(w.log[..k], p.op)
      && (p.op.version == NO_VERSION || p.op.version < k)
  }

  ghost predicate Unique(w: World) {
    forall p, q | p in w.proposed && q in w.proposed && p.inst == q.inst && p.op == q.op :: p == q
  }

  /** What every run keeps, guarded or not. */
  ghost predicate Sound(w: World) {
    && |w.log| <= NO_VERSION
    && Unique(w)
    && (forall x | x in w.nodes :: NodeOk(w, x))
    && (forall p | p in w.proposed :: ProposalOk(w, p))
    && (forall k | 0 <= k < |w.log| :: LogOk(w, k))
  }

  /** While `x` claims, every later success of another node was proposed after the claim ran out. */
  ghost predicate ClaimOk(w: World, x: NodeId)
    requires x in w.nodes
  {
    var n := w.nodes[x];
    n.sm.master == x ==>
      forall k: nat | Success(w.log, k) && k > n.sm.version && OpAt(w.log, k).node != x ::
        BornAt(w.log, k) + n.offset >= n.sm.expire
  }

  /** A renewal that may still succeed ends no earlier than what its proposer claims now. */
  predicate Unshortened(n: Node, op: Op, born: nat) {
    n.sm.master == op.node && n.sm.version == op.version ==> born + op.timeout + n.offset >= n.sm.expire
  }

  ghost predicate RenewalsOk(w: World) {
    && (forall x | x in w.nodes && w.nodes[x].draft.Some? && w.nodes[x].draft.value.Made? ::
          Unshortened(w.nodes[x], w.nodes[x].draft.value.op, w.nodes[x].draft.value.born))
    && (forall p | p in w.proposed && p.op.node in w.nodes :: Unshortened(w.nodes[p.op.node], p.op, p.born))
  }

  /** What guarded runs keep besides. */
  ghost predicate Exclusive(w: World) {
    && (forall x | x in w.nodes :: ClaimOk(w, x))
    && (|w.nodes| >= 3 ==> RenewalsOk(w))
  }

  // ---- what the invariants give ----

  /** Two claims at once are impossible: the later one was proposed when the earlier had run out. */
  lemma NoTwoMasters(w: World, x: NodeId, y: NodeId)
    requires Sound(w) && Exclusive(w) && w.Master(x) && w.Master(y)
    ensures x == y
  {
    var a, b := w.nodes[x], w.nodes[y];
    assert NodeOk(w, x) && NodeOk(w, y) && ClaimOk(w, x) && ClaimOk(w, y);
    BornBefore(w, a.sm.version);
    BornBefore(w, b.sm.version);
    hide Sound, Exclusive, Knows, Success, LastSuccess;
  }

  lemma BornBefore(w: World, k: nat)
    requires Sound(w) && Success(w.log, k)
    ensures BornAt(w.log, k) <= w.time
  {
    assert LogOk(w, k) && ProposalOk(w, w.log[k].value);
  }

  lemma VersionBelow(w: World, x: NodeId)
    requires Sound(w) && x in w.nodes
    ensures w.nodes[x].sm.me == x != NULL_NODE
    ensures w.nodes[x].applied <= w.nodes[x].top <= |w.log| <= NO_VERSION
    ensures w.nodes[x].sm.version == LastSuccess(w.log[..w.nodes[x].top])
    ensures w.nodes[x].sm.version == NO_VERSION || w.nodes[x].sm.version < w.nodes[x].top
    ensures w.nodes[x].sm.version != NO_VERSION ==> Success(w.log, w.nodes[x].sm.version)
  {
    assert NodeOk(w, x);
  }

  // ---- executing ----

  /** A version filled in before proposing never moves a node: in whatever process the operation is executed,
      live or on replay, it is at least the version it names. */
  lemma NothingToFix(w: World, x: NodeId, k: nat)
    requires Sound(w) && x in w.nodes && k <= w.nodes[x].top && k < |w.log| && w.log[k].Some?
    ensures FixedVersion(w.nodes[x].sm, k, w.log[k].value.op) == w.nodes[x].sm.version
  {
    var n := w.nodes[x];
    VersionBelow(w, x);
    assert LogOk(w, k);
    if k > n.sm.version {
      var seen := w.log[..n.top];
      LastSuccessStays(seen, k, n.sm.version);
      assert seen[..k] == w.log[..k];
    }
  }

  /** If nothing succeeded from `k` on, the last success is the one before `k`. */
  lemma {:induction false} LastSuccessStays(log: seq<Option<Proposal>>, k: nat, version: nat)
    requires k <= |log| && LastSuccess(log) == version && (version == NO_VERSION || version < k)
    requires |log| <= NO_VERSION
    ensures LastSuccess(log[..k]) == version
    decreases |log|
  {
    if k == |log| {
      assert log[..k] == log;
    } else {
      var p := log[..|log| - 1];
      LastSuccessStays(p, k, version);
      assert p[..k] == log[..k];
    }
  }

  /** Replaying an operation that was executed before, in this process or an earlier one, changes nothing. */
  lemma ReplayChangesNothing(w: World, x: NodeId, k: nat, absTimeout: nat, clock: nat)
    requires Sound(w) && x in w.nodes && k < w.nodes[x].top <= |w.log| && w.log[k].Some?
    ensures var n := w.nodes[x];
            var op := w.log[k].value.op;
            LearnMaster(n.sm, k, op, absTimeout, clock) == n.sm && StoredAfter(n.sm, k, op, n.store) == n.store
  {
    var n := w.nodes[x];
    assert LogOk(w, k);
    VersionBelow(w, x);
    NothingToFix(w, x, k);
    var seen := w.log[..n.top];
    LastSuccessIs(seen);
    assert seen[..k] == w.log[..k];
    if w.log[k].value.op.version == n.sm.version {
      LastSuccessStays(seen, k, n.sm.version);
      assert Success(seen, k);
    }
  }

  /** The node is at a new instance whose operation names the version it has. */
  predicate WillSucceed(w: World, x: NodeId)
    requires x in w.nodes
  {
    var n := w.nodes[x];
    n.applied == n.top < |w.log| && w.log[n.top].Some? && w.log[n.top].value.op.version == n.sm.version
  }

  function Succeeded(n: Node, p: Proposal, clock: nat): Node {
    MovedOn(n).(sm := Sm(n.sm.me, p.op.node, n.applied, p.op.timeout,
                         if p.op.node == n.sm.me then DeadlineOf(n, p) else clock + p.op.timeout),
                store := Some(Vars(p.op.node, n.applied, p.op.timeout)))
  }

  /** Executing either succeeds or only moves the node on. */
  lemma ExecuteIs(w: World, x: NodeId)
    requires Sound(w) && Possible(w, Event.Execute(x))
    ensures var n := w.nodes[x];
            var entry := w.log[n.applied];
            && n.applied <= n.top <= |w.log|
            && ExecuteNext(n, entry, w.Clock(x)) == (if WillSucceed(w, x) then Succeeded(n, entry.value, w.Clock(x)) else MovedOn(n))
            && (if WillSucceed(w, x) then Success(w.log, n.top) && LastSuccess(w.log[..n.top + 1]) == n.top
                else LastSuccess(w.log[..MovedOn(n).top]) == n.sm.version)
  {
    hide Sound, LastSuccess;
    var n := w.nodes[x];
    var k := n.applied;
    VersionBelow(w, x);
    if k == n.top {
      LastSuccessAppend(w.log[..k], w.log[k]);
      assert w.log[..k + 1] == w.log[..k] + [w.log[k]];
    }
    if w.log[k].Some? {
      var p := w.log[k].value;
      NothingToFix(w, x, k);
      if k < n.top {
        ReplayChangesNothing(w, x, k, DeadlineOf(n, p), w.Clock(x));
      }
    }
  }

  // ---- every step keeps the first invariant ----

  lemma KnowsGrows(log: seq<Option<Proposal>>, entry: Option<Proposal>, x: NodeId, version: nat, time: nat)
    requires Knows(log, x, version, time)
    ensures Knows(log + [entry], x, version, time)
  {
    if version != NO_VERSION {
      SuccessStays(log, entry, version);
    }
  }

  lemma NodeGrows(w: World, entry: Option<Proposal>, x: NodeId)
    requires x in w.nodes && NodeOk(w, x)
    ensures NodeOk(w.(log := w.log + [entry]), x)
  {
    var n := w.nodes[x];
    assert (w.log + [entry])[..n.top] == w.log[..n.top];
    if n.sm.version != NO_VERSION {
      SuccessStays(w.log, entry, n.sm.version);
    }
    match n.draft
    case None =>
    case Some(Read(version)) => KnowsGrows(w.log, entry, x, version, w.time);
    case Some(Made(op, born)) => KnowsGrows(w.log, entry, x, op.version, born);
  }

  lemma LogGrowsSound(w: World, entry: Option<Proposal>)
    requires Sound(w) && |w.log| < NO_VERSION
    requires entry.Some? ==> entry.value in w.proposed && entry.value.inst == |w.log|
    ensures Sound(w.(log := w.log + [entry]))
  {
    var v := w.(log := w.log + [entry]);
    forall x | x in v.nodes
      ensures NodeOk(v, x)
    {
      NodeGrows(w, entry, x);
    }
    forall q | q in v.proposed
      ensures ProposalOk(v, q)
    {
      assert ProposalOk(w, q);
      KnowsGrows(w.log, entry, q.op.node, q.op.version, q.born);
    }
    forall k | 0 <= k < |v.log|
      ensures LogOk(v, k)
    {
      assert v.log[..k] == w.log[..k];
      if k < |w.log| {
        assert LogOk(w, k);
      } else if entry.Some? {
        assert ProposalOk(w, entry.value);
        assert w.log[..k] == w.log;
      }
    }
  }

  lemma TickSound(w: World, d: nat)
    requires Sound(w)
    ensures Sound(w.(time := w.time + d))
  {
    var v := w.(time := w.time + d);
    forall x | x in v.nodes
      ensures NodeOk(v, x)
    {
      assert NodeOk(w, x);
    }
    forall p | p in v.proposed
      ensures ProposalOk(v, p)
    {
      assert ProposalOk(w, p);
    }
    forall k | 0 <= k < |v.log|
      ensures LogOk(v, k)
    {
      assert LogOk(w, k);
    }
  }

  /** A change of one node that keeps it in order and does not lower its version. */
  lemma NodeChangeSound(w: World, x: NodeId, n: Node)
    requires Sound(w) && x in w.nodes && AtMost(w.nodes[x].sm.version, n.sm.version)
    requires NodeOk(w.(nodes := w.nodes[x := n]), x)
    ensures Sound(w.(nodes := w.nodes[x := n]))
  {
    hide SmOk, LeaseOk, Knows;
    var v := w.(nodes := w.nodes[x := n]);
    forall y | y in v.nodes
      ensures NodeOk(v, y)
    {
      assert y != x ==> NodeOk(w, y);
    }
    forall p | p in v.proposed
      ensures ProposalOk(v, p)
    {
      assert ProposalOk(w, p);
    }
    forall k | 0 <= k < |v.log|
      ensures LogOk(v, k)
    {
      assert LogOk(w, k);
    }
  }

  lemma LookSound(w: World, x: NodeId)
    requires Sound(w) && Possible(w, Look(x))
    ensures Sound(Next(w, Look(x)))
  {
    var v := Next(w, Look(x));
    assert NodeOk(w, x);
    var sm := w.nodes[x].sm;
    if sm.version != NO_VERSION {
      BornBefore(w, sm.version);
    }
    assert NodeOk(v, x);
    NodeChangeSound(w, x, v.nodes[x]);
  }

  /** Making the operation, or giving up, changes no more than what the node is waiting for. */
  lemma DraftSound(w: World, e: Event)
    requires Sound(w) && Possible(w, e) && (e.Propose? || e.Abandon?)
    ensures Sound(Next(w, e))
  {
    var v := Next(w, e);
    assert NodeOk(w, e.x);
    assert NodeOk(v, e.x);
    NodeChangeSound(w, e.x, v.nodes[e.x]);
  }

  lemma HandOverSound(w: World, x: NodeId, changed: bool)
    requires Sound(w) && Possible(w, HandOver(x, changed))
    ensures Sound(Next(w, HandOver(x, changed)))
  {
    hide SmOk, LeaseOk, OpOk, Knows, LastSuccess, LastOk;
    var v := Next(w, HandOver(x, changed));
    var made := Handed(w.nodes[x], changed);
    HandedOk(w, x, changed);
    forall y | y in v.nodes
      ensures NodeOk(v, y)
    {
      assert NodeOk(w, y);
      SmSame(w.log, y, w.nodes[y], v.nodes[y]);
    }
    forall p | p in v.proposed
      ensures ProposalOk(v, p)
    {
      assert p != made ==> ProposalOk(w, p);
    }
    forall k | 0 <= k < |v.log|
      ensures LogOk(v, k)
    {
      assert LogOk(w, k);
    }
  }

  lemma HandedOk(w: World, x: NodeId, changed: bool)
    requires Sound(w) && Possible(w, HandOver(x, changed))
    ensures var p := Handed(w.nodes[x], changed);
            && p.op.node == x && p.born <= w.time && p.inst <= |w.log|
            && OpOk(w.log, x, w.nodes[x].sm.version, p.op, p.born)
            && (p.inst == |w.log| ==> LastOk(w.log, p.op))
  {
    hide Sound, LastSuccess, Success;
    assert NodeOk(w, x) by {
      InOrder(w, x);
    }
    assert w.log[..|w.log|] == w.log;
  }

  lemma InOrder(w: World, x: NodeId)
    requires Sound(w) && x in w.nodes
    ensures NodeOk(w, x)
  {
  }

  lemma SmSame(log: seq<Option<Proposal>>, y: NodeId, n: Node, m: Node)
    requires SmOk(log, y, n) && LeaseOk(log, y, n)
    requires m == n.(draft := m.draft, pending := m.pending, holds := m.holds)
    ensures SmOk(log, y, m) && LeaseOk(log, y, m)
  {
  }

  lemma ExecuteSound(w: World, x: NodeId)
    requires Sound(w) && Possible(w, Event.Execute(x))
    ensures Sound(Next(w, Event.Execute(x)))
  {
    hide Sound, LastSuccess, Success, ExecuteNext;
    ExecuteIs(w, x);
    VersionBelow(w, x);
    var v := Next(w, Event.Execute(x));
    if WillSucceed(w, x) {
      SucceededOk(w, x);
    } else {
      MovedOnOk(w, x);
    }
    NodeChangeSound(w, x, v.nodes[x]);
  }

  lemma MovedOnOk(w: World, x: NodeId)
    requires Sound(w) && x in w.nodes && w.nodes[x].applied < |w.log|
    requires LastSuccess(w.log[..MovedOn(w.nodes[x]).top]) == w.nodes[x].sm.version
    ensures NodeOk(w.(nodes := w.nodes[x := MovedOn(w.nodes[x])]), x)
  {
    assert NodeOk(w, x);
  }

  lemma SucceededOk(w: World, x: NodeId)
    requires Sound(w) && x in w.nodes && WillSucceed(w, x)
    requires Success(w.log, w.nodes[x].top) && LastSuccess(w.log[..w.nodes[x].top + 1]) == w.nodes[x].top
    ensures var n := w.nodes[x];
            NodeOk(w.(nodes := w.nodes[x := Succeeded(n, w.log[n.top].value, w.Clock(x))]), x)
  {
    hide LastSuccess;
    var n := w.nodes[x];
    var p := w.log[n.top].value;
    assert NodeOk(w, x) && LogOk(w, n.top) && ProposalOk(w, p);
    assert Waits(n, p) ==> n.pending.value == p;
  }

  lemma RestartSound(w: World, x: NodeId, from: nat, offset: nat)
    requires Sound(w) && Possible(w, Restart(x, from, offset))
    ensures Sound(Next(w, Restart(x, from, offset)))
  {
    var v := Next(w, Restart(x, from, offset));
    var n := w.nodes[x];
    assert NodeOk(w, x);
    if n.sm.version != NO_VERSION {
      BornBefore(w, n.sm.version);
    }
    assert NodeOk(v, x);
    NodeChangeSound(w, x, v.nodes[x]);
  }

  lemma StepSound(w: World, e: Event)
    requires Sound(w) && Possible(w, e)
    ensures Sound(Next(w, e))
  {
    hide Sound, ExecuteNext;
    match e
    case Tick(d) => TickSound(w, d);
    case Look(x) => LookSound(w, x);
    case Propose(_, _, _) => DraftSound(w, e);
    case HandOver(x, changed) => HandOverSound(w, x, changed);
    case Abandon(_) => DraftSound(w, e);
    case Choose(p) => LogGrowsSound(w, Some(p));
    case ChooseOther => LogGrowsSound(w, None);
    case Execute(x) => ExecuteSound(w, x);
    case Restart(x, from, offset) => RestartSound(w, x, from, offset);
  }

  // ---- every guarded step keeps the second ----

  /** In a cluster of one or two, nothing is decided before all members have executed everything. */
  lemma AllArrived(w: World, x: NodeId)
    requires w.CanDecide() && |w.nodes| <= 2 && x in w.nodes
    ensures w.nodes[x].top == |w.log|
  {
    if x !in w.Arrived() {
      assert |w.nodes.Keys| == |w.nodes|;
      Subset(w.Arrived() + {x}, w.nodes.Keys);
    }
  }

  lemma {:induction false} Subset<T>(a: set<T>, b: set<T>)
    requires a <= b
    ensures |a| <= |b|
    decreases |a|
  {
    if a != {} {
      var x :| x in a;
      Subset(a - {x}, b - {x});
    }
  }

  /** A success of another node right after the log's last success comes after every claim. */
  lemma NewSuccess(w: World, p: Proposal, x: NodeId)
    requires Sound(w) && Exclusive(w) && p in w.proposed && x in w.nodes && w.nodes[x].sm.master == x != p.op.node
    requires w.CanDecide() && p.op.version == LastSuccess(w.log)
    ensures p.born + w.nodes[x].offset >= w.nodes[x].sm.expire
  {
    var n := w.nodes[x];
    var h := p.op.version;
    VersionBelow(w, x);
    assert NodeOk(w, x) && ProposalOk(w, p);
    LastSuccessIs(w.log);
    assert n.sm.version != NO_VERSION && h != NO_VERSION && n.sm.version <= h;
    if h > n.sm.version {
      LaterLink(w, h, x);
    }
  }

  /** The last success, if it is not the one `x` knows, was proposed by another node after the claim of `x`
      ran out, or is a renewal by `x` that lasts longer. */
  lemma LaterLink(w: World, h: nat, x: NodeId)
    requires Sound(w) && Exclusive(w) && x in w.nodes && w.nodes[x].sm.master == x && w.CanDecide()
    requires h == LastSuccess(w.log) && Success(w.log, h) && h > w.nodes[x].sm.version
    ensures BornAt(w.log, h) + w.nodes[x].offset + (if OpAt(w.log, h).node == x then OpAt(w.log, h).timeout else 0) >= w.nodes[x].sm.expire
  {
    var n := w.nodes[x];
    var q := w.log[h].value;
    assert ClaimOk(w, x) && LogOk(w, h) && ProposalOk(w, q);
    VersionBelow(w, x);
    assert w.log[..|w.log|] == w.log;
    if |w.nodes| <= 2 {
      AllArrived(w, x);
      assert false;
    } else if q.op.node == x {
      assert Unshortened(n, q.op, q.born);
      LastSuccessIs(w.log[..h]);
      assert NodeOk(w, x);
      SuccessBelow(w.log, n.sm.version, h);
    }
  }

  /** An earlier success is one of every longer part of the log. */
  lemma SuccessBelow(log: seq<Option<Proposal>>, j: nat, h: nat)
    requires Success(log, j) && h <= |log|
    ensures j < h ==> Success(log[..h], j)
  {
    if j < h {
      assert log[..h][..j] == log[..j];
    }
  }

  lemma LogGrowsExclusive(w: World, entry: Option<Proposal>)
    requires Sound(w) && Exclusive(w) && w.CanDecide() && (entry.Some? ==> entry.value in w.proposed)
    ensures Exclusive(w.(log := w.log + [entry]))
  {
    var v := w.(log := w.log + [entry]);
    forall x | x in v.nodes
      ensures ClaimOk(v, x)
    {
      ClaimGrows(w, entry, x);
    }
  }

  lemma ClaimGrows(w: World, entry: Option<Proposal>, x: NodeId)
    requires Sound(w) && Exclusive(w) && w.CanDecide() && x in w.nodes && (entry.Some? ==> entry.value in w.proposed)
    ensures ClaimOk(w.(log := w.log + [entry]), x)
  {
    hide Sound;
    var log := w.log + [entry];
    assert ClaimOk(w, x);
    assert log[..|w.log|] == w.log;
    forall k: nat | w.nodes[x].sm.master == x && Success(log, k) && k > w.nodes[x].sm.version && OpAt(log, k).node != x
      ensures BornAt(log, k) + w.nodes[x].offset >= w.nodes[x].sm.expire
    {
      if k < |w.log| {
        SuccessStays(w.log, entry, k);
      } else {
        NewSuccess(w, entry.value, x);
      }
    }
  }

  /** A change of one node whose claim stays in order. */
  lemma NodeChangeExclusive(w: World, x: NodeId, n: Node)
    requires Exclusive(w) && x in w.nodes && ClaimOk(w.(nodes := w.nodes[x := n]), x)
    requires |w.nodes| >= 3 ==>
               && (n.draft.Some? && n.draft.value.Made? ==> Unshortened(n, n.draft.value.op, n.draft.value.born))
               && (forall p | p in w.proposed && p.op.node == x :: Unshortened(n, p.op, p.born))
    ensures Exclusive(w.(nodes := w.nodes[x := n]))
  {
    var v := w.(nodes := w.nodes[x := n]);
    forall y | y in v.nodes
      ensures ClaimOk(v, y)
    {
      assert y != x ==> ClaimOk(w, y);
    }
    assert v.nodes.Keys == w.nodes.Keys;
    assert |v.nodes| == |v.nodes.Keys| && |w.nodes| == |w.nodes.Keys|;
  }

  /** Without a change of what the node claims, only a new draft matters. */
  lemma SameClaim(w: World, x: NodeId, n: Node)
    requires Exclusive(w) && x in w.nodes && n.sm == w.nodes[x].sm && n.offset == w.nodes[x].offset
    requires |w.nodes| >= 3 && n.draft.Some? && n.draft.value.Made? ==>
               n.draft == w.nodes[x].draft || Unshortened(n, n.draft.value.op, n.draft.value.born)
    ensures Exclusive(w.(nodes := w.nodes[x := n]))
  {
    assert ClaimOk(w, x);
    NodeChangeExclusive(w, x, n);
  }

  lemma HandOverExclusive(w: World, x: NodeId, changed: bool)
    requires Sound(w) && Exclusive(w) && Possible(w, HandOver(x, changed))
    ensures Exclusive(Next(w, HandOver(x, changed)))
  {
    var n := w.nodes[x];
    var made := Handed(n, changed);
    var u := w.(proposed := w.proposed + {made});
    assert NodeOk(w, x);
    assert Exclusive(u) by {
      forall y | y in u.nodes
        ensures ClaimOk(u, y)
      {
        assert ClaimOk(w, y);
      }
    }
    SameClaim(u, x, n.(draft := None, pending := Some(made), holds := true));
    SameClaim(w, x, n.(draft := None));
  }

  /** After a success or a restart no older value of the node is a renewal of what it claims. */
  lemma FreshClaim(w: World, x: NodeId, n: Node)
    requires Sound(w) && Exclusive(w) && x in w.nodes && (n.draft == None || n.draft == w.nodes[x].draft)
    requires ClaimOk(w.(nodes := w.nodes[x := n]), x)
    requires n.sm.master != x || w.nodes[x].top <= n.sm.version < NO_VERSION
    ensures Exclusive(w.(nodes := w.nodes[x := n]))
  {
    VersionBelow(w, x);
    assert NodeOk(w, x);
    forall p | p in w.proposed && p.op.node == x
      ensures Unshortened(n, p.op, p.born)
    {
      assert ProposalOk(w, p);
    }
    NodeChangeExclusive(w, x, n);
  }

  lemma ExecuteExclusive(w: World, x: NodeId)
    requires Sound(w) && Exclusive(w) && Possible(w, Event.Execute(x))
    ensures Exclusive(Next(w, Event.Execute(x)))
  {
    hide Sound, Exclusive, LastSuccess, Success, ExecuteNext;
    ExecuteIs(w, x);
    VersionBelow(w, x);
    var v := Next(w, Event.Execute(x));
    var m := v.nodes[x];
    if WillSucceed(w, x) {
      SucceededOk(w, x);
      ClaimAfterSuccess(w, x, m);
      FreshClaim(w, x, m);
    } else {
      SameClaim(w, x, m);
    }
  }

  /** The claim of a node on the operation it just executed: all later successes of others come after it. */
  lemma ClaimAfterSuccess(w: World, x: NodeId, m: Node)
    requires Sound(w) && x in w.nodes && w.nodes[x].top == m.sm.version < NO_VERSION && Success(w.log, m.sm.version)
    requires NodeOk(w.(nodes := w.nodes[x := m]), x)
    ensures ClaimOk(w.(nodes := w.nodes[x := m]), x)
  {
    if m.sm.master == x {
      forall k: nat | Success(w.log, k) && k > m.sm.version && OpAt(w.log, k).node != x
        ensures BornAt(w.log, k) + m.offset >= m.sm.expire
      {
        LaterSuccess(w, x, m.sm.version, k);
      }
    }
  }

  /** Along the chain of successes the proposals of other nodes come after the lease of an operation that
      its proposer has executed last. */
  lemma {:induction false} LaterSuccess(w: World, x: NodeId, j: nat, k: nat)
    requires Sound(w) && Success(w.log, j) && Success(w.log, k) && j < k
    requires x in w.nodes && OpAt(w.log, j).node == x && OpAt(w.log, k).node != x
    requires j >= w.nodes[x].top
    ensures BornAt(w.log, k) >= BornAt(w.log, j) + OpAt(w.log, j).timeout
    decreases k
  {
    assert LogOk(w, k) && ProposalOk(w, w.log[k].value);
    assert NodeOk(w, x);
    var h := OpAt(w.log, k).version;
    LastSuccessIs(w.log[..k]);
    SuccessBelow(w.log, j, k);
    assert h != NO_VERSION && j <= h < k;
    if h > j {
      if OpAt(w.log, h).node != x {
        LaterSuccess(w, x, j, h);
      } else {
        OwnChainStops(w, x, j, h);
        assert false;
      }
    }
  }

  /** A node cannot have proposed on top of an operation it never executed. */
  lemma OwnChainStops(w: World, x: NodeId, j: nat, h: nat)
    requires Sound(w) && Success(w.log, j) && Success(w.log, h)
    requires x in w.nodes && OpAt(w.log, h).node == x && j >= w.nodes[x].top
    ensures h <= j
  {
    assert LogOk(w, h) && ProposalOk(w, w.log[h].value);
    assert NodeOk(w, x);
    LastSuccessIs(w.log[..h]);
    SuccessBelow(w.log, j, h);
  }

  lemma RestartExclusive(w: World, x: NodeId, from: nat, offset: nat)
    requires Sound(w) && Exclusive(w) && Possible(w, Restart(x, from, offset))
    ensures Exclusive(Next(w, Restart(x, from, offset)))
  {
    VersionBelow(w, x);
    FreshClaim(w, x, Next(w, Restart(x, from, offset)).nodes[x]);
  }

  lemma TickExclusive(w: World, d: nat)
    requires Exclusive(w)
    ensures Exclusive(w.(time := w.time + d))
  {
    var v := w.(time := w.time + d);
    forall x | x in v.nodes
      ensures ClaimOk(v, x)
    {
      assert ClaimOk(w, x);
    }
  }

  lemma StepExclusive(w: World, e: Event)
    requires Sound(w) && Exclusive(w) && Possible(w, e) && Guarded(w, e)
    ensures Exclusive(Next(w, e))
  {
    hide Sound, Exclusive, ExecuteNext;
    match e
    case Tick(d) => TickExclusive(w, d);
    case Look(x) => SameClaim(w, x, Next(w, e).nodes[x]);
    case Propose(x, _, _) => SameClaim(w, x, Next(w, e).nodes[x]);
    case HandOver(x, changed) => HandOverExclusive(w, x, changed);
    case Abandon(x) => SameClaim(w, x, Next(w, e).nodes[x]);
    case Choose(p) => LogGrowsExclusive(w, Some(p));
    case ChooseOther => LogGrowsExclusive(w, None);
    case Execute(x) => ExecuteExclusive(w, x);
    case Restart(x, from, offset) => RestartExclusive(w, x, from, offset);
  }

  // ---- runs ----

  lemma {:induction false} RunKeeps(w: World, run: seq<Event>, guarded: bool, v: World)
    requires Sound(w) && Leads(w, run, guarded, v)
    ensures Sound(v) && v.nodes.Keys == w.nodes.Keys
    ensures guarded && Exclusive(w) ==> Exclusive(v)
    decreases |run|
  {
    hide Sound, Exclusive, Guarded, ExecuteNext;
    if run != [] {
      StepSound(w, run[0]);
      if guarded && Exclusive(w) {
        StepExclusive(w, run[0]);
      }
      RunKeeps(Next(w, run[0]), run[1..], guarded, v);
    }
  }

  lemma StartOk(offsets: map<NodeId, nat>)
    requires NULL_NODE !in offsets
    ensures Sound(Start(offsets)) && Exclusive(Start(offsets)) && Start(offsets).nodes.Keys == offsets.Keys
  {
    var w := Start(offsets);
    forall x | x in w.nodes
      ensures NodeOk(w, x) && ClaimOk(w, x)
    {
    }
  }

  /** Mutual exclusion: whatever the clocks show, however operations race, nodes lag, replay and restart, and
      whether or not values are changed before proposing, two different nodes never report being master at
      the same time. */
  lemma SingleMaster(offsets: map<NodeId, nat>, run: seq<Event>, w: World, x: NodeId, y: NodeId)
    requires NULL_NODE !in offsets && Leads(Start(offsets), run, true, w)
    requires w.Master(x) && w.Master(y)
    ensures x == y
  {
    StartOk(offsets);
    RunKeeps(Start(offsets), run, true, w);
    NoTwoMasters(w, x, y);
  }

  /** In every run, executing again what was executed before leaves the state machine and its store alone. */
  lemma ReplayIsHarmless(offsets: map<NodeId, nat>, run: seq<Event>, w: World, x: NodeId, k: nat, absTimeout: nat, clock: nat)
    requires NULL_NODE !in offsets && Leads(Start(offsets), run, false, w)
    requires x in w.nodes && k < w.nodes[x].top <= |w.log| && w.log[k].Some?
    ensures var n := w.nodes[x];
            var op := w.log[k].value.op;
            LearnMaster(n.sm, k, op, absTimeout, clock) == n.sm && StoredAfter(n.sm, k, op, n.store) == n.store
  {
    StartOk(offsets);
    RunKeeps(Start(offsets), run, false, w);
    ReplayChangesNothing(w, x, k, absTimeout, clock);
  }

  /** In every run, with values changed before proposing or not, the repair of a version that does not fit
      never happens: whatever a node executes next or executes again leaves its version to the comparison. */
  lemma FixNeverActs(offsets: map<NodeId, nat>, run: seq<Event>, w: World, x: NodeId, k: nat)
    requires NULL_NODE !in offsets && Leads(Start(offsets), run, false, w)
    requires x in w.nodes && k <= w.nodes[x].top && k < |w.log| && w.log[k].Some?
    ensures FixedVersion(w.nodes[x].sm, k, w.log[k].value.op) == w.nodes[x].sm.version
    ensures Learns(w.nodes[x].sm, k, w.log[k].value.op) <==> k == w.nodes[x].top && Success(w.log, k)
  {
    StartOk(offsets);
    RunKeeps(Start(offsets), run, false, w);
    NothingToFix(w, x, k);
    VersionBelow(w, x);
    assert LogOk(w, k);
    if k < w.nodes[x].top {
      ReplayChangesNothing(w, x, k, 0, 0);
    }
  }

  /** A master that renews with a lease at most 100 ms shorter than the one it holds is always within the
      guard; with one lease time for all, the guard never excludes anything. */
  lemma RenewalNeverShortens(offsets: map<NodeId, nat>, run: seq<Event>, w: World, x: NodeId, lease: nat)
    requires NULL_NODE !in offsets && Leads(Start(offsets), run, false, w)
    requires x in w.nodes && lease + 100 >= w.nodes[x].sm.lease && lease >= 1000
    ensures w.nodes[x].sm.master == x ==> w.Clock(x) + lease >= w.nodes[x].sm.expire
  {
    StartOk(offsets);
    RunKeeps(Start(offsets), run, false, w);
    var n := w.nodes[x];
    assert NodeOk(w, x);
    if n.sm.master == x {
      BornBefore(w, n.sm.version);
    }
  }
}
