/** In which clusters the master election needs its guard on renewals. */
module MasterLimits {
  import opened Common
  import opened MasterLease
  import opened MasterProof
  import opened MasterConverse

  /** The election does elect: in every cluster any member can become master within the guard. */
  lemma AnyMemberBecomesMaster(offsets: map<NodeId, nat>, x: NodeId) returns (w: World)
    requires NULL_NODE !in offsets && x in offsets
    ensures Reaches(Start(offsets), true, w) && w.Master(x)
    ensures Reaches(Start(offsets), false, w) && |w.log| == 1 && w.nodes.Keys == offsets.Keys
    ensures w.nodes[x].sm.master == x && w.nodes[x].sm.version == LastSuccess(w.log) && w.nodes[x].sm.expire == w.Clock(x) + 9900
  {
    hide Sound, Exclusive, Reaches, LastSuccess;
    var s := Start(offsets);
    StartOk(offsets);
    assert s.Arrived() == s.nodes.Keys;
    assert |s.nodes| == |s.nodes.Keys|;
    NotEmpty(s.nodes.Keys, x);
    w := BecomesMaster(s, x, 0, true);
    VersionBelow(w, x);
    assert w.log[..|w.log|] == w.log;
    GuardOff(s, w);
  }

  lemma GuardOff(w: World, v: World)
    requires Reaches(w, true, v)
    ensures Reaches(w, false, v)
  {
    var run :| Leads(w, run, true, v);
    RunGuardOff(w, run, v);
  }

  lemma {:induction false} RunGuardOff(w: World, run: seq<Event>, v: World)
    requires Leads(w, run, true, v)
    ensures Leads(w, run, false, v)
    decreases |run|
  {
    if run != [] {
      RunGuardOff(Next(w, run[0]), run[1..], v);
    }
  }

  /** In a cluster of one or two the guard excludes nothing. */
  lemma {:induction false} GuardIsFree(w: World, run: seq<Event>, v: World)
    requires Sound(w) && |w.nodes| <= 2 && Leads(w, run, false, v)
    ensures Leads(w, run, true, v)
    decreases |run|
  {
    hide Sound;
    if run != [] {
      var u := Next(w, run[0]);
      StepSound(w, run[0]);
      assert u.nodes.Keys == w.nodes.Keys;
      assert |u.nodes| == |u.nodes.Keys| && |w.nodes| == |w.nodes.Keys|;
      GuardIsFree(u, run[1..], v);
    }
  }

  /** With no guard at all, no run of this cluster has two masters at one time. */
  ghost predicate OneMasterAlways(offsets: map<NodeId, nat>) {
    forall w, x, y | Reaches(Start(offsets), false, w) && w.Master(x) && w.Master(y) :: x == y
  }

  /** A master that shortens its lease, and is slow to execute the renewal, is still master by the old lease
      when the others have let go of the new one: in every cluster of three or more, beside any other member. */
  lemma ShorterLeaseElectsTwo(offsets: map<NodeId, nat>, x: NodeId, y: NodeId) returns (v: World)
    requires NULL_NODE !in offsets && |offsets| >= 3 && x in offsets && y in offsets && x != y
    ensures Reaches(Start(offsets), false, v) && v.Master(x) && v.Master(y)
  {
    hide Sound, Exclusive, Reaches, LastSuccess;
    var w := AnyMemberBecomesMaster(offsets, x);
    StartOk(offsets);
    ReachesSound(Start(offsets), false, w);
    var u := WaitsAndLooks(w, x, 0, false);
    Trans(Start(offsets), false, w, u);
    v := EarlierDeadlineElectsTwo(offsets, u, x, y, 1000);
    Trans(Start(offsets), false, u, v);
  }

  /** The guard is needed in exactly the clusters of three or more: in a cluster of two a node's next operation
      is only decided when the other has executed everything before it. */
  lemma RenewalGuardNeededIff(offsets: map<NodeId, nat>)
    requires NULL_NODE !in offsets
    ensures OneMasterAlways(offsets) <==> |offsets| <= 2
  {
    if |offsets| <= 2 {
      forall w, x, y | Reaches(Start(offsets), false, w) && w.Master(x) && w.Master(y)
        ensures x == y
      {
        var run :| Leads(Start(offsets), run, false, w);
        StartOk(offsets);
        assert |Start(offsets).nodes| == |Start(offsets).nodes.Keys| && |offsets| == |offsets.Keys|;
        GuardIsFree(Start(offsets), run, w);
        SingleMaster(offsets, run, w, x, y);
      }
    } else {
      var x, y := TwoOf(offsets.Keys);
      var v := ShorterLeaseElectsTwo(offsets, x, y);
    }
  }

  lemma TwoOf(s: set<NodeId>) returns (x: NodeId, y: NodeId)
    requires |s| >= 2
    ensures x in s && y in s && x != y
  {
    x :| x in s;
    assert |s - {x}| >= 1;
    y :| y in s - {x};
  }

  // ---- nobody holds back for longer than a lease ----

  ghost predicate NotLonger(w: World) {
    forall x | x in w.nodes && w.nodes[x].sm.version != NO_VERSION && Success(w.log, w.nodes[x].sm.version) ::
      w.nodes[x].sm.expire <= w.Clock(x) + OpAt(w.log, w.nodes[x].sm.version).timeout
  }

  lemma LogGrowsNotLonger(w: World, entry: Option<Proposal>)
    requires Sound(w) && NotLonger(w)
    ensures NotLonger(w.(log := w.log + [entry]))
  {
    forall x | x in w.nodes && w.nodes[x].sm.version != NO_VERSION
      ensures Success(w.log, w.nodes[x].sm.version)
    {
      VersionBelow(w, x);
    }
  }

  lemma ExecuteNotLonger(w: World, x: NodeId)
    requires Sound(w) && NotLonger(w) && Possible(w, Event.Execute(x))
    ensures NotLonger(Next(w, Event.Execute(x)))
  {
    hide Sound, LastSuccess, Success, ExecuteNext;
    ExecuteIs(w, x);
    VersionBelow(w, x);
    if WillSucceed(w, x) {
      var n := w.nodes[x];
      if n.pending.Some? {
        PendingBorn(w, x);
      }
      assert OpAt(w.log, n.top) == w.log[n.top].value.op;
    }
  }

  /** The deadline a node has fixed for what it waits for. */
  lemma PendingBorn(w: World, x: NodeId)
    requires Sound(w) && x in w.nodes && w.nodes[x].pending.Some?
    ensures w.nodes[x].pending.value.born <= w.time
  {
    assert NodeOk(w, x) && ProposalOk(w, w.nodes[x].pending.value);
  }

  lemma RestartNotLonger(w: World, x: NodeId, from: nat, offset: nat)
    requires Sound(w) && NotLonger(w) && Possible(w, Restart(x, from, offset))
    ensures NotLonger(Next(w, Restart(x, from, offset)))
  {
    hide LastSuccess;
    assert NodeOk(w, x);
  }

  lemma StepNotLonger(w: World, e: Event)
    requires Sound(w) && NotLonger(w) && Possible(w, e)
    ensures NotLonger(Next(w, e))
  {
    hide Sound, LastSuccess, Success, ExecuteNext;
    match e
    case Choose(p) => LogGrowsNotLonger(w, Some(p));
    case ChooseOther => LogGrowsNotLonger(w, None);
    case Execute(x) => ExecuteNotLonger(w, x);
    case Restart(x, from, offset) => RestartNotLonger(w, x, from, offset);
    case _ =>
  }

  lemma {:induction false} RunNotLonger(w: World, run: seq<Event>, v: World)
    requires Sound(w) && NotLonger(w) && Leads(w, run, false, v)
    ensures NotLonger(v)
    decreases |run|
  {
    hide Sound, NotLonger, ExecuteNext;
    if run != [] {
      StepSound(w, run[0]);
      StepNotLonger(w, run[0]);
      RunNotLonger(Next(w, run[0]), run[1..], v);
    }
  }

  lemma ReachesNotLonger(w: World, v: World)
    requires Sound(w) && NotLonger(w) && Reaches(w, false, v)
    ensures NotLonger(v)
  {
    var run :| Leads(w, run, false, v);
    RunNotLonger(w, run, v);
  }

  /** How long the last success may keep others back. */
  ghost function LastLease(log: seq<Option<Proposal>>): nat {
    var k := LastSuccess(log);
    if k != NO_VERSION && Success(log, k) then OpAt(log, k).timeout else 0
  }

  /** The cluster never stays without a master for longer than a lease: in every reachable world, whatever was
      proposed, executed, lost or restarted before, any member can be master one lease of the last success
      later. */
  lemma EveryWorldElects(offsets: map<NodeId, nat>, w: World, y: NodeId) returns (v: World)
    requires NULL_NODE !in offsets && Reaches(Start(offsets), false, w) && y in w.nodes && |w.log| + 1 < NO_VERSION
    ensures Reaches(w, false, v) && v.Master(y) && v.time <= w.time + LastLease(w.log)
  {
    hide Sound, Exclusive, Reaches, LastSuccess, Success, NotLonger;
    StartOk(offsets);
    StartNotLonger(offsets);
    ReachesSound(Start(offsets), false, w);
    ReachesNotLonger(Start(offsets), w);
    var u := Settles(w, y);
    ReachesNotLonger(w, u);
    SettledDecide(w, u, y);
    SettledLease(w, u, y);
    v := BecomesMaster(u, y, LastLease(w.log), false);
    Trans(w, false, u, v);
  }

  lemma StartNotLonger(offsets: map<NodeId, nat>)
    ensures NotLonger(Start(offsets))
  {
  }

  lemma SettledLease(w: World, u: World, y: NodeId)
    requires Sound(w) && Sound(u) && NotLonger(u) && Reaches(w, false, u) && Settled(w, u) && y in w.nodes
    ensures u.Clock(y) + LastLease(w.log) >= u.nodes[y].sm.expire || u.nodes[y].sm.master == NULL_NODE
  {
    assert NodeOk(u, y);
    assert u.log[..|u.log|] == u.log;
    LastSuccessIs(w.log);
    var k := LastSuccess(w.log);
    if k != NO_VERSION {
      assert u.log[..k] == w.log[..k];
    }
  }
}
