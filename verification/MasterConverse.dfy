/** Runs of the master election can be continued: a member that looks and is not held back becomes master,
    and in a cluster of three or more a master that renews with an earlier deadline can be joined by a
    second one. */
module MasterConverse {
  import opened Common
  import opened MasterLease
  import opened MasterProof

  ghost predicate Reaches(w: World, guarded: bool, v: World) {
    exists run :: Leads(w, run, guarded, v)
  }

  lemma Stays(w: World, guarded: bool)
    ensures Reaches(w, guarded, w)
  {
    assert Leads(w, [], guarded, w);
  }

  lemma Then(w: World, e: Event, guarded: bool, v: World)
    requires Possible(w, e) && (guarded ==> Guarded(w, e)) && Reaches(Next(w, e), guarded, v)
    ensures Reaches(w, guarded, v)
  {
    var rest :| Leads(Next(w, e), rest, guarded, v);
    assert ([e] + rest)[1..] == rest;
    assert Leads(w, [e] + rest, guarded, v);
  }

  lemma {:induction false} RunThen(w: World, run: seq<Event>, guarded: bool, u: World, v: World)
    requires Leads(w, run, guarded, u) && Reaches(u, guarded, v)
    ensures Reaches(w, guarded, v)
    decreases |run|
  {
    if run != [] {
      RunThen(Next(w, run[0]), run[1..], guarded, u, v);
      Then(w, run[0], guarded, v);
    }
  }

  lemma Trans(w: World, guarded: bool, u: World, v: World)
    requires Reaches(w, guarded, u) && Reaches(u, guarded, v)
    ensures Reaches(w, guarded, v)
  {
    var run :| Leads(w, run, guarded, u);
    RunThen(w, run, guarded, u, v);
  }

  lemma {:induction false} FreshSid(ps: set<Proposal>) returns (sid: nat)
    ensures forall p | p in ps :: p.op.sid < sid
    decreases |ps|
  {
    if ps == {} {
      sid := 0;
    } else {
      var p :| p in ps;
      sid := FreshSid(ps - {p});
      if sid <= p.op.sid {
        sid := p.op.sid + 1;
      }
    }
  }

  // ---- catching up ----

  /** A node executes all there is; a node that knows the last success already changes its counters only. */
  ghost predicate Caught(w: World, y: NodeId, v: World) {
    && y in w.nodes && y in v.nodes && v == w.(nodes := w.nodes[y := v.nodes[y]])
    && var n, m := w.nodes[y], v.nodes[y];
       && m.applied == m.top == |v.log| && m.offset == n.offset && m.draft == n.draft
       && (n.sm.version == LastSuccess(w.log) ==> m.sm == n.sm)
       && (n.applied < |w.log| || !n.holds ==> !m.holds)
  }

  lemma {:induction false} CatchUp(w: World, y: NodeId, guarded: bool) returns (v: World)
    requires Sound(w) && y in w.nodes
    ensures Reaches(w, guarded, v) && Sound(v) && Caught(w, y, v)
    decreases |w.log| - w.nodes[y].applied
  {
    hide Sound, Reaches, ExecuteNext, LastSuccess;
    VersionBelow(w, y);
    if w.nodes[y].applied >= |w.log| {
      v := w;
      Stays(w, guarded);
    } else {
      var e := Event.Execute(y);
      StepSound(w, e);
      ExecuteIs(w, y);
      if w.nodes[y].sm.version == LastSuccess(w.log) {
        NoneIsLeft(w, y);
      }
      v := CatchUp(Next(w, e), y, guarded);
      Then(w, e, guarded, v);
    }
  }

  lemma NoneIsLeft(w: World, y: NodeId)
    requires Sound(w) && y in w.nodes && w.nodes[y].sm.version == LastSuccess(w.log) && w.nodes[y].applied < |w.log|
    ensures !WillSucceed(w, y)
  {
    LastSuccessIs(w.log);
    VersionBelow(w, y);
    if WillSucceed(w, y) {
      ExecuteIs(w, y);
    }
  }

  /** Some nodes catch up, one after the other; the rest do nothing. */
  ghost predicate AllCaught(w: World, ys: set<NodeId>, v: World) {
    && v == w.(nodes := v.nodes) && v.nodes.Keys == w.nodes.Keys
    && (forall x | x in w.nodes && x !in ys :: v.nodes[x] == w.nodes[x])
    && forall y | y in w.nodes && y in ys :: Caught(w, y, w.(nodes := w.nodes[y := v.nodes[y]]))
  }

  lemma {:induction false} CatchUpAll(w: World, ys: set<NodeId>, guarded: bool) returns (v: World)
    requires Sound(w) && ys <= w.nodes.Keys
    ensures Reaches(w, guarded, v) && Sound(v) && AllCaught(w, ys, v)
    decreases |ys|
  {
    hide Sound, Reaches, LastSuccess;
    if ys == {} {
      v := w;
      Stays(w, guarded);
    } else {
      var y :| y in ys;
      var u := CatchUp(w, y, guarded);
      v := CatchUpAll(u, ys - {y}, guarded);
      Trans(w, guarded, u, v);
    }
  }

  // ---- a value on its way ----

  function TryOf(w: World, x: NodeId, lease: nat, sid: nat): Proposal
    requires x in w.nodes && w.nodes[x].draft.Some? && w.nodes[x].draft.value.Read?
  {
    Proposal(Op(x, w.nodes[x].draft.value.version, lease, sid, 0), w.time, |w.log|)
  }

  /** A node that has read the version makes its operation, hands it over, and a majority accepts it. */
  lemma GetsChosen(w: World, x: NodeId, lease: nat, sid: nat, guarded: bool) returns (v: World)
    requires x in w.nodes && w.nodes[x].draft.Some? && w.nodes[x].draft.value.Read?
    requires w.nodes[x].applied == |w.log| && !w.nodes[x].holds && w.CanDecide()
    requires lease >= 1000 && forall p | p in w.proposed :: p.op.sid < sid
    requires guarded ==> Guarded(w, Propose(x, lease, sid))
    ensures Reaches(w, guarded, v)
    ensures var p := TryOf(w, x, lease, sid);
            v == World(w.nodes[x := w.nodes[x].(draft := None, pending := Some(p), holds := true)],
                       w.log + [Some(p)], w.proposed + {p}, w.time)
  {
    hide Reaches, ExecuteNext;
    var p := TryOf(w, x, lease, sid);
    var w1 := Next(w, Propose(x, lease, sid));
    var w2 := Next(w1, HandOver(x, false));
    assert w2.nodes == w.nodes[x := w.nodes[x].(draft := None, pending := Some(p), holds := true)];
    assert w2.Arrived() == w.Arrived();
    assert w2.nodes.Keys == w.nodes.Keys;
    assert |w2.nodes| == |w2.nodes.Keys| && |w.nodes| == |w.nodes.Keys|;
    v := Next(w2, Choose(p));
    Stays(v, guarded);
    Then(w2, Choose(p), guarded, v);
    Then(w1, HandOver(x, false), guarded, v);
    Then(w, Propose(x, lease, sid), guarded, v);
  }

  /** A node in the log's last instance, whose operation names its version, executes it. */
  lemma Hears(w: World, y: NodeId, guarded: bool) returns (v: World)
    requires Sound(w) && y in w.nodes && WillSucceed(w, y)
    ensures Reaches(w, guarded, v) && Sound(v)
    ensures v == w.(nodes := w.nodes[y := Succeeded(w.nodes[y], w.log[w.nodes[y].top].value, w.Clock(y))])
  {
    hide Sound, Reaches, ExecuteNext;
    ExecuteIs(w, y);
    StepSound(w, Event.Execute(y));
    v := Next(w, Event.Execute(y));
    Stays(v, guarded);
    Then(w, Event.Execute(y), guarded, v);
  }

  /** A node gives up what it waits for, lets time pass, and looks. */
  lemma WaitsAndLooks(w: World, y: NodeId, d: nat, guarded: bool) returns (v: World)
    requires Sound(w) && y in w.nodes && (w.Clock(y) + d >= w.nodes[y].sm.expire || w.nodes[y].sm.master in {NULL_NODE, y})
    ensures Reaches(w, guarded, v) && Sound(v)
    ensures v == w.(nodes := w.nodes[y := w.nodes[y].(draft := Some(Read(w.nodes[y].sm.version)), pending := None)], time := w.time + d)
  {
    hide Sound, Reaches, ExecuteNext;
    var w1 := Next(w, Abandon(y));
    var w2 := Next(w1, Tick(d));
    v := Next(w2, Look(y));
    assert v.nodes == w.nodes[y := w.nodes[y].(draft := Some(Read(w.nodes[y].sm.version)), pending := None)];
    StepSound(w, Abandon(y));
    StepSound(w1, Tick(d));
    StepSound(w2, Look(y));
    Stays(v, guarded);
    Then(w2, Look(y), guarded, v);
    Then(w1, Tick(d), guarded, v);
    Then(w, Abandon(y), guarded, v);
  }

  lemma ReachesSound(w: World, guarded: bool, v: World)
    requires Sound(w) && Reaches(w, guarded, v)
    ensures Sound(v) && v.nodes.Keys == w.nodes.Keys && (guarded && Exclusive(w) ==> Exclusive(v))
  {
    var run :| Leads(w, run, guarded, v);
    RunKeeps(w, run, guarded, v);
  }

  /** A node that is not held back and has executed everything, like a majority, becomes master. */
  lemma BecomesMaster(w: World, y: NodeId, d: nat, guarded: bool) returns (v: World)
    requires Sound(w) && y in w.nodes && w.nodes[y].applied == w.nodes[y].top == |w.log|
    requires !w.nodes[y].holds && w.CanDecide()
    requires w.Clock(y) + d >= w.nodes[y].sm.expire || w.nodes[y].sm.master == NULL_NODE
    requires guarded ==> w.nodes[y].sm.master != y
    ensures Reaches(w, guarded, v) && Sound(v)
    ensures v.nodes.Keys == w.nodes.Keys && forall x | x in w.nodes && x != y :: v.nodes[x] == w.nodes[x]
    ensures v.time == w.time + d && |v.log| == |w.log| + 1 && v.Master(y)
    ensures var n := v.nodes[y];
            && n.applied == n.top == |v.log| && n.draft == None && n.offset == w.nodes[y].offset
            && n.sm == Sm(y, y, |w.log|, 10000, v.Clock(y) + 9900)
  {
    hide Sound, Reaches, LastSuccess;
    VersionBelow(w, y);
    var w1 := WaitsAndLooks(w, y, d, guarded);
    assert w1.Arrived() == w.Arrived();
    assert w1.nodes.Keys == w.nodes.Keys;
    assert |w1.nodes| == |w1.nodes.Keys| && |w.nodes| == |w.nodes.Keys|;
    var sid := FreshSid(w1.proposed);
    var w2 := GetsChosen(w1, y, 10000, sid, guarded);
    ReachesSound(w1, guarded, w2);
    v := Hears(w2, y, guarded);
    Trans(w1, guarded, w2, v);
    Trans(w, guarded, w1, v);
  }

  // ---- an earlier deadline ----

  /** All nodes are in a new instance, and those that know the last success are otherwise as before. */
  ghost predicate Settled(w: World, v: World) {
    && v.nodes.Keys == w.nodes.Keys && v.time == w.time && w.log <= v.log && |v.log| == |w.log| + 1
    && LastSuccess(v.log) == LastSuccess(w.log)
    && forall z | z in w.nodes ::
         var n, m := w.nodes[z], v.nodes[z];
         && m.applied == m.top == |v.log| && !m.holds && m.offset == n.offset && m.draft == n.draft
         && (n.sm.version == LastSuccess(w.log) ==> m.sm == n.sm)
  }

  /** All execute what there is, some other value is chosen, and all execute that too. */
  lemma Settles(w: World, x: NodeId) returns (v: World)
    requires Sound(w) && x in w.nodes && |w.log| < NO_VERSION
    ensures Reaches(w, false, v) && Sound(v) && Settled(w, v)
  {
    hide Sound, Reaches, LastSuccess, ExecuteNext;
    var w1 := CatchUpAll(w, w.nodes.Keys, false);
    AllDecide(w, w1, x);
    var w2 := Next(w1, ChooseOther);
    StepSound(w1, ChooseOther);
    LastSuccessAppend(w1.log, None);
    Stays(w2, false);
    Then(w1, ChooseOther, false, w2);
    v := CatchUpAll(w2, w.nodes.Keys, false);
    forall z | z in w.nodes
      ensures var n, m := w.nodes[z], v.nodes[z];
              && m.applied == m.top == |v.log| && !m.holds && m.offset == n.offset && m.draft == n.draft
              && (n.sm.version == LastSuccess(w.log) ==> m.sm == n.sm)
    {
      assert Caught(w, z, w.(nodes := w.nodes[z := w1.nodes[z]]));
      assert Caught(w2, z, w2.(nodes := w2.nodes[z := v.nodes[z]]));
    }
    Trans(w1, false, w2, v);
    Trans(w, false, w1, v);
  }

  lemma AllDecide(w: World, v: World, x: NodeId)
    requires x in w.nodes && AllCaught(w, w.nodes.Keys, v) && |v.log| < NO_VERSION
    ensures v.CanDecide()
  {
    forall z | z in v.nodes
      ensures v.nodes[z].top == |v.log|
    {
      assert Caught(w, z, w.(nodes := w.nodes[z := v.nodes[z]]));
    }
    assert v.Arrived() == v.nodes.Keys;
    assert |v.nodes| == |v.nodes.Keys|;
    NotEmpty(v.nodes.Keys, x);
  }

  lemma SettledDecide(w: World, v: World, x: NodeId)
    requires x in w.nodes && Settled(w, v) && |v.log| < NO_VERSION
    ensures v.CanDecide()
  {
    assert v.Arrived() == v.nodes.Keys;
    assert |v.nodes| == |v.nodes.Keys|;
    NotEmpty(v.nodes.Keys, x);
  }

  /** The renewal is chosen while all have executed everything, and all others hear of it. */
  lemma RenewsEarlier(w: World, x: NodeId, y: NodeId, lease: nat) returns (v: World)
    requires Sound(w) && x in w.nodes && y in w.nodes && x != y && |w.log| + 1 < NO_VERSION && lease >= 1000
    requires w.nodes[x].sm.version == LastSuccess(w.log) && w.nodes[x].draft == Some(Read(w.nodes[x].sm.version))
    ensures Reaches(w, false, v) && Sound(v) && v.nodes.Keys == w.nodes.Keys
    ensures v.time == w.time && |v.log| == |w.log| + 2
    ensures v.nodes[x].sm == w.nodes[x].sm && v.nodes[x].offset == w.nodes[x].offset
    ensures v.nodes[y].sm.expire == v.Clock(y) + lease && !v.nodes[y].holds
    ensures forall z | z in w.nodes && z != x :: v.nodes[z].applied == v.nodes[z].top == |v.log|
  {
    hide Sound, Reaches, LastSuccess, Succeeded;
    var w1 := Settles(w, x);
    assert w1.log[..|w1.log|] == w1.log;
    SettledDecide(w, w1, x);
    var sid := FreshSid(w1.proposed);
    var w2 := GetsChosen(w1, x, lease, sid, false);
    VersionBelow(w1, x);
    VersionBelow(w1, y);
    ReachesSound(w1, false, w2);
    var w3 := Hears(w2, y, false);
    SuccessMeans(w2.nodes[y], w2.log[|w1.log|].value, w2.Clock(y));
    v := CatchUpAll(w3, w.nodes.Keys - {x, y}, false);
    forall z | z in w.nodes && z != x
      ensures v.nodes[z].applied == v.nodes[z].top == |v.log|
    {
      assert z != y ==> Caught(w3, z, w3.(nodes := w3.nodes[z := v.nodes[z]]));
    }
    Trans(w2, false, w3, v);
    Trans(w1, false, w2, v);
    Trans(w, false, w1, v);
  }

  lemma NotEmpty<T>(s: set<T>, x: T)
    requires x in s
    ensures |s| >= 1
  {
  }

  lemma SuccessMeans(n: Node, p: Proposal, clock: nat)
    requires p.op.node != n.sm.me && n.applied == n.top
    ensures var m := Succeeded(n, p, clock);
            && m.sm.expire == clock + p.op.timeout && m.applied == m.top == n.top + 1 && m.offset == n.offset && !m.holds
  {
  }

  /** In a cluster of three or more, all but one are a majority. */
  lemma OthersDecide(w: World, x: NodeId)
    requires |w.nodes| >= 3 && x in w.nodes && |w.log| < NO_VERSION
    requires forall z | z in w.nodes && z != x :: w.nodes[z].top == |w.log|
    ensures w.CanDecide()
  {
    Subset(w.nodes.Keys - {x}, w.Arrived());
    assert |w.nodes| == |w.nodes.Keys|;
  }

  /** Whenever in any run of a cluster of three or more the master `x` knows the last success and may renew with
      a deadline before its current one, doing so lets any other node become master beside it. */
  lemma EarlierDeadlineElectsTwo(offsets: map<NodeId, nat>, w: World, x: NodeId, y: NodeId, lease: nat) returns (v: World)
    requires NULL_NODE !in offsets && |offsets| >= 3 && Reaches(Start(offsets), false, w)
    requires x in w.nodes && y in w.nodes && x != y && |w.log| + 2 < NO_VERSION && lease >= 1000
    requires w.nodes[x].sm.master == x && w.nodes[x].sm.version == LastSuccess(w.log)
    requires w.nodes[x].draft == Some(Read(w.nodes[x].sm.version))
    requires w.Clock(x) + lease < w.nodes[x].sm.expire
    ensures Reaches(w, false, v) && v.Master(x) && v.Master(y)
  {
    hide Sound, Exclusive, Reaches, LastSuccess;
    StartOk(offsets);
    ReachesSound(Start(offsets), false, w);
    VersionBelow(w, x);
    var u := RenewsEarlier(w, x, y, lease);
    assert |u.nodes| == |u.nodes.Keys| && |offsets| == |offsets.Keys|;
    OthersDecide(u, x);
    v := BecomesMaster(u, y, lease, false);
    Trans(w, false, u, v);
  }
}
