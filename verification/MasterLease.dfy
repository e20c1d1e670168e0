/** Master election by compare-and-set over the replicated log, with leases: what the master state
    machine makes of an operation, and the timed runs of a cluster. */
module MasterLease {
  import opened Common

  const NO_VERSION: nat := 0xFFFF_FFFF_FFFF_FFFF

  /** `last` is the version of the proposer's state machine when the value goes to the proposer; it is only
      filled in when values may be changed before proposing, and 0 otherwise. */
  datatype Op = Op(node: NodeId, version: nat, timeout: nat, sid: nat, last: nat)

  datatype Sm = Sm(me: NodeId, master: NodeId, version: nat, lease: nat, expire: nat)

  /** What is kept on disk. */
  datatype Vars = Vars(master: NodeId, version: nat, lease: nat)

  // ---- the state machine ----

  /** A node that finds itself behind takes over the version the operation names. */
  function FixedVersion(sm: Sm, inst: nat, op: Op): nat {
    if op.last != 0 && inst > sm.version && op.last != sm.version then op.last else sm.version
  }

  predicate Learns(sm: Sm, inst: nat, op: Op) {
    op.version == FixedVersion(sm, inst, op)
  }

  function LearnMaster(sm: Sm, inst: nat, op: Op, absTimeout: nat, clock: nat): Sm {
    if !Learns(sm, inst, op) then sm.(version := FixedVersion(sm, inst, op))
    else Sm(sm.me, op.node, inst, op.timeout, if op.node == sm.me then absTimeout else clock + op.timeout)
  }

  function StoredAfter(sm: Sm, inst: nat, op: Op, store: Option<Vars>): Option<Vars> {
    if Learns(sm, inst, op) then Some(Vars(op.node, inst, op.timeout)) else store
  }

  function InitSm(me: NodeId, store: Option<Vars>, clock: nat): Sm {
    match store
    case None => Sm(me, NULL_NODE, NO_VERSION, 0, 0)
    case Some(v) =>
      if v.master == me then Sm(me, NULL_NODE, v.version, 0, 0)
      else Sm(me, v.master, v.version, 0, clock + v.lease)
  }

  function GetMaster(sm: Sm, clock: nat): NodeId {
    if clock >= sm.expire then NULL_NODE else sm.master
  }

  predicate IsIMMaster(sm: Sm, clock: nat) {
    GetMaster(sm, clock) == sm.me
  }

  // ---- the cluster ----

  /** A value handed to the proposer of instance `inst`, the only instance in which it is ever proposed;
      `born` is the time at which the deadline was fixed. */
  datatype Proposal = Proposal(op: Op, born: nat, inst: nat)

  /** A try to be master before its value reaches the proposer: first it has read the version, then it has
      made the operation and fixed the deadline. */
  datatype Draft = Read(version: nat) | Made(op: Op, born: nat)

  /** All clocks run at one rate; `offset` is this node's clock minus the time. `applied` is the next
      instance to execute, which is also the instance its proposer and acceptor are in; `top` is the highest
      it ever reached, also in earlier processes. `pending` is the value the process waits for; `holds` tells
      whether the proposer has a value for its instance, which it keeps also when nobody waits any more. */
  datatype Node = Node(sm: Sm, store: Option<Vars>, offset: nat, applied: nat, top: nat,
                       draft: Option<Draft>, pending: Option<Proposal>, holds: bool)

  datatype World = World(nodes: map<NodeId, Node>, log: seq<Option<Proposal>>, proposed: set<Proposal>, time: nat) {
    function Clock(x: NodeId): nat
      requires x in nodes
    {
      time + nodes[x].offset
    }

    predicate Master(x: NodeId) {
      x in nodes && IsIMMaster(nodes[x].sm, Clock(x))
    }

    function Arrived(): set<NodeId> {
      set x | x in nodes && nodes[x].top == |log|
    }

    /** The next instance can only be decided by votes of a majority, and a node votes in an instance once
        it has executed all before it. */
    predicate CanDecide() {
      |log| < NO_VERSION && |Arrived()| >= |nodes| / 2 + 1
    }
  }

  /** `changed` tells whether values are changed before proposing. */
  datatype Event =
    | Tick(d: nat)
    | Look(x: NodeId)
    | Propose(x: NodeId, lease: nat, sid: nat)
    | HandOver(x: NodeId, changed: bool)
    | Abandon(x: NodeId)
    | Choose(p: Proposal)
    | ChooseOther
    | Execute(x: NodeId)
    | Restart(x: NodeId, from: nat, offset: nat)

  /** The value that goes to the proposer, with the version the node has by now if values are changed. */
  function Handed(n: Node, changed: bool): Proposal
    requires n.draft.Some? && n.draft.value.Made?
  {
    var d := n.draft.value;
    Proposal(if changed then d.op.(last := n.sm.version) else d.op, d.born, n.applied)
  }

  predicate Possible(w: World, e: Event) {
    match e
    case Tick(_) => true
    case Look(x) => x in w.nodes && w.nodes[x].draft == None && w.nodes[x].pending == None
    case Propose(x, lease, sid) => x in w.nodes && w.nodes[x].draft.Some? && w.nodes[x].draft.value.Read? && lease >= 1000
    case HandOver(x, changed) =>
      && x in w.nodes && w.nodes[x].draft.Some? && w.nodes[x].draft.value.Made?
      && var p := Handed(w.nodes[x], changed);
         forall q | q in w.proposed && q.inst == p.inst :: q.op != p.op
    case Abandon(x) => x in w.nodes
    case Choose(p) => p in w.proposed && p.inst == |w.log| && w.CanDecide()
    case ChooseOther => w.CanDecide()
    case Execute(x) => x in w.nodes && w.nodes[x].applied < |w.log|
    case Restart(x, from, _) => x in w.nodes && from <= w.nodes[x].applied
  }

  /** What the single-master property needs beyond the code, in clusters of three or more: a master that
      renews does not shorten its own deadline. */
  predicate Guarded(w: World, e: Event)
    requires Possible(w, e)
  {
    e.Propose? && |w.nodes| >= 3 && w.nodes[e.x].sm.master == e.x ==> w.Clock(e.x) + e.lease >= w.nodes[e.x].sm.expire
  }

  /** A node's own lease ends 100 ms before the others think it does. */
  function MasterTimeout(lease: nat): nat {
    if lease >= 100 then lease - 100 else 0
  }

  /** Whether the process waits for this very value; its deadline, 0 if it does not. */
  predicate Waits(n: Node, p: Proposal) {
    n.pending.Some? && n.pending.value.inst == n.applied && n.pending.value.op == p.op
  }

  function DeadlineOf(n: Node, p: Proposal): nat {
    if Waits(n, p) then n.pending.value.born + n.offset + MasterTimeout(n.pending.value.op.timeout) else 0
  }

  /** The node in its next instance; a value that waited for the instance is answered, chosen or not. */
  function MovedOn(n: Node): Node {
    var k := n.applied;
    n.(applied := k + 1,
       top := if n.top > k then n.top else k + 1,
       pending := if n.pending.Some? && n.pending.value.inst == k then None else n.pending,
       holds := false)
  }

  /** Executing what was chosen in the node's instance. */
  function ExecuteNext(n: Node, entry: Option<Proposal>, clock: nat): Node {
    match entry
    case None => MovedOn(n)
    case Some(p) =>
      MovedOn(n).(sm := LearnMaster(n.sm, n.applied, p.op, DeadlineOf(n, p), clock),
                  store := StoredAfter(n.sm, n.applied, p.op, n.store))
  }

  function Next(w: World, e: Event): World
    requires Possible(w, e)
  {
    match e
    case Tick(d) => w.(time := w.time + d)
    case Look(x) =>
      var n := w.nodes[x];
      var master := GetMaster(n.sm, w.Clock(x));
      w.(nodes := w.nodes[x := n.(draft := if master != NULL_NODE && master != x then None else Some(Read(n.sm.version)))])
    case Propose(x, lease, sid) =>
      var n := w.nodes[x];
      var d := Made(Op(x, n.draft.value.version, lease, sid, 0), w.time);
      w.(nodes := w.nodes[x := n.(draft := Some(d))])
    case HandOver(x, changed) =>
      var n := w.nodes[x];
      var p := Handed(n, changed);
      if n.holds then w.(nodes := w.nodes[x := n.(draft := None)])    // the value is not taken
      else w.(nodes := w.nodes[x := n.(draft := None, pending := Some(p), holds := true)], proposed := w.proposed + {p})
    case Abandon(x) => w.(nodes := w.nodes[x := w.nodes[x].(draft := None, pending := None)])
    case Choose(p) => w.(log := w.log + [Some(p)])
    case ChooseOther => w.(log := w.log + [None])
    case Execute(x) =>
      var n := w.nodes[x];
      w.(nodes := w.nodes[x := ExecuteNext(n, w.log[n.applied], w.Clock(x))])
    case Restart(x, from, offset) =>
      var n := w.nodes[x];
      w.(nodes := w.nodes[x := Node(InitSm(x, n.store, w.time + offset), n.store, offset, from, n.top, None, None, false)])
  }

  function Start(offsets: map<NodeId, nat>): World {
    World(map x | x in offsets :: Node(InitSm(x, None, 0), None, offsets[x], 0, 0, None, None, false), [], {}, 0)
  }

  /** A run of any events that are possible one after the other, guarded or not. */
  predicate Leads(w: World, run: seq<Event>, guarded: bool, v: World)
    decreases |run|
  {
    if run == [] then v == w
    else Possible(w, run[0]) && (guarded ==> Guarded(w, run[0])) && Leads(Next(w, run[0]), run[1..], guarded, v)
  }

  // ---- the chain of successful operations ----

  /** The version every node has when it has executed exactly this log. */
  function LastSuccess(log: seq<Option<Proposal>>): nat {
    if log == [] then NO_VERSION
    else
      var k := |log| - 1;
      var before := LastSuccess(log[..k]);
      if log[k].Some? && log[k].value.op.version == before then k else before
  }

  predicate Success(log: seq<Option<Proposal>>, k: nat) {
    k < |log| && log[k].Some? && log[k].value.op.version == LastSuccess(log[..k])
  }

  lemma {:induction false} LastSuccessIs(log: seq<Option<Proposal>>)
    ensures LastSuccess(log) == NO_VERSION || Success(log, LastSuccess(log))
    ensures LastSuccess(log) != NO_VERSION ==> LastSuccess(log) < |log|
    ensures |log| <= NO_VERSION ==> forall k: nat | Success(log, k) :: LastSuccess(log) != NO_VERSION && k <= LastSuccess(log)
  {
    if log != [] {
      var p := log[..|log| - 1];
      LastSuccessIs(p);
      var r := LastSuccess(p);
      if r != NO_VERSION {
        assert p[..r] == log[..r];
      }
      forall k: nat | Success(log, k) && k < |p|
        ensures Success(p, k)
      {
        assert p[..k] == log[..k];
      }
    }
  }

  lemma SuccessStays(log: seq<Option<Proposal>>, entry: Option<Proposal>, k: nat)
    requires k < |log|
    ensures Success(log + [entry], k) <==> Success(log, k)
  {
    assert (log + [entry])[..k] == log[..k];
  }

  lemma LastSuccessAppend(log: seq<Option<Proposal>>, entry: Option<Proposal>)
    ensures LastSuccess(log + [entry])
         == if entry.Some? && entry.value.op.version == LastSuccess(log) then |log| else LastSuccess(log)
  {
    assert (log + [entry])[..|log|] == log;
  }
}
