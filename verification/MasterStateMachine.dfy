/** The master state machine and the manager in the form the program has: objects whose methods update
    their fields. Every method is proved to do what MasterLease says. */
module MasterObjects {
  import opened Common
  import opened MasterLease

  class MasterStateMachine {
    const me: NodeId
    var master: NodeId
    var version: nat
    var leaseTime: nat
    var expire: nat
    var store: Option<Vars>

    function View(): Sm
      reads this
    {
      Sm(me, master, version, leaseTime, expire)
    }

    constructor (me: NodeId, store: Option<Vars>)
      ensures this.me == me && this.store == store && View() == Sm(me, NULL_NODE, NO_VERSION, 0, 0)
    {
      this.me := me;
      this.store := store;
      master, version, leaseTime, expire := NULL_NODE, NO_VERSION, 0, 0;
    }

    method Init(clock: nat)
      requires View() == Sm(me, NULL_NODE, NO_VERSION, 0, 0)
      modifies this
      ensures View() == InitSm(me, store, clock) && store == old(store)
    {
      match store
      case None =>
      case Some(v) =>
        version := v.version;
        if v.master == me {
          master := NULL_NODE;
          expire := 0;
        } else {
          master := v.master;
          expire := clock + v.lease;
        }
    }

    method Learn(inst: nat, op: Op, absTimeout: nat, clock: nat)
      modifies this
      ensures View() == LearnMaster(old(View()), inst, op, absTimeout, clock)
      ensures store == StoredAfter(old(View()), inst, op, old(store))
    {
      if op.last != 0 && inst > version && op.last != version {
        version := op.last;
      }
      if op.version != version {
        return;
      }
      store := Some(Vars(op.node, inst, op.timeout));
      master := op.node;
      if master == me {
        expire := absTimeout;
      } else {
        expire := clock + op.timeout;
      }
      leaseTime := op.timeout;
      version := inst;
    }

    /** The deadline is only known to the process that waits for this very operation. */
    method Execute(inst: nat, op: Op, ctx: Option<nat>, clock: nat)
      modifies this
      ensures View() == LearnMaster(old(View()), inst, op, if ctx.Some? then ctx.value else 0, clock)
      ensures store == StoredAfter(old(View()), inst, op, old(store))
    {
      var absTimeout := if ctx.Some? then ctx.value else 0;
      Learn(inst, op, absTimeout, clock);
    }

    method SafeGetMaster(clock: nat) returns (node: NodeId, v: nat)
      ensures node == GetMaster(View(), clock) && v == version
      ensures me != NULL_NODE ==> (node == me <==> IsIMMaster(View(), clock))
    {
      if clock >= expire {
        node := NULL_NODE;
      } else {
        node := master;
      }
      v := version;
    }

    method BeforePropose(op: Op) returns (changed: Op)
      ensures changed == op.(last := version)
    {
      changed := op.(last := version);
    }
  }

  class MasterMgr {
    const sm: MasterStateMachine
    var leaseTime: nat

    constructor (sm: MasterStateMachine)
      ensures this.sm == sm && leaseTime == 10000
    {
      this.sm := sm;
      leaseTime := 10000;
    }

    method SetLeaseTime(lease: int)
      modifies this
      ensures leaseTime == if lease < 1000 then old(leaseTime) else lease
    {
      if lease < 1000 {
        return;
      }
      leaseTime := lease;
    }

    /** What goes into the log when this node tries to be master, with its own deadline; nothing when
        another node is master. */
    method TryBeMaster(clock: nat, later: nat, sid: nat) returns (op: Option<Op>, absTimeout: nat)
      requires leaseTime >= 1000 && clock <= later
      ensures op.None? <==> GetMaster(sm.View(), clock) != NULL_NODE && GetMaster(sm.View(), clock) != sm.me
      ensures op.Some? ==> op.value == Op(sm.me, sm.version, leaseTime, sid, 0) && absTimeout == later + MasterTimeout(leaseTime)
    {
      var node, version := sm.SafeGetMaster(clock);
      if node != NULL_NODE && node != sm.me {
        return None, 0;
      }
      op := Some(Op(sm.me, version, leaseTime, sid, 0));
      absTimeout := later + (leaseTime - 100);
    }
  }
}
