/** The consensus core in the form the program has: objects whose methods are the message
    handlers. Every method is proved to make of the object exactly what PaxosNode says. */
module PaxosInstance {
  import opened Common
  import opened PaxosTypes
  import Spec = PaxosNode
  import opened PaxosRestart
  import opened MapTop

  class MsgCounter {
    var received: set<NodeId>
    var rejects: set<NodeId>
    var passes: set<NodeId>

    function View(): Spec.Counter
      reads this
    {
      Spec.Counter(received, rejects, passes)
    }

    constructor ()
      ensures View() == Spec.NEW_ROUND
    {
      received, rejects, passes := {}, {}, {};
    }

    method StartNewRound()
      modifies this
      ensures View() == Spec.NEW_ROUND
    {
      received, rejects, passes := {}, {}, {};
    }

    method AddReceive(node: NodeId)
      modifies this`received
      ensures received == old(received) + {node}
    {
      if node !in received {
        received := received + {node};
      }
    }

    method AddReject(node: NodeId)
      modifies this`rejects
      ensures rejects == old(rejects) + {node}
    {
      if node !in rejects {
        rejects := rejects + {node};
      }
    }

    method AddPromiseOrAccept(node: NodeId)
      modifies this`passes
      ensures passes == old(passes) + {node}
    {
      if node !in passes {
        passes := passes + {node};
      }
    }
  }

  class AcceptorState {
    var promise: Ballot
    var accepted: Ballot
    var value: Value
    var checksum: nat

    function View(): Spec.Acceptor
      reads this
    {
      Spec.Acceptor(promise, accepted, value, checksum)
    }

    constructor ()
      ensures View() == Spec.Acceptor(NULL_BALLOT, NULL_BALLOT, [], 0)
    {
      promise, accepted, value, checksum := NULL_BALLOT, NULL_BALLOT, [], 0;
    }

    /** A new instance forgets what was accepted and keeps what was promised. */
    method Init()
      modifies this
      ensures View() == old(View()).(accepted := NULL_BALLOT, value := [], checksum := 0)
    {
      accepted := NULL_BALLOT;
      value := [];
      checksum := 0;
    }

    method Persist(cfg: Config, inst: nat, last: nat) returns (rec: Spec.Record)
      modifies this`checksum
      ensures checksum == Spec.NextChecksum(cfg, inst, last, value, old(checksum))
      ensures rec == Spec.Record(promise, accepted, value, checksum)
    {
      if inst > 0 && last == 0 {
        checksum := 0;
      } else if |value| > 0 {
        checksum := cfg.crc(last, value);
      }
      rec := Spec.Record(promise, accepted, value, checksum);
    }
  }

  class LearnerState {
    var learnedValue: Value
    var isLearned: bool
    var newChecksum: nat

    predicate Fresh()
      reads this
    {
      !isLearned && newChecksum == 0 && learnedValue == []
    }

    constructor ()
      ensures Fresh()
    {
      learnedValue, isLearned, newChecksum := [], false, 0;
    }

    method Init()
      modifies this
      ensures Fresh()
    {
      learnedValue, isLearned, newChecksum := [], false, 0;
    }

    method LearnValueWithoutWrite(value: Value, checksum: nat)
      modifies this
      ensures isLearned && learnedValue == value && newChecksum == checksum
    {
      learnedValue, isLearned, newChecksum := value, true, checksum;
    }

    method LearnValue(cfg: Config, inst: nat, ballot: Ballot, value: Value, last: nat) returns (rec: Spec.Record)
      requires Fresh()
      modifies this
      ensures isLearned && learnedValue == value
      ensures newChecksum == Spec.NextChecksum(cfg, inst, last, value, 0)
      ensures rec == Spec.Record(ballot, ballot, value, newChecksum)
    {
      if inst > 0 && last == 0 {
        newChecksum := 0;
      } else if |value| > 0 {
        newChecksum := cfg.crc(last, value);
      }
      rec := Spec.Record(ballot, ballot, value, newChecksum);
      LearnValueWithoutWrite(value, newChecksum);
    }
  }

  class ProposerState {
    var pid: nat
    var highestOther: nat
    var value: Value
    var highestPre: Ballot

    constructor ()
      ensures pid == 1 && highestOther == 0 && value == [] && highestPre == NULL_BALLOT
    {
      pid, highestOther, value, highestPre := 1, 0, [], NULL_BALLOT;
    }

    method Init()
      modifies this`highestOther, this`value
      ensures highestOther == 0 && value == []
    {
      highestOther := 0;
      value := [];
    }

    /** A ballot above everything this node used or was rejected by. */
    method NewPrepare()
      modifies this`pid
      ensures pid > old(pid) && pid > highestOther
      ensures pid == old(pid) + 1 || pid == highestOther + 1
    {
      var max := if pid > highestOther then pid else highestOther;
      pid := max + 1;
    }

    method AddPreAcceptValue(pre: Ballot, preValue: Value)
      modifies this`highestPre, this`value
      ensures if !pre.IsNull() && pre.Gt(old(highestPre)) then highestPre == pre && value == preValue
              else highestPre == old(highestPre) && value == old(value)
    {
      if pre.IsNull() {
        return;
      }
      if pre.Gt(highestPre) {
        highestPre := pre;
        value := preValue;
      }
    }

    method SetOtherProposalID(other: nat)
      modifies this`highestOther
      ensures highestOther == if other > old(highestOther) then other else old(highestOther)
    {
      if other > highestOther {
        highestOther := other;
      }
    }
  }

  /** The order in which handlers may call each other while a node talks to itself. */
  function Rank(m: Msg): nat {
    match m
    case Prepare(_, _, _) => 5
    case PrepareReply(_, _, _, _, _, _, _) => 4
    case Accept(_, _, _, _, _) => 3
    case AcceptReply(_, _, _, _, _) => 2
    case _ => 1
  }

  /** What receiving a message amounts to when the node may be talking to itself: its own acceptor's
      answer comes straight back to its proposer. */
  function SelfReceive(cfg: Config, s: Spec.Node, m: Msg): Spec.Node {
    if m.from == s.me && m.Prepare? then
      Spec.OnReceive(cfg, Spec.OnPrepare(cfg, s, s.me, m.pid), Spec.PrepareAnswer(s, s.me, m.pid))
    else if m.from == s.me && m.Accept? then
      Spec.OnReceive(cfg, Spec.OnAccept(cfg, s, s.me, m.pid, m.value), Spec.AcceptAnswer(s, s.me, m.pid))
    else Spec.OnReceive(cfg, s, m)
  }

  lemma PrepareTalksToItself(cfg: Config, s: Spec.Node, needNew: bool)
    requires s.me in cfg.members
    ensures SelfReceive(cfg, Spec.StartPrepare(s, needNew), Prepare(s.inst, s.me, Spec.NextPid(s.prop, needNew)))
         == Spec.DoPrepare(cfg, s, needNew)
  {
    hide Spec.OnPrepareReply;
  }

  /** A node hands itself only messages of its current instance, with its own checksum. */
  predicate OwnNow(s: Spec.Node, m: Msg) {
    m.from == s.me ==> m.inst == s.inst && (m.Last() == 0 || m.Last() == s.last)
  }

  class Instance {
    const cfg: Config
    const me: NodeId
    const acceptor: AcceptorState
    const proposer: ProposerState
    const counter: MsgCounter
    const learner: LearnerState

    var inst: nat
    var preparing: bool
    var accepting: bool
    var canSkip: bool
    var rejected: bool
    var timeoutInst: nat
    var lastChecksum: nat
    var log: map<nat, Spec.Record>
    var executed: seq<Value>
    var sent: set<Msg>

    ghost function Parts(): set<object> {
      {this, acceptor, proposer, counter, learner}
    }

    predicate Valid()
      reads this, learner
    {
      me in cfg.members && learner.Fresh()
    }

    function View(): Spec.Node
      reads this, acceptor, proposer, counter
    {
      Spec.Node(me, inst, acceptor.View(),
                Spec.Proposer(proposer.pid, proposer.highestOther, proposer.value, proposer.highestPre,
                              preparing, accepting, canSkip, rejected, counter.View(), timeoutInst),
                lastChecksum, log, executed, sent)
    }

    constructor (cfg: Config, me: NodeId)
      requires me in cfg.members
      ensures Valid() && View() == Spec.InitNode(me)
      ensures this.cfg == cfg && fresh(Parts())
    {
      this.cfg := cfg;
      this.me := me;
      acceptor := new AcceptorState();
      proposer := new ProposerState();
      counter := new MsgCounter();
      learner := new LearnerState();
      inst, preparing, accepting, canSkip, rejected, timeoutInst := 0, false, false, false, false, 0;
      lastChecksum, log, executed, sent := 0, map[], [], {};
    }

    // ---- start of a process ----

    /** A process starts with what earlier ones left: the log on disk, and messages in the network. */
    constructor Started(cfg: Config, me: NodeId, log: map<nat, Spec.Record>, sent: set<Msg>)
      requires me in cfg.members
      ensures Valid() && View() == Spec.InitNode(me).(log := log, sent := sent)
      ensures this.cfg == cfg && fresh(Parts())
    {
      this.cfg := cfg;
      this.me := me;
      acceptor := new AcceptorState();
      proposer := new ProposerState();
      counter := new MsgCounter();
      learner := new LearnerState();
      inst, preparing, accepting, canSkip, rejected, timeoutInst := 0, false, false, false, false, 0;
      lastChecksum, executed := 0, [];
      this.log, this.sent := log, sent;
    }

    /** The acceptor takes over the newest record of the log. */
    method Load() returns (loaded: nat)
      modifies acceptor
      ensures loaded == LoadedInst(log)
      ensures log != map[] ==> acceptor.View() == LoadedAcceptor(log)
      ensures log == map[] ==> unchanged(acceptor)
    {
      loaded := 0;
      if log == map[] {
        return;
      }
      TopIs(log, Top(log));
      loaded :| loaded in log && forall j | j in log :: j <= loaded;
      TopIs(log, loaded);
      var r := log[loaded];
      acceptor.promise, acceptor.accepted, acceptor.value, acceptor.checksum := r.promise, r.accepted, r.value, r.checksum;
    }

    /** The state machine runs the records that its checkpoint does not cover; a missing one is an error. */
    method PlayLog(begin: nat, end: nat, minChosen: nat) returns (ok: bool)
      modifies this`executed
      ensures ok == (begin >= minChosen && Playable(log, begin, end))
      ensures ok && begin < end ==> executed == old(executed) + PaxosRestart.PlayLog(log, begin, end)
    {
      if begin < minChosen {
        return false;
      }
      var i := begin;
      while i < end
        invariant i >= begin && (begin < end ==> i <= end)
        invariant Playable(log, begin, i) && executed == old(executed) + PaxosRestart.PlayLog(log, begin, i)
      {
        if i !in log {
          return false;
        }
        PlayLogAppend(log, begin, i);
        executed := executed + [log[i].value];
        i := i + 1;
      }
      return true;
    }

    /** Start of the node; `cp` is the first instance the state machine's checkpoint does not cover. */
    method Init(cp: nat, minChosen: nat) returns (ok: bool)
      requires Valid() && View() == Spec.InitNode(me).(log := log, sent := sent)
      modifies this, acceptor, proposer
      ensures ok == Restart(old(View()), cp, minChosen).Some?
      ensures ok ==> Valid() && View() == Restart(old(View()), cp, minChosen).value
    {
      hide PaxosRestart.PlayLog, Playable, IsTop;
      var loaded := Load();
      var min := minChosen;
      inst := cp;
      if cp < loaded {
        ok := PlayLog(cp, loaded, minChosen);
        if !ok {
          return;
        }
        inst := loaded;
      } else if cp > loaded {
        if cp > loaded + 1 {
          if loaded != 0 {
            return false;
          }
          min := cp;
        }
        acceptor.Init();
      }
      proposer.pid := acceptor.promise.pid + 1;
      InitLastChecksum(min);
      ok := true;
    }

    method InitLastChecksum(min: nat)
      modifies this`lastChecksum
      ensures lastChecksum == RestartChecksum(log, inst, min)
    {
      if inst == 0 || inst <= min {
        lastChecksum := 0;
      } else if inst - 1 in log {
        lastChecksum := log[inst - 1].checksum;
      } else {
        lastChecksum := 0;
      }
    }

    // ---- sending: a message to oneself is handled before the call returns ----

    method SendMessage(to: NodeId, m: Msg)
      requires Valid() && m.from == me
      requires to == me ==> OwnNow(View(), m) && (m.PrepareReply? || m.AcceptReply?)
      modifies Parts()
      ensures Valid()
      ensures View() == if to == me then Spec.OnReceive(cfg, Spec.Send(old(View()), m), m) else Spec.Send(old(View()), m)
      decreases Rank(m), 9
    {
      sent := sent + {m};
      if to == me {
        OnReceivePaxosMsg(m);
      }
    }

    method BroadcastMessage(m: Msg)
      requires Valid() && m.from == me && OwnNow(View(), m)
      modifies Parts()
      ensures Valid() && View() == SelfReceive(cfg, Spec.Send(old(View()), m), m)
      decreases Rank(m), 9
    {
      sent := sent + {m};
      OnReceivePaxosMsg(m);
    }

    // ---- dispatch ----

    method ChecksumLogic(m: Msg)
      requires Valid()
      modifies this`lastChecksum
      ensures Valid() && View() == Spec.AdoptChecksum(old(View()), m)
    {
      if m.Last() == 0 {
        return;
      }
      if m.inst != inst {
        return;
      }
      if inst > 0 && lastChecksum == 0 {
        lastChecksum := m.Last();
      }
    }

    method OnReceivePaxosMsg(m: Msg)
      requires Valid() && OwnNow(View(), m)
      modifies Parts()
      ensures Valid() && View() == SelfReceive(cfg, old(View()), m)
      decreases Rank(m), 8
    {
      if m.PrepareReply? || m.AcceptReply? {
        if m.from !in cfg.members {
          return;
        }
        ReceiveMsgForProposer(m);
      } else if m.Prepare? || m.Accept? {
        if m.from !in cfg.members {
          return;
        }
        ChecksumLogic(m);
        ReceiveMsgForAcceptor(m);
      } else {
        ChecksumLogic(m);
        ReceiveMsgForLearner(m);
      }
    }

    method ReceiveMsgForProposer(m: Msg)
      requires Valid() && (m.PrepareReply? || m.AcceptReply?)
      modifies Parts()
      ensures Valid() && View() == Spec.ReceiveForProposer(cfg, old(View()), m)
      decreases Rank(m), 7
    {
      if m.inst != inst {
        if m.inst + 1 == inst {
          OnExpiredReply(m.reject);
        }
        return;
      }
      if m.PrepareReply? {
        OnPrepareReply(m);
      } else {
        OnAcceptReply(m);
      }
    }

    method ReceiveMsgForAcceptor(m: Msg)
      requires Valid() && (m.Prepare? || m.Accept?) && OwnNow(View(), m)
      modifies Parts()
      ensures Valid()
      ensures m.from != me ==> View() == Spec.ReceiveForAcceptor(cfg, old(View()), m)
      ensures m.from == me ==> View() == SelfReceive(cfg, old(View()), m)
      decreases Rank(m), 7
    {
      if m.inst == inst + 1 {
        ReceiveMsgForLearner(Success(inst, m.from, m.pid, 0));
      }
      if m.inst == inst {
        if m.Prepare? {
          OnPrepare(m);
        } else {
          OnAccept(m);
        }
      }
    }

    method ReceiveMsgForLearner(m: Msg)
      requires Valid() && (m.Success? || m.LearnValue?)
      modifies Parts()
      ensures Valid() && View() == Spec.ReceiveForLearner(cfg, old(View()), m)
      decreases Rank(m), 7
    {
      if m.LearnValue? {
        OnSendLearnValue(m);
      } else {
        OnProposerSendSuccess(m);
      }
      if learner.isLearned {
        executed := executed + [learner.learnedValue];
        lastChecksum := learner.newChecksum;
        NewInstance();
      }
    }

    method NewInstance()
      requires me in cfg.members
      modifies Parts()
      ensures Valid() && inst == old(inst) + 1
      ensures acceptor.View() == old(acceptor.View()).(accepted := NULL_BALLOT, value := [], checksum := 0)
      ensures proposer.pid == old(proposer.pid) && proposer.highestPre == old(proposer.highestPre)
      ensures proposer.highestOther == 0 && proposer.value == []
      ensures counter.View() == Spec.NEW_ROUND && !preparing && !accepting
      ensures unchanged(this`canSkip, this`rejected, this`timeoutInst, this`lastChecksum, this`log, this`executed, this`sent)
    {
      inst := inst + 1;
      acceptor.Init();
      learner.Init();
      counter.StartNewRound();
      proposer.Init();
      preparing := false;
      accepting := false;
    }

    // ---- acceptor ----

    method OnPrepare(m: Msg)
      requires Valid() && m.Prepare? && m.inst == inst
      modifies Parts()
      ensures Valid()
      ensures m.from != me ==> View() == Spec.OnPrepare(cfg, old(View()), m.from, m.pid)
      ensures m.from == me ==> View() == SelfReceive(cfg, old(View()), m)
      decreases Rank(m), 6
    {
      var b := Ballot(m.pid, m.from);
      var reply: Msg;
      if b.Ge(acceptor.promise) {
        reply := PrepareReply(inst, me, m.from, m.pid, 0, acceptor.accepted,
                              if acceptor.accepted.pid > 0 then acceptor.value else []);
        acceptor.promise := b;
        var rec := acceptor.Persist(cfg, inst, lastChecksum);
        log := log[inst := rec];
      } else {
        reply := PrepareReply(inst, me, m.from, m.pid, acceptor.promise.pid, NULL_BALLOT, []);
      }
      assert reply == Spec.PrepareAnswer(old(View()), m.from, m.pid);
      assert Spec.Send(View(), reply) == Spec.OnPrepare(cfg, old(View()), m.from, m.pid);
      SendMessage(m.from, reply);
    }

    method OnAccept(m: Msg)
      requires Valid() && m.Accept? && m.inst == inst
      modifies Parts()
      ensures Valid()
      ensures m.from != me ==> View() == Spec.OnAccept(cfg, old(View()), m.from, m.pid, m.value)
      ensures m.from == me ==> View() == SelfReceive(cfg, old(View()), m)
      decreases Rank(m), 6
    {
      var b := Ballot(m.pid, m.from);
      var reply: Msg;
      if b.Ge(acceptor.promise) {
        reply := AcceptReply(inst, me, m.from, m.pid, 0);
        acceptor.promise := b;
        acceptor.accepted := b;
        acceptor.value := m.value;
        var rec := acceptor.Persist(cfg, inst, lastChecksum);
        log := log[inst := rec];
      } else {
        reply := AcceptReply(inst, me, m.from, m.pid, acceptor.promise.pid);
      }
      assert reply == Spec.AcceptAnswer(old(View()), m.from, m.pid);
      assert Spec.Send(View(), reply) == Spec.OnAccept(cfg, old(View()), m.from, m.pid, m.value);
      SendMessage(m.from, reply);
    }

    // ---- learner ----

    method OnSendLearnValue(m: Msg)
      requires Valid() && m.LearnValue?
      modifies this`log, learner
      ensures m.inst != inst ==> learner.Fresh() && log == old(log)
      ensures m.inst == inst ==>
                learner.isLearned && learner.learnedValue == m.value
                && learner.newChecksum == Spec.NextChecksum(cfg, inst, lastChecksum, m.value, 0)
                && log == old(log)[inst := Spec.Record(m.ballot, m.ballot, m.value, learner.newChecksum)]
    {
      if m.inst > inst {
        return;
      }
      if m.inst == inst {
        var rec := learner.LearnValue(cfg, m.inst, m.ballot, m.value, lastChecksum);
        log := log[inst := rec];
      }
    }

    method OnProposerSendSuccess(m: Msg)
      requires Valid() && m.Success?
      modifies learner
      ensures if Spec.SuccessApplies(View(), m.inst, m.from, m.pid)
              then learner.isLearned && learner.learnedValue == acceptor.value && learner.newChecksum == acceptor.checksum
              else learner.Fresh()
    {
      if m.inst != inst {
        return;
      }
      if acceptor.accepted.IsNull() {
        return;
      }
      if acceptor.accepted != Ballot(m.pid, m.from) {
        return;
      }
      learner.LearnValueWithoutWrite(acceptor.value, acceptor.checksum);
    }

    // ---- proposer ----

    method ExitPrepare()
      modifies this`preparing
      ensures !preparing
    {
      if preparing {
        preparing := false;
      }
    }

    method ExitAccept()
      modifies this`accepting
      ensures !accepting
    {
      if accepting {
        accepting := false;
      }
    }

    method OnExpiredReply(reject: nat)
      requires Valid()
      modifies this`rejected, proposer`highestOther
      ensures Valid()
      ensures View() == if reject != 0 then old(View()).(prop := Spec.NoteReject(old(View()).prop, reject)) else old(View())
    {
      if reject != 0 {
        rejected := true;
        proposer.SetOtherProposalID(reject);
      }
    }

    method NewValue(value: Value)
      requires Valid()
      modifies Parts()
      ensures Valid() && View() == Spec.NewValue(cfg, old(View()), value)
    {
      if |proposer.value| == 0 {
        proposer.value := value;
      }
      if canSkip && !rejected {
        Accept();
      } else {
        Prepare(rejected);
      }
    }

    /** The flags of a new prepare, and its message. */
    method EnterPrepare(needNew: bool) returns (m: Msg)
      requires Valid()
      modifies this, proposer, counter
      ensures Valid() && Spec.Send(View(), m) == Spec.StartPrepare(old(View()), needNew)
      ensures m == Msg.Prepare(inst, me, Spec.NextPid(old(View()).prop, needNew))
      ensures inst == old(inst)
    {
      ExitAccept();
      preparing := true;
      canSkip := false;
      rejected := false;
      proposer.highestPre := NULL_BALLOT;
      if needNew {
        proposer.NewPrepare();
      }
      counter.StartNewRound();
      timeoutInst := inst;
      m := Msg.Prepare(inst, me, proposer.pid);
    }

    method Prepare(needNew: bool)
      requires Valid()
      modifies Parts()
      ensures Valid() && View() == Spec.DoPrepare(cfg, old(View()), needNew)
      decreases 6, 0
    {
      hide SelfReceive, Spec.DoPrepare, Spec.StartPrepare;
      PrepareTalksToItself(cfg, View(), needNew);
      var m := EnterPrepare(needNew);
      BroadcastMessage(m);
    }

    method OnPrepareReply(m: Msg)
      requires Valid() && m.PrepareReply?
      modifies Parts()
      ensures Valid()
      ensures View() == Spec.OnPrepareReply(cfg, old(View()), m.from, m.pid, m.reject, m.pre, m.value)
      decreases Rank(m), 6
    {
      if !preparing {
        return;
      }
      if m.pid != proposer.pid {
        return;
      }
      counter.AddReceive(m.from);
      if m.reject == 0 {
        counter.AddPromiseOrAccept(m.from);
        proposer.AddPreAcceptValue(m.pre, m.value);
      } else {
        counter.AddReject(m.from);
        rejected := true;
        proposer.SetOtherProposalID(m.reject);
      }
      assert View() == Spec.CountPrepareReply(old(View()), m.from, m.reject, m.pre, m.value);
      if |counter.passes| >= cfg.Majority() {
        canSkip := true;
        Accept();
      }
    }

    method Accept()
      requires Valid()
      modifies Parts()
      ensures Valid() && View() == Spec.DoAccept(cfg, old(View()))
      decreases 4, 0
    {
      ExitPrepare();
      accepting := true;
      var m := Msg.Accept(inst, me, proposer.pid, proposer.value, lastChecksum);
      counter.StartNewRound();
      timeoutInst := inst;
      assert Spec.Send(View(), m) == Spec.StartAccept(old(View()));
      BroadcastMessage(m);
    }

    method OnAcceptReply(m: Msg)
      requires Valid() && m.AcceptReply?
      modifies Parts()
      ensures Valid()
      ensures View() == Spec.OnAcceptReply(cfg, old(View()), m.from, m.pid, m.reject)
      decreases Rank(m), 6
    {
      if !accepting {
        return;
      }
      if m.pid != proposer.pid {
        return;
      }
      counter.AddReceive(m.from);
      if m.reject == 0 {
        counter.AddPromiseOrAccept(m.from);
      } else {
        counter.AddReject(m.from);
        rejected := true;
        proposer.SetOtherProposalID(m.reject);
      }
      assert View() == Spec.CountAcceptReply(old(View()), m.from, m.reject);
      if |counter.passes| >= cfg.Majority() {
        ExitAccept();
        ProposerSendSuccess();
      }
    }

    method ProposerSendSuccess()
      requires Valid()
      modifies Parts()
      ensures Valid() && View() == Spec.SendSuccess(old(View()))
      decreases 2, 0
    {
      BroadcastMessage(Success(inst, me, proposer.pid, lastChecksum));
    }

    method OnTimeout()
      requires Valid()
      modifies Parts()
      ensures Valid() && View() == Spec.OnTimeout(cfg, old(View()))
    {
      if inst != timeoutInst {
        return;
      }
      Prepare(rejected);
    }

    method OnNewValueCommitTimeout()
      requires Valid()
      modifies this`preparing, this`accepting
      ensures Valid() && View() == Spec.OnCommitTimeout(old(View()))
    {
      ExitPrepare();
      ExitAccept();
    }

    // ---- log shipping ----

    /** Ship the records from `begin` on to `to`, up to the current instance or the first one that is missing;
        each carries the checksum of the one before it, the first carries none. */
    method SendLearnedValue(begin: nat, to: NodeId) returns (next: nat)
      requires Valid()
      modifies this`sent
      ensures Valid() && next >= begin && (next >= inst || next !in log)
      ensures next > begin ==> next <= inst && (forall i | begin <= i < next :: i in log)
                               && View() == Spec.ShipRun(old(View()), begin, next, to)
      ensures next == begin ==> View() == old(View())
    {
      next := begin;
      var last := 0;
      while next < inst && next in log
        invariant next >= begin && (next > begin ==> next <= inst)
        invariant forall i | begin <= i < next :: i in log
        invariant last == if next > begin then log[next - 1].checksum else 0
        invariant View() == if next > begin then Spec.ShipRun(old(View()), begin, next, to) else old(View())
      {
        var rec := log[next];
        sent := sent + {LearnValue(next, me, to, rec.accepted, rec.value, last)};
        last := rec.checksum;
        next := next + 1;
      }
    }
  }
}
