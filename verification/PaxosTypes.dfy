/** Values, ballots, messages and the cluster configuration shared by every part of the
    consensus core. */
module PaxosTypes {
  import opened Common

  type Value = seq<char>

  /** Ballots are ordered by proposal id, ties broken by node id. */
  datatype Ballot = Ballot(pid: nat, node: NodeId) {
    predicate Ge(other: Ballot) {
      if pid == other.pid then node >= other.node else pid >= other.pid
    }

    predicate Gt(other: Ballot) {
      if pid == other.pid then node > other.node else pid > other.pid
    }

    predicate IsNull() {
      pid == 0
    }
  }

  const NULL_BALLOT := Ballot(0, 0)

  /** `Prepare`, `Accept` and `Success` are broadcast; the other messages name their receiver.
      `reject` is the proposal id of the promise that caused a rejection, 0 when there is none. */
  datatype Msg =
    | Prepare(inst: nat, from: NodeId, pid: nat)
    | PrepareReply(inst: nat, from: NodeId, to: NodeId, pid: nat, reject: nat, pre: Ballot, value: Value)
    | Accept(inst: nat, from: NodeId, pid: nat, value: Value, last: nat)
    | AcceptReply(inst: nat, from: NodeId, to: NodeId, pid: nat, reject: nat)
    | Success(inst: nat, from: NodeId, pid: nat, last: nat)
    | LearnValue(inst: nat, from: NodeId, to: NodeId, ballot: Ballot, value: Value, last: nat)
  {
    predicate IsPromise() { PrepareReply? && reject == 0 }

    predicate IsAccepted() { AcceptReply? && reject == 0 }

    /** The ballot a reply answers to. */
    function ReplyBallot(): Ballot
      requires PrepareReply? || AcceptReply?
    {
      Ballot(pid, to)
    }

    /** The checksum a message carries about the instances before its own, 0 for none. */
    function Last(): nat {
      match this
      case Accept(_, _, _, _, last) => last
      case Success(_, _, _, last) => last
      case LearnValue(_, _, _, _, _, last) => last
      case _ => 0
    }

    /** Whether the network may hand this message to node `q`; a node never gets its own. */
    predicate AddressedTo(q: NodeId) {
      && from != q
      && (PrepareReply? || AcceptReply? || LearnValue? ==> to == q)
    }
  }

  /** The membership is fixed; `crc` stands for the checksum function. */
  datatype Config = Config(members: set<NodeId>, crc: (nat, Value) -> nat) {
    function Majority(): nat {
      |members| / 2 + 1
    }
  }
}
