/** Checkpoint sender and receiver in the form the program has, proved against CheckpointTransfer. */
module CheckpointObjects {
  import opened Common
  import opened CheckpointTransfer

  const ACK_LEAD: nat := 10

  // ---- the receiver ----

  lemma {:induction false} SplitTrailing(s: Path, dir: Path)
    ensures Split(s + "/", dir) == Split(s, dir)
    decreases |s|
  {
    if s == [] {
      assert s + "/" == "/" && "/"[1..] == [];
    } else {
      assert (s + "/")[1..] == s[1..] + "/";
      if s[0] == '/' {
        SplitTrailing(s[1..], []);
      } else {
        SplitTrailing(s[1..], dir + [s[0]]);
      }
    }
  }

  /** Every part but the last, each followed by a slash. */
  function JoinDirs(parts: seq<Path>): Path {
    if parts == [] then [] else JoinDirs(parts[..|parts| - 1]) + parts[|parts| - 1] + "/"
  }

  lemma {:induction false} JoinLast(parts: seq<Path>)
    requires parts != []
    ensures Join(parts) == JoinDirs(parts[..|parts| - 1]) + parts[|parts| - 1]
    decreases |parts|
  {
    if |parts| > 1 {
      var rest := parts[1..];
      JoinLast(rest);
      JoinFirst(parts[..|parts| - 1]);
      assert parts[..|parts| - 1][1..] == rest[..|rest| - 1];
    }
  }

  lemma {:induction false} JoinFirst(parts: seq<Path>)
    requires parts != []
    ensures JoinDirs(parts) == parts[0] + "/" + JoinDirs(parts[1..])
    decreases |parts|
  {
    if |parts| > 1 {
      JoinFirst(parts[..|parts| - 1]);
      assert parts[..|parts| - 1][1..] == parts[1..][..|parts| - 2];
    }
  }

  class CheckpointReceiver {
    const tmp: TmpDir
    var sender: NodeId
    var uuid: nat
    var sequence: nat
    var files: Files

    function View(): Receiver
      reads this
    {
      Receiver(sender, uuid, sequence, files)
    }

    constructor (tmp: TmpDir, files: Files)
      ensures View() == Receiver(NULL_NODE, 0, 0, files) && this.tmp == tmp
    {
      this.tmp := tmp;
      this.files := files;
      sender, uuid, sequence := NULL_NODE, 0, 0;
    }

    method Reset()
      modifies this
      ensures View() == CheckpointTransfer.Reset(old(View()))
    {
      sender, uuid, sequence := NULL_NODE, 0, 0;
    }

    method NewReceiver(node: NodeId, id: nat, io: Io) returns (ret: int)
      modifies this
      ensures (View(), ret) == CheckpointTransfer.NewReceiver(old(View()), node, id, io)
    {
      if io.Fails? {
        files := map path | path in files && path in io.kept :: files[path];
        return -1;
      }
      files := map[];
      sender, uuid, sequence := node, id, 0;
      return 0;
    }

    /** The name is taken apart character by character, with a slash before and behind it. */
    method SplitPath(path: Path) returns (parts: seq<Path>)
      ensures parts == Parts(path)
    {
      var s := "/" + path + "/";
      parts := [];
      var dir: Path := [];
      var i := 0;
      assert s[1..] == path + "/" && s[0..] == s;
      SplitTrailing(path, []);
      while i < |s|
        invariant 0 <= i <= |s|
        invariant parts + Split(s[i..], dir) == Parts(path)
        invariant i == |s| ==> dir == []
      {
        assert s[i..][1..] == s[i + 1..];
        if s[i] == '/' {
          if |dir| > 0 {
            parts := parts + [dir];
          }
          dir := [];
        } else {
          dir := dir + [s[i]];
        }
        i := i + 1;
      }
    }

    method InitFilePath(path: Path) returns (format: Path)
      ensures format == Format(path)
    {
      hide Split;
      var parts := SplitPath(path);
      format := "";
      if |parts| > 0 && |parts[0]| > 0 && parts[0][0] != '.' {
        format := format + "/";
      }
      ghost var root := format;
      var k := 0;
      while k < |parts|
        invariant 0 <= k <= |parts|
        invariant k < |parts| ==> format == root + JoinDirs(parts[..k])
        invariant k == |parts| ==> format == root + Join(parts)
      {
        if k + 1 == |parts| {
          JoinLast(parts);
          format := format + parts[k];
        } else {
          assert parts[..k + 1][..k] == parts[..k];
          format := format + (parts[k] + "/");
        }
        k := k + 1;
      }
    }

    method ReceiveCheckpoint(m: CpMsg, io: Io) returns (ret: int)
      modifies this
      ensures (View(), ret) == ReceiveBlock(tmp, old(View()), m, io)
    {
      if m.node != sender || m.uuid != uuid {
        return -2;
      }
      if m.sequence == sequence {
        return 0;
      }
      if m.sequence != sequence + 1 {
        return -2;
      }
      var path := InitFilePath(tmp(m.smid) + "/" + m.path);
      if path !in files {
        files := files[path := []];
      }
      if |files[path]| != m.offset {
        assert files == old(files)[path := FileAt(old(files), path)];
        return -2;
      }
      var n := if io.Fails? && io.written <= |m.buffer| then io.written else |m.buffer|;
      files := files[path := files[path] + m.buffer[..n]];
      assert files == old(files)[path := FileAt(old(files), path) + m.buffer[..n]];
      if io.Fails? {
        return -1;
      }
      assert m.buffer[..n] == m.buffer;
      assert files == old(files)[path := FileAt(old(files), path) + m.buffer];
      sequence := sequence + 1;
      return 0;
    }

    method OnSendCheckpoint(m: CpMsg, io: Io) returns (ack: bool)
      modifies this
      ensures View() == CheckpointTransfer.OnSendCheckpoint(tmp, old(View()), m, io)
      ensures m.flag == END ==> (ack <==> IsReceiverFinish(old(View()), m))
    {
      var ret := 0;
      match m.flag {
        case BEGIN => ret := NewReceiver(m.node, m.uuid, io);
        case ING => ret := ReceiveCheckpoint(m, io);
        case END =>
          if !(m.node == sender && m.uuid == uuid && m.sequence == sequence + 1) {
            ret := -1;
          }
      }
      if ret != 0 {
        Reset();
      }
      ack := ret == 0;
    }
  }

  // ---- the sender ----

  /** The receiver's answer to one message; a failed one makes the sender end. */
  datatype Ack = Ack(node: NodeId, uuid: nat, sequence: nat, ok: bool)

  function Ings(node: NodeId, uuid: nat, blocks: seq<Block>): seq<CpMsg> {
    seq(|blocks|, k requires 0 <= k < |blocks| => Ing(node, uuid, blocks, k))
  }

  lemma IngsAppend(node: NodeId, uuid: nat, blocks: seq<Block>, b: Block)
    ensures Ings(node, uuid, blocks + [b])
         == Ings(node, uuid, blocks) + [CpMsg(ING, node, uuid, |blocks| + 1, b.smid, b.path, b.offset, b.buffer)]
  {
  }

  /** How far the expected number gets when these acks arrive one after the other. */
  function AckedBy(target: NodeId, uuid: nat, acked: nat, acks: seq<Ack>): (n: nat)
    ensures n >= acked
    decreases |acks|
  {
    if acks == [] then acked
    else AckedBy(target, uuid, if acks[0] == Ack(target, uuid, acked, true) then acked + 1 else acked, acks[1..])
  }

  /** The acks 0, 1, 2, .. of the transfer, up to but without `n`, open the window up to `n`. */
  lemma {:induction false} AckedInOrder(target: NodeId, uuid: nat, acked: nat, n: nat)
    requires acked <= n
    ensures AckedBy(target, uuid, acked, InOrder(target, uuid, acked, n)) == n
    decreases n - acked
  {
    if acked < n {
      assert InOrder(target, uuid, acked, n)[1..] == InOrder(target, uuid, acked + 1, n);
      AckedInOrder(target, uuid, acked + 1, n);
    }
  }

  function InOrder(target: NodeId, uuid: nat, begin: nat, end: nat): (acks: seq<Ack>)
    ensures forall a | a in acks :: a.ok
    decreases end - begin
  {
    if begin >= end then [] else [Ack(target, uuid, begin, true)] + InOrder(target, uuid, begin + 1, end)
  }

  /** What is left of the outcomes of sends when `n` sends have worked, each tried until it did. */
  function AfterSends(outcomes: seq<bool>, n: nat): seq<bool>
    decreases |outcomes| + n
  {
    if n == 0 || outcomes == [] then outcomes
    else AfterSends(outcomes[1..], if outcomes[0] then n - 1 else n)
  }

  predicate NextWorks(outcomes: seq<bool>) {
    outcomes == [] || outcomes[0]
  }

  /** The two begins go out, and so does the end behind `n` blocks. */
  predicate EndsWork(outcomes: seq<bool>, n: nat) {
    NextWorks(outcomes) && NextWorks(AfterSends(outcomes, 1)) && NextWorks(AfterSends(outcomes, n + 2))
  }

  /** Only the begins and the end may not fail; a block is sent again until it goes out. */
  lemma {:induction false} GoodSendsWork(outcomes: seq<bool>, n: nat)
    requires forall k | 0 <= k < |outcomes| :: outcomes[k]
    ensures NextWorks(AfterSends(outcomes, n))
    decreases |outcomes|
  {
    if outcomes != [] && n > 0 {
      GoodSendsWork(outcomes[1..], n - 1);
    }
  }

  lemma {:induction false} AfterSendsAdd(outcomes: seq<bool>, m: nat, n: nat)
    ensures AfterSends(AfterSends(outcomes, m), n) == AfterSends(outcomes, m + n)
    decreases |outcomes| + m
  {
    if m > 0 && outcomes != [] {
      AfterSendsAdd(outcomes[1..], if outcomes[0] then m - 1 else m, n);
    }
  }

  lemma OneSend(outcomes: seq<bool>)
    requires NextWorks(outcomes)
    ensures AfterSends(outcomes, 1) == if outcomes == [] then [] else outcomes[1..]
  {
    if outcomes != [] {
      NoSends(outcomes[1..]);
    }
  }

  lemma NoSends(outcomes: seq<bool>)
    ensures AfterSends(outcomes, 0) == outcomes
  {
  }

  class CheckpointSender {
    const me: NodeId
    const target: NodeId
    const uuid: nat
    var sequence: nat
    var ackSequence: nat
    var isEnd: bool
    var alreadySent: set<Path>
    var sent: seq<CpMsg>
    var arriving: seq<Ack>      // the acks still to arrive, up to the timeout
    var outcomes: seq<bool>     // whether the coming sends work; all later ones do
    ghost var blocks: seq<Block>

    constructor (me: NodeId, target: NodeId, uuid: nat, arriving: seq<Ack>, outcomes: seq<bool>)
      ensures this.me == me && this.target == target && this.uuid == uuid
      ensures sequence == 0 && ackSequence == 0 && !isEnd && sent == [] && blocks == [] && alreadySent == {}
    {
      this.me, this.target, this.uuid, this.arriving, this.outcomes := me, target, uuid, arriving, outcomes;
      sequence, ackSequence, isEnd, alreadySent, sent, blocks := 0, 0, false, {}, [], [];
    }

    /** What went out is the begin, twice, and the blocks so far, and never more than the window. */
    ghost predicate Sending()
      reads this
    {
      && sequence == |blocks| + 1
      && sent == [BeginMsg(me, uuid), BeginMsg(me, uuid)] + Ings(me, uuid, blocks)
      && |blocks| <= ackSequence + ACK_LEAD
    }

    /** What all acks still to arrive will open the window to. */
    function Total(): (n: nat)
      reads this
      ensures n >= ackSequence && (arriving == [] ==> n == ackSequence)
    {
      AckedBy(target, uuid, ackSequence, arriving)
    }

    /** Nobody has ended the sender and no answer still to arrive will. */
    predicate NothingFails()
      reads this
    {
      !isEnd && forall a | a in arriving :: a.ok
    }

    method OnAck(ack: Ack)
      modifies this`ackSequence
      ensures ackSequence == if ack == Ack(target, uuid, old(ackSequence), ack.ok) then old(ackSequence) + 1 else old(ackSequence)
    {
      if ack.node != target {
        return;
      }
      if ack.uuid != uuid {
        return;
      }
      if ack.sequence != ackSequence {
        return;
      }
      ackSequence := ackSequence + 1;
    }

    method End()
      modifies this`isEnd
      ensures isEnd
    {
      isEnd := true;
    }

    /** A failed answer ends the sender whatever transfer it is about. */
    method OnSendCheckpointAck(ack: Ack)
      modifies this`ackSequence, this`isEnd
      ensures isEnd == (old(isEnd) || !ack.ok)
      ensures ackSequence == if ack == Ack(target, uuid, old(ackSequence), true) then old(ackSequence) + 1 else old(ackSequence)
    {
      if ack.ok {
        OnAck(ack);
      } else {
        End();
      }
    }

    /** Some acks come in while the sender does something else. */
    method ComeIn()
      modifies this`ackSequence, this`isEnd, this`arriving
      ensures ackSequence >= old(ackSequence) && (old(isEnd) ==> isEnd)
      ensures Total() == old(Total()) && (old(NothingFails()) ==> NothingFails())
    {
      var more: bool := *;
      while more && arriving != []
        invariant ackSequence >= old(ackSequence) && (old(isEnd) ==> isEnd)
        invariant Total() == old(Total()) && (old(NothingFails()) ==> NothingFails())
        decreases |arriving|
      {
        OnSendCheckpointAck(arriving[0]);
        arriving := arriving[1..];
        more := *;
      }
    }

    method CheckAck(sendSequence: nat) returns (ok: bool)
      modifies this`ackSequence, this`isEnd, this`arriving
      ensures ok ==> sendSequence <= ackSequence + ACK_LEAD
      ensures ackSequence >= old(ackSequence) && (old(isEnd) ==> isEnd)
      ensures old(isEnd) ==> ok == (sendSequence <= old(ackSequence) + ACK_LEAD) && ackSequence == old(ackSequence)
      ensures Total() == old(Total()) && (old(NothingFails()) ==> NothingFails())
      ensures !ok ==> isEnd || (arriving == [] && sendSequence > ackSequence + ACK_LEAD)
      ensures old(NothingFails()) ==> ok == (sendSequence <= old(Total()) + ACK_LEAD)
    {
      while sendSequence > ackSequence + ACK_LEAD
        invariant Total() == old(Total()) && (old(NothingFails()) ==> NothingFails())
        invariant ackSequence >= old(ackSequence) && (old(isEnd) ==> isEnd && ackSequence == old(ackSequence))
        decreases |arriving|
      {
        if isEnd || arriving == [] {
          return false;
        }
        OnSendCheckpointAck(arriving[0]);
        arriving := arriving[1..];
      }
      return true;
    }

    /** A send that fails puts nothing on the network. */
    method SendMessage(m: CpMsg) returns (ret: int)
      modifies this`sent, this`outcomes
      ensures ret == if old(outcomes) == [] || old(outcomes)[0] then 0 else -1
      ensures sent == if ret == 0 then old(sent) + [m] else old(sent)
      ensures ret == 0 <==> NextWorks(old(outcomes))
      ensures outcomes == if old(outcomes) == [] then [] else old(outcomes)[1..]
    {
      ret := 0;
      if outcomes != [] {
        ret := if outcomes[0] then 0 else -1;
        outcomes := outcomes[1..];
      }
      if ret == 0 {
        sent := sent + [m];
      }
    }

    /** A block is sent again and again until it goes out, the window closes for good or the sender is told to
        end. */
    method SendBuffer(b: Block) returns (ret: int)
      requires Sending()
      modifies this`sent, this`sequence, this`blocks, this`ackSequence, this`isEnd, this`arriving, this`outcomes
      ensures Sending() && (ret == 0 || ret == -1)
      ensures blocks == if ret == 0 then old(blocks) + [b] else old(blocks)
      ensures old(isEnd) ==> isEnd && ret == -1
      ensures Total() == old(Total()) && (old(NothingFails()) ==> NothingFails())
      ensures ret != 0 ==> isEnd || (arriving == [] && |blocks| + 1 > ackSequence + ACK_LEAD)
      ensures old(NothingFails()) ==> (ret == 0 <==> |old(blocks)| + 1 <= old(Total()) + ACK_LEAD)
      ensures ret == 0 ==> outcomes == AfterSends(old(outcomes), 1)
    {
      while true
        invariant Sending() && blocks == old(blocks) && (old(isEnd) ==> isEnd)
        invariant Total() == old(Total()) && (old(NothingFails()) ==> NothingFails())
        invariant AfterSends(outcomes, 1) == AfterSends(old(outcomes), 1)
        decreases |outcomes|
      {
        ComeIn();
        if isEnd {
          return -1;
        }
        var ok := CheckAck(sequence);
        if !ok {
          return -1;
        }
        IngsAppend(me, uuid, blocks, b);
        ret := SendMessage(CpMsg(ING, me, uuid, sequence, b.smid, b.path, b.offset, b.buffer));
        if ret == 0 {
          sequence := sequence + 1;
          blocks := blocks + [b];
          return 0;
        }
      }
    }

    /** All blocks of the file, once; on failure the first of them. */
    method SendFile(item: Item) returns (ret: int)
      requires Sending()
      modifies this
      ensures Sending() && (ret == 0 || ret == -1)
      ensures ret == 0 ==> alreadySent == old(alreadySent) + {item.Source()}
      ensures ret == 0 ==> blocks == old(blocks) + if item.Source() in old(alreadySent) then [] else Blocks(item, 0)
      ensures ret != 0 ==> item.Source() !in old(alreadySent) && blocks <= old(blocks) + Blocks(item, 0)
      ensures old(isEnd) ==> isEnd && blocks == old(blocks)
      ensures Total() == old(Total()) && (old(NothingFails()) ==> NothingFails())
      ensures ret == 0 ==> |blocks| >= |old(blocks)| && outcomes == AfterSends(old(outcomes), |blocks| - |old(blocks)|)
      ensures ret != 0 ==> |blocks| < |old(blocks)| + |Blocks(item, 0)|
      ensures ret != 0 ==> isEnd || (arriving == [] && |blocks| + 1 > ackSequence + ACK_LEAD)
    {
      hide Blocks, Ings, AfterSends, AckedBy;
      if item.Source() in alreadySent {
        NoSends(outcomes);
        return 0;
      }
      var offset := 0;
      var more := true;
      NoSends(outcomes);
      while more
        invariant Sending() && alreadySent == old(alreadySent) && offset >= 0
        invariant old(isEnd) ==> isEnd && blocks == old(blocks)
        invariant Total() == old(Total()) && (old(NothingFails()) ==> NothingFails())
        invariant |blocks| >= |old(blocks)| && outcomes == AfterSends(old(outcomes), |blocks| - |old(blocks)|)
        invariant more ==> offset <= |item.content| && blocks + Blocks(item, offset) == old(blocks) + Blocks(item, 0)
        invariant !more ==> blocks == old(blocks) + Blocks(item, 0)
        decreases if more then 1 else 0, |item.content| - offset
      {
        NextBlock(item, offset);
        var n := if |item.content| - offset < CHUNK then |item.content| - offset else CHUNK;
        if n == 0 {
          more := false;
        } else {
          AfterSendsAdd(old(outcomes), |blocks| - |old(blocks)|, 1);
          var r := SendBuffer(Block(item.smid, item.path, offset, item.content[offset..offset + n]));
          if r != 0 {
            return r;
          }
          if n < CHUNK {
            more := false;
          } else {
            offset := offset + n;
          }
        }
      }
      alreadySent := alreadySent + {item.Source()};
      return 0;
    }

    /** The files of all state machines, one after the other. */
    method SendFiles(items: seq<Item>) returns (ok: bool)
      requires Sending() && blocks == [] && alreadySent == {}
      modifies this
      ensures Sending() && blocks <= AllBlocks(items, {}) && (ok ==> blocks == AllBlocks(items, {}))
      ensures old(isEnd) ==> blocks == []
      ensures Total() == old(Total()) && (old(NothingFails()) ==> NothingFails())
      ensures ok ==> outcomes == AfterSends(old(outcomes), |blocks|)
      ensures !ok ==> isEnd || (arriving == [] && |blocks| + 1 > ackSequence + ACK_LEAD && |blocks| < |AllBlocks(items, {})|)
    {
      hide Blocks, AllBlocks, Sending, AfterSends, AckedBy;
      NoSends(outcomes);
      assert items[0..] == items && [] + AllBlocks(items, {}) == AllBlocks(items, {});
      var i := 0;
      while i < |items|
        invariant 0 <= i <= |items| && Sending() && (old(isEnd) ==> isEnd && blocks == [])
        invariant Total() == old(Total()) && (old(NothingFails()) ==> NothingFails())
        invariant outcomes == AfterSends(old(outcomes), |blocks|)
        invariant blocks + AllBlocks(items[i..], alreadySent) == AllBlocks(items, {})
      {
        FirstItem(items, i, alreadySent);
        ghost var before := blocks;
        ghost var rest := AllBlocks(items[i + 1..], alreadySent + {items[i].Source()});
        var ret := SendFile(items[i]);
        AfterSendsAdd(old(outcomes), |before|, if ret == 0 then |blocks| - |before| else 0);
        if ret != 0 {
          assert before + Blocks(items[i], 0) <= before + (Blocks(items[i], 0) + rest);
          return false;
        }
        i := i + 1;
      }
      assert items[|items|..] == [];
      NoBlocks(alreadySent);
      assert blocks + [] == blocks;
      return true;
    }

    /** The messages of a transfer, in order, up to where it is given up; the end only goes out when everything
        else did. */
    method SendCheckpoint(items: seq<Item>) returns (ok: bool)
      requires sequence == 0 && ackSequence == 0 && sent == [] && blocks == [] && alreadySent == {}
      modifies this
      ensures sent <= Messages(me, uuid, AllBlocks(items, {}))
      ensures ok == (sent == Messages(me, uuid, AllBlocks(items, {})))
      ensures old(NothingFails()) ==>
                var n := |AllBlocks(items, {})|;
                ok <==> n <= old(Total()) + ACK_LEAD && EndsWork(old(outcomes), n)
    {
      hide AllBlocks, Ings, AckedBy, AfterSends, Messages;
      ghost var all := AllBlocks(items, {});
      BeginsWith(me, uuid, all, []);
      var ret := SendMessage(BeginMsg(me, uuid));
      if ret != 0 {
        return false;
      }
      OneSend(old(outcomes));
      ret := SendMessage(BeginMsg(me, uuid));
      if ret != 0 {
        return false;
      }
      OneSend(AfterSends(old(outcomes), 1));
      AfterSendsAdd(old(outcomes), 1, 1);
      AfterSendsAdd(old(outcomes), 2, |all|);
      sequence := sequence + 1;
      NoIngs(me, uuid);
      ok := SendFiles(items);
      BeginsWith(me, uuid, all, blocks);
      if ok {
        EndsWith(me, uuid, all);
        ret := SendMessage(EndMsg(me, uuid, sequence));
        ok := ret == 0;
      }
    }
  }

  /** All messages of a transfer, in order. */
  function Messages(node: NodeId, uuid: nat, blocks: seq<Block>): seq<CpMsg> {
    [BeginMsg(node, uuid), BeginMsg(node, uuid)] + Ings(node, uuid, blocks) + [EndMsg(node, uuid, |blocks| + 1)]
  }

  lemma EndsWith(node: NodeId, uuid: nat, all: seq<Block>)
    ensures [BeginMsg(node, uuid), BeginMsg(node, uuid)] + Ings(node, uuid, all) + [EndMsg(node, uuid, |all| + 1)]
         == Messages(node, uuid, all)
  {
  }

  lemma NoIngs(node: NodeId, uuid: nat)
    ensures Ings(node, uuid, []) == []
  {
  }

  lemma BeginsWith(node: NodeId, uuid: nat, all: seq<Block>, part: seq<Block>)
    requires part <= all
    ensures var begin := [BeginMsg(node, uuid), BeginMsg(node, uuid)];
            && begin + Ings(node, uuid, part) <= Messages(node, uuid, all)
            && |begin + Ings(node, uuid, part)| < |Messages(node, uuid, all)|
            && [BeginMsg(node, uuid)] <= Messages(node, uuid, all) && [] <= Messages(node, uuid, all)
  {
    var begin := [BeginMsg(node, uuid), BeginMsg(node, uuid)];
    forall k | 0 <= k < |part|
      ensures Ings(node, uuid, part)[k] == Ings(node, uuid, all)[k]
    {
      assert part[k] == all[k];
    }
    assert Ings(node, uuid, part) <= Ings(node, uuid, all);
    assert Messages(node, uuid, all)[0] == BeginMsg(node, uuid);
  }

  function BlockLength(item: Item, offset: nat): nat
    requires offset <= |item.content|
  {
    if |item.content| - offset < CHUNK then |item.content| - offset else CHUNK
  }

  /** The next block of a file and what follows it. */
  lemma NextBlock(item: Item, offset: nat)
    requires offset <= |item.content|
    ensures Blocks(item, offset)
         == if BlockLength(item, offset) == 0 then []
            else [Block(item.smid, item.path, offset, item.content[offset..offset + BlockLength(item, offset)])]
                 + if BlockLength(item, offset) < CHUNK then [] else Blocks(item, offset + CHUNK)
  {
    var n := BlockLength(item, offset);
    assert offset + n == |item.content| ==> item.content[offset..offset + n] == item.content[offset..];
  }

  lemma NoBlocks(sent: set<Path>)
    ensures AllBlocks([], sent) == []
  {
  }

  lemma FirstItem(items: seq<Item>, i: nat, sent: set<Path>)
    requires i < |items|
    ensures AllBlocks(items[i..], sent)
         == (if items[i].Source() in sent then [] else Blocks(items[i], 0)) + AllBlocks(items[i + 1..], sent + {items[i].Source()})
  {
    assert items[i..][1..] == items[i + 1..];
    assert items[i].Source() in sent ==> sent + {items[i].Source()} == sent;
  }

  /** Everything a sender sends belongs to its transfer, also when it gives up half-way. */
  lemma SentIsOfTransfer(node: NodeId, uuid: nat, blocks: seq<Block>, sent: seq<CpMsg>, m: CpMsg)
    requires sent <= Messages(node, uuid, blocks) && m in sent
    ensures OfTransfer(m, node, uuid, blocks)
  {
    var i :| 0 <= i < |sent| && sent[i] == m;
    assert m == Messages(node, uuid, blocks)[i];
    if 2 <= i < 2 + |blocks| {
      assert m == Ings(node, uuid, blocks)[i - 2];
    }
  }
}
