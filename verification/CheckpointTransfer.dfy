/** The transfer of a checkpoint: file names as the receiver forms them, the messages the sender makes of
    its files, and the receiver's state after any sequence of messages. */
module CheckpointTransfer {
  import opened Common

  type Bytes = seq<bv8>
  type Path = string

  const CHUNK: nat := 1048576

  // ---- file names ----

  /** The non-empty parts between slashes; `dir` is what has been read of the current part. */
  function Split(s: Path, dir: Path): (parts: seq<Path>)
    decreases |s|
  {
    if s == [] then (if dir == [] then [] else [dir])
    else if s[0] == '/' then (if dir == [] then [] else [dir]) + Split(s[1..], [])
    else Split(s[1..], dir + [s[0]])
  }

  function Parts(s: Path): seq<Path> {
    Split(s, [])
  }

  function Join(parts: seq<Path>): Path {
    if parts == [] then []
    else if |parts| == 1 then parts[0]
    else parts[0] + "/" + Join(parts[1..])
  }

  /** The name under which the receiver stores a file: repeated slashes are dropped, and a name that does
      not begin with a dot is made absolute. */
  function Format(s: Path): Path {
    var parts := Parts(s);
    (if parts != [] && parts[0] != [] && parts[0][0] != '.' then "/" else "") + Join(parts)
  }

  predicate Plain(dir: Path) {
    forall i | 0 <= i < |dir| :: dir[i] != '/'
  }

  predicate PartsOk(parts: seq<Path>) {
    forall i | 0 <= i < |parts| :: parts[i] != [] && Plain(parts[i])
  }

  lemma {:induction false} SplitParts(s: Path, dir: Path)
    requires Plain(dir)
    ensures PartsOk(Split(s, dir))
    decreases |s|
  {
    if s != [] {
      if s[0] == '/' {
        SplitParts(s[1..], []);
      } else {
        SplitParts(s[1..], dir + [s[0]]);
      }
    }
  }

  /** A part that is read to its end. */
  lemma {:induction false} SplitPlain(dir: Path, part: Path, rest: Path)
    requires Plain(part)
    ensures Split(part + rest, dir) == Split(rest, dir + part)
    decreases |part|
  {
    if part == [] {
      assert part + rest == rest && dir + part == dir;
    } else {
      assert (part + rest)[1..] == part[1..] + rest;
      assert (dir + [part[0]]) + part[1..] == dir + part;
      SplitPlain(dir + [part[0]], part[1..], rest);
    }
  }

  lemma {:induction false} SplitJoin(parts: seq<Path>)
    requires PartsOk(parts)
    ensures Parts(Join(parts)) == parts
    decreases |parts|
  {
    if |parts| == 1 {
      SplitPlain([], parts[0], []);
      assert parts[0] + [] == parts[0] && [] + parts[0] == parts[0];
    } else if |parts| > 1 {
      var rest := "/" + Join(parts[1..]);
      assert Join(parts) == parts[0] + rest;
      SplitPlain([], parts[0], rest);
      assert [] + parts[0] == parts[0];
      assert rest[1..] == Join(parts[1..]);
      SplitJoin(parts[1..]);
    }
  }

  /** Two names lead to the same stored file exactly when they have the same parts. */
  lemma SameFileIff(a: Path, b: Path)
    ensures Format(a) == Format(b) <==> Parts(a) == Parts(b)
  {
    FormatKeepsParts(a);
    FormatKeepsParts(b);
  }

  lemma FormatKeepsParts(s: Path)
    ensures Parts(Format(s)) == Parts(s)
  {
    SplitParts(s, []);
    var j := Join(Parts(s));
    SplitJoin(Parts(s));
    assert ("/" + j)[1..] == j;
    assert Parts("/" + j) == Parts(j);
    assert "" + j == j;
  }

  // ---- messages ----

  datatype Flag = BEGIN | ING | END

  datatype CpMsg = CpMsg(flag: Flag, node: NodeId, uuid: nat, sequence: nat, smid: nat, path: Path, offset: nat, buffer: Bytes)

  /** A file of a state machine's checkpoint, as listed for sending. */
  datatype Item = Item(smid: nat, dir: Path, path: Path, content: Bytes) {
    function Source(): Path { dir + path }
  }

  /** The directory under which the receiver keeps the files of one state machine. */
  type TmpDir = nat -> Path

  function Dest(tmp: TmpDir, smid: nat, path: Path): Path {
    Format(tmp(smid) + "/" + path)
  }

  /** One block of a file. */
  datatype Block = Block(smid: nat, path: Path, offset: nat, buffer: Bytes)

  /** Reading stops at the first block that is not full. */
  function Blocks(item: Item, offset: nat): seq<Block>
    decreases if offset < |item.content| then |item.content| - offset else 0
  {
    if offset >= |item.content| then []
    else if |item.content| - offset < CHUNK then [Block(item.smid, item.path, offset, item.content[offset..])]
    else [Block(item.smid, item.path, offset, item.content[offset..offset + CHUNK])] + Blocks(item, offset + CHUNK)
  }

  /** A source file is sent once, however often it is listed. */
  function AllBlocks(items: seq<Item>, sent: set<Path>): seq<Block> {
    if items == [] then []
    else if items[0].Source() in sent then AllBlocks(items[1..], sent)
    else Blocks(items[0], 0) + AllBlocks(items[1..], sent + {items[0].Source()})
  }

  function Ing(node: NodeId, uuid: nat, blocks: seq<Block>, k: nat): CpMsg
    requires k < |blocks|
  {
    var b := blocks[k];
    CpMsg(ING, node, uuid, k + 1, b.smid, b.path, b.offset, b.buffer)
  }

  function BeginMsg(node: NodeId, uuid: nat): CpMsg {
    CpMsg(BEGIN, node, uuid, 0, 0, [], 0, [])
  }

  function EndMsg(node: NodeId, uuid: nat, sequence: nat): CpMsg {
    CpMsg(END, node, uuid, sequence, 0, [], 0, [])
  }

  /** Every message of the transfer: the begin, one per block, the end. */
  predicate OfTransfer(m: CpMsg, node: NodeId, uuid: nat, blocks: seq<Block>) {
    || m == BeginMsg(node, uuid)
    || (m.flag == ING && 1 <= m.sequence <= |blocks| && m == Ing(node, uuid, blocks, m.sequence - 1))
    || m == EndMsg(node, uuid, |blocks| + 1)
  }

  // ---- the receiver ----

  type Files = map<Path, Bytes>

  datatype Receiver = Receiver(sender: NodeId, uuid: nat, sequence: nat, files: Files)

  /** What the file system does: all of it, or, before it fails, only a part of a write, and of a removal all
      but the files of `kept`. */
  datatype Io = Works | Fails(written: nat, kept: set<Path>)

  function FileAt(files: Files, path: Path): Bytes {
    if path in files then files[path] else []
  }

  /** The files of earlier transfers and the log are removed first; when that fails nothing else changes. */
  function NewReceiver(r: Receiver, node: NodeId, uuid: nat, io: Io): (Receiver, int) {
    if io.Fails? then (r.(files := map path | path in r.files && path in io.kept :: r.files[path]), -1)
    else (Receiver(node, uuid, 0, map[]), 0)
  }

  function Reset(r: Receiver): Receiver {
    r.(sender := NULL_NODE, uuid := 0, sequence := 0)
  }

  /** The receiver's new state and its return code. */
  function ReceiveBlock(tmp: TmpDir, r: Receiver, m: CpMsg, io: Io): (Receiver, int) {
    if m.node != r.sender || m.uuid != r.uuid then (r, -2)
    else if m.sequence == r.sequence then (r, 0)
    else if m.sequence != r.sequence + 1 then (r, -2)
    else
      var path := Dest(tmp, m.smid, m.path);
      var there := FileAt(r.files, path);
      if |there| != m.offset then (r.(files := r.files[path := there]), -2)
      else if io.Fails? then
        (r.(files := r.files[path := there + m.buffer[..if io.written <= |m.buffer| then io.written else |m.buffer|]]), -1)
      else (Receiver(r.sender, r.uuid, r.sequence + 1, r.files[path := there + m.buffer]), 0)
  }

  predicate IsReceiverFinish(r: Receiver, m: CpMsg) {
    m.node == r.sender && m.uuid == r.uuid && m.sequence == r.sequence + 1
  }

  /** A failed message makes the receiver forget the transfer. */
  function OnSendCheckpoint(tmp: TmpDir, r: Receiver, m: CpMsg, io: Io): Receiver {
    match m.flag
    case BEGIN => var (s, ret) := NewReceiver(r, m.node, m.uuid, io); if ret == 0 then s else Reset(s)
    case ING => var (s, ret) := ReceiveBlock(tmp, r, m, io); if ret == 0 then s else Reset(s)
    case END => if IsReceiverFinish(r, m) then r else Reset(r)
  }

  datatype Delivery = Delivery(m: CpMsg, io: Io)

  function ReceiveAll(tmp: TmpDir, r: Receiver, ds: seq<Delivery>): Receiver
    decreases |ds|
  {
    if ds == [] then r
    else ReceiveAll(tmp, OnSendCheckpoint(tmp, r, ds[0].m, ds[0].io), ds[1..])
  }

  // ---- what a complete transfer holds ----

  /** Appending block after block; every block must begin where its file ends. */
  function Replay(tmp: TmpDir, files: Files, blocks: seq<Block>): Option<Files>
    decreases |blocks|
  {
    if blocks == [] then Some(files)
    else
      var b := blocks[0];
      var path := Dest(tmp, b.smid, b.path);
      var there := FileAt(files, path);
      if |there| != b.offset then None else Replay(tmp, files[path := there + b.buffer], blocks[1..])
  }

  lemma {:induction false} ReplaySplit(tmp: TmpDir, files: Files, a: seq<Block>, b: seq<Block>)
    ensures Replay(tmp, files, a + b)
         == if Replay(tmp, files, a).None? then None else Replay(tmp, Replay(tmp, files, a).value, b)
    decreases |a|
  {
    if a == [] {
      assert a + b == b;
    } else {
      assert (a + b)[1..] == a[1..] + b;
      var path := Dest(tmp, a[0].smid, a[0].path);
      ReplaySplit(tmp, files[path := FileAt(files, path) + a[0].buffer], a[1..], b);
    }
  }

  /** The receiver that follows a transfer holds exactly its first blocks. */
  ghost predicate InStep(tmp: TmpDir, r: Receiver, node: NodeId, uuid: nat, blocks: seq<Block>) {
    r.sender == node && r.uuid == uuid ==>
      r.sequence <= |blocks| && Replay(tmp, map[], blocks[..r.sequence]) == Some(r.files)
  }

  lemma StepKeepsInStep(tmp: TmpDir, r: Receiver, d: Delivery, node: NodeId, uuid: nat, blocks: seq<Block>)
    requires InStep(tmp, r, node, uuid, blocks) && node != NULL_NODE
    requires d.m.node == node && d.m.uuid == uuid ==> OfTransfer(d.m, node, uuid, blocks)
    ensures InStep(tmp, OnSendCheckpoint(tmp, r, d.m, d.io), node, uuid, blocks)
  {
    var m := d.m;
    assert blocks[..0] == [];
    if m.flag == ING && r.sender == node == m.node && r.uuid == uuid == m.uuid && m.sequence == r.sequence + 1 {
      var k := r.sequence;
      var b := blocks[k];
      assert blocks[..k + 1] == blocks[..k] + [b];
      ReplaySplit(tmp, map[], blocks[..k], [b]);
      assert [b][1..] == [];
    }
  }

  lemma {:induction false} RunKeepsInStep(tmp: TmpDir, r: Receiver, ds: seq<Delivery>, node: NodeId, uuid: nat, blocks: seq<Block>)
    requires InStep(tmp, r, node, uuid, blocks) && node != NULL_NODE
    requires forall d | d in ds && d.m.node == node && d.m.uuid == uuid :: OfTransfer(d.m, node, uuid, blocks)
    ensures InStep(tmp, ReceiveAll(tmp, r, ds), node, uuid, blocks)
    decreases |ds|
  {
    hide InStep, OnSendCheckpoint;
    if ds != [] {
      StepKeepsInStep(tmp, r, ds[0], node, uuid, blocks);
      RunKeepsInStep(tmp, OnSendCheckpoint(tmp, r, ds[0].m, ds[0].io), ds[1..], node, uuid, blocks);
    }
  }

  // ---- blocks and files ----

  /** A file's blocks, appended one after the other, give the file. */
  lemma {:induction false} BlocksReplay(tmp: TmpDir, files: Files, item: Item, offset: nat)
    requires offset <= |item.content| && FileAt(files, Dest(tmp, item.smid, item.path)) == item.content[..offset]
    ensures Replay(tmp, files, Blocks(item, offset))
         == Some(if offset == |item.content| then files else files[Dest(tmp, item.smid, item.path) := item.content])
    decreases |item.content| - offset
  {
    var path := Dest(tmp, item.smid, item.path);
    if offset < |item.content| {
      if |item.content| - offset < CHUNK {
        assert item.content[..offset] + item.content[offset..] == item.content;
        assert Blocks(item, offset)[1..] == [];
      } else {
        var next := files[path := item.content[..offset] + item.content[offset..offset + CHUNK]];
        assert item.content[..offset] + item.content[offset..offset + CHUNK] == item.content[..offset + CHUNK];
        assert Blocks(item, offset)[1..] == Blocks(item, offset + CHUNK);
        BlocksReplay(tmp, next, item, offset + CHUNK);
        if offset + CHUNK == |item.content| {
          assert item.content[..offset + CHUNK] == item.content;
        } else {
          assert next[path := item.content] == files[path := item.content];
        }
      }
    }
  }

  /** A file that goes over the wire: it is not empty, and its source was not listed before. */
  predicate IsSent(items: seq<Item>, sent: set<Path>, i: nat)
    requires i < |items|
  {
    && items[i].content != []
    && items[i].Source() !in sent
    && forall j | 0 <= j < i :: items[j].Source() != items[i].Source()
  }

  function DestOf(tmp: TmpDir, item: Item): Path {
    Dest(tmp, item.smid, item.path)
  }

  ghost predicate StartsEmpty(tmp: TmpDir, items: seq<Item>, sent: set<Path>, files: Files) {
    forall i | 0 <= i < |items| && IsSent(items, sent, i) :: FileAt(files, DestOf(tmp, items[i])) == []
  }

  ghost predicate DistinctDests(tmp: TmpDir, items: seq<Item>, sent: set<Path>) {
    forall i, j | 0 <= i < j < |items| && IsSent(items, sent, i) && IsSent(items, sent, j) ::
      DestOf(tmp, items[i]) != DestOf(tmp, items[j])
  }

  /** The files there are when every file that is sent has been stored whole. */
  function Stored(tmp: TmpDir, items: seq<Item>, sent: set<Path>, files: Files): Files {
    if items == [] then files
    else
      var item := items[0];
      var next := if item.Source() in sent || item.content == [] then files else files[DestOf(tmp, item) := item.content];
      Stored(tmp, items[1..], sent + {item.Source()}, next)
  }

  lemma SentShifts(items: seq<Item>, sent: set<Path>)
    requires items != []
    ensures forall i | 0 <= i < |items| - 1 :: IsSent(items, sent, i + 1) <==> IsSent(items[1..], sent + {items[0].Source()}, i)
  {
    forall i | 0 <= i < |items| - 1
      ensures IsSent(items, sent, i + 1) <==> IsSent(items[1..], sent + {items[0].Source()}, i)
    {
      assert items[1..][i] == items[i + 1];
      if IsSent(items[1..], sent + {items[0].Source()}, i) {
        forall j | 0 <= j < i + 1
          ensures items[j].Source() != items[i + 1].Source()
        {
          assert j > 0 ==> items[1..][j - 1] == items[j];
        }
      }
    }
  }

  lemma ConditionsShift(tmp: TmpDir, items: seq<Item>, sent: set<Path>, files: Files, next: Files)
    requires items != []
    requires next == if items[0].Source() in sent || items[0].content == [] then files
                     else files[DestOf(tmp, items[0]) := items[0].content]
    ensures StartsEmpty(tmp, items, sent, files) && DistinctDests(tmp, items, sent)
       <==> && (IsSent(items, sent, 0) ==> FileAt(files, DestOf(tmp, items[0])) == [])
            && StartsEmpty(tmp, items[1..], sent + {items[0].Source()}, next)
            && DistinctDests(tmp, items[1..], sent + {items[0].Source()})
  {
    hide IsSent, DestOf;
    SentShifts(items, sent);
    assert IsSent(items, sent, 0) <==> items[0].Source() !in sent && items[0].content != [] by {
      FirstIsSent(items, sent);
    }
    var rest, marked := items[1..], sent + {items[0].Source()};
    assert forall i | 0 < i < |items| :: items[i] == rest[i - 1] && (IsSent(items, sent, i) <==> IsSent(rest, marked, i - 1)) by {
      forall i | 0 < i < |items|
        ensures items[i] == rest[i - 1] && (IsSent(items, sent, i) <==> IsSent(rest, marked, i - 1))
      {
        var k := i - 1;
        assert IsSent(items, sent, k + 1) <==> IsSent(rest, marked, k);
      }
    }
  }

  lemma FirstIsSent(items: seq<Item>, sent: set<Path>)
    requires items != []
    ensures IsSent(items, sent, 0) <==> items[0].Source() !in sent && items[0].content != []
  {
  }

  /** Appending all blocks goes through exactly when every file that is sent has a place of its own, and
      then every one of them is stored whole. */
  lemma {:induction false} AllBlocksReplay(tmp: TmpDir, files: Files, items: seq<Item>, sent: set<Path>)
    ensures Replay(tmp, files, AllBlocks(items, sent))
         == if StartsEmpty(tmp, items, sent, files) && DistinctDests(tmp, items, sent)
            then Some(Stored(tmp, items, sent, files)) else None
    decreases |items|
  {
    hide IsSent, DistinctDests, StartsEmpty, Format;
    if items == [] {
      NoItems(tmp, sent, files);
    } else {
      var item := items[0];
      var path := DestOf(tmp, item);
      var next := if item.Source() in sent || item.content == [] then files else files[path := item.content];
      var rest := AllBlocks(items[1..], sent + {item.Source()});
      ConditionsShift(tmp, items, sent, files, next);
      FirstIsSent(items, sent);
      AllBlocksReplay(tmp, next, items[1..], sent + {item.Source()});
      if item.Source() in sent {
        assert sent + {item.Source()} == sent;
      } else if item.content == [] {
        assert [] + rest == rest;
      } else if FileAt(files, path) == [] {
        BlocksReplay(tmp, files, item, 0);
        ReplaySplit(tmp, files, Blocks(item, 0), rest);
      } else {
        assert (Blocks(item, 0) + rest)[0] == Blocks(item, 0)[0];
      }
    }
  }

  lemma NoItems(tmp: TmpDir, sent: set<Path>, files: Files)
    ensures StartsEmpty(tmp, [], sent, files) && DistinctDests(tmp, [], sent)
  {
  }

  /** What is stored: each file that is sent, byte for byte, and nothing that was neither sent nor there. */
  lemma {:induction false} StoredIsExact(tmp: TmpDir, items: seq<Item>, sent: set<Path>, files: Files)
    requires StartsEmpty(tmp, items, sent, files) && DistinctDests(tmp, items, sent)
    ensures var after := Stored(tmp, items, sent, files);
            && (forall i | 0 <= i < |items| && IsSent(items, sent, i) ::
                  DestOf(tmp, items[i]) in after && after[DestOf(tmp, items[i])] == items[i].content)
            && (forall path | path in after :: path in files || IsDest(tmp, items, sent, path))
            && (forall path | path in files && !IsDest(tmp, items, sent, path) :: path in after && after[path] == files[path])
    decreases |items|
  {
    hide DestOf, IsSent;
    if items != [] {
      var item := items[0];
      var path := DestOf(tmp, item);
      var next := if item.Source() in sent || item.content == [] then files else files[path := item.content];
      var rest, marked := items[1..], sent + {item.Source()};
      ConditionsShift(tmp, items, sent, files, next);
      FirstIsSent(items, sent);
      SentShifts(items, sent);
      StoredIsExact(tmp, rest, marked, next);
      var after := Stored(tmp, items, sent, files);
      assert after == Stored(tmp, rest, marked, next);
      forall p
        ensures IsDest(tmp, items, sent, p) <==> (IsSent(items, sent, 0) && p == path) || IsDest(tmp, rest, marked, p)
      {
        DestShifts(tmp, items, sent, p);
      }
      forall i | 0 <= i < |items| && IsSent(items, sent, i)
        ensures DestOf(tmp, items[i]) in after && after[DestOf(tmp, items[i])] == items[i].content
      {
        if i > 0 {
          var k := i - 1;
          assert IsSent(items, sent, k + 1) <==> IsSent(rest, marked, k);
          assert items[i] == rest[k];
        } else {
          assert path in next && next[path] == item.content;
          if IsDest(tmp, rest, marked, path) {
            DestIsDistinct(tmp, items, sent, path);
            assert false;
          }
        }
      }
    }
  }

  ghost predicate IsDest(tmp: TmpDir, items: seq<Item>, sent: set<Path>, path: Path) {
    exists i :: 0 <= i < |items| && IsSent(items, sent, i) && path == DestOf(tmp, items[i])
  }

  lemma DestShifts(tmp: TmpDir, items: seq<Item>, sent: set<Path>, path: Path)
    requires items != []
    ensures IsDest(tmp, items, sent, path)
       <==> (IsSent(items, sent, 0) && path == DestOf(tmp, items[0])) || IsDest(tmp, items[1..], sent + {items[0].Source()}, path)
  {
    hide DestOf, IsSent;
    var rest, marked := items[1..], sent + {items[0].Source()};
    SentShifts(items, sent);
    if IsDest(tmp, items, sent, path) {
      var i :| 0 <= i < |items| && IsSent(items, sent, i) && path == DestOf(tmp, items[i]);
      if i > 0 {
        var k := i - 1;
        assert IsSent(items, sent, k + 1) <==> IsSent(rest, marked, k);
        assert items[i] == rest[k];
      }
    }
    if IsDest(tmp, rest, marked, path) {
      var k :| 0 <= k < |rest| && IsSent(rest, marked, k) && path == DestOf(tmp, rest[k]);
      assert IsSent(items, sent, k + 1);
      assert items[k + 1] == rest[k];
    }
  }

  lemma DestIsDistinct(tmp: TmpDir, items: seq<Item>, sent: set<Path>, path: Path)
    requires items != [] && DistinctDests(tmp, items, sent) && IsSent(items, sent, 0) && path == DestOf(tmp, items[0])
    ensures !IsDest(tmp, items[1..], sent + {items[0].Source()}, path)
  {
    hide DestOf, IsSent;
    var rest, marked := items[1..], sent + {items[0].Source()};
    SentShifts(items, sent);
    forall k | 0 <= k < |rest| && IsSent(rest, marked, k)
      ensures DestOf(tmp, rest[k]) != path
    {
      assert IsSent(items, sent, k + 1);
      assert items[k + 1] == rest[k];
    }
  }

  // ---- the theorem ----

  /** Whatever messages of this and of other transfers arrive, in whatever order and however often, and
      wherever writes fail: when the receiver accepts the end of a transfer, it holds exactly the files
      that were sent, each byte for byte, none missing and none beside them. */
  lemma TransferIsExact(tmp: TmpDir, r: Receiver, ds: seq<Delivery>, node: NodeId, uuid: nat, items: seq<Item>, end: CpMsg)
    requires node != NULL_NODE && !(r.sender == node && r.uuid == uuid)
    requires forall d | d in ds && d.m.node == node && d.m.uuid == uuid :: OfTransfer(d.m, node, uuid, AllBlocks(items, {}))
    requires end == EndMsg(node, uuid, |AllBlocks(items, {})| + 1)
    requires IsReceiverFinish(ReceiveAll(tmp, r, ds), end)
    ensures var files := ReceiveAll(tmp, r, ds).files;
            && (forall i | 0 <= i < |items| && IsSent(items, {}, i) ::
                  DestOf(tmp, items[i]) in files && files[DestOf(tmp, items[i])] == items[i].content)
            && (forall path | path in files :: IsDest(tmp, items, {}, path))
    ensures DistinctDests(tmp, items, {})
  {
    hide IsSent, DestOf, DistinctDests, ReceiveAll;
    var blocks := AllBlocks(items, {});
    RunKeepsInStep(tmp, r, ds, node, uuid, blocks);
    var last := ReceiveAll(tmp, r, ds);
    assert last.sequence == |blocks|;
    assert blocks[..|blocks|] == blocks;
    AllBlocksReplay(tmp, map[], items, {});
    StoredIsExact(tmp, items, {}, map[]);
  }

  /** When all files have stored names of their own, one that is not empty is missing after an accepted
      transfer exactly when its source was listed before it. */
  lemma {:induction false} MissingIff(tmp: TmpDir, r: Receiver, ds: seq<Delivery>, node: NodeId, uuid: nat, items: seq<Item>, end: CpMsg, i: nat)
    requires node != NULL_NODE && !(r.sender == node && r.uuid == uuid)
    requires forall d | d in ds && d.m.node == node && d.m.uuid == uuid :: OfTransfer(d.m, node, uuid, AllBlocks(items, {}))
    requires end == EndMsg(node, uuid, |AllBlocks(items, {})| + 1)
    requires IsReceiverFinish(ReceiveAll(tmp, r, ds), end)
    requires i < |items| && items[i].content != []
    requires forall j, k | 0 <= j < k < |items| :: DestOf(tmp, items[j]) != DestOf(tmp, items[k])
    ensures DestOf(tmp, items[i]) !in ReceiveAll(tmp, r, ds).files
       <==> exists j :: 0 <= j < i && items[j].Source() == items[i].Source()
  {
    hide ReceiveAll, OfTransfer, IsReceiverFinish, DestOf;
    TransferIsExact(tmp, r, ds, node, uuid, items, end);
  }

  function Deliver(node: NodeId, uuid: nat, blocks: seq<Block>, k: nat): seq<Delivery>
    requires k <= |blocks|
  {
    if k == 0 then [Delivery(BeginMsg(node, uuid), Works)]
    else Deliver(node, uuid, blocks, k - 1) + [Delivery(Ing(node, uuid, blocks, k - 1), Works)]
  }

  lemma {:induction false} ReceiveAppend(tmp: TmpDir, r: Receiver, ds: seq<Delivery>, d: Delivery)
    ensures ReceiveAll(tmp, r, ds + [d]) == OnSendCheckpoint(tmp, ReceiveAll(tmp, r, ds), d.m, d.io)
    decreases |ds|
  {
    if ds == [] {
      assert ds + [d] == [d] && [d][1..] == [];
    } else {
      assert (ds + [d])[1..] == ds[1..] + [d];
      ReceiveAppend(tmp, OnSendCheckpoint(tmp, r, ds[0].m, ds[0].io), ds[1..], d);
    }
  }

  lemma {:induction false} InOrder(tmp: TmpDir, r: Receiver, node: NodeId, uuid: nat, blocks: seq<Block>, k: nat)
    requires k <= |blocks| && Replay(tmp, map[], blocks).Some?
    ensures Replay(tmp, map[], blocks[..k]).Some?
    ensures ReceiveAll(tmp, r, Deliver(node, uuid, blocks, k)) == Receiver(node, uuid, k, Replay(tmp, map[], blocks[..k]).value)
  {
    hide Replay, Format;
    assert blocks[..k] + blocks[k..] == blocks;
    ReplaySplit(tmp, map[], blocks[..k], blocks[k..]);
    if k == 0 {
      assert blocks[..0] == [];
      ReplayNothing(tmp, map[]);
      ReceiveAppend(tmp, r, [], Delivery(BeginMsg(node, uuid), Works));
      assert [] + [Delivery(BeginMsg(node, uuid), Works)] == [Delivery(BeginMsg(node, uuid), Works)];
    } else {
      InOrder(tmp, r, node, uuid, blocks, k - 1);
      ReceiveAppend(tmp, r, Deliver(node, uuid, blocks, k - 1), Delivery(Ing(node, uuid, blocks, k - 1), Works));
      ReplayLast(tmp, blocks, k);
    }
  }

  lemma ReplayNothing(tmp: TmpDir, files: Files)
    ensures Replay(tmp, files, []) == Some(files)
  {
  }

  lemma ReplayLast(tmp: TmpDir, blocks: seq<Block>, k: nat)
    requires 0 < k <= |blocks| && Replay(tmp, map[], blocks[..k]).Some?
    ensures Replay(tmp, map[], blocks[..k - 1]).Some?
    ensures var files := Replay(tmp, map[], blocks[..k - 1]).value;
            var b := blocks[k - 1];
            var path := Dest(tmp, b.smid, b.path);
            && |FileAt(files, path)| == b.offset
            && Replay(tmp, map[], blocks[..k]).value == files[path := FileAt(files, path) + b.buffer]
  {
    hide Format;
    assert blocks[..k] == blocks[..k - 1] + [blocks[k - 1]];
    ReplaySplit(tmp, map[], blocks[..k - 1], [blocks[k - 1]]);
    assert [blocks[k - 1]][1..] == [];
  }

  /** A transfer that is delivered in order is accepted exactly when no two sent files share a name. */
  lemma AcceptedIff(tmp: TmpDir, r: Receiver, node: NodeId, uuid: nat, items: seq<Item>)
    requires node != NULL_NODE && !(r.sender == node && r.uuid == uuid)
    ensures var blocks := AllBlocks(items, {});
            var end := EndMsg(node, uuid, |blocks| + 1);
            IsReceiverFinish(ReceiveAll(tmp, r, Deliver(node, uuid, blocks, |blocks|)), end) <==> DistinctDests(tmp, items, {})
  {
    hide DistinctDests;
    var blocks := AllBlocks(items, {});
    var ds := Deliver(node, uuid, blocks, |blocks|);
    if DistinctDests(tmp, items, {}) {
      AllBlocksReplay(tmp, map[], items, {});
      assert StartsEmpty(tmp, items, {}, map[]);
      InOrder(tmp, r, node, uuid, blocks, |blocks|);
    } else if IsReceiverFinish(ReceiveAll(tmp, r, ds), EndMsg(node, uuid, |blocks| + 1)) {
      DeliverIsOfTransfer(node, uuid, blocks, |blocks|);
      TransferIsExact(tmp, r, ds, node, uuid, items, EndMsg(node, uuid, |blocks| + 1));
    }
  }

  lemma {:induction false} DeliverIsOfTransfer(node: NodeId, uuid: nat, blocks: seq<Block>, k: nat)
    requires k <= |blocks|
    ensures forall d | d in Deliver(node, uuid, blocks, k) :: OfTransfer(d.m, node, uuid, blocks)
  {
    if k > 0 {
      DeliverIsOfTransfer(node, uuid, blocks, k - 1);
    }
  }

  // ---- messages that come twice ----

  function Copies(d: Delivery, n: nat): seq<Delivery> {
    if n == 0 then [d] else [d] + Copies(d, n - 1)
  }

  /** The same deliveries, the one at position `k` with `more(k)` further copies. */
  function DeliverRepeated(node: NodeId, uuid: nat, blocks: seq<Block>, k: nat, more: nat -> nat): seq<Delivery>
    requires k <= |blocks|
  {
    if k == 0 then Copies(Delivery(BeginMsg(node, uuid), Works), more(0))
    else DeliverRepeated(node, uuid, blocks, k - 1, more) + Copies(Delivery(Ing(node, uuid, blocks, k - 1), Works), more(k))
  }

  lemma {:induction false} ReceiveBoth(tmp: TmpDir, r: Receiver, a: seq<Delivery>, b: seq<Delivery>)
    ensures ReceiveAll(tmp, r, a + b) == ReceiveAll(tmp, ReceiveAll(tmp, r, a), b)
    decreases |a|
  {
    if a == [] {
      assert a + b == b;
    } else {
      assert (a + b)[1..] == a[1..] + b;
      ReceiveBoth(tmp, OnSendCheckpoint(tmp, r, a[0].m, a[0].io), a[1..], b);
    }
  }

  /** Once a message has been taken, its copies change nothing. */
  lemma {:induction false} CopiesChangeNothing(tmp: TmpDir, r: Receiver, d: Delivery, n: nat)
    requires var t := OnSendCheckpoint(tmp, r, d.m, d.io); OnSendCheckpoint(tmp, t, d.m, d.io) == t
    ensures ReceiveAll(tmp, r, Copies(d, n)) == OnSendCheckpoint(tmp, r, d.m, d.io)
    decreases n
  {
    assert Copies(d, n)[0] == d;
    if n == 0 {
      assert Copies(d, n)[1..] == [];
    } else {
      assert Copies(d, n)[1..] == Copies(d, n - 1);
      CopiesChangeNothing(tmp, OnSendCheckpoint(tmp, r, d.m, d.io), d, n - 1);
    }
  }

  /** A transfer delivered in order is received in the same way however often its messages come again. */
  lemma {:induction false} RepeatsChangeNothing(tmp: TmpDir, r: Receiver, node: NodeId, uuid: nat, blocks: seq<Block>, k: nat,
                                                more: nat -> nat)
    requires k <= |blocks| && Replay(tmp, map[], blocks).Some?
    ensures ReceiveAll(tmp, r, DeliverRepeated(node, uuid, blocks, k, more)) == ReceiveAll(tmp, r, Deliver(node, uuid, blocks, k))
    decreases k
  {
    hide Replay, Format, Ing;
    InOrder(tmp, r, node, uuid, blocks, k);
    if k == 0 {
      CopiesChangeNothing(tmp, r, Delivery(BeginMsg(node, uuid), Works), more(0));
      assert Deliver(node, uuid, blocks, 0)[1..] == [];
    } else {
      var d := Delivery(Ing(node, uuid, blocks, k - 1), Works);
      var before := Deliver(node, uuid, blocks, k - 1);
      var s := ReceiveAll(tmp, r, before);
      RepeatsChangeNothing(tmp, r, node, uuid, blocks, k - 1, more);
      ReceiveAppend(tmp, r, before, d);
      IngIs(node, uuid, blocks, k - 1);
      CopiesChangeNothing(tmp, s, d, more(k));
      ReceiveBoth(tmp, r, DeliverRepeated(node, uuid, blocks, k - 1, more), Copies(d, more(k)));
    }
  }

  lemma IngIs(node: NodeId, uuid: nat, blocks: seq<Block>, k: nat)
    requires k < |blocks|
    ensures var m := Ing(node, uuid, blocks, k); m.flag == ING && m.node == node && m.uuid == uuid && m.sequence == k + 1
  {
  }
}
