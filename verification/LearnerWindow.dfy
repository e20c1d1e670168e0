/** Shipping of learned values under an acknowledgement window: the sender, the receiver's rule for when
    to acknowledge, and the proof that the two fit together. */
module LearnerWindow {
  import opened Common

  const NO_INSTANCE: nat := 0xFFFF_FFFF_FFFF_FFFF

  /** The two settings of the program; `stride` is how far the receiver lets itself get between acks. */
  datatype Mode = Normal | LargeBuffer {
    function AckLead(): nat { if LargeBuffer? then 5 else 21 }
    function Stride(): nat { if LargeBuffer? then 2 else 4 }
    function PrepareTimeout(): nat { if LargeBuffer? then 6000 else 5000 }
    function AckTimeout(): nat { if LargeBuffer? then 60000 else 5000 }
  }

  /** Whatever number of timeouts cut the lead, it stays above the receiver's stride. */
  predicate LeadOk(mode: Mode, lead: nat) {
    mode.Stride() < lead <= mode.AckLead()
  }

  /** An ack as it arrives, and when. */
  datatype Ack = Ack(inst: nat, from: NodeId, clock: nat)

  /** What the sender knows while it waits: whether it is sending, its lead, the highest ack, the receiver, and
      when it last sent a value and last counted an ack. */
  datatype Window = Window(active: bool, lead: nat, acked: nat, sendTo: NodeId, lastSend: nat, lastAck: nat) {
    predicate Blocks(inst: nat) { inst > acked + lead }
  }

  function Elapsed(clock: nat, since: nat): nat {
    if clock > since then clock - since else 0
  }

  /** An ack counts if it comes from the receiver, is higher, and arrives soon enough after the last send. */
  predicate Counts(mode: Mode, w: Window, a: Ack) {
    w.active && a.from == w.sendTo && a.inst > w.acked && Elapsed(a.clock, w.lastSend) < mode.PrepareTimeout()
  }

  function Take(mode: Mode, w: Window, a: Ack): Window {
    if Counts(mode, w, a) then w.(acked := a.inst, lastAck := a.clock) else w
  }

  /** When this ack arrives the wait is over for want of a counted one. */
  predicate TimedOut(mode: Mode, w: Window, a: Ack) {
    Elapsed(a.clock, w.lastAck) >= mode.AckTimeout()
  }

  datatype Outcome = Outcome(ok: bool, w: Window, rest: seq<Ack>)

  /** Waiting until the value just sent is inside the window, or time is up. */
  function Wait(mode: Mode, w: Window, inst: nat, arriving: seq<Ack>): Outcome
    decreases |arriving|
  {
    if !w.Blocks(inst) then Outcome(true, w, arriving)
    else if arriving == [] || TimedOut(mode, w, arriving[0]) then Outcome(false, w, arriving)
    else Wait(mode, Take(mode, w, arriving[0]), inst, arriving[1..])
  }

  function CutLead(mode: Mode, lead: nat): nat {
    if lead > 2 * mode.Stride() then lead - mode.Stride() else lead
  }

  /** The lead after a number of timeouts. */
  function Cuts(mode: Mode, lead: nat, n: nat): nat {
    if n == 0 then lead else Cuts(mode, CutLead(mode, lead), n - 1)
  }

  /** Timeout after timeout the sender gets more careful: the lead goes down by strides until it is at most two
      of them, where it stays, above one. */
  lemma {:induction false} CutsSettle(mode: Mode, lead: nat, n: nat)
    requires LeadOk(mode, lead)
    ensures mode.Stride() < Cuts(mode, lead, n) <= lead
    ensures n * mode.Stride() >= lead ==> Cuts(mode, lead, n) <= 2 * mode.Stride()
    ensures Cuts(mode, lead, n) > 2 * mode.Stride() ==> Cuts(mode, lead, n) == lead - n * mode.Stride()
    decreases n
  {
    if n > 0 {
      CutsSettle(mode, CutLead(mode, lead), n - 1);
      assert n * mode.Stride() == (n - 1) * mode.Stride() + mode.Stride();
    }
  }

  /** One value sent, with the window as it was at that moment. */
  datatype Sent = Sent(inst: nat, acked: nat, lead: nat)

  predicate InWindow(e: Sent) {
    e.inst <= e.acked + e.lead + 1
  }

  /** The beginning of a wait, with the acks still to arrive. */
  datatype Begun = Begun(inst: nat, w: Window, arriving: seq<Ack>)

  /** The wait for the value just sent ends badly: the receiver has acknowledged more than was sent, or no ack
      brings the value into the window before time is up. */
  predicate Fails(mode: Mode, b: Begun) {
    b.inst < b.w.acked || !Wait(mode, b.w, b.inst, b.arriving).ok
  }

  /** No ack counted so far, nor any that may count later, is above `bound`. */
  predicate AcksUpTo(acked: nat, sendTo: NodeId, arriving: seq<Ack>, bound: nat) {
    acked <= bound && forall a | a in arriving && a.from == sendTo :: a.inst <= bound
  }

  /** A wait is at most one value beyond the window, and if it is, the last counted ack came before the last
      send. */
  predicate WaitOk(b: Begun) {
    b.w.active && b.inst <= b.w.acked + b.w.lead + 1 && (b.w.Blocks(b.inst) ==> b.w.lastAck <= b.w.lastSend)
  }

  /** Behind `before` come the values of consecutive instances from `begin` on, below `limit`. */
  predicate Consecutive(before: seq<Sent>, after: seq<Sent>, begin: nat, limit: nat) {
    && before <= after
    && forall k | |before| <= k < |after| :: after[k].inst == begin + (k - |before|) && after[k].inst < limit
  }

  lemma NothingSent(before: seq<Sent>, begin: nat, limit: nat)
    ensures Consecutive(before, before, begin, limit)
  {
  }

  lemma OneMoreSent(before: seq<Sent>, after: seq<Sent>, e: Sent, begin: nat, limit: nat)
    requires Consecutive(before, after, begin, limit) && e.inst == begin + (|after| - |before|) && e.inst < limit
    ensures Consecutive(before, after + [e], begin, limit)
  {
  }

  function Last(waits: seq<Begun>): Begun
    requires waits != []
  {
    waits[|waits| - 1]
  }

  /** A value inside the window needs no ack. */
  lemma InsideNeverFails(mode: Mode, b: Begun, bound: nat)
    requires AcksUpTo(b.w.acked, b.w.sendTo, b.arriving, bound) && bound <= b.inst && !b.w.Blocks(b.inst)
    ensures !Fails(mode, b)
  {
  }

  class LearnerSender {
    const mode: Mode
    var isSending: bool
    var isConfirmed: bool
    var lead: nat
    var begin: nat
    var sendTo: NodeId
    var acked: nat
    var lastSendTime: nat
    var lastAckTime: nat
    ghost var history: seq<Sent>
    ghost var waits: seq<Begun>

    ghost predicate Valid()
      reads this
    {
      && LeadOk(mode, lead)
      && (isConfirmed ==> isSending) && (isSending ==> acked >= begin)
      && (forall e | e in history :: InWindow(e))
      && (forall b | b in waits :: WaitOk(b))
    }

    function View(): Window
      reads this
    {
      Window(isSending && isConfirmed, lead, acked, sendTo, lastSendTime, lastAckTime)
    }

    constructor (mode: Mode)
      ensures Valid() && this.mode == mode && lead == mode.AckLead() && !isSending && !isConfirmed
      ensures history == [] && waits == []
    {
      this.mode := mode;
      lead := mode.AckLead();
      isSending, isConfirmed, begin, sendTo, lastSendTime := false, false, NO_INSTANCE, NULL_NODE, 0;
      acked, lastAckTime := 0, 0;
      history, waits := [], [];
    }

    predicate IsIMSending(clock: nat)
      reads this
    {
      isSending && Elapsed(clock, lastSendTime) < mode.PrepareTimeout()
    }

    method CutAckLead()
      requires Valid()
      modifies this`lead
      ensures Valid() && lead == CutLead(mode, old(lead))
    {
      var stride := mode.Stride();
      if lead - stride > stride {
        lead := lead - stride;
      }
    }

    method Prepare(inst: nat, node: NodeId, clock: nat) returns (ok: bool)
      requires Valid()
      modifies this
      ensures Valid() && history == old(history) && waits == old(waits)
      ensures ok == (!old(IsIMSending(clock)) && !old(isConfirmed))
      ensures ok ==> isSending && !isConfirmed && begin == acked == inst && sendTo == node && lastSendTime == lastAckTime == clock
      ensures !ok ==> unchanged(this)
    {
      ok := false;
      if !IsIMSending(clock) && !isConfirmed {
        ok := true;
        isSending := true;
        lastSendTime, lastAckTime := clock, clock;
        begin, acked := inst, inst;
        sendTo := node;
      }
    }

    /** Only the node that asked, for the instance it asked for, can start the sending. */
    method Confirm(inst: nat, node: NodeId, clock: nat) returns (ok: bool)
      requires Valid()
      modifies this`isConfirmed
      ensures Valid()
      ensures ok == (IsIMSending(clock) && !old(isConfirmed) && begin == inst && sendTo == node)
      ensures isConfirmed == (old(isConfirmed) || ok)
    {
      ok := false;
      if IsIMSending(clock) && !isConfirmed {
        if begin == inst && sendTo == node {
          ok := true;
          isConfirmed := true;
        }
      }
    }

    method OnAck(a: Ack)
      requires Valid()
      modifies this`acked, this`lastAckTime
      ensures Valid() && View() == Take(mode, old(View()), a)
    {
      if IsIMSending(a.clock) && isConfirmed {
        if sendTo == a.from {
          if a.inst > acked {
            acked := a.inst;
            lastAckTime := a.clock;
          }
        }
      }
    }

    /** Waits for acks until the value just sent is inside the window, or time is up. `arriving` are the acks
        that come in, in the order of their clocks; those left over come in later. */
    method CheckAck(inst: nat, arriving: seq<Ack>) returns (ok: bool, rest: seq<Ack>)
      requires Valid()
      modifies this`acked, this`lastAckTime, this`lead
      ensures Valid()
      ensures inst < old(acked) ==> !ok && rest == arriving && View() == old(View()).(lead := mode.AckLead())
      ensures inst >= old(acked) ==>
                var o := Wait(mode, old(View()), inst, arriving);
                && ok == o.ok && rest == o.rest
                && View() == if ok then o.w else o.w.(lead := CutLead(mode, o.w.lead))
    {
      rest := arriving;
      if inst < acked {
        lead := mode.AckLead();
        return false, rest;
      }
      ghost var goal := Wait(mode, View(), inst, arriving);
      while inst > acked + lead
        invariant Valid() && goal == Wait(mode, View(), inst, rest)
        decreases |rest|
      {
        if rest == [] || Elapsed(rest[0].clock, lastAckTime) >= mode.AckTimeout() {
          CutAckLead();
          return false, rest;
        }
        OnAck(rest[0]);
        rest := rest[1..];
      }
      return true, rest;
    }

    /** A record that cannot be read is not sent. */
    method SendOne(inst: nat, readable: nat -> bool) returns (ret: int)
      requires Valid() && inst <= acked + lead + 1
      modifies this`history
      ensures Valid() && ret == if readable(inst) then 0 else -1
      ensures ret == 0 ==> history == old(history) + [Sent(inst, acked, lead)]
      ensures ret != 0 ==> history == old(history)
    {
      if !readable(inst) {
        return -1;
      }
      history := history + [Sent(inst, acked, lead)];
      return 0;
    }

    /** Some acks come in before the sender begins to wait. */
    method EarlyAcks(arriving: seq<Ack>) returns (rest: seq<Ack>)
      requires Valid() && isConfirmed
      modifies this`acked, this`lastAckTime
      ensures Valid() && acked >= old(acked) && (acked == old(acked) ==> lastAckTime == old(lastAckTime))
      ensures forall k: nat | AcksUpTo(old(acked), sendTo, arriving, k) :: AcksUpTo(acked, sendTo, rest, k)
    {
      rest := arriving;
      var early: bool := *;
      while early && rest != []
        invariant forall k: nat | AcksUpTo(old(acked), sendTo, arriving, k) :: AcksUpTo(acked, sendTo, rest, k)
        invariant Valid() && acked >= old(acked) && (acked == old(acked) ==> lastAckTime == old(lastAckTime))
        decreases |rest|
      {
        OnAck(rest[0]);
        rest := rest[1..];
        early := *;
      }
    }

    /** One value goes out, and the sender waits until it is inside the window. */
    method SendAndWait(inst: nat, readable: nat -> bool, arriving: seq<Ack>) returns (ok: bool, rest: seq<Ack>)
      requires Valid() && isConfirmed && inst <= acked + lead + 1 && (inst > acked + lead ==> lastAckTime <= lastSendTime)
      modifies this`history, this`waits, this`acked, this`lastAckTime, this`lead
      ensures Valid() && acked >= old(acked)
      ensures readable(inst) ==> history == old(history) + [Sent(inst, old(acked), old(lead))]
      ensures !readable(inst) ==> !ok && history == old(history) && waits == old(waits)
      ensures ok ==> inst <= acked + lead
      ensures readable(inst) ==>
                waits != [] && waits == old(waits) + [Last(waits)] && Last(waits).inst == inst && ok == !Fails(mode, Last(waits))
      ensures readable(inst) ==>
                forall k: nat | AcksUpTo(old(acked), sendTo, arriving, k) ::
                  AcksUpTo(Last(waits).w.acked, sendTo, Last(waits).arriving, k) && AcksUpTo(acked, sendTo, rest, k)
      ensures readable(inst) ==>
                Last(waits).w.acked >= old(acked) && Last(waits).w.lead == old(lead) && Last(waits).w.sendTo == sendTo
      ensures ok ==> lead == old(lead)
    {
      hide Wait, InWindow;
      rest := arriving;
      var ret := SendOne(inst, readable);
      if ret != 0 {
        return false, rest;
      }
      rest := EarlyAcks(rest);
      assert WaitOk(Begun(inst, View(), rest));
      waits := waits + [Begun(inst, View(), rest)];
      WaitKeeps(mode, View(), inst, rest, View());
      WaitTakesAcks(mode, View(), inst, rest);
      ok, rest := CheckAck(inst, rest);
    }

    /** The values of the instances from `begin` on go out one by one, none of them beyond the window. The
        sender's own instance is read again for every value: it grows from `start` to at most `limit`. */
    method SendLearnedValue(start: nat, limit: nat, readable: nat -> bool, arriving: seq<Ack>) returns (done: bool)
      requires Valid() && isConfirmed && start <= limit
      modifies this`history, this`waits, this`acked, this`lastAckTime, this`lead, this`lastSendTime
      ensures Valid() && acked >= old(acked)
      ensures Consecutive(old(history), history, begin, limit)
      ensures done ==> begin + (|history| - |old(history)|) >= start && lead == mode.AckLead()
      ensures done ==> forall k | |old(waits)| <= k < |waits| :: !Fails(mode, waits[k])
      ensures !done ==>
                var next := begin + (|history| - |old(history)|);
                || (next < limit && !readable(next))
                || (next > begin && waits != [] && Last(waits).inst == next - 1 && Fails(mode, Last(waits)))
      ensures limit <= begin + old(lead) + 1 && AcksUpTo(old(acked), sendTo, arriving, begin) ==>
                done || exists i :: begin <= i < limit && !readable(i)
    {
      hide Consecutive, InWindow, WaitOk, Fails, AcksUpTo;
      ghost var near := limit <= begin + lead + 1 && AcksUpTo(acked, sendTo, arriving, begin);
      var next := begin;
      var rest := arriving;
      NothingSent(history, begin, limit);
      done := true;
      while done
        invariant Valid() && isConfirmed && acked >= old(acked)
        invariant next > acked + lead ==> lastAckTime <= lastSendTime
        invariant begin <= next && next <= acked + lead + 1
        invariant |history| == |old(history)| + (next - begin) && Consecutive(old(history), history, begin, limit)
        invariant |waits| >= |old(waits)| && forall k | |old(waits)| <= k < |waits| :: !Fails(mode, waits[k])
        invariant near ==> lead == old(lead) && AcksUpTo(acked, sendTo, rest, begin)
        decreases if next <= limit then limit - next + 1 else 0
      {
        var now: nat :| start <= now <= limit;
        if next >= now {
          lead := mode.AckLead();
          return true;
        }
        OneMoreSent(old(history), history, Sent(next, acked, lead), begin, limit);
        done, rest := SendAndWait(next, readable, rest);
        if !done {
          if near && readable(next) {
            InsideNeverFails(mode, Last(waits), begin);
          }
          return;
        }
        next := next + 1;
        var clock: nat :| clock >= lastAckTime && clock >= lastSendTime;
        lastSendTime := clock;
      }
    }

    method SendDone()
      requires Valid()
      modifies this
      ensures Valid() && !isSending && !isConfirmed && lead == old(lead) && history == old(history) && waits == old(waits)
    {
      isSending, isConfirmed, begin, sendTo, lastSendTime := false, false, NO_INSTANCE, NULL_NODE, 0;
      acked, lastAckTime := 0, 0;
    }
  }

  // ---- what ends a wait ----

  lemma {:induction false} WaitKeeps(mode: Mode, w: Window, inst: nat, arriving: seq<Ack>, start: Window)
    requires w == start.(acked := w.acked, lastAck := w.lastAck) && w.acked >= start.acked
    ensures var o := Wait(mode, w, inst, arriving);
            && o.w == start.(acked := o.w.acked, lastAck := o.w.lastAck) && o.w.acked >= start.acked
            && (o.ok ==> !o.w.Blocks(inst))
    decreases |arriving|
  {
    if w.Blocks(inst) && arriving != [] && !TimedOut(mode, w, arriving[0]) {
      WaitKeeps(mode, Take(mode, w, arriving[0]), inst, arriving[1..], start);
    }
  }

  lemma {:induction false} WaitTakesAcks(mode: Mode, w: Window, inst: nat, arriving: seq<Ack>)
    ensures var o := Wait(mode, w, inst, arriving);
            forall k: nat | AcksUpTo(w.acked, w.sendTo, arriving, k) :: AcksUpTo(o.w.acked, w.sendTo, o.rest, k)
    decreases |arriving|
  {
    if w.Blocks(inst) && arriving != [] && !TimedOut(mode, w, arriving[0]) {
      var t := Take(mode, w, arriving[0]);
      WaitTakesAcks(mode, t, inst, arriving[1..]);
      forall k: nat | AcksUpTo(w.acked, w.sendTo, arriving, k)
        ensures AcksUpTo(t.acked, t.sendTo, arriving[1..], k)
      {
        assert arriving[0] in arriving;
      }
    }
  }

  /** The ack at `k` counts, and no ack up to it finds the wait timed out. */
  predicate Ends(mode: Mode, w: Window, arriving: seq<Ack>, k: nat) {
    k < |arriving| && Counts(mode, w, arriving[k]) && forall j | 0 <= j <= k :: !TimedOut(mode, w, arriving[j])
  }

  /** A wait for the value right beyond the window ends well if and only if some ack of the receiver, higher
      than the last, arrives less than the prepare timeout after the last send, and the wait has not timed out
      before. An ack that is dropped does not prolong it. */
  lemma {:induction false} WaitEndsIff(mode: Mode, w: Window, inst: nat, arriving: seq<Ack>)
    requires inst == w.acked + w.lead + 1
    ensures Wait(mode, w, inst, arriving).ok <==> exists k: nat :: Ends(mode, w, arriving, k)
    decreases |arriving|
  {
    if arriving != [] && !TimedOut(mode, w, arriving[0]) {
      if Counts(mode, w, arriving[0]) {
        assert Ends(mode, w, arriving, 0);
      } else {
        var rest := arriving[1..];
        WaitEndsIff(mode, w, inst, rest);
        if k: nat :| Ends(mode, w, rest, k) {
          forall j | 0 <= j <= k + 1
            ensures !TimedOut(mode, w, arriving[j])
          {
            assert j > 0 ==> arriving[j] == rest[j - 1];
          }
          assert Ends(mode, w, arriving, k + 1);
        }
        if k: nat :| Ends(mode, w, arriving, k) {
          assert rest[k - 1] == arriving[k];
          assert forall j | 0 <= j <= k - 1 :: rest[j] == arriving[j + 1];
          assert Ends(mode, w, rest, k - 1);
        }
      }
    }
  }

  // ---- the receiver ----

  /** The receiver's instance and the instance of its last ack; `next` is the value delivered next, and
      `acked` the highest ack of this session, as the sender knows it once all acks are delivered. */
  datatype Session = Session(inst: nat, lastAck: nat, next: nat, acked: nat)

  /** Values of the sender arrive in order, some again; the receiver may finish its instance in another
      way, and may be sent values by another node too. */
  datatype Event = Deliver | Again(v: nat) | FinishOtherwise | FromAnother(v: nat)

  predicate AcksAt(s: Session, stride: nat) {
    s.inst >= s.lastAck + stride
  }

  /** The ack names the instance before the value is learned. */
  function Receive(s: Session, v: nat, stride: nat): Session {
    if v > s.inst then s
    else s.(inst := if v == s.inst then s.inst + 1 else s.inst,
            lastAck := if AcksAt(s, stride) then s.inst else s.lastAck,
            acked := if AcksAt(s, stride) && s.inst > s.acked then s.inst else s.acked)
  }

  function Step(s: Session, e: Event, stride: nat): Session {
    match e
    case Deliver => Receive(s, s.next, stride).(next := s.next + 1)
    case Again(v) => if v < s.next then Receive(s, v, stride) else s
    case FinishOtherwise => s.(inst := s.inst + 1)
    case FromAnother(v) => Receive(s, v, stride).(acked := s.acked)
  }

  function Run(s: Session, es: seq<Event>, stride: nat): Session
    decreases |es|
  {
    if es == [] then s else Run(Step(s, es[0], stride), es[1..], stride)
  }

  /** The values delivered are less than a stride ahead of the receiver's last ack. */
  predicate Ordered(s: Session, begin: nat, stride: nat) {
    begin <= s.next <= s.inst && (s.next > begin ==> s.next - 1 < s.lastAck + stride)
  }

  /** The receiver's last ack, whoever it went to, is not so far ahead of the sender's that the receiver stays
      silent until the sender is beyond its window. */
  predicate Slack(s: Session, lead: nat, stride: nat) {
    s.lastAck + stride <= s.acked + lead + 1
  }

  /** The sender sends no value beyond its window, as the acks sent to it allow at most. */
  predicate Legal(s: Session, es: seq<Event>, lead: nat, stride: nat)
    decreases |es|
  {
    es == [] || ((es[0].Deliver? ==> s.next <= s.acked + lead + 1) && Legal(Step(s, es[0], stride), es[1..], lead, stride))
  }

  /** Whenever a value of another node draws the ack, slack is left. */
  predicate SlackKept(s: Session, es: seq<Event>, lead: nat, stride: nat)
    decreases |es|
  {
    es == []
    || (var t := Step(s, es[0], stride);
        (es[0].FromAnother? && t.lastAck != s.lastAck ==> Slack(t, lead, stride)) && SlackKept(t, es[1..], lead, stride))
  }

  /** A session of one sender as it begins. */
  predicate Begins(s: Session, begin: nat) {
    s.inst >= begin && s.lastAck <= begin && s.next == begin && s.acked == begin
  }

  lemma {:induction false} RunFollows(s: Session, es: seq<Event>, begin: nat, lead: nat, stride: nat)
    requires 0 < stride <= lead && Ordered(s, begin, stride) && Slack(s, lead, stride) && SlackKept(s, es, lead, stride)
    ensures Ordered(Run(s, es, stride), begin, stride) && Slack(Run(s, es, stride), lead, stride)
    decreases |es|
  {
    if es != [] {
      var t := Step(s, es[0], stride);
      assert Ordered(t, begin, stride) && Slack(t, lead, stride);
      RunFollows(t, es[1..], begin, lead, stride);
    }
  }

  /** The receiver always sends the ack that is needed, as long as no other sender uses up the slack: whatever
      lead it has left, a blocked value that was delivered has drawn an ack above the last one counted. */
  lemma NeededAckIsSent(mode: Mode, s: Session, begin: nat, es: seq<Event>, w: Window)
    requires Begins(s, begin) && LeadOk(mode, w.lead) && SlackKept(s, es, w.lead, mode.Stride())
    ensures var t := Run(s, es, mode.Stride());
            t.next > begin && w.Blocks(t.next - 1) ==> t.acked > w.acked && t.acked + w.lead >= t.next - 1
  {
    RunFollows(s, es, begin, w.lead, mode.Stride());
  }

  /** When the window does not stick: all values of one sender up to the last one sent were delivered, and values
      of other nodes left slack. If that one is beyond the window, the receiver has sent an ack that reaches far
      enough, and the sender goes on if and only if an ack counts before the wait times out, that is, arrives
      less than the prepare timeout after the last send and less than the ack timeout after the last counted
      ack. */
  lemma NeverStuckIff(mode: Mode, s: Session, begin: nat, es: seq<Event>, w: Window, arriving: seq<Ack>)
    requires Begins(s, begin) && LeadOk(mode, w.lead) && w.active && SlackKept(s, es, w.lead, mode.Stride())
    requires Run(s, es, mode.Stride()).next > begin
    requires Run(s, es, mode.Stride()).next - 1 <= w.acked + w.lead + 1
    ensures var t := Run(s, es, mode.Stride());
            && (w.Blocks(t.next - 1) ==> t.acked > w.acked && t.acked + w.lead >= t.next - 1)
            && (Wait(mode, w, t.next - 1, arriving).ok <==>
                  !w.Blocks(t.next - 1) || exists k: nat :: Ends(mode, w, arriving, k))
  {
    hide Run;
    NeededAckIsSent(mode, s, begin, es, w);
    if w.Blocks(Run(s, es, mode.Stride()).next - 1) {
      WaitEndsIff(mode, w, Run(s, es, mode.Stride()).next - 1, arriving);
    }
  }

  /** The receiver's last ack ends the wait of a blocked sender if it arrives in that time. */
  lemma LastAckEnds(mode: Mode, s: Session, begin: nat, es: seq<Event>, w: Window, arriving: seq<Ack>, k: nat)
    requires Begins(s, begin) && LeadOk(mode, w.lead) && w.active && SlackKept(s, es, w.lead, mode.Stride())
    requires var t := Run(s, es, mode.Stride());
             t.next > begin && w.Blocks(t.next - 1) && k < |arriving| && arriving[k].inst == t.acked
    requires arriving[k].from == w.sendTo && Elapsed(arriving[k].clock, w.lastSend) < mode.PrepareTimeout()
    requires forall j | 0 <= j <= k :: !TimedOut(mode, w, arriving[j])
    ensures Ends(mode, w, arriving, k)
  {
    NeededAckIsSent(mode, s, begin, es, w);
  }

  /** Where the sending of a session stops. If all values up to the one waited for were delivered and slack was
      left, the wait fails if and only if the receiver has acknowledged more than was sent, or the value is
      beyond the window and the ack for it, which was sent, does not count in time. */
  lemma StopsIff(mode: Mode, s: Session, begin: nat, es: seq<Event>, b: Begun)
    requires Begins(s, begin) && LeadOk(mode, b.w.lead) && WaitOk(b) && SlackKept(s, es, b.w.lead, mode.Stride())
    requires b.inst >= begin && Run(s, es, mode.Stride()).next == b.inst + 1
    ensures Fails(mode, b) <==>
              b.inst < b.w.acked || (b.w.Blocks(b.inst) && !exists k: nat :: Ends(mode, b.w, b.arriving, k))
    ensures b.w.Blocks(b.inst) ==>
              var t := Run(s, es, mode.Stride()); t.acked > b.w.acked && t.acked + b.w.lead >= b.inst
  {
    hide Run;
    NeverStuckIff(mode, s, begin, es, b.w, b.arriving);
  }

  /** In normal mode nothing but the time-out can keep the sender: when the last counted ack came before the
      last send, as it does in every blocked wait, an ack of the receiver that does not find the wait timed
      out counts. */
  lemma NormalModeDropsNothing(w: Window, a: Ack)
    requires w.active && w.lastAck <= w.lastSend && a.from == w.sendTo && a.inst > w.acked
    ensures !TimedOut(Normal, w, a) ==> Counts(Normal, w, a)
  {
  }

  /** Acks that arrive late do not end a wait, although it goes on. */
  lemma LateAcksBlock(mode: Mode, w: Window, inst: nat, arriving: seq<Ack>)
    requires inst == w.acked + w.lead + 1
    requires forall a | a in arriving :: Elapsed(a.clock, w.lastSend) >= mode.PrepareTimeout()
    ensures !Wait(mode, w, inst, arriving).ok
  {
    WaitEndsIff(mode, w, inst, arriving);
  }

  /** The acks a receiver sends to the one sender, in order. */
  function Acks(s: Session, es: seq<Event>, stride: nat): seq<nat>
    decreases |es|
  {
    if es == [] then []
    else
      var t := Step(s, es[0], stride);
      (if t.acked > s.acked then [t.acked] else []) + Acks(t, es[1..], stride)
  }

  /** With large buffers the window does stick although there is one sender, every value and every ack is
      delivered, and no ack finds the wait timed out: they only arrive later than the prepare timeout. */
  lemma LateAcksBlockLargeBuffers(begin: nat, node: NodeId, clock: nat)
    returns (es: seq<Event>, w: Window, arriving: seq<Ack>)
    ensures Quiet(es)
    ensures var s := Session(begin, begin, begin, begin);
            var t := Run(s, es, LargeBuffer.Stride());
            && t.next > begin && WaitOk(Begun(t.next - 1, w, arriving)) && LeadOk(LargeBuffer, w.lead) && w.sendTo == node
            && |arriving| == |Acks(s, es, LargeBuffer.Stride())| > 0
            && (forall k | 0 <= k < |arriving| ::
                  arriving[k] == Ack(Acks(s, es, LargeBuffer.Stride())[k], node, clock + LargeBuffer.PrepareTimeout()))
            && (forall a | a in arriving :: !TimedOut(LargeBuffer, w, a))
            && !Wait(LargeBuffer, w, t.next - 1, arriving).ok
  {
    var s := Session(begin, begin, begin, begin);
    es := [Deliver, Deliver, Deliver, Deliver, Deliver, Deliver, Deliver];
    w := Window(true, 5, begin, node, clock, clock);
    SevenDelivered(begin);
    var late := clock + 6000;
    arriving := [Ack(begin + 2, node, late), Ack(begin + 4, node, late), Ack(begin + 6, node, late)];
    LateAcksBlock(LargeBuffer, w, begin + 6, arriving);
  }

  lemma SevenDelivered(b: nat)
    ensures var es := [Deliver, Deliver, Deliver, Deliver, Deliver, Deliver, Deliver];
            var s := Session(b, b, b, b);
            && Run(s, es, 2) == Session(b + 7, b + 6, b + 7, b + 6)
            && Acks(s, es, 2) == [b + 2, b + 4, b + 6]
  {
    var es := [Deliver, Deliver, Deliver, Deliver, Deliver, Deliver, Deliver];
    var s := Session(b, b, b, b);
    assert es[1..] == [Deliver, Deliver, Deliver, Deliver, Deliver, Deliver];
    assert es[1..][1..] == [Deliver, Deliver, Deliver, Deliver, Deliver];
    assert es[1..][1..][1..] == [Deliver, Deliver, Deliver, Deliver];
    LastFour(b);
    assert Step(Step(Step(s, Deliver, 2), Deliver, 2), Deliver, 2) == Session(b + 3, b + 2, b + 3, b + 2);
  }

  lemma LastFour(b: nat)
    ensures var es := [Deliver, Deliver, Deliver, Deliver];
            var s := Session(b + 3, b + 2, b + 3, b + 2);
            Run(s, es, 2) == Session(b + 7, b + 6, b + 7, b + 6) && Acks(s, es, 2) == [b + 4, b + 6]
  {
    var es := [Deliver, Deliver, Deliver, Deliver];
    assert es[1..] == [Deliver, Deliver, Deliver];
    assert es[1..][1..] == [Deliver, Deliver];
    assert es[1..][1..][1..] == [Deliver];
    assert es[1..][1..][1..][1..] == [];
  }

  // ---- two senders at once ----

  function Repeat(e: Event, n: nat): seq<Event> {
    if n == 0 then [] else [e] + Repeat(e, n - 1)
  }

  lemma {:induction false} RunAppend(s: Session, a: seq<Event>, b: seq<Event>, stride: nat)
    ensures Run(s, a + b, stride) == Run(Run(s, a, stride), b, stride)
    decreases |a|
  {
    if a == [] {
      assert a + b == b;
    } else {
      assert (a + b)[1..] == a[1..] + b;
      RunAppend(Step(s, a[0], stride), a[1..], b, stride);
    }
  }

  lemma {:induction false} FinishMany(s: Session, n: nat, stride: nat)
    ensures Run(s, Repeat(FinishOtherwise, n), stride) == s.(inst := s.inst + n)
    decreases n
  {
    if n > 0 {
      assert Repeat(FinishOtherwise, n)[1..] == Repeat(FinishOtherwise, n - 1);
      FinishMany(s.(inst := s.inst + 1), n - 1, stride);
    }
  }

  /** Values the receiver is past, less than a stride after an ack, bring no ack. */
  lemma {:induction false} DeliverMany(s: Session, n: nat, lead: nat, stride: nat)
    requires s.next + n <= s.inst + 1 <= s.lastAck + stride && s.next + n <= s.acked + lead + 2
    ensures var t := Run(s, Repeat(Deliver, n), stride);
            t.next == s.next + n && t.acked == s.acked && Legal(s, Repeat(Deliver, n), lead, stride)
    decreases n
  {
    if n == 1 {
      assert Repeat(Deliver, n)[1..] == [];
    } else if n > 1 {
      assert Repeat(Deliver, n)[1..] == Repeat(Deliver, n - 1);
      DeliverMany(s.(next := s.next + 1), n - 1, lead, stride);
    }
  }

  lemma {:induction false} LegalAppend(s: Session, a: seq<Event>, b: seq<Event>, lead: nat, stride: nat)
    ensures Legal(s, a + b, lead, stride) <==> Legal(s, a, lead, stride) && Legal(Run(s, a, stride), b, lead, stride)
    decreases |a|
  {
    if a == [] {
      assert a + b == b;
    } else {
      assert (a + b)[1..] == a[1..] + b;
      LegalAppend(Step(s, a[0], stride), a[1..], b, lead, stride);
    }
  }

  lemma {:induction false} LegalFinish(s: Session, n: nat, lead: nat, stride: nat)
    ensures Legal(s, Repeat(FinishOtherwise, n), lead, stride)
    decreases n
  {
    if n > 0 {
      assert Repeat(FinishOtherwise, n)[1..] == Repeat(FinishOtherwise, n - 1);
      LegalFinish(s.(inst := s.inst + 1), n - 1, lead, stride);
    }
  }

  /** No value of another node arrives. */
  predicate Quiet(es: seq<Event>) {
    forall e | e in es :: !e.FromAnother?
  }

  /** The sender is beyond its window, all it sent is delivered, and no ack sent to it reaches far enough. */
  predicate Stuck(s: Session, lead: nat) {
    s.next == s.acked + lead + 2
  }

  /** Some continuation without values of other nodes gets the sender stuck. */
  ghost predicate MayStick(s: Session, lead: nat, stride: nat) {
    exists es :: Quiet(es) && Legal(s, es, lead, stride) && Stuck(Run(s, es, stride), lead)
  }

  /** The slack is used up, and the receiver, still within a stride of its last ack, will let values pass in
      silence, or has done so already. */
  predicate Silent(s: Session, lead: nat, stride: nat) {
    !Slack(s, lead, stride) && (s.inst < s.lastAck + stride || Stuck(s, lead))
  }

  /** Exactly the states from which a sender can get stuck with no other sender about any more. */
  lemma MayStickIff(s: Session, begin: nat, lead: nat, stride: nat)
    requires 2 <= stride < lead && Ordered(s, begin, stride) && begin <= s.acked && s.next <= s.acked + lead + 2
    ensures MayStick(s, lead, stride) <==> Silent(s, lead, stride)
  {
    if Silent(s, lead, stride) {
      Sticks(s, lead, stride);
    }
    if es :| Quiet(es) && Legal(s, es, lead, stride) && Stuck(Run(s, es, stride), lead) {
      if !Silent(s, lead, stride) {
        NeverSilent(s, es, begin, lead, stride);
      }
    }
  }

  lemma Sticks(s: Session, lead: nat, stride: nat)
    requires s.next <= s.acked + lead + 2 && Silent(s, lead, stride)
    ensures MayStick(s, lead, stride)
  {
    if Stuck(s, lead) {
      assert Quiet([]) && Legal(s, [], lead, stride) && Run(s, [], stride) == s;
    } else {
      var n := s.lastAck + stride - 1 - s.inst;
      var a := Repeat(FinishOtherwise, n);
      var t := s.(inst := s.inst + n);
      FinishMany(s, n, stride);
      LegalFinish(s, n, lead, stride);
      var b := Repeat(Deliver, s.acked + lead + 2 - s.next);
      DeliverMany(t, s.acked + lead + 2 - s.next, lead, stride);
      RunAppend(s, a, b, stride);
      LegalAppend(s, a, b, lead, stride);
      RepeatIs(FinishOtherwise, n);
      RepeatIs(Deliver, s.acked + lead + 2 - s.next);
      assert Quiet(a + b);
    }
  }

  lemma {:induction false} RepeatIs(e: Event, n: nat)
    ensures forall x | x in Repeat(e, n) :: x == e
    decreases n
  {
    if n > 0 {
      RepeatIs(e, n - 1);
    }
  }

  /** Out of such a state only a value of another node leads into one. */
  lemma {:induction false} NeverSilent(s: Session, es: seq<Event>, begin: nat, lead: nat, stride: nat)
    requires 2 <= stride < lead && Ordered(s, begin, stride) && begin <= s.acked && s.next <= s.acked + lead + 2
    requires Quiet(es) && Legal(s, es, lead, stride) && !Silent(s, lead, stride)
    ensures !Stuck(Run(s, es, stride), lead)
    decreases |es|
  {
    if es != [] {
      NeverSilent(Step(s, es[0], stride), es[1..], begin, lead, stride);
    }
  }

  /** At no moment of the session, if no other node sends from then on, the sender gets stuck. */
  ghost predicate NeverSticks(s: Session, es: seq<Event>, lead: nat, stride: nat) {
    forall before | before <= es :: !MayStick(Run(s, before, stride), lead, stride)
  }

  /** The exact condition on other senders, for whole sessions: the sender can never get stuck if and only if
      slack is left whenever a value of another node draws the receiver's ack. */
  lemma NeverSticksIff(mode: Mode, s: Session, begin: nat, es: seq<Event>, lead: nat)
    requires Begins(s, begin) && LeadOk(mode, lead) && Legal(s, es, lead, mode.Stride())
    ensures NeverSticks(s, es, lead, mode.Stride()) <==> SlackKept(s, es, lead, mode.Stride())
  {
    SessionIff(s, begin, es, lead, mode.Stride());
  }

  lemma {:induction false} SessionIff(s: Session, begin: nat, es: seq<Event>, lead: nat, stride: nat)
    requires 2 <= stride < lead && Ordered(s, begin, stride) && begin <= s.acked && s.next <= s.acked + lead + 2
    requires Slack(s, lead, stride) && Legal(s, es, lead, stride)
    ensures NeverSticks(s, es, lead, stride) <==> SlackKept(s, es, lead, stride)
    decreases |es|
  {
    hide MayStick;
    MayStickIff(s, begin, lead, stride);
    NeverSticksStep(s, es, lead, stride);
    if es != [] {
      var t := Step(s, es[0], stride);
      MayStickIff(t, begin, lead, stride);
      if Slack(t, lead, stride) {
        SessionIff(t, begin, es[1..], lead, stride);
      } else {
        assert Run(t, [], stride) == t;
        assert [] <= es[1..];
      }
    }
  }

  lemma NeverSticksStep(s: Session, es: seq<Event>, lead: nat, stride: nat)
    ensures es == [] ==> (NeverSticks(s, es, lead, stride) <==> !MayStick(s, lead, stride))
    ensures es != [] ==> (NeverSticks(s, es, lead, stride) <==>
                            !MayStick(s, lead, stride) && NeverSticks(Step(s, es[0], stride), es[1..], lead, stride))
  {
    hide MayStick;
    assert Run(s, [], stride) == s && [] <= es;
    if es != [] {
      var t := Step(s, es[0], stride);
      forall before | before <= es && before != []
        ensures before[1..] <= es[1..] && Run(s, before, stride) == Run(t, before[1..], stride)
      {
      }
      forall after | after <= es[1..]
        ensures [es[0]] + after <= es && Run(s, [es[0]] + after, stride) == Run(t, after, stride)
      {
        assert ([es[0]] + after)[1..] == after;
      }
    }
  }

  /** A stuck sender gives up: no ack that was sent to it ends its wait. */
  lemma StuckGivesUp(mode: Mode, s: Session, w: Window, arriving: seq<Ack>)
    requires Stuck(s, w.lead) && w.acked == s.acked && forall a | a in arriving :: a.inst <= s.acked
    ensures !Wait(mode, w, s.next - 1, arriving).ok
  {
    WaitEndsIff(mode, w, s.next - 1, arriving);
  }

  /** With a second sender the slack can be used up, whatever the lead: its value draws the ack that the first
      one needs. */
  lemma AnotherSenderBlocks(mode: Mode, lead: nat, begin: nat) returns (es: seq<Event>)
    requires LeadOk(mode, lead)
    ensures var s := Session(begin, begin, begin, begin);
            Legal(s, es, lead, mode.Stride()) && Stuck(Run(s, es, mode.Stride()), lead)
  {
    var stride := mode.Stride();
    var s := Session(begin, begin, begin, begin);
    var n := lead + 2;
    var a, b, c := Repeat(FinishOtherwise, n), [FromAnother(begin)], Repeat(Deliver, n);
    var s1 := s.(inst := begin + n);
    var s2 := s1.(lastAck := begin + n);
    FinishMany(s, n, stride);
    LegalFinish(s, n, lead, stride);
    assert Run(s1, b, stride) == s2 && Legal(s1, b, lead, stride) by {
      assert b[1..] == [];
    }
    DeliverMany(s2, n, lead, stride);
    RunAppend(s1, b, c, stride);
    LegalAppend(s1, b, c, lead, stride);
    RunAppend(s, a, b + c, stride);
    LegalAppend(s, a, b + c, lead, stride);
    es := a + (b + c);
  }
}
