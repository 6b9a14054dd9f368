/** The promises of the transfer engine, for every run of two connected ends. */
module TransferRuns {
  import opened Basics
  import opened TransferProtocol
  import opened TransferSystem
  import opened TransferInvariant
  import opened TransferSafety
  import opened TransferOrder

  /** An action of the end that sends in this direction. */
  lemma ActAsSender(me: Conv, other: Conv, out: Dir, inc: Dir, dead: set<nat>, act: Action)
    requires DirInv(me, other, out, inc.wires, dead) && |out.wires| == |inc.wires|
    requires CanAct(me, out, inc, dead, act)
    requires act.Acquire? ==> EndsElsewhere(out, act.t)
    ensures var l := Act(me, out, inc, dead, act); DirInv(l.me, other, l.out, l.inc.wires, dead)
  {
    hide DirInv, EndsElsewhere;
    match act
    case SendText(t, body) => WiresAside(me, other, out, inc.wires, dead, t, [Text(body)]);
    case Start(work) => StartKeeps(me, other, out, inc.wires, dead, work);
    case Acquire(t) =>
      match me.task.work {
        case Files(_) => AcquireFiles(me, other, out, inc.wires, dead, t);
        case Doc(_) => AcquireDoc(me, other, out, inc.wires, dead, t);
      }
    case Resume => ResumeKeeps(me, other, out, inc.wires, dead);
    case Fault =>
      HoldsLock(me, other, out, inc.wires, dead);
      LockFail(me);
      EndingKeeps(me, Fail(me), other, out, inc.wires, dead);
    case CancelBy(batch) => SenderAside(me, CancelJob(me, batch), other, out, inc.wires, dead);
    case Deliver(t) =>
      if IsStream(inc.wires[t][0]) {
        SenderReceives(me, other, out, inc, dead, t);
      } else {
        ReplyArrives(me, other, out, inc, dead, t);
        QuietReply(me, inc.wires[t][0], t);
        PutEmpty(out, t, dead);
      }
    case Answer(n, accepted) => SenderAnswers(me, other, out, inc.wires, dead, n, accepted);
  }

  lemma QuietReply(c: Conv, m: Msg, t: nat)
    requires !IsStream(m)
    ensures OnMessage(c, m, t).sends == []
  {
  }

  lemma ResumingIsBenign(me: Conv)
    requires ValidTask(me.task)
    ensures var me' := Advance(me).conv;
      && me'.inboundBatch == me.inboundBatch && me'.inbound == me.inbound && me'.dialogs == me.dialogs
      && Benign(me.log, me'.log)
  {
    BenignSame(me.log);
    hide Benign;
    var me' := Advance(me).conv;
    if me'.log != me.log {
      BenignStep(me.log, me'.log[|me.log|]);
    }
  }

  lemma FailingIsBenign(me: Conv)
    requires ValidTask(me.task)
    ensures var me' := Fail(me);
      && me'.inboundBatch == me.inboundBatch && me'.inbound == me.inbound && me'.dialogs == me.dialogs
      && Benign(me.log, me'.log)
  {
    BenignSame(me.log);
    hide Benign;
    var me' := Fail(me);
    if me'.log != me.log {
      var l := me.log + [me'.log[|me.log|]];
      BenignStep(me.log, me'.log[|me.log|]);
      if me'.log != l {
        BenignStep(l, me'.log[|me.log| + 1]);
        BenignTwice(me.log, l, me'.log);
      }
    }
  }

  /** What the end writes to its log while sending is of no interest to its correspondent. */
  lemma SendingIsBenign(me: Conv, out: Dir, inc: Dir, dead: set<nat>, act: Action)
    requires CanAct(me, out, inc, dead, act) && !act.Deliver? && !act.Answer?
    ensures var me' := Act(me, out, inc, dead, act).me;
      && me'.inboundBatch == me.inboundBatch && me'.inbound == me.inbound && me'.dialogs == me.dialogs
      && Benign(me.log, me'.log)
  {
    BenignSame(me.log);
    hide Benign;
    if act.Resume? {
      ResumingIsBenign(me);
      hide Advance;
    } else if act.Fault? {
      FailingIsBenign(me);
      hide Fail;
    }
  }

  lemma BenignTwice(a: seq<Event>, b: seq<Event>, c: seq<Event>)
    requires Benign(a, b) && Benign(b, c)
    ensures Benign(a, c)
  {
  }

  lemma SendsNoReplies(me: Conv)
    requires ValidTask(me.task)
    ensures forall m :: m in Advance(me).sends ==> !m.Accept? && !m.Decline? && !m.Received?
  {
  }

  /** An action of the end that receives in this direction. */
  lemma ActAsReceiver(other: Conv, me: Conv, out: Dir, inc: Dir, dead: set<nat>, act: Action)
    requires DirInv(other, me, inc, out.wires, dead) && Safe(me, inc) && |out.wires| == |inc.wires|
    requires CanAct(me, out, inc, dead, act)
    ensures var l := Act(me, out, inc, dead, act); DirInv(other, l.me, l.inc, l.out.wires, dead)
  {
    hide DirInv, Safe;
    if act.Deliver? {
      if IsStream(inc.wires[act.t][0]) {
        DeliverStream(other, me, inc, out, dead, act.t);
      } else {
        DeliverOther(other, me, inc, out.wires, dead, act.t);
        PutEmpty(out, act.t, dead);
      }
    } else if act.Answer? {
      AnswerKeeps(other, me, inc, out, dead, act.n, act.accepted);
    } else {
      var l := Act(me, out, inc, dead, act);
      SendingIsBenign(me, out, inc, dead, act);
      ReceiverAside(other, me, l.me, inc, out.wires, dead);
      if act.SendText? {
        BackAside(other, l.me, inc, out, dead, act.t, [Text(act.body)]);
      } else if act.Acquire? {
        BackAside(other, l.me, inc, Register(out, act.t, l.me), dead, act.t, Acquired(me, act.t).sends);
      } else if act.Resume? {
        SendsNoReplies(me);
        BackAside(other, l.me, inc, out, dead, TaskTransport(me.task), Advance(me).sends);
      }
    }
  }

  lemma ActKeepsWires(me: Conv, out: Dir, inc: Dir, dead: set<nat>, act: Action)
    requires CanAct(me, out, inc, dead, act)
    ensures var l := Act(me, out, inc, dead, act); |l.out.wires| == |out.wires| && |l.inc.wires| == |inc.wires|
  {
  }

  // -------------------------------------------------------- the two ways of use

  lemma RepliesOnly(c: Conv, m: Msg, t: nat)
    ensures forall x :: x in OnMessage(c, m, t).sends ==> !IsStream(x) && !x.Batch?
  {
    hide Flatten;
  }

  /** An action of the end that sends, in attended use. */
  lemma OrderAsSender(me: Conv, other: Conv, out: Dir, inc: Dir, dead: set<nat>, act: Action)
    requires DirInv(me, other, out, inc.wires, dead) && Orderly(me, other, out, inc.wires)
    requires CanAct(me, out, inc, dead, act) && (act.Acquire? ==> EndsElsewhere(out, act.t))
    ensures var l := Act(me, out, inc, dead, act); Orderly(l.me, other, l.out, l.inc.wires)
  {
    hide DirInv, Orderly, EndsElsewhere, OnMessage, Consume;
    match act
    case SendText(t, body) => OrderPut(me, me, other, out, inc.wires, dead, t, [Text(body)]);
    case Start(work) => if Begin(me, work) != me { NoTaskOrder(me, Begin(me, work), other, out, inc.wires); }
    case Acquire(t) => OrderAcquires(me, other, out, inc.wires, dead, t);
    case Resume =>
      if Advance(me).sends == [] {
        OrderRests(me, other, out, inc.wires);
        PutEmpty(out, TaskTransport(me.task), dead);
      } else {
        hide Advance;
        OrderSends(me, other, out, inc.wires, dead);
      }
    case Fault => OrderRests(me, other, out, inc.wires);
    case CancelBy(batch) =>
      OrderPut(me, CancelJob(me, batch), other, out, inc.wires, dead, 0, []);
      PutEmpty(out, 0, dead);
    case Deliver(t) =>
      var sends := OnMessage(me, inc.wires[t][0], t).sends;
      RepliesOnly(me, inc.wires[t][0], t);
      OrderPut(me, me, other, out, inc.wires, dead, t, sends);
      WiredIs(me, other, out, inc.wires, dead);
      hide Wired, ReceiverOk, HistInv, ReplyInv, Put;
      OrderHears(me, other, Put(out, t, sends, dead), inc, t);
    case Answer(n, accepted) =>
      var o := AnswerDialog(me, n, accepted);
      OrderPut(me, o.conv, other, out, inc.wires, dead, me.dialogs[n].on, o.sends);
  }

  /** An action of the end that receives, in attended use. */
  lemma OrderAsReceiver(other: Conv, me: Conv, out: Dir, inc: Dir, dead: set<nat>, act: Action)
    requires DirInv(other, me, inc, out.wires, dead) && Orderly(other, me, inc, out.wires)
    requires CanAct(me, out, inc, dead, act) && Careful(Attended, me, other, out, act)
    ensures var l := Act(me, out, inc, dead, act); Orderly(other, l.me, l.inc, l.out.wires)
  {
    hide DirInv, Orderly, EndsElsewhere;
    if act.Deliver? {
      var m := inc.wires[act.t][0];
      if IsStream(m) {
        if IsNext(inc, act.t) { OrderTakesNext(other, me, inc, out, dead, act.t); }
        else { OrderTakesLate(other, me, inc, out, dead, act.t); }
      } else {
        OrderTakesOther(other, me, inc, out.wires, dead, act.t);
        QuietReply(me, m, act.t);
        PutEmpty(out, act.t, dead);
      }
    } else if act.Answer? {
      OrderAnswers(other, me, inc, out, dead, act.n, act.accepted);
    } else {
      OrderBeside(other, me, out, inc, dead, act);
    }
  }

  lemma OrderBeside(other: Conv, me: Conv, out: Dir, inc: Dir, dead: set<nat>, act: Action)
    requires Orderly(other, me, inc, out.wires)
    requires CanAct(me, out, inc, dead, act) && !act.Deliver? && !act.Answer?
    ensures var l := Act(me, out, inc, dead, act); Orderly(other, l.me, l.inc, l.out.wires)
  {
    SendingIsBenign(me, out, inc, dead, act);
    hide Orderly, Put, Register, Benign, Contents, MoveTo;
    var l := Act(me, out, inc, dead, act);
    if act.SendText? {
      OrderAside(other, me, l.me, inc, out, l.out, dead, act.t, [Text(act.body)]);
    } else if act.Acquire? {
      var d := Register(out, act.t, l.me);
      RegisterWires(out, act.t, l.me);
      OrderAside(other, me, l.me, inc, d, l.out, dead, act.t, Acquired(me, act.t).sends);
    } else if act.Resume? {
      SendsNoReplies(me);
      OrderAside(other, me, l.me, inc, out, l.out, dead, TaskTransport(me.task), Advance(me).sends);
    } else {
      PutEmpty(out, 0, dead);
      OrderAside(other, me, l.me, inc, out, l.out, dead, 0, []);
    }
  }

  lemma RegisterWires(d: Dir, t: nat, c: Conv)
    ensures Register(d, t, c).wires == d.wires
  {
  }

  /** Nothing of an earlier stream is in flight in this direction. */
  ghost predicate Clear(d: Dir) { NoStrays(d.wires, d.on, d.late) }

  lemma StillClear(d: Dir, d': Dir)
    requires Clear(d) && FewerStrays(d, d')
    ensures Clear(d')
  {
    hide IsStray;
  }

  lemma DrainedClears(d: Dir, t: nat)
    requires Clear(d) && DrainedElsewhere(d, t) && t < |d.wires|
    ensures Clear(MoveTo(d, t)) && EndsElsewhere(d, t)
    ensures MoveTo(d, t).late <= |Stream(d.wires[t])| || t == d.on
  {
    var d' := MoveTo(d, t);
    forall u, m | 0 <= u < |d.wires| && u != t && m in d.wires[u] ensures !IsStream(m) { StreamHas(d.wires[u], m); }
    forall m | t != d.on && m in Stream(d.wires[t])
      ensures IsStray(d.wires, d.on, d.late, m)
    {
      StreamHas(d.wires[t], m);
    }
    assert t != d.on ==> Stream(d.wires[t]) == [] by {
      if t != d.on && Stream(d.wires[t]) != [] { assert !IsStray(d.wires, d.on, d.late, Stream(d.wires[t])[0]); }
    }
    hide Stream;
    if t == d.on { assert d' == d; }
  }

  lemma LateFits(s: Conv, r: Conv, d: Dir, back: seq<seq<Msg>>, dead: set<nat>)
    requires DirInv(s, r, d, back, dead)
    ensures d.on < |d.wires| ==> d.late <= |Stream(d.wires[d.on])|
  {
    hide LockInv, TaskInv, HistInv, AckInv, ReceiverInv, StraysInv, ReplyInv, Stream, BatchesFresh, EndsKnown;
  }

  /** An action of the end that sends, in drained use. */
  lemma ClearAsSender(me: Conv, other: Conv, out: Dir, inc: Dir, dead: set<nat>, act: Action)
    requires DirInv(me, other, out, inc.wires, dead) && Clear(out)
    requires CanAct(me, out, inc, dead, act) && (act.Acquire? ==> DrainedElsewhere(out, act.t))
    ensures Clear(Act(me, out, inc, dead, act).out)
  {
    LateFits(me, other, out, inc.wires, dead);
    hide DirInv, Clear, DrainedElsewhere, OnMessage, Consume, FewerStrays, Stream;
    var l := Act(me, out, inc, dead, act);
    if act.SendText? {
      PutStrays(out, act.t, [Text(act.body)], dead);
    } else if act.Acquire? {
      ClearAcquires(me, out, dead, act.t);
    } else if act.Resume? {
      if Advance(me).sends == [] { PutEmpty(out, TaskTransport(me.task), dead); Unmoved(out); }
      else {
        SendsOne(me);
        TaskOn(me, other, out, inc.wires, dead);
        PutStrays(out, out.on, Advance(me).sends, dead);
      }
    } else if act.Deliver? {
      RepliesOnly(me, inc.wires[act.t][0], act.t);
      PutStrays(out, act.t, OnMessage(me, inc.wires[act.t][0], act.t).sends, dead);
    } else if act.Answer? {
      PutStrays(out, me.dialogs[act.n].on, AnswerDialog(me, act.n, act.accepted).sends, dead);
    } else {
      Unmoved(out);
    }
    hide Put, Act;
    StillClear(if act.Acquire? then l.out else out, l.out);
  }

  lemma Unmoved(d: Dir)
    ensures FewerStrays(d, d)
  {
  }

  lemma ClearAcquires(me: Conv, out: Dir, dead: set<nat>, t: nat)
    requires me.task.Acquiring? && Clear(out) && DrainedElsewhere(out, t) && t < |out.wires|
    requires out.on < |out.wires| ==> out.late <= |Stream(out.wires[out.on])|
    ensures var o := Acquired(me, t);
            var d := Put(Register(out, t, o.conv), t, o.sends, dead); Clear(d) && FewerStrays(d, d)
  {
    hide Clear, DrainedElsewhere, FewerStrays, Stream, Contents;
    var o := Acquired(me, t);
    DrainedClears(out, t);
    if o.conv.task.Deciding? {
      var d := Register(out, t, o.conv);
      SameClear(MoveTo(out, t), d);
      PutStrays(d, t, o.sends, dead);
      hide Put, Register;
      StillClear(d, Put(d, t, o.sends, dead));
      Unmoved(Put(d, t, o.sends, dead));
    } else {
      PutEmpty(out, t, dead);
      Unmoved(out);
    }
  }

  lemma SameClear(d: Dir, d': Dir)
    requires Clear(d) && d'.wires == d.wires && d'.on == d.on && d'.late == d.late
    ensures Clear(d')
  {
  }

  /** An action of the end that receives, in drained use. */
  lemma ClearAsReceiver(other: Conv, me: Conv, out: Dir, inc: Dir, dead: set<nat>, act: Action)
    requires DirInv(other, me, inc, out.wires, dead) && Clear(inc) && CanAct(me, out, inc, dead, act)
    ensures Clear(Act(me, out, inc, dead, act).inc)
  {
    LateFits(other, me, inc, out.wires, dead);
    hide DirInv, Clear, Consume, FewerStrays, Stream, OnMessage, Advance, AnswerDialog, Acquired, Put;
    if act.Deliver? {
      TakeStrays(inc, act.t);
      StillClear(inc, Consume(inc, act.t));
    }
  }

  lemma ClearLoses(s: Conv, r: Conv, d: Dir, back: seq<seq<Msg>>, dead: set<nat>, t: nat)
    requires DirInv(s, r, d, back, dead) && Clear(d)
    ensures Clear(Lose(d, t))
  {
    WiredIs(s, r, d, back, dead);
    hide DirInv, Clear, FewerStrays, Wired, ReceiverOk, HistInv, ReplyInv;
    CloseWires(d, t, s.counter, dead);
    StillClear(d, Lose(d, t));
  }

  // ------------------------------------------------------------- every step

  /** What the way of use adds, in one direction. */
  ghost predicate Kept(care: Care, s: Conv, r: Conv, d: Dir, back: seq<seq<Msg>>) {
    match care
    case Reckless => false
    case Drained => Clear(d)
    case Attended => Orderly(s, r, d, back)
  }

  ghost predicate CareInv(care: Care, n: Net) {
    && Inv(n)
    && Kept(care, n.a, n.b, n.ab, n.ba.wires)
    && Kept(care, n.b, n.a, n.ba, n.ab.wires)
  }

  lemma KeptIsSafe(care: Care, s: Conv, r: Conv, d: Dir, back: seq<seq<Msg>>)
    requires Kept(care, s, r, d, back)
    ensures Safe(r, d)
  {
    hide IsStray, Aligned, Whole, Expected, Granting, Asking;
  }

  lemma CarefulMoves(care: Care, me: Conv, other: Conv, out: Dir, back: seq<seq<Msg>>, act: Action)
    requires Kept(care, me, other, out, back) && Careful(care, me, other, out, act)
    requires (act.Acquire? ==> act.t < |out.wires|)
    ensures act.Acquire? ==> EndsElsewhere(out, act.t)
  {
    hide Clear, Orderly, EndsElsewhere, DrainedElsewhere;
    if care.Drained? && act.Acquire? { DrainedClears(out, act.t); }
  }

  /** One end acts: both directions stay as they should be. */
  lemma ActKeeps(care: Care, me: Conv, other: Conv, out: Dir, inc: Dir, dead: set<nat>, act: Action)
    requires DirInv(me, other, out, inc.wires, dead) && DirInv(other, me, inc, out.wires, dead)
    requires |out.wires| == |inc.wires|
    requires Kept(care, me, other, out, inc.wires) && Kept(care, other, me, inc, out.wires)
    requires CanAct(me, out, inc, dead, act) && Careful(care, me, other, out, act)
    ensures var l := Act(me, out, inc, dead, act);
      && DirInv(l.me, other, l.out, l.inc.wires, dead) && DirInv(other, l.me, l.inc, l.out.wires, dead)
      && Kept(care, l.me, other, l.out, l.inc.wires) && Kept(care, other, l.me, l.inc, l.out.wires)
      && |l.out.wires| == |l.inc.wires|
  {
    assert act.Acquire? ==> act.t < |out.wires|;
    hide DirInv, Orderly, Clear, Safe, CanAct, Act, EndsElsewhere, DrainedElsewhere;
    CarefulMoves(care, me, other, out, inc.wires, act);
    KeptIsSafe(care, other, me, inc, out.wires);
    ActAsSender(me, other, out, inc, dead, act);
    ActAsReceiver(other, me, out, inc, dead, act);
    ActKeepsWires(me, out, inc, dead, act);
    if care.Drained? {
      ClearAsSender(me, other, out, inc, dead, act);
      ClearAsReceiver(other, me, out, inc, dead, act);
    } else {
      OrderAsSender(me, other, out, inc, dead, act);
      OrderAsReceiver(other, me, out, inc, dead, act);
    }
  }

  lemma StepKeeps(care: Care, s: Net, step: Step)
    requires CareInv(care, s) && CanStep(s, step) && CleanSwitch(care, s, step)
    ensures CareInv(care, Next(s, step))
  {
    hide DirInv, Kept, Careful, CanAct, Act;
    match step
    case ByA(act) => ActKeeps(care, s.a, s.b, s.ab, s.ba, s.dead, act);
    case ByB(act) => ActKeeps(care, s.b, s.a, s.ba, s.ab, s.dead, act);
    case Close(t) =>
      CloseKeeps(s.a, s.b, s.ab, s.ba, s.dead, t);
      CloseKeeps(s.b, s.a, s.ba, s.ab, s.dead, t);
      LoseKeeps(care, s.a, s.b, s.ab, s.ba, s.dead, t);
      LoseKeeps(care, s.b, s.a, s.ba, s.ab, s.dead, t);
  }

  lemma LoseKeeps(care: Care, s: Conv, r: Conv, d: Dir, backd: Dir, dead: set<nat>, t: nat)
    requires DirInv(s, r, d, backd.wires, dead) && Kept(care, s, r, d, backd.wires)
    ensures Kept(care, s, r, Lose(d, t), Lose(backd, t).wires)
  {
    hide DirInv, Orderly, Clear, Lose;
    if care.Drained? { ClearLoses(s, r, d, backd.wires, dead, t); } else { OrderLoses(s, r, d, backd, dead, t); }
  }

  lemma InitHolds(n: nat)
    ensures Inv(InitNet(n))
  {
    InitDir(n, InitNet(n).ab);
    hide DirInv;
  }

  lemma InitDir(n: nat, d: Dir)
    requires d == Dir(Quiet(n), [], 0, 0, map[], {})
    ensures DirInv(FRESH, FRESH, d, Quiet(n), {})
  {
    assert Stream([]) == [];
    assert History(d) == [];
    hide Stream, History, Flatten;
  }

  lemma InitKept(care: Care, n: nat)
    requires !care.Reckless?
    ensures CareInv(care, InitNet(n))
  {
    InitHolds(n);
    var s := InitNet(n);
    assert Stream([]) == [];
    assert Live(s.ab) == [] == Live(s.ba);
    hide Inv;
  }

  lemma {:induction false} RunKeeps(care: Care, s: Net, steps: seq<Step>, last: Net)
    requires CareInv(care, s) && IsRun(care, s, steps, last)
    ensures CareInv(care, last)
    decreases |steps|
  {
    if steps != [] {
      StepKeeps(care, s, steps[0]);
      hide CareInv;
      RunKeeps(care, Next(s, steps[0]), steps[1..], last);
    }
  }

  lemma {:induction false} RunSnoc(care: Care, s: Net, steps: seq<Step>, mid: Net, step: Step)
    requires IsRun(care, s, steps, mid) && CanStep(mid, step) && CleanSwitch(care, mid, step)
    ensures IsRun(care, s, steps + [step], Next(mid, step))
    decreases |steps|
  {
    if steps == [] {
      assert [step][1..] == [];
    } else {
      assert (steps + [step])[1..] == steps[1..] + [step];
      RunSnoc(care, Next(s, steps[0]), steps[1..], mid, step);
    }
  }

  // ---------------------------------------------------------- what is promised

  /**
   * Every transfer the sender has reported done was saved by the receiver, in the same
   * order; nothing is saved twice; and every saved file or document is byte for byte
   * what the sender registered under that name, whether or not it was ever confirmed.
   */
  ghost predicate Delivered(s: Conv, r: Conv, d: Dir) {
    && IsSubseq(DoneIds(s.log), SavedIds(r.log))
    && NoDup(SavedIds(r.log))
    && (forall id, data :: Saved(id, data) in r.log ==> id in d.catalog && data == d.catalog[id])
  }

  lemma DoneMeansDelivered(care: Care, n: nat, steps: seq<Step>, last: Net)
    requires IsRun(care, InitNet(n), steps, last) && !care.Reckless?
    ensures Delivered(last.a, last.b, last.ab)
    ensures Delivered(last.b, last.a, last.ba)
  {
    InitKept(care, n);
    RunKeeps(care, InitNet(n), steps, last);
    hide Kept;
  }

  // ------------------------------------------- what is saved was given to send

  function Blobs(work: Work): set<Bytes> {
    match work
    case Files(contents) => set b | b in contents
    case Doc(html) => {html}
  }

  /** What the user of A, or of B, gives to send in one step. */
  function Gives(step: Step, byA: bool): set<Bytes> {
    match step
    case ByA(act) => if byA && act.Start? then Blobs(act.work) else {}
    case ByB(act) => if !byA && act.Start? then Blobs(act.work) else {}
    case Close(_) => {}
  }

  function Given(steps: seq<Step>, byA: bool): set<Bytes> {
    if steps == [] then {} else Gives(steps[0], byA) + Given(steps[1..], byA)
  }

  /** Everything registered, or about to be, is among what was given. */
  ghost predicate Registered(c: Conv, d: Dir, given: set<Bytes>) {
    && (forall id :: id in d.catalog ==> d.catalog[id] in given)
    && (c.task.Acquiring? ==> Blobs(c.task.work) <= given)
  }

  lemma {:induction false} ContentsFrom(ids: seq<Id>, blobs: seq<Bytes>)
    requires |ids| == |blobs|
    ensures forall id :: id in Contents(ids, blobs) ==> Contents(ids, blobs)[id] in blobs
  {
    if ids != [] {
      var n := |ids| - 1;
      ContentsFrom(ids[..n], blobs[..n]);
      assert forall b :: b in blobs[..n] ==> b in blobs;
      assert blobs[n] in blobs;
    }
  }

  lemma ActRegisters(me: Conv, out: Dir, inc: Dir, dead: set<nat>, act: Action, given: set<Bytes>)
    requires Registered(me, out, given) && CanAct(me, out, inc, dead, act)
    ensures var l := Act(me, out, inc, dead, act);
      Registered(l.me, l.out, given + if act.Start? then Blobs(act.work) else {})
  {
    hide Stream, Contents, Flatten;
    if act.Acquire? {
      var job := Acquired(me, act.t).conv.task;
      if job.Deciding? && |job.job.ids| == |job.job.blobs| { ContentsFrom(job.job.ids, job.job.blobs); }
    }
  }

  lemma ActTakesOnly(me: Conv, out: Dir, inc: Dir, dead: set<nat>, act: Action)
    requires CanAct(me, out, inc, dead, act)
    ensures Act(me, out, inc, dead, act).inc.catalog == inc.catalog
  {
    hide Stream, Contents, Flatten, OnMessage, Advance, AnswerDialog, Acquired;
  }

  lemma StepRegisters(s: Net, step: Step, givenA: set<Bytes>, givenB: set<Bytes>)
    requires CanStep(s, step) && Registered(s.a, s.ab, givenA) && Registered(s.b, s.ba, givenB)
    ensures var z := Next(s, step);
      Registered(z.a, z.ab, givenA + Gives(step, true)) && Registered(z.b, z.ba, givenB + Gives(step, false))
  {
    hide Act, CanAct, Blobs;
    match step
    case ByA(act) =>
      ActRegisters(s.a, s.ab, s.ba, s.dead, act, givenA);
      ActTakesOnly(s.a, s.ab, s.ba, s.dead, act);
    case ByB(act) =>
      ActRegisters(s.b, s.ba, s.ab, s.dead, act, givenB);
      ActTakesOnly(s.b, s.ba, s.ab, s.dead, act);
    case Close(_) =>
  }

  lemma {:induction false} RunRegisters(care: Care, s: Net, steps: seq<Step>, last: Net, givenA: set<Bytes>,
                                        givenB: set<Bytes>)
    requires IsRun(care, s, steps, last) && Registered(s.a, s.ab, givenA) && Registered(s.b, s.ba, givenB)
    ensures Registered(last.a, last.ab, givenA + Given(steps, true))
    ensures Registered(last.b, last.ba, givenB + Given(steps, false))
    decreases |steps|
  {
    if steps == [] {
      assert givenA + {} == givenA && givenB + {} == givenB;
    } else {
      StepRegisters(s, steps[0], givenA, givenB);
      hide Registered, CanStep, CleanSwitch, Next, Gives;
      var a, b := givenA + Gives(steps[0], true), givenB + Gives(steps[0], false);
      RunRegisters(care, Next(s, steps[0]), steps[1..], last, a, b);
      assert a + Given(steps[1..], true) == givenA + Given(steps, true);
      assert b + Given(steps[1..], false) == givenB + Given(steps, false);
    }
  }

  /** What is saved at one end was given to send at the other. */
  lemma SavedWasGiven(care: Care, n: nat, steps: seq<Step>, last: Net)
    requires IsRun(care, InitNet(n), steps, last) && !care.Reckless?
    ensures forall id, data :: Saved(id, data) in last.b.log ==> data in Given(steps, true)
    ensures forall id, data :: Saved(id, data) in last.a.log ==> data in Given(steps, false)
  {
    DoneMeansDelivered(care, n, steps, last);
    RunRegisters(care, InitNet(n), steps, last, {}, {});
    hide IsRun, Given, IsSubseq, NoDup, DoneIds, SavedIds;
  }

  // --------------------------------------------- every byte in its place

  /** The next chunk to arrive, on whatever transport, carries on what is open. */
  ghost predicate Continues(r: Conv, d: Dir) {
    forall t :: 0 <= t < |d.wires| && d.wires[t] != [] && d.wires[t][0].Chunk? && r.inbound.Some? ==>
      var ib := r.inbound.value; ib.id in d.catalog && Flatten(ib.parts) + d.wires[t][0].data <= d.catalog[ib.id]
  }

  lemma ChunkContinues(s: Conv, r: Conv, d: Dir, back: seq<seq<Msg>>, dead: set<nat>, t: nat)
    requires DirInv(s, r, d, back, dead) && Orderly(s, r, d, back) && r.inbound.Some?
    requires t < |d.wires| && d.wires[t] != [] && d.wires[t][0].Chunk?
    ensures var ib := r.inbound.value; ib.id in d.catalog && Flatten(ib.parts) + d.wires[t][0].data <= d.catalog[ib.id]
  {
    WiredIs(s, r, d, back, dead);
    hide DirInv, ReplyInv, HistInv, Wired, History, Live, Scan, StartIds, IsStray, FewerStrays, IsNext, Consume, Whole,
         Expected, Granting, Asking, WireInv;
    TakeKeeps(d, t, s.counter, dead);
    if IsNext(d, t) {
      NextMessage(d, t, s.counter, r.log);
    } else {
      assert false;
    }
  }

  /**
   * In attended use no chunk ever lands in another file or document: what is open at
   * either end holds the leading bytes of what its name stands for, and the next chunk to
   * arrive on any transport is the next of those bytes.
   */
  lemma EveryByteInItsPlace(n: nat, steps: seq<Step>, last: Net)
    requires IsRun(Attended, InitNet(n), steps, last)
    ensures Whole(last.b.inbound, last.ab.catalog) && Continues(last.b, last.ab)
    ensures Whole(last.a.inbound, last.ba.catalog) && Continues(last.a, last.ba)
  {
    InitKept(Attended, n);
    RunKeeps(Attended, InitNet(n), steps, last);
    hide DirInv, IsRun, Aligned, Expected, Granting, Asking;
    forall t | 0 <= t < |last.ab.wires| && last.ab.wires[t] != [] && last.ab.wires[t][0].Chunk? && last.b.inbound.Some?
      ensures last.b.inbound.value.id in last.ab.catalog
      ensures Flatten(last.b.inbound.value.parts) + last.ab.wires[t][0].data <= last.ab.catalog[last.b.inbound.value.id]
    {
      ChunkContinues(last.a, last.b, last.ab, last.ba.wires, last.dead, t);
    }
    forall t | 0 <= t < |last.ba.wires| && last.ba.wires[t] != [] && last.ba.wires[t][0].Chunk? && last.a.inbound.Some?
      ensures last.a.inbound.value.id in last.ba.catalog
      ensures Flatten(last.a.inbound.value.parts) + last.ba.wires[t][0].data <= last.ba.catalog[last.a.inbound.value.id]
    {
      ChunkContinues(last.b, last.a, last.ba, last.ab.wires, last.dead, t);
    }
  }

  // ------------------------------------------------ batches arrive in order

  lemma {:induction false} SubseqSuffix<T>(a: seq<T>, b: seq<T>, k: nat)
    requires IsSubseq(a, b) && k <= |a|
    ensures IsSubseq(a[k..], b)
    decreases |b|
  {
    if a[k..] != [] {
      var a', b' := a[..|a| - 1], b[..|b| - 1];
      assert a[k..][..|a[k..]| - 1] == a'[k..];
      if a[|a| - 1] == b[|b| - 1] && IsSubseq(a', b') {
        SubseqSuffix(a', b', k);
      } else {
        SubseqSuffix(a, b', k);
      }
    }
  }

  lemma {:induction false} SubseqMember<T>(a: seq<T>, b: seq<T>, x: T)
    requires IsSubseq(a, b) && x in a
    ensures x in b
    decreases |b|
  {
    var a', b' := a[..|a| - 1], b[..|b| - 1];
    assert a == a' + [a[|a| - 1]] && b == b' + [b[|b| - 1]];
    if a[|a| - 1] == b[|b| - 1] && IsSubseq(a', b') {
      if x != a[|a| - 1] {
        SubseqMember(a', b', x);
      }
    } else {
      SubseqMember(a, b', x);
    }
  }

  /** How many files of the running job have been confirmed. */
  function Confirmed(k: Task): nat {
    if k.Looping? || k.Pumping? || k.Acking? then k.i else 0
  }

  /** The receiver holds the first `i` files of `job`, each complete, in batch order. */
  ghost predicate HasFirst(r: Conv, job: Job, i: nat)
    requires i <= |job.ids| == |job.blobs|
  {
    && IsSubseq(job.ids[..i], SavedIds(r.log))
    && forall k :: 0 <= k < i ==> Saved(job.ids[k], job.blobs[k]) in r.log
  }

  lemma ConfirmedFilesAreSaved(s: Conv, r: Conv, d: Dir, back: seq<seq<Msg>>, dead: set<nat>)
    requires DirInv(s, r, d, back, dead)
    ensures Confirmed(s.task) <= |JobOf(s.task).ids| == |JobOf(s.task).blobs|
    ensures HasFirst(r, JobOf(s.task), Confirmed(s.task))
  {
    hide Scan, StartIds, History, StraysInv, IsSubseq, DoneIds, SavedIds, ReplyInv, HistInv, WireInv, SlotInv,
         DialogsInv;
    var i, job := Confirmed(s.task), JobOf(s.task);
    var done := DoneIds(s.log);
    SubseqSuffix(done, SavedIds(r.log), |done| - i);
    assert done[|done| - i..] == job.ids[..i];
    forall k | 0 <= k < i ensures Saved(job.ids[k], job.blobs[k]) in r.log {
      assert job.ids[..i][k] == job.ids[k];
      SubseqMember(job.ids[..i], SavedIds(r.log), job.ids[k]);
      SavedIdsMember(r.log, job.ids[k]);
    }
  }

  /** At the moment file i of a batch is reported done, files 1 to i are at the receiver. */
  lemma BatchInOrder(care: Care, n: nat, steps: seq<Step>, last: Net)
    requires IsRun(care, InitNet(n), steps, last) && !care.Reckless?
    ensures Confirmed(last.a.task) <= |JobOf(last.a.task).ids| == |JobOf(last.a.task).blobs|
    ensures HasFirst(last.b, JobOf(last.a.task), Confirmed(last.a.task))
    ensures Confirmed(last.b.task) <= |JobOf(last.b.task).ids| == |JobOf(last.b.task).blobs|
    ensures HasFirst(last.a, JobOf(last.b.task), Confirmed(last.b.task))
  {
    InitKept(care, n);
    RunKeeps(care, InitNet(n), steps, last);
    hide DirInv, HasFirst, Kept;
    ConfirmedFilesAreSaved(last.a, last.b, last.ab, last.ba.wires, last.dead);
    ConfirmedFilesAreSaved(last.b, last.a, last.ba, last.ab.wires, last.dead);
  }
}
