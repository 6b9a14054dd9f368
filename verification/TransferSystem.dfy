/**
 * Two Conversations over any number of ordered transports, with traffic in both
 * directions, dialogs answered at any time, timeouts, cancellations and transports
 * that close. Every step runs one stretch of one end between two suspension points.
 */
module TransferSystem {
  import opened Basics
  import opened TransferProtocol

  // ------------------------------------------------------------------- state

  /**
   * One direction of traffic: what is in flight on each transport. The other fields are
   * history: `on`, the transport of the latest job; `late`, how many messages of streams
   * given up earlier are still in flight on it; `past`, the stream messages the receiver
   * has handled, other than those that arrived late; `catalog`, what every file or document
   * holds; `ended`, those whose end marker has been sent.
   */
  datatype Dir = Dir(wires: seq<seq<Msg>>, past: seq<Msg>, on: nat, late: nat, catalog: map<Id, Bytes>, ended: set<Id>)

  datatype Net = Net(a: Conv, b: Conv, ab: Dir, ba: Dir, dead: set<nat>)

  datatype Action =
    | SendText(t: nat, body: string)
    | Start(work: Work)
    | Acquire(t: nat)
    | Resume
    | Fault
    | CancelBy(batch: Id)
    | Deliver(t: nat)
    | Answer(n: nat, accepted: bool)

  datatype Step = ByA(act: Action) | ByB(act: Action) | Close(t: nat)

  predicate IsStream(m: Msg) { m.FStart? || m.Chunk? || m.FEnd? || m.DStart? || m.DEnd? }

  predicate IsEnd(m: Msg) { m.FEnd? || m.DEnd? }

  function Stream(w: seq<Msg>): seq<Msg> {
    if w == [] then []
    else Stream(w[..|w| - 1]) + (if IsStream(w[|w| - 1]) then [w[|w| - 1]] else [])
  }

  /** Sending on a closed transport is an error and puts nothing on the wire. */
  function Put(d: Dir, t: nat, sends: seq<Msg>, dead: set<nat>): Dir {
    if t < |d.wires| && t !in dead then d.(wires := d.wires[t := d.wires[t] + sends], ended := d.ended + EndedBy(sends))
      else d
  }

  /** History only: the names whose end markers are among these messages. */
  function EndedBy(sends: seq<Msg>): set<Id> { set m | m in sends && IsEnd(m) :: m.id }

  function TaskTransport(k: Task): nat {
    match k
    case NoTask => 0
    case Acquiring(_) => 0
    case Deciding(t, _, _) => t
    case Looping(t, _, _) => t
    case Pumping(t, _, _, _) => t
    case Acking(t, _, _, _) => t
  }

  predicate CanAct(me: Conv, out: Dir, inc: Dir, dead: set<nat>, act: Action) {
    match act
    case SendText(t, _) => t < |out.wires| && t !in dead
    case Start(_) => true
    case Acquire(t) => me.task.Acquiring? && t < |out.wires| && t !in dead
    case Resume =>
      && ValidTask(me.task)
      && (Advance(me).sends != [] ==> TaskTransport(me.task) !in dead)
    case Fault => ValidTask(me.task)
    case CancelBy(_) => true
    case Deliver(t) => t < |inc.wires| && t !in dead && inc.wires[t] != []
    case Answer(n, _) => n < |me.dialogs|
  }

  datatype Local = Local(me: Conv, out: Dir, inc: Dir)

  function Act(me: Conv, out: Dir, inc: Dir, dead: set<nat>, act: Action): Local
    requires CanAct(me, out, inc, dead, act)
  {
    match act
    case SendText(t, body) => Local(me, Put(out, t, [Text(body)], dead), inc)
    case Start(work) => Local(Begin(me, work), out, inc)
    case Acquire(t) =>
      var o := Acquired(me, t);
      Local(o.conv, Put(Register(out, t, o.conv), t, o.sends, dead), inc)
    case Resume =>
      var o := Advance(me);
      Local(o.conv, Put(out, TaskTransport(me.task), o.sends, dead), inc)
    case Fault => Local(Fail(me), out, inc)
    case CancelBy(batch) => Local(CancelJob(me, batch), out, inc)
    case Deliver(t) =>
      var m := inc.wires[t][0];
      var o := OnMessage(me, m, t);
      Local(o.conv, Put(out, t, o.sends, dead), Consume(inc, t))
    case Answer(n, accepted) =>
      var o := AnswerDialog(me, n, accepted);
      Local(o.conv, Put(out, me.dialogs[n].on, o.sends, dead), inc)
  }

  function Consume(d: Dir, t: nat): Dir
    requires t < |d.wires| && d.wires[t] != []
  {
    var m := d.wires[t][0];
    var d' := d.(wires := d.wires[t := d.wires[t][1..]]);
    if !IsStream(m) || t != d.on then d'
    else if d.late > 0 then d'.(late := d.late - 1)
    else d'.(past := d.past + [m])
  }

  /** History only: a job moves to transport t, and what earlier ones left there comes late. */
  function MoveTo(d: Dir, t: nat): Dir {
    if t == d.on || t >= |d.wires| then d.(on := t) else d.(on := t, late := |Stream(d.wires[t])|)
  }

  /** History only: what the new job's identifiers stand for, and its transport. */
  function Register(d: Dir, t: nat, c: Conv): Dir {
    if c.task.Deciding? && |c.task.job.ids| == |c.task.job.blobs|
    then MoveTo(d, t).(catalog := d.catalog + Contents(c.task.job.ids, c.task.job.blobs)) else d
  }

  function Contents(ids: seq<Id>, blobs: seq<Bytes>): map<Id, Bytes>
    requires |ids| == |blobs|
  {
    if ids == [] then map[]
    else Contents(ids[..|ids| - 1], blobs[..|ids| - 1])[ids[|ids| - 1] := blobs[|ids| - 1]]
  }

  predicate CanStep(s: Net, step: Step) {
    match step
    case ByA(act) => CanAct(s.a, s.ab, s.ba, s.dead, act)
    case ByB(act) => CanAct(s.b, s.ba, s.ab, s.dead, act)
    case Close(t) => true
  }

  /** A closing transport loses whatever it was carrying, in both directions. */
  function Next(s: Net, step: Step): Net
    requires CanStep(s, step)
  {
    match step
    case ByA(act) => var l := Act(s.a, s.ab, s.ba, s.dead, act); s.(a := l.me, ab := l.out, ba := l.inc)
    case ByB(act) => var l := Act(s.b, s.ba, s.ab, s.dead, act); s.(b := l.me, ba := l.out, ab := l.inc)
    case Close(t) => s.(ab := Lose(s.ab, t), ba := Lose(s.ba, t), dead := s.dead + {t})
  }

  function Lose(d: Dir, t: nat): Dir {
    if t < |d.wires| then d.(wires := d.wires[t := []], late := if t == d.on then 0 else d.late) else d
  }

  function Quiet(n: nat): seq<seq<Msg>> { seq(n, _ => []) }

  function InitNet(n: nat): Net {
    Net(FRESH, FRESH, Dir(Quiet(n), [], 0, 0, map[], {}), Dir(Quiet(n), [], 0, 0, map[], {}), {})
  }

  /** Nothing of an earlier stream is in flight on another transport, as the wires tell. */
  predicate DrainedElsewhere(d: Dir, t: nat) {
    forall u :: 0 <= u < |d.wires| && u != t ==> Stream(d.wires[u]) == []
  }

  /** Nothing but end markers is. */
  predicate EndsElsewhere(d: Dir, t: nat) {
    forall u :: 0 <= u < |d.wires| && u != t ==> forall m :: m in d.wires[u] && IsStream(m) ==> IsEnd(m)
  }

  /** The question is about the job whose sender is waiting for the answer. */
  predicate Timely(q: Dialog, s: Conv) {
    s.task.Deciding? && s.task.job.batch == (if q.AskFiles? then q.batchId else q.id)
  }

  /**
   * How carefully the two ends are used: not at all; or so that a job moves to another
   * transport only when nothing of an earlier stream is still in flight elsewhere; or so that
   * it leaves at most end markers behind, and nobody says yes to a transfer given up.
   */
  datatype Care = Reckless | Drained | Attended

  predicate Careful(care: Care, me: Conv, other: Conv, out: Dir, act: Action) {
    match care
    case Reckless => true
    case Drained => act.Acquire? ==> DrainedElsewhere(out, act.t)
    case Attended =>
      && (act.Acquire? ==> EndsElsewhere(out, act.t))
      && (act.Answer? && act.accepted && act.n < |me.dialogs| ==> Timely(me.dialogs[act.n], other))
  }

  predicate CleanSwitch(care: Care, s: Net, step: Step) {
    match step
    case ByA(act) => Careful(care, s.a, s.b, s.ab, act)
    case ByB(act) => Careful(care, s.b, s.a, s.ba, act)
    case Close(_) => true
  }

  /** A run from `s` to `last` taking `steps`. */
  predicate IsRun(care: Care, s: Net, steps: seq<Step>, last: Net)
    decreases |steps|
  {
    if steps == [] then s == last
    else
      && CanStep(s, steps[0])
      && CleanSwitch(care, s, steps[0])
      && IsRun(care, Next(s, steps[0]), steps[1..], last)
  }

  // ------------------------------------------------------ reading a stream back

  /** The file or document a stream of messages has open, and what it holds so far. */
  datatype Seg = NoSeg | Seg(doc: bool, id: Id, got: Bytes)

  function ScanStep(before: Seg, m: Msg): Seg {
    match m
    case FStart(_, id) => Seg(false, id, [])
    case DStart(id, _) => if id.Some? then Seg(true, id.value, []) else NoSeg
    case Chunk(data) => if before.Seg? then before.(got := before.got + data) else NoSeg
    case _ => NoSeg
  }

  function Scan(h: seq<Msg>): Seg {
    if h == [] then NoSeg else ScanStep(Scan(h[..|h| - 1]), h[|h| - 1])
  }

  function StartOf(m: Msg): seq<Id> {
    match m
    case FStart(_, id) => [id]
    case DStart(id, _) => if id.Some? then [id.value] else []
    case _ => []
  }

  function StartIds(h: seq<Msg>): seq<Id> {
    if h == [] then [] else StartIds(h[..|h| - 1]) + StartOf(h[|h| - 1])
  }

  function EndOf(m: Msg): seq<Id> {
    if IsEnd(m) then [m.id] else []
  }

  function DoneIds(log: seq<Event>): seq<Id> {
    if log == [] then []
    else DoneIds(log[..|log| - 1]) + if log[|log| - 1].Done? then [log[|log| - 1].id] else []
  }

  function SavedIds(log: seq<Event>): seq<Id> {
    if log == [] then []
    else SavedIds(log[..|log| - 1]) + if log[|log| - 1].Saved? then [log[|log| - 1].id] else []
  }

  /**
   * Everything the sender has put into the stream: each end marker closes a segment
   * holding exactly the announced bytes, chunks are the next of those bytes, and a
   * document's bytes come only after the receiver has opened it.
   */
  predicate WellSent(h: seq<Msg>, catalog: map<Id, Bytes>, rlog: seq<Event>) {
    h == [] ||
    (WellSent(h[..|h| - 1], catalog, rlog) && Entitled(Scan(h[..|h| - 1]), h[|h| - 1], catalog, rlog))
  }

  /** What may follow a stream that has `before` open. */
  predicate Entitled(before: Seg, m: Msg, catalog: map<Id, Bytes>, rlog: seq<Event>) {
    match m
    case FEnd(_, id) => id in catalog && before == Seg(false, id, catalog[id])
    case DEnd(id) => id in catalog && before == Seg(true, id, catalog[id]) && Opened(true, id) in rlog
    case Chunk(data) =>
      && before.Seg? && (before.doc ==> Opened(true, before.id) in rlog)
      && before.id in catalog && data != [] && before.got + data <= catalog[before.id]
    case _ => true
  }

  /** What is in flight of the current stream. */
  function Live(d: Dir): seq<Msg> {
    if d.on < |d.wires| && d.late <= |Stream(d.wires[d.on])| then Stream(d.wires[d.on])[d.late..] else []
  }

  /** The current stream so far: what has been handled, then what is still in flight. */
  function History(d: Dir): seq<Msg> { d.past + Live(d) }
}
