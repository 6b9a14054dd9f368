/**
 * What attended use adds to the invariant: nobody says yes to a transfer its sender has
 * given up, so what the receiver has open is always what the stream's next bytes are for.
 */
module TransferOrder {
  import opened Basics
  import opened TransferProtocol
  import opened TransferSystem
  import opened TransferInvariant
  import opened TransferSafety

  /** What is open holds the leading bytes of what its name stands for, and nothing else. */
  ghost predicate Whole(slot: Option<Inbound>, catalog: map<Id, Bytes>) {
    slot.Some? ==> slot.value.id in catalog && Flatten(slot.value.parts) <= catalog[slot.value.id]
  }

  ghost predicate Awaits(batch: Option<InboundBatch>, b: Id, id: Id) {
    batch.Some? && batch.value.batchId == b && id in batch.value.files
  }

  /** Every file about to start is of the batch accepted last. */
  ghost predicate Expected(live: seq<Msg>, batch: Option<InboundBatch>) {
    forall m :: m in live && m.FStart? ==> Awaits(batch, m.batchId, m.id)
  }

  ghost predicate Accepts(back: seq<seq<Msg>>, b: Id) {
    exists t :: 0 <= t < |back| && Accept(b) in back[t]
  }

  /** The job's sender has been told yes, or is about to be. */
  ghost predicate Granted(k: Task, back: seq<seq<Msg>>) {
    || k.Looping? || k.Pumping? || k.Acking?
    || (k.Deciding? && (k.answer == Some(true) || Accepts(back, k.job.batch)))
  }

  ghost predicate Granting(k: Task, back: seq<seq<Msg>>, batch: Option<InboundBatch>) {
    HasJob(k) && !k.job.doc && Granted(k, back) ==> forall id :: id in k.job.ids ==> Awaits(batch, k.job.batch, id)
  }

  /** The message that asks the receiver about the job. */
  predicate Announces(m: Msg, job: Job) {
    if job.doc then m.DStart? && m.docId == Some(job.batch) else m.Batch? && m.batchId == job.batch
  }

  predicate Asks(q: Dialog, job: Job) {
    if job.doc then q.AskDoc? && q.id == job.batch else q.AskFiles? && q.batchId == job.batch
  }

  predicate NamesFiles(files: seq<FileMeta>, job: Job) {
    |job.ids| == |job.blobs| && files == Metas(job.ids, job.blobs)
  }

  /** Behind the announcement of a job that awaits its answer there is nothing of any stream. */
  ghost predicate LastIn(w: seq<Msg>, job: Job) {
    forall i, j :: 0 <= i < j < |w| && Announces(w[i], job) ==> !IsStream(w[j])
  }

  ghost predicate Announced(job: Job, wires: seq<seq<Msg>>, on: nat) {
    forall u :: 0 <= u < |wires| ==>
      && LastIn(wires[u], job)
      && (forall m :: m in wires[u] && Announces(m, job) ==> u == on && (m.Batch? ==> NamesFiles(m.files, job)))
  }

  /** And when the receiver's user is asked, the stream has come to rest at it. */
  ghost predicate Questions(job: Job, dialogs: seq<Dialog>, live: seq<Msg>, past: seq<Msg>) {
    forall q :: q in dialogs && Asks(q, job) ==>
      && live == [] && (job.doc ==> Scan(past) == Seg(true, job.batch, []))
      && (q.AskFiles? ==> NamesFiles(q.files, job))
  }

  ghost predicate Asking(k: Task, wires: seq<seq<Msg>>, on: nat, live: seq<Msg>, dialogs: seq<Dialog>, past: seq<Msg>) {
    k.Deciding? ==> Announced(k.job, wires, on) && Questions(k.job, dialogs, live, past)
  }

  ghost predicate Orderly(s: Conv, r: Conv, d: Dir, back: seq<seq<Msg>>) {
    && Aligned(r.inbound, r.log, d.past)
    && Whole(r.inbound, d.catalog)
    && Expected(Live(d), r.inboundBatch)
    && Granting(s.task, back, r.inboundBatch)
    && Asking(s.task, d.wires, d.on, Live(d), r.dialogs, d.past)
  }

  // ------------------------------------------------------------ wires and stream

  lemma AnnouncedPut(job: Job, wires: seq<seq<Msg>>, on: nat, t: nat, sends: seq<Msg>)
    requires Announced(job, wires, on) && t < |wires|
    requires forall m :: m in sends ==> !IsStream(m) && !m.Batch?
    ensures Announced(job, wires[t := wires[t] + sends], on)
  {
    var w := wires[t] + sends;
    assert LastIn(wires[t], job);
    forall i, j | 0 <= i < j < |w| && Announces(w[i], job) ensures !IsStream(w[j]) {
      assert j >= |wires[t]| ==> w[j] in sends;
      assert i >= |wires[t]| ==> w[i] in sends;
    }
    assert forall m :: m in w ==> m in wires[t] || m in sends;
    hide Announces, NamesFiles;
  }

  lemma AnnouncedTake(job: Job, wires: seq<seq<Msg>>, on: nat, t: nat)
    requires Announced(job, wires, on) && t < |wires| && wires[t] != []
    ensures Announced(job, wires[t := wires[t][1..]], on)
    ensures Announces(wires[t][0], job) ==>
      t == on && (forall m :: m in wires[t][1..] ==> !IsStream(m))
        && (wires[t][0].Batch? ==> NamesFiles(wires[t][0].files, job))
  {
    assert wires[t][0] in wires[t] && LastIn(wires[t], job);
    assert forall m :: m in wires[t][1..] ==> m in wires[t];
    forall j | 0 <= j < |wires[t][1..]| ensures wires[t][1..][j] == wires[t][j + 1] { }
    hide Announces, NamesFiles;
  }

  lemma AnnouncedLoses(job: Job, wires: seq<seq<Msg>>, on: nat, t: nat)
    requires Announced(job, wires, on) && t < |wires|
    ensures Announced(job, wires[t := []], on)
  {
    hide Announces, NamesFiles;
  }

  /** How taking a message moves the stream on. */
  lemma LiveTakes(d: Dir, t: nat, counter: nat, dead: set<nat>)
    requires Wired(d, counter, dead) && t < |d.wires| && d.wires[t] != []
    ensures IsNext(d, t) ==> Live(d) == [d.wires[t][0]] + Live(Consume(d, t))
    ensures !IsNext(d, t) ==> Live(Consume(d, t)) == Live(d)
  {
    hide Live, IsNext, WireInv, FewerStrays;
    TakeKeeps(d, t, counter, dead);
    var d' := Consume(d, t);
    hide Consume;
    assert History(d)[|d.past|..] == Live(d) && History(d')[|d'.past|..] == Live(d');
    assert IsNext(d, t) ==> (d.past + [d.wires[t][0]] + Live(d'))[|d.past|..] == [d.wires[t][0]] + Live(d');
  }

  lemma NothingLive(d: Dir)
    requires d.on < |d.wires| && forall m :: m in d.wires[d.on] ==> !IsStream(m)
    ensures Live(d) == []
  {
    NoStream(d.wires[d.on]);
    hide Stream;
  }

  // ---------------------------------------------------------- the sender's steps

  /** Replies and texts join the wires, and the sender's task rests. */
  lemma OrderPut(s: Conv, s': Conv, r: Conv, d: Dir, back: seq<seq<Msg>>, dead: set<nat>, t: nat, sends: seq<Msg>)
    requires DirInv(s, r, d, back, dead) && Orderly(s, r, d, back) && s'.task == s.task
    requires forall m :: m in sends ==> !IsStream(m) && !m.Batch?
    ensures Orderly(s', r, Put(d, t, sends, dead), back)
  {
    PutOther(d, t, sends, dead, s.counter);
    PutSame(d, t, sends, dead);
    if s.task.Deciding? && t < |d.wires| && t !in dead { AnnouncedPut(s.task.job, d.wires, d.on, t, sends); }
    hide DirInv, Aligned, Whole, Expected, Granting, Announced, Questions, Live, FewerStrays, History;
  }

  /** The sender's task changes, but what it has to know is what it knew. */
  lemma OrderTask(s: Conv, s': Conv, r: Conv, d: Dir, back: seq<seq<Msg>>, back': seq<seq<Msg>>)
    requires Orderly(s, r, d, back)
    requires Granting(s'.task, back', r.inboundBatch)
    requires s'.task.Deciding? ==> s.task.Deciding? && s'.task.job == s.task.job
    ensures Orderly(s', r, d, back')
  {
    hide Aligned, Whole, Expected, Granting, Announced, Questions, Live;
  }

  lemma AcceptsLess(back: seq<seq<Msg>>, t: nat, b: Id)
    requires t < |back| && back[t] != []
    ensures Accepts(back[t := back[t][1..]], b) ==> Accepts(back, b)
    ensures back[t][0] == Accept(b) ==> Accepts(back, b)
  {
    var back' := back[t := back[t][1..]];
    if Accepts(back', b) {
      var u :| 0 <= u < |back'| && Accept(b) in back'[u];
      assert Accept(b) in back[u];
    }
    if back[t][0] == Accept(b) { assert Accept(b) in back[t]; }
  }

  lemma AcceptsMore(back: seq<seq<Msg>>, t: nat, sends: seq<Msg>, b: Id)
    requires t < |back|
    ensures Accepts(back[t := back[t] + sends], b) ==> Accepts(back, b) || Accept(b) in sends
  {
    var back' := back[t := back[t] + sends];
    if Accepts(back', b) {
      var u :| 0 <= u < |back'| && Accept(b) in back'[u];
      assert Accept(b) in sends || Accept(b) in back[u];
    }
  }

  /** A reply is taken by the sender. */
  lemma GrantTaken(k: Task, back: seq<seq<Msg>>, batch: Option<InboundBatch>, t: nat)
    requires Granting(k, back, batch) && t < |back| && back[t] != []
    ensures Granting(k, back[t := back[t][1..]], batch)
  {
    if HasJob(k) { AcceptsLess(back, t, k.job.batch); }
    hide Accepts;
  }

  lemma OrderHears(s: Conv, r: Conv, d: Dir, backd: Dir, t: nat)
    requires Orderly(s, r, d, backd.wires) && t < |backd.wires| && backd.wires[t] != []
    requires s.pendingDecision == (if s.task.Deciding? && s.task.answer.None? then Some(s.task.job.batch) else None)
    ensures Orderly(OnMessage(s, backd.wires[t][0], t).conv, r, d, Consume(backd, t).wires)
  {
    var m := backd.wires[t][0];
    var s' := OnMessage(s, m, t).conv;
    var back' := backd.wires[t := backd.wires[t][1..]];
    assert Consume(backd, t).wires == back';
    GrantTaken(s.task, backd.wires, r.inboundBatch, t);
    if HasJob(s.task) { AcceptsLess(backd.wires, t, s.task.job.batch); }
    hide Aligned, Whole, Expected, Asking, Live, Accepts, Flatten, Consume;
    TaskHears(s, m, t);
    assert Granting(s'.task, back', r.inboundBatch);
    hide Granting, OnMessage;
    OrderTask(s, s', r, d, backd.wires, back');
  }

  /** What a message can do to the send its taker is running. */
  lemma TaskHears(s: Conv, m: Msg, t: nat)
    ensures var k, k' := s.task, OnMessage(s, m, t).conv.task;
      || k' == k
      || (m.Accept? && s.pendingDecision == Some(m.batchId) && k.Deciding? && k' == k.(answer := Some(true)))
      || (m.Decline? && k.Deciding? && k' == k.(answer := Some(false)))
      || (m.Received? && k.Acking? && k' == k.(resolved := true))
  {
    hide Flatten;
  }

  /** The sender moves on without sending anything. */
  lemma OrderRests(s: Conv, r: Conv, d: Dir, back: seq<seq<Msg>>)
    requires Orderly(s, r, d, back) && ValidTask(s.task)
    ensures Advance(s).sends == [] ==> Orderly(Advance(s).conv, r, d, back)
    ensures Orderly(Fail(s), r, d, back)
  {
    hide Aligned, Whole, Expected, Live, Announced, Questions, Accepts, Awaits;
  }

  /** One more message of a job under way. */
  lemma OrderGrows(s: Conv, s': Conv, r: Conv, d: Dir, d': Dir, back: seq<seq<Msg>>, m: Msg)
    requires Orderly(s, r, d, back) && HasJob(s.task) && !s.task.Deciding?
    requires HasJob(s'.task) && !s'.task.Deciding? && s'.task.job == s.task.job
    requires d'.past == d.past && d'.catalog == d.catalog && Live(d') == Live(d) + [m]
    requires m.FStart? ==> !s.task.job.doc && m.batchId == s.task.job.batch && m.id in s.task.job.ids
    ensures Orderly(s', r, d', back)
  {
    hide Aligned, Whole, Announced, Questions, Accepts, Awaits, Live;
  }

  /** The sender puts one message of its job on the wire. */
  lemma OrderSends(s: Conv, r: Conv, d: Dir, back: seq<seq<Msg>>, dead: set<nat>)
    requires DirInv(s, r, d, back, dead) && Orderly(s, r, d, back) && CanAct(s, d, d, dead, Resume)
    requires Advance(s).sends != []
    ensures Orderly(Advance(s).conv, r, Put(d, TaskTransport(s.task), Advance(s).sends, dead), back)
  {
    hide DirInv, Orderly, Advance, Put, Live, FewerStrays, Wired, ReplyInv, ReceiverOk, HistInv, History, EndOf,
         IsStream, ValidJob;
    SendsOne(s);
    var o := Advance(s);
    var m := o.sends[0];
    TaskOn(s, r, d, back, dead);
    EndIsKnown(s, r, d, back, dead);
    WiredIs(s, r, d, back, dead);
    PutStream(d, m, dead, s.counter);
    PutSame(d, d.on, [m], dead);
    OrderGrows(s, o.conv, r, d, Put(d, d.on, [m], dead), back, m);
  }

  lemma WiredIs(s: Conv, r: Conv, d: Dir, back: seq<seq<Msg>>, dead: set<nat>)
    requires DirInv(s, r, d, back, dead)
    ensures Wired(d, s.counter, dead) && ReplyInv(d.catalog, s.counter, back, r.log)
    ensures s.pendingDecision == (if s.task.Deciding? && s.task.answer.None? then Some(s.task.job.batch) else None)
    ensures ReceiverOk(r, d, s.counter) && HistInv(History(d), d.catalog, s.counter, r.log)
  {
    hide WireInv, HistInv, AckInv, ReceiverInv, StraysInv, ReplyInv, TaskInv, History, DoneIds, SavedIds;
  }

  lemma SendsOne(s: Conv)
    requires ValidTask(s.task) && Advance(s).sends != []
    ensures var o := Advance(s);
      && |o.sends| == 1 && o.sends == [o.sends[0]] && IsStream(o.sends[0]) && (s.task.Looping? || s.task.Pumping?)
      && !o.conv.task.Deciding? && HasJob(o.conv.task) && o.conv.task.job == s.task.job
      && (o.sends[0].FStart? ==>
          !s.task.job.doc && o.sends[0].batchId == s.task.job.batch && o.sends[0].id in s.task.job.ids)
      && (forall id :: id in EndOf(o.sends[0]) ==> id in s.task.job.ids)
  {
  }

  lemma TaskOn(s: Conv, r: Conv, d: Dir, back: seq<seq<Msg>>, dead: set<nat>)
    requires DirInv(s, r, d, back, dead) && HasJob(s.task)
    ensures ValidTask(s.task) && TaskTransport(s.task) == d.on < |d.wires|
  {
    hide WireInv, HistInv, AckInv, ReceiverInv, StraysInv, ReplyInv, History, DoneIds, SavedIds;
  }

  lemma EndIsKnown(s: Conv, r: Conv, d: Dir, back: seq<seq<Msg>>, dead: set<nat>)
    requires DirInv(s, r, d, back, dead) && HasJob(s.task) && ValidTask(s.task)
    ensures forall id :: id in s.task.job.ids ==> id in d.catalog
  {
    hide WireInv, HistInv, AckInv, ReceiverInv, StraysInv, ReplyInv, DoneIds, SavedIds;
    NameKnown(s.task, s.counter, History(d), d.on, |d.wires|, d.catalog, d.ended, dead, r.log);
  }

  /** No message in flight and no question open is about a name not yet given out. */
  lemma FreshJob(s: Conv, r: Conv, d: Dir, back: seq<seq<Msg>>, dead: set<nat>, job: Job)
    requires DirInv(s, r, d, back, dead) && job.batch == s.counter
    ensures forall u, m :: 0 <= u < |d.wires| && m in d.wires[u] ==> !Announces(m, job)
    ensures forall q :: q in r.dialogs ==> !Asks(q, job)
    ensures !Accepts(back, job.batch)
  {
    WiredIs(s, r, d, back, dead);
    hide DirInv;
    forall u, m | 0 <= u < |d.wires| && m in d.wires[u] ensures !Announces(m, job) {
      if m.DStart? && m.docId.Some? { StartIsNamed(r, d, s.counter, dead, u, m); }
      else if m.Batch? { BatchIsFresh(d, s.counter, dead, u, m); }
    }
    NothingAsked(r, d, s.counter, job);
    NothingAccepted(d.catalog, s.counter, back, r.log, job.batch, History(d));
  }

  lemma BatchIsFresh(d: Dir, counter: nat, dead: set<nat>, u: nat, m: Msg)
    requires Wired(d, counter, dead) && u < |d.wires| && m in d.wires[u] && m.Batch?
    ensures m.batchId < counter
  {
    assert BatchesFresh(d.wires[u], d.catalog, counter);
    hide Stream;
  }

  lemma StartIsNamed(r: Conv, d: Dir, counter: nat, dead: set<nat>, u: nat, m: Msg)
    requires Wired(d, counter, dead) && ReceiverOk(r, d, counter) && HistInv(History(d), d.catalog, counter, r.log)
    requires u < |d.wires| && m in d.wires[u] && m.DStart? && m.docId.Some?
    ensures m.docId.value < counter
  {
    hide Books, WellSent, Scan;
    StreamHas(d.wires[u], m);
    if !IsStray(d.wires, d.on, d.late, m) {
      InLive(d, m);
      StartsThere(History(d), m);
      assert m.docId.value in StartOf(m);
    }
    hide StartIds, Stream, Live;
  }

  lemma InLive(d: Dir, m: Msg)
    requires d.on < |d.wires| && d.late <= |Stream(d.wires[d.on])| && m in Stream(d.wires[d.on])
    requires !IsStray(d.wires, d.on, d.late, m)
    ensures m in Live(d)
  {
    var w := Stream(d.wires[d.on]);
    assert w == w[..d.late] + w[d.late..];
    hide Stream;
  }

  lemma {:induction false} StartsThere(h: seq<Msg>, m: Msg)
    requires m in h
    ensures forall id :: id in StartOf(m) ==> id in StartIds(h)
  {
    var n := |h| - 1;
    assert h == h[..n] + [h[n]];
    if m != h[n] { StartsThere(h[..n], m); }
  }

  lemma NothingAsked(r: Conv, d: Dir, counter: nat, job: Job)
    requires ReceiverOk(r, d, counter) && HistInv(History(d), d.catalog, counter, r.log) && job.batch == counter
    ensures forall q :: q in r.dialogs ==> !Asks(q, job)
  {
    forall n | 0 <= n < |r.dialogs| ensures !Asks(r.dialogs[n], job) {
      assert DialogInv(r.dialogs[n], d.past, d.catalog, counter, r.log);
    }
    hide WellSent, StartIds, Scan, SavedIds, Strays, SlotInv, SavedInv;
  }

  lemma NothingAccepted(catalog: map<Id, Bytes>, counter: nat, back: seq<seq<Msg>>, rlog: seq<Event>, b: Id,
                        h: seq<Msg>)
    requires ReplyInv(catalog, counter, back, rlog) && HistInv(h, catalog, counter, rlog) && b == counter
    ensures !Accepts(back, b)
  {
    assert !ReplyBacked(Accept(b), catalog, counter, rlog);
    hide ReplyBacked, WellSent, StartIds, Scan, SavedIds;
  }

  lemma NewAnnounced(job: Job, wires: seq<seq<Msg>>, t: nat, m: Msg)
    requires t < |wires| && forall u, x :: 0 <= u < |wires| && x in wires[u] ==> !Announces(x, job)
    requires m.Batch? ==> NamesFiles(m.files, job)
    ensures Announced(job, wires[t := wires[t] + [m]], t)
  {
    var wires' := wires[t := wires[t] + [m]];
    forall u | 0 <= u < |wires'| ensures LastIn(wires'[u], job) {
      forall i | 0 <= i < |wires'[u]| - 1 ensures !Announces(wires'[u][i], job) {
        assert wires'[u][i] in wires[u];
      }
    }
    hide Announces, NamesFiles, LastIn;
  }

  lemma MoveLive(d: Dir, t: nat)
    ensures Live(MoveTo(d, t)) == if t == d.on || t >= |d.wires| then Live(MoveTo(d, t)) else []
    ensures forall m :: m in Live(MoveTo(d, t)) ==> t < |d.wires| && m in Live(d)
  {
    if t < |d.wires| && t != d.on { assert Stream(d.wires[t])[|Stream(d.wires[t])|..] == []; }
    hide Stream;
  }

  /** A new job is announced. */
  lemma OrderStarts(s: Conv, s': Conv, r: Conv, d: Dir, d': Dir, back: seq<seq<Msg>>)
    requires Orderly(s, r, d, back) && s'.task.Deciding? && s'.task.answer.None?
    requires d'.past == d.past && (forall id :: id in d.catalog ==> id in d'.catalog && d'.catalog[id] == d.catalog[id])
    requires forall m :: m in Live(d') && m.FStart? ==> m in Live(d)
    requires Announced(s'.task.job, d'.wires, d'.on) && !Accepts(back, s'.task.job.batch)
    requires forall q :: q in r.dialogs ==> !Asks(q, s'.task.job)
    ensures Orderly(s', r, d', back)
  {
    hide Aligned, Live, Announced, Accepts, Asks, Flatten;
  }

  lemma OrderAcquires(s: Conv, r: Conv, d: Dir, back: seq<seq<Msg>>, dead: set<nat>, t: nat)
    requires DirInv(s, r, d, back, dead) && Orderly(s, r, d, back) && EndsElsewhere(d, t)
    requires s.task.Acquiring? && t < |d.wires| && t !in dead
    ensures var o := Acquired(s, t); Orderly(o.conv, r, Put(Register(d, t, o.conv), t, o.sends, dead), back)
  {
    hide DirInv, Orderly, EndsElsewhere, Put, Live, Announces, Asks, Accepts, Announced, NamesFiles, MoveTo, Contents,
         FewerStrays, Stream;
    var o := Acquired(s, t);
    if !o.conv.task.Deciding? {
      PutEmpty(d, t, dead);
      NoTaskOrder(s, o.conv, r, d, back);
    } else {
      var job, m := o.conv.task.job, o.sends[0];
      FreshJob(s, r, d, back, dead, job);
      var d1 := Register(d, t, o.conv);
      var d2 := Put(d1, t, [m], dead);
      AnnounceNames(s, t);
      RegisterLive(s, r, d, back, dead, t, o.conv, m);
      assert d2.wires == d.wires[t := d.wires[t] + [m]] by { PutIs(d1, t, m, dead); }
      NewAnnounced(job, d.wires, t, m);
      OrderStarts(s, o.conv, r, d, d2, back);
    }
  }

  lemma NoTaskOrder(s: Conv, s': Conv, r: Conv, d: Dir, back: seq<seq<Msg>>)
    requires Orderly(s, r, d, back) && !HasJob(s'.task)
    ensures Orderly(s', r, d, back)
  {
    hide Aligned, Whole, Expected, Live, Announced, Questions;
  }

  lemma AnnounceNames(s: Conv, t: nat)
    requires s.task.Acquiring? && Acquired(s, t).conv.task.Deciding?
    ensures var o := Acquired(s, t);
      && |o.sends| == 1 && o.sends == [o.sends[0]] && o.conv.task.t == t && o.conv.task.answer.None?
      && o.conv.task.job.batch == s.counter
      && (o.sends[0].Batch? ==> NamesFiles(o.sends[0].files, o.conv.task.job)) && !o.sends[0].FStart?
      && |o.conv.task.job.ids| == |o.conv.task.job.blobs|
  {
  }

  lemma PutIs(d: Dir, t: nat, m: Msg, dead: set<nat>)
    requires t < |d.wires| && t !in dead
    ensures Put(d, t, [m], dead).wires == d.wires[t := d.wires[t] + [m]]
  {
  }

  lemma RegisterLive(s: Conv, r: Conv, d: Dir, back: seq<seq<Msg>>, dead: set<nat>, t: nat, c: Conv, m: Msg)
    requires DirInv(s, r, d, back, dead) && EndsElsewhere(d, t) && t < |d.wires| && t !in dead && !m.FStart?
    requires s.task.Acquiring? && c == Acquired(s, t).conv && Acquired(s, t).sends == [m] && c.task.Deciding?
    ensures var d2 := Put(Register(d, t, c), t, [m], dead);
      && d2.past == d.past && d2.on == t && Register(d, t, c).wires == d.wires
      && (forall id :: id in d.catalog ==> id in d2.catalog && d2.catalog[id] == d.catalog[id])
      && (forall x :: x in Live(d2) && x.FStart? ==> x in Live(d))
  {
    var d1 := Register(d, t, c);
    var job := c.task.job;
    hide DirInv, EndsElsewhere, Put, Live, FewerStrays, Wired, HistInv, ReceiverOk, ReplyInv, History, Contents,
         Stream, StartIds, NoneIn, NoneEnded;
    JobIsFresh(s, d, t);
    hide Acquired, Register;
    RegisterNames(s, r, d, back, dead, t, job.ids, job.blobs, c.counter);
    NewNamesOnly(s, r, d, back, dead, job);
    MoveLive(d, t);
    SameLive(MoveTo(d, t), d1);
    hide MoveTo;
    LiveThen(d1, t, m, dead, c.counter);
  }

  lemma JobIsFresh(s: Conv, d: Dir, t: nat)
    requires s.task.Acquiring? && Acquired(s, t).conv.task.Deciding?
    ensures var c, m := Acquired(s, t).conv, Acquired(s, t).sends[0]; var job := c.task.job;
      && |job.ids| == |job.blobs| && NoDup(job.ids) && s.counter <= c.counter
      && (forall k :: 0 <= k < |job.ids| ==> s.counter <= job.ids[k] < c.counter)
      && Register(d, t, c) == MoveTo(d, t).(catalog := d.catalog + Contents(job.ids, job.blobs))
      && !IsEnd(m) && (m.Batch? ==> m.batchId == s.counter < c.counter && s.counter !in job.ids)
  {
    hide MoveTo, Contents;
  }

  lemma LiveThen(d: Dir, t: nat, m: Msg, dead: set<nat>, counter: nat)
    requires Wired(d, counter, dead) && d.on == t < |d.wires| && t !in dead && !m.FStart? && !IsEnd(m)
    requires m.Batch? ==> m.batchId !in d.catalog && m.batchId < counter
    ensures var d' := Put(d, t, [m], dead);
      && d'.past == d.past && d'.on == t && d'.catalog == d.catalog
      && (forall x :: x in Live(d') && x.FStart? ==> x in Live(d))
  {
    hide Put, Live, FewerStrays, Wired, History;
    PutSame(d, t, [m], dead);
    if IsStream(m) {
      PutStream(d, m, dead, counter);
    } else {
      PutOther(d, t, [m], dead, counter);
    }
  }

  lemma NewNamesOnly(s: Conv, r: Conv, d: Dir, back: seq<seq<Msg>>, dead: set<nat>, job: Job)
    requires DirInv(s, r, d, back, dead) && |job.ids| == |job.blobs| && NoDup(job.ids)
    requires forall k :: 0 <= k < |job.ids| ==> s.counter <= job.ids[k]
    ensures forall id :: id in d.catalog ==> id !in Contents(job.ids, job.blobs)
  {
    ContentsAre(job.ids, job.blobs);
    hide LockInv, TaskInv, AckInv, ReceiverInv, StraysInv, ReplyInv, WireInv, Contents, WellSent, StartIds, Scan,
         DoneIds, SavedIds, History;
  }

  // -------------------------------------------------------- the receiver's steps

  /** The slot follows the stream. */
  lemma SlotFollows(r: Conv, m: Msg, t: nat, past: seq<Msg>, ended: set<Id>, catalog: map<Id, Bytes>, counter: nat)
    requires IsStream(m) && Entitled(Scan(past), m, catalog, r.log) && Aligned(r.inbound, r.log, past)
    requires m.FStart? ==> Awaits(r.inboundBatch, m.batchId, m.id)
    requires forall id :: id in StartOf(m) ==> id !in StartIds(past) && id in catalog
    requires Books(r, past, ended, catalog, counter)
    ensures var c := OnMessage(r, m, t).conv; Aligned(c.inbound, c.log, past + [m])
  {
    AppendOne(past, m, catalog, r.log);
    hide Scan, StartIds, DialogsInv, SavedIds, NotAsked, Flatten, SlotInv;
  }

  lemma SlotStaysWhole(r: Conv, m: Msg, t: nat, past: seq<Msg>, ended: set<Id>, catalog: map<Id, Bytes>, counter: nat)
    requires IsStream(m) && Entitled(Scan(past), m, catalog, r.log) && Aligned(r.inbound, r.log, past)
    requires Whole(r.inbound, catalog)
    requires forall id :: id in StartOf(m) ==> id in catalog
    requires Books(r, past, ended, catalog, counter)
    ensures Whole(OnMessage(r, m, t).conv.inbound, catalog)
  {
    hide Scan, StartIds, DialogsInv, SavedInv, SavedIds, NotAsked, Flatten;
    EmptyFlatten();
    if m.Chunk? && r.inbound.Some? { FlattenPush(r.inbound.value.parts, m.data); }
  }

  /** A new question about a document comes when the stream has reached its end. */
  lemma QuestionsFollow(job: Job, r: Conv, m: Msg, t: nat, past: seq<Msg>, live: seq<Msg>, catalog: map<Id, Bytes>)
    requires Questions(job, r.dialogs, [m] + live, past) && IsStream(m) && (Announces(m, job) ==> live == [])
    ensures Questions(job, OnMessage(r, m, t).conv.dialogs, live, past + [m])
  {
    AppendOne(past, m, catalog, r.log);
    hide Scan, NamesFiles, Flatten;
  }

  lemma AnswersGrantNothing(r: Conv, m: Msg, t: nat, s: Conv, d: Dir, backd: Dir, dead: set<nat>)
    requires DirInv(s, r, d, backd.wires, dead) && IsStream(m)
    requires (m.DStart? ==> forall id :: id in StartOf(m) ==> id in d.catalog)
    requires Granting(s.task, backd.wires, r.inboundBatch)
    ensures Granting(s.task, Put(backd, t, OnMessage(r, m, t).sends, dead).wires, r.inboundBatch)
  {
    if HasJob(s.task) && !s.task.job.doc {
      var sends := OnMessage(r, m, t).sends;
      BatchIsNoName(s, r, d, backd.wires, dead);
      NotGranted(r, m, t, s.task.job.batch, d.catalog);
      if t < |backd.wires| { AcceptsMore(backd.wires, t, sends, s.task.job.batch); }
      hide DirInv, OnMessage, Accepts, Awaits;
    }
  }

  lemma NotGranted(r: Conv, m: Msg, t: nat, b: Id, catalog: map<Id, Bytes>)
    requires IsStream(m) && b !in catalog && (m.DStart? ==> forall id :: id in StartOf(m) ==> id in catalog)
    ensures Accept(b) !in OnMessage(r, m, t).sends
  {
    hide Flatten;
  }

  lemma BatchIsNoName(s: Conv, r: Conv, d: Dir, back: seq<seq<Msg>>, dead: set<nat>)
    requires DirInv(s, r, d, back, dead) && HasJob(s.task)
    ensures |s.task.job.ids| == |s.task.job.blobs| && (s.task.job.doc <==> s.task.job.batch in d.catalog)
  {
    assert ValidTask(s.task);
    assert s.task.job.doc ==> s.task.job.ids[0] == s.task.job.batch;
    hide WireInv, HistInv, AckInv, ReceiverInv, StraysInv, ReplyInv, DoneIds, SavedIds, History, StartIds, Scan, Live;
  }

  /** The receiver takes the stream's next message. */
  lemma OrderTakesNext(s: Conv, r: Conv, d: Dir, backd: Dir, dead: set<nat>, t: nat)
    requires DirInv(s, r, d, backd.wires, dead) && Orderly(s, r, d, backd.wires)
    requires t < |d.wires| && d.wires[t] != [] && IsNext(d, t)
    ensures var o := OnMessage(r, d.wires[t][0], t);
            Orderly(s, o.conv, Consume(d, t), Put(backd, t, o.sends, dead).wires)
  {
    var m, d' := d.wires[t][0], Consume(d, t);
    var o := OnMessage(r, m, t);
    BatchStays(r, m, t);
    hide DirInv, OnMessage, Put, Live, Aligned, Whole, Entitled, ReceiverOk, HistInv, Wired, Announced, Questions,
         FewerStrays, Announces, History;
    WiredIs(s, r, d, backd.wires, dead);
    LiveTakes(d, t, s.counter, dead);
    TakeKeeps(d, t, s.counter, dead);
    NextMessage(d, t, s.counter, r.log);
    assert m in [m] + Live(d');
    AnswersGrantNothing(r, m, t, s, d, backd, dead);
    ReceiverBooks(r, d, s.counter);
    SlotFollows(r, m, t, d.past, d.ended, d.catalog, s.counter);
    SlotStaysWhole(r, m, t, d.past, d.ended, d.catalog, s.counter);
    assert Expected(Live(d'), r.inboundBatch) by { LessExpected(m, Live(d'), r.inboundBatch); }
    if s.task.Deciding? {
      AnnouncedTake(s.task.job, d.wires, d.on, t);
      assert d'.wires == d.wires[t := d.wires[t][1..]];
      if Announces(m, s.task.job) { NothingLive(d'); }
      QuestionsFollow(s.task.job, r, m, t, d.past, Live(d'), d.catalog);
    }
    hide Expected, Granting;
  }

  lemma LessExpected(m: Msg, live: seq<Msg>, batch: Option<InboundBatch>)
    requires Expected([m] + live, batch)
    ensures Expected(live, batch)
  {
    assert forall x :: x in live ==> x in [m] + live;
    hide Awaits;
  }

  lemma BatchStays(r: Conv, m: Msg, t: nat)
    ensures OnMessage(r, m, t).conv.inboundBatch == r.inboundBatch
  {
    hide Flatten;
  }

  lemma ReceiverBooks(r: Conv, d: Dir, counter: nat)
    requires ReceiverOk(r, d, counter)
    ensures Books(r, d.past, d.ended, d.catalog, counter) && Strays(r, d)
  {
    hide Books, Strays;
  }

  /** An end marker comes late. */
  lemma OrderTakesLate(s: Conv, r: Conv, d: Dir, backd: Dir, dead: set<nat>, t: nat)
    requires DirInv(s, r, d, backd.wires, dead) && Orderly(s, r, d, backd.wires)
    requires t < |d.wires| && d.wires[t] != [] && IsStream(d.wires[t][0]) && !IsNext(d, t)
    ensures var o := OnMessage(r, d.wires[t][0], t);
            Orderly(s, o.conv, Consume(d, t), Put(backd, t, o.sends, dead).wires)
  {
    var m, d' := d.wires[t][0], Consume(d, t);
    var o := OnMessage(r, m, t);
    BatchStays(r, m, t);
    hide DirInv, Put, Live, ReceiverOk, HistInv, Wired, Announced, Questions, FewerStrays, Announces, Flatten, Strays,
         History, IsStray, Scan;
    WiredIs(s, r, d, backd.wires, dead);
    LiveTakes(d, t, s.counter, dead);
    TakeKeeps(d, t, s.counter, dead);
    ReceiverBooks(r, d, s.counter);
    StraysEnd(r, d, m);
    AnswersGrantNothing(r, m, t, s, d, backd, dead);
    if s.task.Deciding? {
      AnnouncedTake(s.task.job, d.wires, d.on, t);
      assert d'.wires == d.wires[t := d.wires[t][1..]];
    }
    hide Expected, Granting, Consume;
    EndLeaves(r, m, t, d.past, d.catalog);
  }

  lemma StraysEnd(r: Conv, d: Dir, m: Msg)
    requires Strays(r, d) && IsStray(d.wires, d.on, d.late, m)
    ensures IsEnd(m)
  {
    hide IsStray, StartIds, Flatten;
  }

  lemma EndLeaves(r: Conv, m: Msg, t: nat, past: seq<Msg>, catalog: map<Id, Bytes>)
    requires IsEnd(m)
    ensures var c := OnMessage(r, m, t).conv;
      && c.dialogs == r.dialogs
      && (Aligned(r.inbound, r.log, past) ==> Aligned(c.inbound, c.log, past))
      && (Whole(r.inbound, catalog) ==> Whole(c.inbound, catalog))
  {
    hide Scan, Flatten;
  }

  /** The receiver takes a question, a text, a cancellation or a reply. */
  lemma OrderTakesOther(s: Conv, r: Conv, d: Dir, back: seq<seq<Msg>>, dead: set<nat>, t: nat)
    requires DirInv(s, r, d, back, dead) && Orderly(s, r, d, back)
    requires t < |d.wires| && d.wires[t] != [] && !IsStream(d.wires[t][0])
    ensures Orderly(s, OnMessage(r, d.wires[t][0], t).conv, Consume(d, t), back)
  {
    hide DirInv, OnMessage, Live, ReceiverOk, HistInv, Wired, Announced, Questions, FewerStrays, Aligned, Whole,
         History, ReplyInv, Announces, Consume;
    var m, d' := d.wires[t][0], Consume(d, t);
    BatchStays(r, m, t);
    OtherLeaves(r, m, t, d.past, d.catalog);
    WiredIs(s, r, d, back, dead);
    LiveTakes(d, t, s.counter, dead);
    TakeKeeps(d, t, s.counter, dead);
    if s.task.Deciding? {
      AnnouncedTake(s.task.job, d.wires, d.on, t);
      ConsumeIs(d, t);
      if Announces(m, s.task.job) { NothingLive(d'); }
      QuestionsJoin(s.task.job, r, m, t, Live(d), d.past);
    }
    hide Expected, Granting;
  }

  lemma ConsumeIs(d: Dir, t: nat)
    requires t < |d.wires| && d.wires[t] != []
    ensures Consume(d, t).wires == d.wires[t := d.wires[t][1..]]
  {
  }

  lemma QuestionsJoin(job: Job, r: Conv, m: Msg, t: nat, live: seq<Msg>, past: seq<Msg>)
    requires Questions(job, r.dialogs, live, past) && !IsStream(m)
    requires Announces(m, job) ==> live == [] && (m.Batch? ==> NamesFiles(m.files, job))
    ensures Questions(job, OnMessage(r, m, t).conv.dialogs, live, past)
  {
    hide Scan, NamesFiles, Flatten;
  }

  lemma OtherLeaves(r: Conv, m: Msg, t: nat, past: seq<Msg>, catalog: map<Id, Bytes>)
    requires !IsStream(m)
    ensures var c := OnMessage(r, m, t).conv;
      && c.dialogs == (if m.Batch? then r.dialogs + [AskFiles(m.batchId, m.files, t)] else r.dialogs)
      && (Aligned(r.inbound, r.log, past) ==> Aligned(c.inbound, c.log, past))
      && (Whole(r.inbound, catalog) ==> Whole(c.inbound, catalog))
  {
    hide Scan, Flatten;
  }

  /** The receiver does something that has nothing to do with this direction. */
  lemma OrderAside(s: Conv, r: Conv, r': Conv, d: Dir, backd: Dir, backd': Dir, dead: set<nat>, t: nat, sends: seq<Msg>)
    requires Orderly(s, r, d, backd.wires) && backd' == Put(backd, t, sends, dead) && forall m :: m in sends ==>
        !m.Accept?
    requires r'.inboundBatch == r.inboundBatch && r'.inbound == r.inbound && r'.dialogs == r.dialogs
    requires Benign(r.log, r'.log)
    ensures Orderly(s, r', d, backd'.wires)
  {
    hide Whole, Expected, Asking, Live, Scan, SavedIds, Accepts, Awaits;
    if HasJob(s.task) && t < |backd.wires| { AcceptsMore(backd.wires, t, sends, s.task.job.batch); }
  }

  lemma {:induction false} MetaMapHas(files: seq<FileMeta>)
    ensures forall k :: 0 <= k < |files| ==> files[k].id in MetaMap(files)
  {
    if files != [] {
      MetaMapHas(files[..|files| - 1]);
      forall k | 0 <= k < |files| ensures files[k].id in MetaMap(files) {
        if k < |files| - 1 { assert files[..|files| - 1][k] == files[k]; }
      }
    }
  }

  lemma BatchNames(job: Job, files: seq<FileMeta>)
    requires NamesFiles(files, job)
    ensures forall id :: id in job.ids ==> Awaits(Some(InboundBatch(job.batch, MetaMap(files))), job.batch, id)
  {
    MetaMapHas(files);
    hide MetaMap;
    forall id | id in job.ids ensures id in MetaMap(files) {
      var k :| 0 <= k < |job.ids| && job.ids[k] == id;
      assert files[k].id == id;
    }
  }

  /** The question about the waiting job is of its own kind. */
  lemma TimelyAsks(s: Conv, r: Conv, d: Dir, back: seq<seq<Msg>>, dead: set<nat>, n: nat)
    requires DirInv(s, r, d, back, dead) && n < |r.dialogs| && Timely(r.dialogs[n], s)
    ensures Asks(r.dialogs[n], s.task.job)
  {
    BatchIsNoName(s, r, d, back, dead);
    WiredIs(s, r, d, back, dead);
    hide DirInv, HistInv, Wired, ReplyInv, Strays;
    assert DialogInv(r.dialogs[n], d.past, d.catalog, s.counter, r.log);
    hide StartIds, Scan, SavedIds, SlotInv, SavedInv;
  }

  /** The receiver's user answers, yes only to a transfer still waiting for it. */
  lemma OrderAnswers(s: Conv, r: Conv, d: Dir, backd: Dir, dead: set<nat>, n: nat, accepted: bool)
    requires DirInv(s, r, d, backd.wires, dead) && Orderly(s, r, d, backd.wires) && n < |r.dialogs|
    requires accepted ==> Timely(r.dialogs[n], s)
    ensures var o := AnswerDialog(r, n, accepted);
            Orderly(s, o.conv, d, Put(backd, r.dialogs[n].on, o.sends, dead).wires)
  {
    hide DirInv, Live, Announced, MetaMap, Flatten, Put, Accepts;
    var q := r.dialogs[n];
    var o := AnswerDialog(r, n, accepted);
    assert forall x :: x in o.conv.dialogs ==> x in r.dialogs;
    if !accepted {
      AnswerGrants(s.task, backd, r.dialogs[n].on, o.sends, dead, r.inboundBatch);
    } else {
      TimelyAsks(s, r, d, backd.wires, dead, n);
      assert q in r.dialogs;
      BatchIsNoName(s, r, d, backd.wires, dead);
      if q.AskFiles? {
        BatchNames(s.task.job, q.files);
      } else {
        DocIsWhole(s, r, d, backd.wires, dead, n);
      }
    }
    hide Scan, Awaits, NamesFiles;
  }

  lemma AnswerGrants(k: Task, backd: Dir, t: nat, sends: seq<Msg>, dead: set<nat>, batch: Option<InboundBatch>)
    requires Granting(k, backd.wires, batch) && forall m :: m in sends ==> !m.Accept?
    ensures Granting(k, Put(backd, t, sends, dead).wires, batch)
  {
    if HasJob(k) && t < |backd.wires| { AcceptsMore(backd.wires, t, sends, k.job.batch); }
    hide Accepts, Awaits;
  }

  lemma DocIsWhole(s: Conv, r: Conv, d: Dir, back: seq<seq<Msg>>, dead: set<nat>, n: nat)
    requires DirInv(s, r, d, back, dead) && n < |r.dialogs| && r.dialogs[n].AskDoc?
    ensures r.dialogs[n].id in d.catalog && Flatten<Byte>([]) == []
  {
    WiredIs(s, r, d, back, dead);
    hide DirInv, HistInv, Wired, ReplyInv, Strays;
    assert DialogInv(r.dialogs[n], d.past, d.catalog, s.counter, r.log);
    hide StartIds, Scan, SavedIds, SlotInv, SavedInv;
  }

  /** A transport closes. */
  lemma OrderLoses(s: Conv, r: Conv, d: Dir, backd: Dir, dead: set<nat>, t: nat)
    requires DirInv(s, r, d, backd.wires, dead) && Orderly(s, r, d, backd.wires)
    ensures Orderly(s, r, Lose(d, t), Lose(backd, t).wires)
  {
    LoseLive(d, t);
    if s.task.Deciding? && t < |d.wires| { AnnouncedLoses(s.task.job, d.wires, d.on, t); }
    if HasJob(s.task) { AcceptsLose(backd, t, s.task.job.batch); }
    hide DirInv, Live, Aligned, Whole, Announced, Accepts, Awaits;
  }

  lemma AcceptsLose(backd: Dir, t: nat, b: Id)
    ensures Accepts(Lose(backd, t).wires, b) ==> Accepts(backd.wires, b)
  {
  }
}
