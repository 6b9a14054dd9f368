/** Every step of the two-party transfer system keeps the invariant of each direction. */
module TransferSafety {
  import opened Basics
  import opened TransferProtocol
  import opened TransferSystem
  import opened TransferInvariant

  // ------------------------------------------------------ steps of the sender

  /** Extending the stream by one message the sender is entitled to send. */
  lemma ExtendHistory(h: seq<Msg>, m: Msg, catalog: map<Id, Bytes>, counter: nat, rlog: seq<Event>)
    requires HistInv(h, catalog, counter, rlog)
    requires Entitled(Scan(h), m, catalog, rlog)
    requires forall id :: id in StartOf(m) ==> id in catalog && id !in StartIds(h)
    ensures HistInv(h + [m], catalog, counter, rlog)
    ensures Scan(h + [m]) == ScanStep(Scan(h), m)
    ensures StartIds(h + [m]) == StartIds(h) + StartOf(m)
  {
    AppendOne(h, m, catalog, rlog);
    hide Scan, StartIds, WellSent;
    if StartOf(m) != [] {
      NoDupPush(StartIds(h), StartOf(m)[0]);
    } else {
      assert StartIds(h) + [] == StartIds(h);
    }
  }

  /** The receiving side of a conversation satisfies its books. */
  ghost predicate Books(r: Conv, past: seq<Msg>, ended: set<Id>, catalog: map<Id, Bytes>, counter: nat) {
    ReceiverInv(r.inboundBatch, r.inbound, r.dialogs, r.log, past, ended, catalog, counter)
  }

  ghost predicate Strays(r: Conv, d: Dir) {
    StraysInv(d.wires, d.on, d.late, r.inbound, r.log, d.past, d.catalog)
  }

  /** The receiver's side of a direction. */
  ghost predicate ReceiverOk(r: Conv, d: Dir, counter: nat) {
    Books(r, d.past, d.ended, d.catalog, counter) && Strays(r, d)
  }

  /** Wires change, and more may have ended: the receiver is concerned with neither. */
  lemma WiresMove(r: Conv, d: Dir, d': Dir, counter: nat)
    requires ReceiverOk(r, d, counter) && FewerStrays(d, d')
    requires d'.past == d.past && d'.catalog == d.catalog && d.ended <= d'.ended
    ensures ReceiverOk(r, d', counter)
  {
    hide IsStray, StrayOk, DialogsInv, SlotInv, KeysMatch, NotAsked, SavedIds, StartIds;
  }

  /** The sender puts one message it is entitled to send on its current transport. */
  lemma SendOnStream(s: Conv, r: Conv, d: Dir, m: Msg, dead: set<nat>)
    requires Wired(d, s.counter, dead) && HistInv(History(d), d.catalog, s.counter, r.log)
    requires ReceiverOk(r, d, s.counter)
    requires d.on < |d.wires| && d.on !in dead && IsStream(m)
    requires Entitled(Scan(History(d)), m, d.catalog, r.log)
    requires forall id :: id in StartOf(m) ==> id in d.catalog && id !in StartIds(History(d))
    requires forall id :: id in EndOf(m) ==> id in d.catalog
    ensures var d' := Put(d, d.on, [m], dead);
      && Wired(d', s.counter, dead)
      && HistInv(History(d'), d'.catalog, s.counter, r.log)
      && History(d') == History(d) + [m] && Live(d') == Live(d) + [m] && d'.ended == d.ended + (set x | x in EndOf(m))
      && d'.past == d.past && d'.catalog == d.catalog && d'.on == d.on && d'.late == d.late && |d'.wires| == |d.wires|
      && ReceiverOk(r, d', s.counter)
  {
    hide Wired, HistInv, ReceiverOk, Scan, StartIds, History, Live, Entitled, WellSent, FewerStrays;
    ExtendHistory(History(d), m, d.catalog, s.counter, r.log);
    PutStream(d, m, dead, s.counter);
    PutSame(d, d.on, [m], dead);
    WiresMove(r, d, Put(d, d.on, [m], dead), s.counter);
  }

  /** The lock and the two waits of one end agree with its running job, `done` being its confirmed transfers. */
  ghost predicate LockWith(c: Conv, done: seq<Id>) {
    LockInv(c.task, c.sending, c.pendingDecision, c.pendingAcks, done)
  }

  lemma LockLooping(c: Conv, done: seq<Id>)
    requires LockWith(c, done) && c.task.Looping?
    ensures LockWith(Advance(c).conv, done)
  {
    hide EndsWith;
  }

  lemma LockPumping(c: Conv, done: seq<Id>)
    requires LockWith(c, done) && c.task.Pumping?
    ensures LockWith(Advance(c).conv, done)
  {
    hide EndsWith;
  }

  lemma LockDeciding(c: Conv, done: seq<Id>)
    requires LockWith(c, done) && c.task.Deciding?
    ensures LockWith(Advance(c).conv, done)
  {
    assert done[|done|..] == [] == c.task.job.ids[..0];
  }

  lemma LockAcking(c: Conv, done: seq<Id>)
    requires LockWith(c, done) && c.task.Acking?
    ensures LockWith(Advance(c).conv, if c.task.resolved then done + [c.task.job.ids[c.task.i]] else done)
  {
    EndsWithNext(done, c.task.job.ids, c.task.i);
    hide EndsWith;
  }

  function JobOf(k: Task): Job {
    if HasJob(k) then k.job else Job(false, 0, [], [])
  }

  lemma EndsWithNext(done: seq<Id>, ids: seq<Id>, i: nat)
    requires EndsWith(done, ids, i) && i < |ids|
    ensures EndsWith(done + [ids[i]], ids, i + 1)
  {
    assert (done + [ids[i]])[|done| - i..] == done[|done| - i..] + [ids[i]];
    assert ids[..i + 1] == ids[..i] + [ids[i]];
  }

  /** One more message of the job itself moves the task and the stream together. */
  lemma TaskMoves(k: Task, k': Task, m: Msg, counter: nat, h: seq<Msg>, on: nat, n: nat, catalog: map<Id, Bytes>,
                  ended: set<Id>, dead: set<nat>, rlog: seq<Event>)
    requires ValidTask(k) && ValidTask(k') && HasJob(k) && HasJob(k') && k'.job == k.job && k'.t == k.t
    requires TaskInv(k, counter, h, on, n, catalog, ended, dead, rlog)
    requires FirstUnstarted(k') >= FirstUnstarted(k) && FirstUnended(k') >= FirstUnended(k)
    requires NoneIn(k'.job.ids, FirstUnstarted(k'), StartOf(m)) && NoneIn(k'.job.ids, FirstUnended(k'), EndOf(m))
    requires k.t !in dead && OpenSeg(k').Some? ==> OpenSeg(k').value == ScanStep(Scan(h), m)
    requires DocAccepted(k') ==> DocAccepted(k)
    ensures TaskInv(k', counter, h + [m], on, n, catalog, ended + (set x | x in EndOf(m)), dead, rlog)
  {
    AppendOne(h, m, catalog, rlog);
    hide Scan, StartIds, WellSent, JobKnown, OpenSeg, ScanStep, Entitled, StartOf, EndOf, FirstUnstarted, FirstUnended,
         DocAccepted;
  }

  lemma TaskRests(k: Task, k': Task, counter: nat, h: seq<Msg>, on: nat, n: nat, catalog: map<Id, Bytes>,
                  ended: set<Id>, dead: set<nat>, rlog: seq<Event>)
    requires ValidTask(k) && ValidTask(k') && HasJob(k) && HasJob(k') && k'.job == k.job && k'.t == k.t
    requires TaskInv(k, counter, h, on, n, catalog, ended, dead, rlog)
    requires FirstUnstarted(k') >= FirstUnstarted(k) && FirstUnended(k') >= FirstUnended(k)
    requires OpenSeg(k').None? || OpenSeg(k') == OpenSeg(k)
    requires DocAccepted(k') ==> DocAccepted(k) || Opened(true, k.job.batch) in rlog
    ensures TaskInv(k', counter, h, on, n, catalog, ended, dead, rlog)
  {
    hide Scan, StartIds, JobKnown, OpenSeg, FirstUnstarted, FirstUnended;
  }

  lemma ResumeDecided(s: Conv, r: Conv, d: Dir, back: seq<seq<Msg>>, dead: set<nat>)
    requires DirInv(s, r, d, back, dead) && s.task.Deciding? && ValidTask(s.task)
    ensures DirInv(Advance(s).conv, r, d, back, dead) && Advance(s).sends == []
  {
    hide LockInv, WireInv, HistInv, TaskInv, ReceiverInv, StraysInv, ReplyInv, History, DoneIds, SavedIds, IsSubseq;
    LockDeciding(s, DoneIds(s.log));
    LogStep(s.log, Declined(s.task.job.batch));
    LogStep(s.log, SendStarted(s.task.job.batch));
    var k' := Advance(s).conv.task;
    if HasJob(k') && k' != s.task {
      if k'.Pumping? {
        assert k'.job.blobs[0][..0] == [];
      }
      TaskRests(s.task, k', s.counter, History(d), d.on, |d.wires|, d.catalog, d.ended, dead, r.log);
    } else {
      NoJobNoInv(k', s.counter, History(d), d.on, |d.wires|, d.catalog, d.ended, dead, r.log);
    }
  }

  lemma NoJobNoInv(k: Task, counter: nat, h: seq<Msg>, on: nat, n: nat, catalog: map<Id, Bytes>,
                   ended: set<Id>, dead: set<nat>, rlog: seq<Event>)
    ensures !HasJob(k) ==> TaskInv(k, counter, h, on, n, catalog, ended, dead, rlog)
  {
  }

  lemma ResumeLooping(s: Conv, r: Conv, d: Dir, back: seq<seq<Msg>>, dead: set<nat>)
    requires DirInv(s, r, d, back, dead) && s.task.Looping? && ValidTask(s.task)
    requires Advance(s).sends != [] ==> s.task.t !in dead
    ensures DirInv(Advance(s).conv, r, Put(d, s.task.t, Advance(s).sends, dead), back, dead)
  {
    hide LockInv, WireInv, HistInv, ReceiverInv, StraysInv, ReplyInv, History, DoneIds, SavedIds, IsSubseq, Scan,
         StartIds, Put;
    LockLooping(s, DoneIds(s.log));
    var Looping(t, job, i) := s.task;
    if i == |job.ids| || job.batch in s.cancelled {
      PutEmpty(d, t, dead);
    } else {
      var m := FStart(job.batch, job.ids[i]);
      LogStep(s.log, SendStarted(job.ids[i]));
      assert job.blobs[i][..0] == [];
      var k' := Pumping(t, job, i, 0);
      assert NoneIn(job.ids, i + 1, StartOf(m)) && NoneIn(job.ids, i, EndOf(m));
      TaskMoves(s.task, k', m, s.counter, History(d), d.on, |d.wires|, d.catalog, d.ended, dead, r.log);
      SendOnStream(s, r, d, m, dead);
    }
  }

  lemma ResumeChunk(s: Conv, r: Conv, d: Dir, back: seq<seq<Msg>>, dead: set<nat>)
    requires DirInv(s, r, d, back, dead) && s.task.Pumping? && ValidTask(s.task)
    requires s.task.offset < |s.task.job.blobs[s.task.i]|
    requires Advance(s).sends != [] ==> s.task.t !in dead
    ensures DirInv(Advance(s).conv, r, Put(d, s.task.t, Advance(s).sends, dead), back, dead)
  {
    hide LockInv, WireInv, HistInv, ReceiverInv, StraysInv, ReplyInv, History, DoneIds, SavedIds, IsSubseq, Scan,
         StartIds, Put;
    LockPumping(s, DoneIds(s.log));
    var Pumping(t, job, i, offset) := s.task;
    var blob := job.blobs[i];
    if job.batch in s.cancelled {
      LogStep(s.log, SendFailed(job.ids[i]));
      PutEmpty(d, t, dead);
    } else {
      var end := Min(offset + CHUNK_SIZE, |blob|);
      var m := Chunk(blob[offset..end]);
      assert blob[..offset] + blob[offset..end] == blob[..end];
      TaskMoves(s.task, Pumping(t, job, i, end), m, s.counter, History(d), d.on, |d.wires|, d.catalog, d.ended, dead,
                r.log);
      if job.doc {
        DocIsBatch(job);
      }
      SendOnStream(s, r, d, m, dead);
    }
  }

  lemma DocIsBatch(job: Job)
    requires ValidJob(job) && job.doc
    ensures |job.ids| == 1 && job.ids[0] == job.batch
  {
  }

  /** Whatever is saved has had its end marker sent. */
  lemma NotSavedYet(r: Conv, d: Dir, counter: nat, id: Id)
    requires Books(r, d.past, d.ended, d.catalog, counter) && id !in d.ended
    ensures id !in SavedIds(r.log)
  {
    SavedIdsMember(r.log, id);
  }

  lemma ResumeEnd(s: Conv, r: Conv, d: Dir, back: seq<seq<Msg>>, dead: set<nat>)
    requires DirInv(s, r, d, back, dead) && s.task.Pumping? && ValidTask(s.task)
    requires s.task.offset == |s.task.job.blobs[s.task.i]| && s.task.t !in dead
    ensures DirInv(Advance(s).conv, r, Put(d, s.task.t, Advance(s).sends, dead), back, dead)
  {
    hide LockInv, WireInv, HistInv, ReceiverInv, StraysInv, ReplyInv, History, DoneIds, SavedIds, IsSubseq, Scan,
         StartIds, Put;
    LockPumping(s, DoneIds(s.log));
    var Pumping(t, job, i, offset) := s.task;
    assert job.blobs[i][..offset] == job.blobs[i];
    NotSavedYet(r, d, s.counter, job.ids[i]);
    var m := if job.doc then DEnd(job.ids[i]) else FEnd(job.batch, job.ids[i]);
    assert EndOf(m) == [job.ids[i]] && StartOf(m) == [];
    TaskMoves(s.task, Acking(t, job, i, false), m, s.counter, History(d), d.on, |d.wires|, d.catalog, d.ended, dead,
              r.log);
    SendOnStream(s, r, d, m, dead);
  }

  lemma ResumeConfirmed(s: Conv, r: Conv, d: Dir, back: seq<seq<Msg>>, dead: set<nat>)
    requires DirInv(s, r, d, back, dead) && s.task.Acking? && ValidTask(s.task)
    ensures DirInv(Advance(s).conv, r, d, back, dead) && Advance(s).sends == []
  {
    hide LockInv, WireInv, HistInv, TaskInv, ReceiverInv, StraysInv, ReplyInv, History, DoneIds, SavedIds, IsSubseq;
    LockAcking(s, DoneIds(s.log));
    var Acking(t, job, i, resolved) := s.task;
    if resolved {
      LogStep(s.log, Done(job.ids[i]));
      var k' := Advance(s).conv.task;
      if HasJob(k') {
        TaskRests(s.task, k', s.counter, History(d), d.on, |d.wires|, d.catalog, d.ended, dead, r.log);
      } else {
        NoJobNoInv(k', s.counter, History(d), d.on, |d.wires|, d.catalog, d.ended, dead, r.log);
      }
    }
  }

  lemma ResumeKeeps(s: Conv, r: Conv, d: Dir, back: seq<seq<Msg>>, dead: set<nat>)
    requires DirInv(s, r, d, back, dead) && CanAct(s, d, d, dead, Resume)
    ensures DirInv(Advance(s).conv, r, Put(d, TaskTransport(s.task), Advance(s).sends, dead), back, dead)
  {
    hide DirInv, Put;
    match s.task
    case NoTask => PutEmpty(d, 0, dead);
    case Acquiring(_) => PutEmpty(d, 0, dead);
    case Deciding(t, _, _) => ResumeDecided(s, r, d, back, dead); PutEmpty(d, t, dead);
    case Looping(_, _, _) => ResumeLooping(s, r, d, back, dead);
    case Pumping(_, job, i, offset) =>
      if offset < |job.blobs[i]| { ResumeChunk(s, r, d, back, dead); } else { ResumeEnd(s, r, d, back, dead); }
    case Acking(t, _, _, _) => ResumeConfirmed(s, r, d, back, dead); PutEmpty(d, t, dead);
  }

  lemma LockFail(c: Conv)
    requires LockWith(c, DoneIds(c.log))
    ensures LockWith(Fail(c), DoneIds(c.log))
    ensures DoneIds(Fail(c).log) == DoneIds(c.log)
    ensures Fail(c).counter == c.counter && Fail(c).task in {NoTask, c.task}
  {
    hide DoneIds, NoDup, EndsWith;
    FailLogs(c);
  }

  lemma FailLogs(c: Conv)
    requires ValidTask(c.task)
    ensures DoneIds(Fail(c).log) == DoneIds(c.log)
  {
    hide DoneIds, NoDup;
    if c.task.Looping? && c.task.i < |c.task.job.ids| {
      LogStep(c.log, SendStarted(c.task.job.ids[c.task.i]));
      LogStep(c.log + [SendStarted(c.task.job.ids[c.task.i])], SendFailed(c.task.job.ids[c.task.i]));
    } else if c.task.Pumping? || c.task.Acking? {
      LogStep(c.log, SendFailed(c.task.job.ids[c.task.i]));
    }
  }

  lemma HoldsLock(s: Conv, r: Conv, d: Dir, back: seq<seq<Msg>>, dead: set<nat>)
    requires DirInv(s, r, d, back, dead)
    ensures LockWith(s, DoneIds(s.log))
  {
  }

  /** A send that ends, however it ends, leaves everything else of its direction as it was. */
  lemma EndingKeeps(s: Conv, s': Conv, r: Conv, d: Dir, back: seq<seq<Msg>>, dead: set<nat>)
    requires DirInv(s, r, d, back, dead) && LockWith(s', DoneIds(s'.log))
    requires DoneIds(s'.log) == DoneIds(s.log) && s'.counter == s.counter && s'.task in {NoTask, s.task}
    ensures DirInv(s', r, d, back, dead)
  {
    hide LockInv, WireInv, HistInv, TaskInv, ReceiverInv, StraysInv, ReplyInv, History, DoneIds, SavedIds, IsSubseq;
    NoJobNoInv(NoTask, s.counter, History(d), d.on, |d.wires|, d.catalog, d.ended, dead, r.log);
  }

  lemma StartKeeps(s: Conv, r: Conv, d: Dir, back: seq<seq<Msg>>, dead: set<nat>, work: Work)
    requires DirInv(s, r, d, back, dead)
    ensures DirInv(Begin(s, work), r, d, back, dead)
  {
    hide WireInv, HistInv, ReceiverInv, StraysInv, ReplyInv, History, DoneIds, SavedIds, IsSubseq, EndsWith;
  }

  /** Names at or above `n1` are new, so adding them disturbs nothing. */
  lemma CatalogGrows(r: Conv, past: seq<Msg>, h: seq<Msg>, ended: set<Id>, c1: map<Id, Bytes>, c2: map<Id, Bytes>,
                     n1: nat, n2: nat, back: seq<seq<Msg>>)
    requires HistInv(h, c1, n1, r.log) && ReplyInv(c1, n1, back, r.log) && Books(r, past, ended, c1, n1)
    requires n1 <= n2
    requires forall id :: id in c1 ==> id in c2 && c2[id] == c1[id]
    requires forall id :: id in c2 && id !in c1 ==> n1 <= id < n2
    ensures HistInv(h, c2, n2, r.log) && ReplyInv(c2, n2, back, r.log) && Books(r, past, ended, c2, n2)
  {
    WellSentGrow(h, c1, c2, r.log, r.log);
    hide Scan, StartIds, WellSent, SavedIds, SlotInv, KeysMatch, NotAsked, Flatten;
  }

  lemma StraysName(r: Conv, d: Dir, catalog: map<Id, Bytes>)
    requires Strays(r, d) && forall id :: id in d.catalog ==> id in catalog && catalog[id] == d.catalog[id]
    ensures Strays(r, d.(catalog := catalog))
  {
    hide IsStray, StartIds, Flatten;
  }

  lemma OneOver(a: seq<Msg>, b: seq<Msg>)
    requires b != []
    ensures a + b == (a + [b[0]]) + b[1..]
  {
  }

  /** Nothing is left to end after an end marker. */
  lemma NoTwoEnds(h: seq<Msg>, e: Msg, rest: seq<Msg>, catalog: map<Id, Bytes>, rlog: seq<Event>)
    requires IsEnd(e) && rest != [] && IsEnd(rest[0])
    ensures !WellSent((h + [e]) + rest, catalog, rlog)
  {
    var f := rest[0];
    AppendOne(h, e, catalog, rlog);
    AppendOne(h + [e], f, catalog, rlog);
    hide WellSent, Scan;
    OneOver(h + [e], rest);
    if WellSent((h + [e]) + rest, catalog, rlog) {
      WellSentPrefix((h + [e]) + [f], rest[1..], catalog, rlog);
    }
  }

  /** If only end markers of a stream are in flight there is one of them, and it ends what is open. */
  lemma OneEnd(past: seq<Msg>, ends: seq<Msg>, catalog: map<Id, Bytes>, rlog: seq<Event>)
    requires WellSent(past + ends, catalog, rlog)
    requires ends != [] && forall k :: 0 <= k < |ends| ==> IsEnd(ends[k])
    ensures ends == [ends[0]] && Entitled(Scan(past), ends[0], catalog, rlog)
  {
    var e, rest := ends[0], ends[1..];
    hide WellSent, Scan, Entitled, IsEnd;
    OneOver(past, ends);
    WellSentPrefix(past + [e], rest, catalog, rlog);
    AppendOne(past, e, catalog, rlog);
    if rest != [] { NoTwoEnds(past, e, rest, catalog, rlog); }
  }

  /** A stream message in flight that can only be an end marker ends something complete. */
  lemma EndIsComplete(r: Conv, d: Dir, counter: nat, m: Msg)
    requires HistInv(History(d), d.catalog, counter, r.log) && Books(r, d.past, d.ended, d.catalog, counter)
    requires m in Live(d) && forall x :: x in Live(d) ==> IsEnd(x)
    ensures StrayOk(m, r.inbound, r.log, d.past, d.catalog)
  {
    OneEnd(d.past, Live(d), d.catalog, r.log);
    ScanStarted(d.past, d.catalog, r.log);
    hide Live, History, WellSent, Scan, SavedInv, DialogsInv, StartIds, SavedIds, KeysMatch, NotAsked, Flatten;
    assert m == Live(d)[0];
  }

  /** What a stream has open was started in it. */
  lemma {:induction false} ScanStarted(h: seq<Msg>, catalog: map<Id, Bytes>, rlog: seq<Event>)
    ensures Scan(h).Seg? ==> Scan(h).id in StartIds(h)
  {
    if h != [] {
      ScanStarted(h[..|h| - 1], catalog, rlog);
    }
  }

  /** The stream moves to transport `t`; what is left of the old one elsewhere are end markers. */
  lemma Moves(r: Conv, d: Dir, t: nat, counter: nat, dead: set<nat>)
    requires Wired(d, counter, dead) && t < |d.wires| && EndsElsewhere(d, t)
    requires HistInv(History(d), d.catalog, counter, r.log) && ReceiverOk(r, d, counter)
    ensures var d' := MoveTo(d, t);
      && Wired(d', counter, dead) && HistInv(History(d'), d'.catalog, counter, r.log) && ReceiverOk(r, d', counter)
      && d'.catalog == d.catalog && d'.ended == d.ended && d'.wires == d.wires && d'.past == d.past && d'.on == t
  {
    var d' := MoveTo(d, t);
    hide Books, StrayOk, StartIds, Scan, WellSent;
    if t != d.on {
      MoveHistory(d, t);
      assert HistInv(History(d'), d'.catalog, counter, r.log) by {
        HistPrefix(History(d'), Live(d), d.catalog, counter, r.log);
      }
      forall m | IsStray(d'.wires, d'.on, d'.late, m) ensures StrayOk(m, r.inbound, r.log, d.past, d.catalog) {
        MoveStray(d, t, m);
        if !IsStray(d.wires, d.on, d.late, m) { hide HistInv, Strays; EndIsComplete(r, d, counter, m); }
      }
      hide HistInv, IsStray, Stream, BatchesFresh, EndsKnown;
    }
  }

  lemma MoveHistory(d: Dir, t: nat)
    requires t < |d.wires| && t != d.on
    ensures History(MoveTo(d, t)) == d.past && History(d) == d.past + Live(d)
    ensures MoveTo(d, t).late <= |Stream(d.wires[t])|
  {
    assert Stream(d.wires[t])[|Stream(d.wires[t])|..] == [];
    assert d.past + [] == d.past;
    hide Stream;
  }

  lemma MoveStray(d: Dir, t: nat, m: Msg)
    requires t < |d.wires| && t != d.on && EndsElsewhere(d, t)
    requires (d.on < |d.wires| ==> d.late <= |Stream(d.wires[d.on])|)
    requires IsStray(d.wires, t, |Stream(d.wires[t])|, m)
    ensures IsStray(d.wires, d.on, d.late, m) || m in Live(d)
    ensures forall x :: x in Live(d) ==> IsEnd(x)
  {
    if d.on < |d.wires| {
      var w := Stream(d.wires[d.on]);
      assert w == w[..d.late] + w[d.late..];
      StreamHas(d.wires[d.on], m);
      forall x | x in Live(d) ensures IsEnd(x) { StreamHas(d.wires[d.on], x); }
    }
    StreamHas(d.wires[t], m);
    assert Stream(d.wires[t])[..|Stream(d.wires[t])|] == Stream(d.wires[t]);
    hide Stream;
  }

  lemma WiresFresh(d: Dir, c2: map<Id, Bytes>, n1: nat, n2: nat, dead: set<nat>)
    requires Wired(d, n1, dead) && n1 <= n2
    requires forall id :: id in d.catalog ==> id in c2
    requires forall id :: id in c2 && id !in d.catalog ==> n1 <= id < n2
    ensures Wired(d.(catalog := c2), n2, dead)
  {
    hide Stream, EndsKnown;
  }

  /** The history side of a new job: fresh names are registered and nothing else moves. */
  lemma RegisterNames(s: Conv, r: Conv, d: Dir, back: seq<seq<Msg>>, dead: set<nat>, t: nat,
                      ids: seq<Id>, blobs: seq<Bytes>, counter': nat)
    requires DirInv(s, r, d, back, dead)
    requires EndsElsewhere(d, t) && t < |d.wires| && |ids| == |blobs| && NoDup(ids)
    requires s.counter <= counter' && forall k :: 0 <= k < |ids| ==> s.counter <= ids[k] < counter'
    ensures var d1 := MoveTo(d, t).(catalog := d.catalog + Contents(ids, blobs));
      && d1.on == t && d1.wires == d.wires && d1.past == d.past && d1.ended == d.ended
      && Wired(d1, counter', dead)
      && HistInv(History(d1), d1.catalog, counter', r.log)
      && ReceiverOk(r, d1, counter')
      && ReplyInv(d1.catalog, counter', back, r.log)
      && NoneIn(ids, 0, StartIds(History(d1))) && NoneEnded(ids, 0, d1.ended)
      && (forall k :: 0 <= k < |ids| ==> ids[k] in d1.catalog && d1.catalog[ids[k]] == blobs[k])
      && (s.counter !in ids ==> s.counter !in d1.catalog)
  {
    hide LockInv, TaskInv, AckInv, ReceiverInv, StraysInv, ReplyInv, EndsElsewhere, Scan, StartIds, WellSent, SavedIds,
         DoneIds, Live, MoveTo;
    Moves(r, d, t, s.counter, dead);
    NewNames(r, MoveTo(d, t), back, dead, s.counter, counter', ids, blobs);
  }

  lemma NewNames(r: Conv, d: Dir, back: seq<seq<Msg>>, dead: set<nat>, n1: nat, n2: nat, ids: seq<Id>,
                 blobs: seq<Bytes>)
    requires Wired(d, n1, dead) && HistInv(History(d), d.catalog, n1, r.log) && ReceiverOk(r, d, n1)
    requires ReplyInv(d.catalog, n1, back, r.log)
    requires n1 <= n2 && |ids| == |blobs| && NoDup(ids) && forall k :: 0 <= k < |ids| ==> n1 <= ids[k] < n2
    ensures var d1 := d.(catalog := d.catalog + Contents(ids, blobs));
      && Wired(d1, n2, dead) && HistInv(History(d1), d1.catalog, n2, r.log) && ReceiverOk(r, d1, n2)
      && ReplyInv(d1.catalog, n2, back, r.log)
      && NoneIn(ids, 0, StartIds(History(d1))) && NoneEnded(ids, 0, d1.ended)
      && (forall k :: 0 <= k < |ids| ==> ids[k] in d1.catalog && d1.catalog[ids[k]] == blobs[k])
      && (n1 !in ids ==> n1 !in d1.catalog)
  {
    hide ReceiverInv, StraysInv, ReplyInv, Contents, Scan, StartIds, WellSent, SavedIds, Live, WireInv;
    ContentsAre(ids, blobs);
    var d1 := d.(catalog := d.catalog + Contents(ids, blobs));
    assert History(d1) == History(d) by { SameLive(d, d1); }
    hide History;
    EndedKnown(d, n1, dead);
    CatalogGrows(r, d.past, History(d), d.ended, d.catalog, d1.catalog, n1, n2, back);
    StraysName(r, d, d1.catalog);
    WiresFresh(d, d1.catalog, n1, n2, dead);
  }

  lemma SameLive(d: Dir, d1: Dir)
    requires d1.wires == d.wires && d1.on == d.on && d1.late == d.late
    ensures Live(d1) == Live(d)
  {
  }

  lemma EndedKnown(d: Dir, counter: nat, dead: set<nat>)
    requires Wired(d, counter, dead)
    ensures d.ended <= d.catalog.Keys
  {
  }

  lemma AcquireFiles(s: Conv, r: Conv, d: Dir, back: seq<seq<Msg>>, dead: set<nat>, t: nat)
    requires DirInv(s, r, d, back, dead) && EndsElsewhere(d, t)
    requires s.task.Acquiring? && s.task.work.Files? && t < |d.wires| && t !in dead
    ensures var o := Acquired(s, t);
            DirInv(o.conv, r, Put(Register(d, t, o.conv), t, o.sends, dead), back, dead)
  {
    hide WireInv, HistInv, ReceiverInv, StraysInv, ReplyInv, History, DoneIds, SavedIds, IsSubseq, Scan, StartIds, Put,
         Contents, EndsElsewhere, FewerStrays, MoveTo;
    var o := Acquired(s, t);
    var job := o.conv.task.job;
    RegisterNames(s, r, d, back, dead, t, job.ids, job.blobs, o.conv.counter);
    var d1 := Register(d, t, o.conv);
    PutOther(d1, t, o.sends, dead, o.conv.counter);
    PutSame(d1, t, o.sends, dead);
    WiresMove(r, d1, Put(d1, t, o.sends, dead), o.conv.counter);
  }

  lemma AcquireDoc(s: Conv, r: Conv, d: Dir, back: seq<seq<Msg>>, dead: set<nat>, t: nat)
    requires DirInv(s, r, d, back, dead) && EndsElsewhere(d, t)
    requires s.task.Acquiring? && s.task.work.Doc? && t < |d.wires| && t !in dead
    ensures var o := Acquired(s, t);
            DirInv(o.conv, r, Put(Register(d, t, o.conv), t, o.sends, dead), back, dead)
  {
    hide WireInv, HistInv, ReceiverInv, StraysInv, ReplyInv, History, DoneIds, SavedIds, IsSubseq, Scan, StartIds, Put,
         Contents, EndsElsewhere, FewerStrays, MoveTo;
    var o := Acquired(s, t);
    if |s.task.work.html| > MAX_DOC_BYTES {
      PutEmpty(d, t, dead);
    } else {
      var job := o.conv.task.job;
      RegisterNames(s, r, d, back, dead, t, job.ids, job.blobs, o.conv.counter);
      var d1 := Register(d, t, o.conv);
      var m := o.sends[0];
      SendOnStream(o.conv, r, d1, m, dead);
      AppendOne(History(d1), m, d1.catalog, r.log);
    }
  }

  // ---------------------------------------------------- steps of the receiver

  /** A new event in the receiver's log keeps what the sender's side relies on. */
  lemma LogGrows(s: Conv, d: Dir, back: seq<seq<Msg>>, dead: set<nat>, log: seq<Event>, e: Event)
    requires HistInv(History(d), d.catalog, s.counter, log)
    requires TaskInv(s.task, s.counter, History(d), d.on, |d.wires|, d.catalog, d.ended, dead, log)
    requires AckInv(s.task, DoneIds(s.log), SavedIds(log)) && ReplyInv(d.catalog, s.counter, back, log)
    ensures HistInv(History(d), d.catalog, s.counter, log + [e])
    ensures TaskInv(s.task, s.counter, History(d), d.on, |d.wires|, d.catalog, d.ended, dead, log + [e])
    ensures AckInv(s.task, DoneIds(s.log), SavedIds(log + [e])) && ReplyInv(d.catalog, s.counter, back, log + [e])
  {
    hide History, DoneIds, SavedIds, AckInv;
    LogStep(log, e);
    HistLog(History(d), d.catalog, s.counter, log, e);
    TaskLog(s.task, s.counter, History(d), d.on, |d.wires|, d.catalog, d.ended, dead, log, e);
    if e.Saved? {
      AckLog(s.task, DoneIds(s.log), SavedIds(log), e.id);
    }
    ReplyLog(d.catalog, s.counter, back, log, e);
  }

  lemma HistLog(h: seq<Msg>, catalog: map<Id, Bytes>, counter: nat, log: seq<Event>, e: Event)
    requires HistInv(h, catalog, counter, log)
    ensures HistInv(h, catalog, counter, log + [e])
  {
    WellSentGrow(h, catalog, catalog, log, log + [e]);
  }

  lemma TaskLog(k: Task, counter: nat, h: seq<Msg>, on: nat, n: nat, catalog: map<Id, Bytes>,
                ended: set<Id>, dead: set<nat>, log: seq<Event>, e: Event)
    requires TaskInv(k, counter, h, on, n, catalog, ended, dead, log)
    ensures TaskInv(k, counter, h, on, n, catalog, ended, dead, log + [e])
  {
    hide Scan, StartIds, JobKnown, NoneIn, OpenSeg;
  }

  lemma AckLog(k: Task, done: seq<Id>, saved: seq<Id>, id: Id)
    requires AckInv(k, done, saved)
    ensures AckInv(k, done, saved + [id])
  {
    hide IsSubseq;
    SubseqGrow(done, saved, id);
    SubseqPush(done, saved, id);
    if k.Acking? && k.i < |k.job.ids| && k.job.ids[k.i] in saved {
      SubseqGrow(done + [k.job.ids[k.i]], saved, id);
    }
  }

  lemma ReplyLog(catalog: map<Id, Bytes>, counter: nat, back: seq<seq<Msg>>, log: seq<Event>, e: Event)
    requires ReplyInv(catalog, counter, back, log)
    ensures ReplyInv(catalog, counter, back, log + [e])
  {
    LogStep(log, e);
    hide SavedIds;
  }

  /** Facts the stream's history gives about the next message the receiver takes. */
  lemma NextMessage(d: Dir, t: nat, counter: nat, rlog: seq<Event>)
    requires HistInv(History(d), d.catalog, counter, rlog)
    requires t < |d.wires| && d.wires[t] != [] && IsNext(d, t)
    ensures Entitled(Scan(d.past), d.wires[t][0], d.catalog, rlog)
    ensures forall id :: id in StartOf(d.wires[t][0]) ==> id !in StartIds(d.past) && id in d.catalog
  {
    var m := d.wires[t][0];
    var p := d.past + [m];
    var rest := Stream(d.wires[t][1..]);
    StreamPop(d.wires[t]);
    assert Stream(d.wires[t])[0..] == Stream(d.wires[t]);
    assert History(d) == p + rest;
    WellSentPrefix(p, rest, d.catalog, rlog);
    AppendOne(d.past, m, d.catalog, rlog);
    StartIdsConcat(p, rest);
    NoDupPrefix(StartIds(p), StartIds(rest));
    NoDupSplit(StartIds(d.past), StartOf(m));
    forall id | id in StartOf(m) ensures id in d.catalog {
      assert id in StartIds(p);
    }
  }

  /** A dialog still open sees only messages that are not bytes of its document. */
  lemma DialogsKeep(q: seq<Dialog>, past: seq<Msg>, m: Msg, catalog: map<Id, Bytes>, counter: nat, log: seq<Event>)
    requires DialogsInv(q, past, catalog, counter, log) && Entitled(Scan(past), m, catalog, log)
    ensures DialogsInv(q, past + [m], catalog, counter, log)
  {
    AppendOne(past, m, catalog, log);
    hide Scan, StartIds, SavedIds, WellSent;
  }

  lemma DialogsLog(q: seq<Dialog>, past: seq<Msg>, catalog: map<Id, Bytes>, counter: nat, log: seq<Event>, e: Event)
    requires DialogsInv(q, past, catalog, counter, log)
    requires (e.Opened? && e.doc) || e.Saved? ==> NotAsked(q, e.id)
    ensures DialogsInv(q, past, catalog, counter, log + [e])
  {
    LogStep(log, e);
    hide Scan, StartIds, SavedIds;
  }

  lemma SavedKeep(log: seq<Event>, past: seq<Msg>, m: Msg, ended: set<Id>, catalog: map<Id, Bytes>)
    requires SavedInv(log, past, ended, catalog)
    ensures SavedInv(log, past + [m], ended, catalog)
  {
    AppendOne(past, m, catalog, log);
    hide Scan, StartIds, SavedIds, WellSent;
  }

  lemma SavedLog(log: seq<Event>, past: seq<Msg>, ended: set<Id>, catalog: map<Id, Bytes>, e: Event)
    requires SavedInv(log, past, ended, catalog)
    requires e.Opened? && e.doc ==> e.id in StartIds(past)
    requires e.Saved? ==> && e.id !in SavedIds(log) && e.id in catalog && e.data == catalog[e.id]
                          && e.id in ended && e.id in StartIds(past)
    ensures SavedInv(log + [e], past, ended, catalog)
  {
    LogStep(log, e);
    hide Scan, StartIds, SavedIds;
    if e.Saved? {
      NoDupPush(SavedIds(log), e.id);
    }
  }

  lemma RecvChunk(r: Conv, data: Bytes, past: seq<Msg>, ended: set<Id>, catalog: map<Id, Bytes>, counter: nat)
    requires Books(r, past, ended, catalog, counter) && Entitled(Scan(past), Chunk(data), catalog, r.log)
    ensures Books(OnChunk(r, data), past + [Chunk(data)], ended, catalog, counter)
  {
    hide Scan, StartIds, SavedIds, WellSent, Flatten, DialogsInv, SavedInv, KeysMatch, NotAsked;
    var m := Chunk(data);
    AppendOne(past, m, catalog, r.log);
    DialogsKeep(r.dialogs, past, m, catalog, counter, r.log);
    SavedKeep(r.log, past, m, ended, catalog);
    if r.inbound.Some? {
      var ib := r.inbound.value;
      DialogsLog(r.dialogs, past + [m], catalog, counter, r.log, ReceiveFailed(ib.id));
      SavedLog(r.log, past + [m], ended, catalog, ReceiveFailed(ib.id));
      FlattenPush(ib.parts, data);
    }
  }

  lemma RecvFileStart(r: Conv, batchId: Id, id: Id, past: seq<Msg>, ended: set<Id>, catalog: map<Id, Bytes>,
                      counter: nat)
    requires Books(r, past, ended, catalog, counter)
    requires id !in StartIds(past)
    ensures Books(OnFileStart(r, batchId, id), past + [FStart(batchId, id)], ended, catalog, counter)
  {
    hide Scan, StartIds, SavedIds, WellSent, Flatten, DialogsInv, SavedInv, NotAsked;
    NotSavedIfNotStarted(r.log, past, ended, catalog, id);
    FreshNotAsked(r.dialogs, past, catalog, counter, r.log, id);
    var m := FStart(batchId, id);
    AppendOne(past, m, catalog, r.log);
    DialogsKeep(r.dialogs, past, m, catalog, counter, r.log);
    SavedKeep(r.log, past, m, ended, catalog);
    DialogsLog(r.dialogs, past + [m], catalog, counter, r.log, Opened(false, id));
    SavedLog(r.log, past + [m], ended, catalog, Opened(false, id));
    LogStep(r.log, Opened(false, id));
    EmptyFlatten();
  }

  lemma EmptyFlatten()
    ensures Flatten<Byte>([]) == []
  {
  }

  /** An end marker closes the slot it names, if that is complete. */
  lemma SlotEnds(r: Conv, doc: bool, id: Id, past: seq<Msg>, ended: set<Id>, catalog: map<Id, Bytes>, counter: nat)
    requires Books(r, past, ended, catalog, counter) && id in ended && id in catalog
    requires var slot := r.inbound;
            slot.Some? && slot.value.doc == doc && slot.value.id == id ==> Flatten(slot.value.parts) == catalog[id]
    ensures Books(OnEnd(r, doc, id).conv, past, ended, catalog, counter)
  {
    hide Scan, StartIds, SavedIds, WellSent, Flatten, DialogsInv, SavedInv, KeysMatch, NotAsked;
    if r.inbound.Some? && r.inbound.value.doc == doc && r.inbound.value.id == id {
      var e := Saved(id, Flatten(r.inbound.value.parts));
      DialogsLog(r.dialogs, past, catalog, counter, r.log, e);
      SavedLog(r.log, past, ended, catalog, e);
    }
  }

  lemma RecvEnd(r: Conv, doc: bool, id: Id, m: Msg, past: seq<Msg>, ended: set<Id>, catalog: map<Id, Bytes>,
                counter: nat)
    requires Books(r, past, ended, catalog, counter) && id in ended
    requires (if doc then m.DEnd? else m.FEnd?) && m.id == id && Entitled(Scan(past), m, catalog, r.log)
    ensures Books(OnEnd(r, doc, id).conv, past + [m], ended, catalog, counter)
  {
    hide Scan, StartIds, SavedIds, WellSent, Flatten, DialogsInv, SavedInv, KeysMatch, NotAsked, OnEnd;
    AppendOne(past, m, catalog, r.log);
    DialogsKeep(r.dialogs, past, m, catalog, counter, r.log);
    SavedKeep(r.log, past, m, ended, catalog);
    SlotEnds(r, doc, id, past + [m], ended, catalog, counter);
  }

  /** A name that has not been started yet is not waiting for an answer either. */
  lemma FreshNotAsked(q: seq<Dialog>, past: seq<Msg>, catalog: map<Id, Bytes>, counter: nat, log: seq<Event>, id: Id)
    requires DialogsInv(q, past, catalog, counter, log) && id !in StartIds(past)
    ensures NotAsked(q, id)
  {
  }

  lemma NotSavedIfNotStarted(log: seq<Event>, past: seq<Msg>, ended: set<Id>, catalog: map<Id, Bytes>, id: Id)
    requires SavedInv(log, past, ended, catalog) && id !in StartIds(past)
    ensures id !in SavedIds(log) && Opened(true, id) !in log
  {
    SavedIdsMember(log, id);
  }

  lemma RecvDocStart(r: Conv, docId: Option<Id>, docSize: Option<real>, t: nat,
                     past: seq<Msg>, ended: set<Id>, catalog: map<Id, Bytes>, counter: nat)
    requires Books(r, past, ended, catalog, counter)
    requires docId.Some? ==> docId.value !in StartIds(past) && docId.value in catalog
    ensures Books(OnDocStart(r, docId, docSize, t).conv, past + [DStart(docId, docSize)], ended, catalog, counter)
  {
    hide Scan, StartIds, SavedIds, WellSent, Flatten, SavedInv, DialogsInv, KeysMatch, NotAsked;
    var m := DStart(docId, docSize);
    AppendOne(past, m, catalog, r.log);
    DialogsKeep(r.dialogs, past, m, catalog, counter, r.log);
    SavedKeep(r.log, past, m, ended, catalog);
    SlotKeeps(r, past, m, catalog);
    if docId.Some? {
      var id := docId.value;
      var e := Opened(true, id);
      NotSavedIfNotStarted(r.log, past, ended, catalog, id);
      FreshNotAsked(r.dialogs, past, catalog, counter, r.log, id);
      DialogsLog(r.dialogs, past + [m], catalog, counter, r.log, e);
      SavedLog(r.log, past + [m], ended, catalog, e);
      LogStep(r.log, e);
      EmptyFlatten();
      if docSize.Some? && docSize.value > AUTO_ACCEPT_DOC_BYTES as real {
        AskAbout(r, past + [m], catalog, counter, AskDoc(id, docSize.value, t));
      }
    }
  }

  /** A new question about a document that has just been announced. */
  lemma AskAbout(r: Conv, past: seq<Msg>, catalog: map<Id, Bytes>, counter: nat, q: Dialog)
    requires DialogsInv(r.dialogs, past, catalog, counter, r.log) && DialogInv(q, past, catalog, counter, r.log)
    requires q.AskDoc? ==> NotAsked(r.dialogs, q.id)
    ensures DialogsInv(r.dialogs + [q], past, catalog, counter, r.log)
    ensures forall id :: NotAsked(r.dialogs, id) && (q.AskDoc? ==> q.id != id) ==> NotAsked(r.dialogs + [q], id)
  {
    hide DialogInv;
  }

  /** A fresh start marker ends whatever segment the slot was following. */
  lemma SlotKeeps(r: Conv, past: seq<Msg>, m: Msg, catalog: map<Id, Bytes>)
    requires r.inbound.Some? ==> SlotInv(r.inbound.value, past, r.log)
    requires m.DStart? && (m.docId.Some? ==> m.docId.value !in StartIds(past))
    ensures r.inbound.Some? ==> SlotInv(r.inbound.value, past + [m], r.log)
  {
    AppendOne(past, m, catalog, r.log);
    hide Scan, StartIds, SavedIds, WellSent, Flatten;
  }

  lemma ReceiverTakes(r: Conv, d: Dir, counter: nat, t: nat)
    requires HistInv(History(d), d.catalog, counter, r.log) && Books(r, d.past, d.ended, d.catalog, counter)
    requires t < |d.wires| && d.wires[t] != [] && IsNext(d, t) && (IsEnd(d.wires[t][0]) ==> d.wires[t][0].id in d.ended)
    ensures Books(OnMessage(r, d.wires[t][0], t).conv, d.past + [d.wires[t][0]], d.ended, d.catalog, counter)
  {
    hide Scan, StartIds, History, SavedIds, Books, HistInv, Entitled, OnChunk, OnFileStart, OnEnd, OnDocStart;
    NextMessage(d, t, counter, r.log);
    var m := d.wires[t][0];
    match m
    case Chunk(data) => RecvChunk(r, data, d.past, d.ended, d.catalog, counter);
    case FStart(b, id) => RecvFileStart(r, b, id, d.past, d.ended, d.catalog, counter);
    case FEnd(_, id) => RecvEnd(r, false, id, m, d.past, d.ended, d.catalog, counter);
    case DEnd(id) => RecvEnd(r, true, id, m, d.past, d.ended, d.catalog, counter);
    case DStart(id, size) => RecvDocStart(r, id, size, t, d.past, d.ended, d.catalog, counter);
  }

  /** Nothing of an earlier stream is left, or what is open is what the stream has open. */
  ghost predicate Safe(r: Conv, d: Dir) {
    NoStrays(d.wires, d.on, d.late) || Aligned(r.inbound, r.log, d.past)
  }

  lemma NoneStray(d: Dir, m: Msg)
    requires NoStrays(d.wires, d.on, d.late)
    ensures !IsStray(d.wires, d.on, d.late, m)
  {
    hide IsStray;
  }

  /** What has been left behind and is still open at the receiver stays complete. */
  lemma StrayStays(r: Conv, d: Dir, counter: nat, m: Msg, t: nat, x: Msg)
    requires StrayOk(x, r.inbound, r.log, d.past, d.catalog) && Books(r, d.past, d.ended, d.catalog, counter)
    requires IsStream(m) && Entitled(Scan(d.past), m, d.catalog, r.log) && Aligned(r.inbound, r.log, d.past)
    requires forall id :: id in StartOf(m) ==> id !in StartIds(d.past)
    ensures var c := OnMessage(r, m, t).conv; StrayOk(x, c.inbound, c.log, d.past + [m], d.catalog)
  {
    AppendOne(d.past, m, d.catalog, r.log);
    hide Scan, StartIds, DialogsInv, SavedInv, SavedIds, NotAsked, Flatten;
    if m.Chunk? && r.inbound.Some? { FlattenPush(r.inbound.value.parts, m.data); }
  }

  /** A late end marker closes what it names, or nothing. */
  lemma StrayTaken(r: Conv, m: Msg, t: nat, past: seq<Msg>, catalog: map<Id, Bytes>, x: Msg)
    requires StrayOk(x, r.inbound, r.log, past, catalog) && IsEnd(m)
    ensures var c := OnMessage(r, m, t).conv; StrayOk(x, c.inbound, c.log, past, catalog)
  {
    hide StartIds, Flatten;
  }

  /** The receiver takes a stream message, in its turn or late. */
  lemma ReceiverHandles(r: Conv, d: Dir, counter: nat, dead: set<nat>, t: nat)
    requires HistInv(History(d), d.catalog, counter, r.log) && Wired(d, counter, dead) && ReceiverOk(r, d, counter)
    requires Safe(r, d)
    requires t < |d.wires| && d.wires[t] != [] && IsStream(d.wires[t][0])
    ensures ReceiverOk(OnMessage(r, d.wires[t][0], t).conv, Consume(d, t), counter)
  {
    hide HistInv, Wired, Books, History, OnMessage, StrayOk, FewerStrays, Consume, IsStray, NoStrays, Aligned, IsNext,
         Entitled, Scan, StartIds;
    var m, d' := d.wires[t][0], Consume(d, t);
    var c := OnMessage(r, m, t).conv;
    TakeKeeps(d, t, counter, dead);
    if IsNext(d, t) {
      NextMessage(d, t, counter, r.log);
      ReceiverTakes(r, d, counter, t);
      forall x | IsStray(d'.wires, d'.on, d'.late, x) ensures StrayOk(x, c.inbound, c.log, d'.past, d'.catalog) {
        StillStray(d, d', x);
        if NoStrays(d.wires, d.on, d.late) { NoneStray(d, x); } else { StrayStays(r, d, counter, m, t, x); }
      }
    } else {
      LateEnd(r, m, t, d.past, d.ended, d.catalog, counter);
      forall x | IsStray(d'.wires, d'.on, d'.late, x) ensures StrayOk(x, c.inbound, c.log, d'.past, d'.catalog) {
        StillStray(d, d', x);
        StrayTaken(r, m, t, d.past, d.catalog, x);
      }
    }
  }

  lemma StillStray(d: Dir, d': Dir, x: Msg)
    requires FewerStrays(d, d') && IsStray(d'.wires, d'.on, d'.late, x)
    ensures IsStray(d.wires, d.on, d.late, x)
  {
    hide IsStray;
  }

  lemma LateEnd(r: Conv, m: Msg, t: nat, past: seq<Msg>, ended: set<Id>, catalog: map<Id, Bytes>, counter: nat)
    requires StrayOk(m, r.inbound, r.log, past, catalog) && Books(r, past, ended, catalog, counter)
    requires (IsEnd(m) ==> m.id in ended)
    ensures IsEnd(m) && Books(OnMessage(r, m, t).conv, past, ended, catalog, counter)
  {
    hide Books, StartIds, Flatten, OnEnd;
    SlotEnds(r, m.DEnd?, m.id, past, ended, catalog, counter);
  }

  lemma ReplyPut(catalog: map<Id, Bytes>, counter: nat, backd: Dir, t: nat, sends: seq<Msg>, dead: set<nat>,
                 rlog: seq<Event>)
    requires ReplyInv(catalog, counter, backd.wires, rlog)
    requires forall m :: m in sends ==> ReplyBacked(m, catalog, counter, rlog)
    ensures ReplyInv(catalog, counter, Put(backd, t, sends, dead).wires, rlog)
  {
    hide ReplyBacked;
  }

  lemma ReplyConsume(catalog: map<Id, Bytes>, counter: nat, backd: Dir, t: nat, rlog: seq<Event>)
    requires ReplyInv(catalog, counter, backd.wires, rlog)
    requires t < |backd.wires| && backd.wires[t] != []
    ensures ReplyInv(catalog, counter, Consume(backd, t).wires, rlog)
    ensures ReplyBacked(backd.wires[t][0], catalog, counter, rlog)
  {
    hide ReplyBacked;
    assert backd.wires[t][0] in backd.wires[t];
  }

  /** What the receiver answers to a stream message is backed by what it has just done. */
  lemma AnswersBacked(r: Conv, m: Msg, t: nat, catalog: map<Id, Bytes>, counter: nat)
    requires IsStream(m)
    requires m.DStart? ==> forall id :: id in StartOf(m) ==> id in catalog && id < counter
    ensures forall x :: x in OnMessage(r, m, t).sends ==> ReplyBacked(x, catalog, counter, OnMessage(r, m, t).conv.log)
  {
    hide SavedIds, Flatten, OnEnd, OnChunk, OnFileStart;
    if m.FEnd? || m.DEnd? {
      EndAnswerBacked(r, m.DEnd?, m.id, catalog, counter);
    } else if m.DStart? && m.docId.Some? {
      assert m.docId.value in StartOf(m);
    }
  }

  lemma EndAnswerBacked(r: Conv, doc: bool, id: Id, catalog: map<Id, Bytes>, counter: nat)
    ensures var o := OnEnd(r, doc, id); forall x :: x in o.sends ==> ReplyBacked(x, catalog, counter, o.conv.log)
  {
    hide SavedIds, Flatten;
    if r.inbound.Some? {
      LogStep(r.log, Saved(id, Flatten(r.inbound.value.parts)));
    }
  }

  lemma LogAfter(r: Conv, m: Msg, t: nat)
    ensures var l := OnMessage(r, m, t).conv.log;
      l == r.log || exists e :: l == r.log + [e] && !e.Done? && (!IsStream(m) ==> !e.Saved? && !e.Opened?)
  {
    hide Flatten;
    var l := OnMessage(r, m, t).conv.log;
    if l != r.log {
      var e := l[|l| - 1];
      assert l == r.log + [e];
    }
  }

  /** The receiver takes a stream message. */
  lemma DeliverStream(s: Conv, r: Conv, d: Dir, backd: Dir, dead: set<nat>, t: nat)
    requires DirInv(s, r, d, backd.wires, dead) && Safe(r, d)
    requires t < |d.wires| && d.wires[t] != [] && IsStream(d.wires[t][0])
    ensures var o := OnMessage(r, d.wires[t][0], t);
            DirInv(s, o.conv, Consume(d, t), Put(backd, t, o.sends, dead).wires, dead)
  {
    hide LockInv, WireInv, HistInv, TaskInv, AckInv, ReceiverInv, StraysInv, ReplyInv, History, DoneIds, SavedIds,
         OnMessage, Put, StartIds, ReplyBacked, Safe, Consume, FewerStrays, IsNext;
    var m := d.wires[t][0];
    TakeKeeps(d, t, s.counter, dead);
    var o := OnMessage(r, m, t);
    ReceiverHandles(r, d, s.counter, dead, t);
    StartKnown(r, d, s.counter, dead, t);
    var d' := Consume(d, t);
    LogAfter(r, m, t);
    if o.conv.log != r.log {
      var e :| o.conv.log == r.log + [e];
      LogGrows(s, d', backd.wires, dead, r.log, e);
    }
    AnswersBacked(r, m, t, d.catalog, s.counter);
    ReplyPut(d.catalog, s.counter, backd, t, o.sends, dead, o.conv.log);
  }

  lemma NamesBelow(h: seq<Msg>, catalog: map<Id, Bytes>, counter: nat, rlog: seq<Event>)
    requires HistInv(h, catalog, counter, rlog)
    ensures forall id :: id in catalog ==> id < counter
  {
  }

  lemma StartKnown(r: Conv, d: Dir, counter: nat, dead: set<nat>, t: nat)
    requires HistInv(History(d), d.catalog, counter, r.log) && Wired(d, counter, dead) && Strays(r, d)
    requires t < |d.wires| && d.wires[t] != []
    ensures d.wires[t][0].DStart? ==> forall id :: id in StartOf(d.wires[t][0]) ==> id in d.catalog && id < counter
  {
    hide HistInv, History, IsStray, Scan, StartIds, Stream, IsNext;
    NamesBelow(History(d), d.catalog, counter, r.log);
    TakeKeeps(d, t, counter, dead);
    hide Consume, FewerStrays, Wired;
    if IsNext(d, t) { NextMessage(d, t, counter, r.log); }
  }

  // ------------------------------------- steps that matter to one side only

  /** The later log tells the sender's side nothing new. */
  ghost predicate Benign(l: seq<Event>, l': seq<Event>) {
    && SavedIds(l') == SavedIds(l)
    && (forall e :: e in l ==> e in l')
    && (forall e :: e in l' && (e.Saved? || e.Opened?) ==> e in l)
  }

  lemma BenignStep(l: seq<Event>, e: Event)
    requires !e.Saved? && !e.Opened?
    ensures Benign(l, l + [e])
  {
    LogStep(l, e);
    hide SavedIds;
  }

  lemma BenignSame(l: seq<Event>)
    ensures Benign(l, l)
  {
  }

  lemma DialogsBenign(q: seq<Dialog>, past: seq<Msg>, catalog: map<Id, Bytes>, counter: nat, l: seq<Event>,
                      l': seq<Event>)
    requires DialogsInv(q, past, catalog, counter, l) && Benign(l, l')
    ensures DialogsInv(q, past, catalog, counter, l')
  {
    hide Scan, StartIds, SavedIds;
  }

  lemma SavedBenign(past: seq<Msg>, ended: set<Id>, catalog: map<Id, Bytes>, l: seq<Event>, l': seq<Event>)
    requires SavedInv(l, past, ended, catalog) && Benign(l, l')
    ensures SavedInv(l', past, ended, catalog)
  {
    hide StartIds, SavedIds;
  }

  lemma BooksBenign(r: Conv, r': Conv, past: seq<Msg>, ended: set<Id>, catalog: map<Id, Bytes>, counter: nat)
    requires Books(r, past, ended, catalog, counter) && Benign(r.log, r'.log)
    requires r'.inboundBatch == r.inboundBatch && r'.inbound == r.inbound && r'.dialogs == r.dialogs
    ensures Books(r', past, ended, catalog, counter)
  {
    hide Scan, StartIds, SavedIds, DialogsInv, SavedInv, KeysMatch, NotAsked, Flatten;
    DialogsBenign(r.dialogs, past, catalog, counter, r.log, r'.log);
    SavedBenign(past, ended, catalog, r.log, r'.log);
  }

  lemma HistBenign(h: seq<Msg>, catalog: map<Id, Bytes>, counter: nat, l: seq<Event>, l': seq<Event>)
    requires HistInv(h, catalog, counter, l) && Benign(l, l')
    ensures HistInv(h, catalog, counter, l')
  {
    hide WellSent, StartIds, SavedIds;
    WellSentGrow(h, catalog, catalog, l, l');
  }

  lemma TaskBenign(k: Task, counter: nat, h: seq<Msg>, on: nat, n: nat, catalog: map<Id, Bytes>,
                   ended: set<Id>, dead: set<nat>, l: seq<Event>, l': seq<Event>)
    requires TaskInv(k, counter, h, on, n, catalog, ended, dead, l) && Benign(l, l')
    ensures TaskInv(k, counter, h, on, n, catalog, ended, dead, l')
  {
    hide Scan, StartIds, JobKnown, NoneIn, OpenSeg, SavedIds;
  }

  lemma ReplyBenign(catalog: map<Id, Bytes>, counter: nat, back: seq<seq<Msg>>, l: seq<Event>, l': seq<Event>)
    requires ReplyInv(catalog, counter, back, l) && Benign(l, l')
    ensures ReplyInv(catalog, counter, back, l')
  {
    hide SavedIds;
  }

  lemma StraysBenign(r: Conv, r': Conv, d: Dir)
    requires Strays(r, d) && r'.inbound == r.inbound && Benign(r.log, r'.log)
    ensures Strays(r', d)
  {
    hide IsStray, StartIds, Flatten, SavedIds;
  }

  /** The receiver changes only in ways this direction does not read. */
  lemma ReceiverAside(s: Conv, r: Conv, r': Conv, d: Dir, back: seq<seq<Msg>>, dead: set<nat>)
    requires DirInv(s, r, d, back, dead)
    requires r'.inboundBatch == r.inboundBatch && r'.inbound == r.inbound && r'.dialogs == r.dialogs
    requires Benign(r.log, r'.log)
    ensures DirInv(s, r', d, back, dead)
  {
    assert SavedIds(r'.log) == SavedIds(r.log);
    hide LockInv, WireInv, HistInv, TaskInv, AckInv, ReceiverInv, StraysInv, ReplyInv, History, DoneIds, SavedIds,
         Benign;
    BooksBenign(r, r', d.past, d.ended, d.catalog, s.counter);
    StraysBenign(r, r', d);
    HistBenign(History(d), d.catalog, s.counter, r.log, r'.log);
    TaskBenign(s.task, s.counter, History(d), d.on, |d.wires|, d.catalog, d.ended, dead, r.log, r'.log);
    ReplyBenign(d.catalog, s.counter, back, r.log, r'.log);
  }

  /** The sender changes only in ways this direction does not read. */
  lemma SenderAside(s: Conv, s': Conv, r: Conv, d: Dir, back: seq<seq<Msg>>, dead: set<nat>)
    requires DirInv(s, r, d, back, dead)
    requires s'.task == s.task && s'.pendingDecision == s.pendingDecision && s'.pendingAcks == s.pendingAcks
    requires s'.sending == s.sending && s'.counter == s.counter && DoneIds(s'.log) == DoneIds(s.log)
    ensures DirInv(s', r, d, back, dead)
  {
    hide LockInv, WireInv, HistInv, TaskInv, AckInv, ReceiverInv, StraysInv, ReplyInv, History, DoneIds, SavedIds;
  }

  /** Messages that are neither stream nor batch may join the wires at any time. */
  lemma WiresAside(s: Conv, r: Conv, d: Dir, back: seq<seq<Msg>>, dead: set<nat>, t: nat, sends: seq<Msg>)
    requires DirInv(s, r, d, back, dead)
    requires forall m :: m in sends ==> !IsStream(m) && !m.Batch?
    ensures DirInv(s, r, Put(d, t, sends, dead), back, dead)
  {
    hide LockInv, WireInv, HistInv, TaskInv, AckInv, ReceiverInv, StraysInv, ReplyInv, History, DoneIds, SavedIds, Put,
         FewerStrays;
    PutOther(d, t, sends, dead, s.counter);
    PutSame(d, t, sends, dead);
    WiresMove(r, d, Put(d, t, sends, dead), s.counter);
  }

  /** Messages that promise nothing may join the replies. */
  lemma BackAside(s: Conv, r: Conv, d: Dir, backd: Dir, dead: set<nat>, t: nat, sends: seq<Msg>)
    requires DirInv(s, r, d, backd.wires, dead)
    requires forall m :: m in sends ==> !m.Accept? && !m.Decline? && !m.Received?
    ensures DirInv(s, r, d, Put(backd, t, sends, dead).wires, dead)
  {
    hide LockInv, WireInv, HistInv, TaskInv, AckInv, ReceiverInv, StraysInv, ReplyInv, History, DoneIds, SavedIds, Put;
    ReplyPut(d.catalog, s.counter, backd, t, sends, dead, r.log);
  }

  lemma BackTaken(s: Conv, r: Conv, d: Dir, backd: Dir, dead: set<nat>, t: nat)
    requires DirInv(s, r, d, backd.wires, dead) && t < |backd.wires| && backd.wires[t] != []
    ensures DirInv(s, r, d, Consume(backd, t).wires, dead)
    ensures ReplyBacked(backd.wires[t][0], d.catalog, s.counter, r.log)
  {
    hide LockInv, WireInv, HistInv, TaskInv, AckInv, ReceiverInv, StraysInv, ReplyInv, History, DoneIds, SavedIds,
         Consume;
    ReplyConsume(d.catalog, s.counter, backd, t, r.log);
  }

  lemma TakeOther(s: Conv, r: Conv, d: Dir, back: seq<seq<Msg>>, dead: set<nat>, t: nat)
    requires DirInv(s, r, d, back, dead)
    requires t < |d.wires| && d.wires[t] != [] && !IsStream(d.wires[t][0])
    ensures DirInv(s, r, Consume(d, t), back, dead)
    ensures Consume(d, t).catalog == d.catalog
    ensures d.wires[t][0].Batch? ==> d.wires[t][0].batchId !in d.catalog && d.wires[t][0].batchId < s.counter
  {
    hide LockInv, WireInv, HistInv, TaskInv, AckInv, ReceiverInv, StraysInv, ReplyInv, History, DoneIds, SavedIds,
         FewerStrays;
    TakeKeeps(d, t, s.counter, dead);
    hide Consume;
    WiresMove(r, d, Consume(d, t), s.counter);
  }

  lemma EmptySlot(s: Conv, r: Conv, d: Dir, back: seq<seq<Msg>>, dead: set<nat>)
    requires DirInv(s, r, d, back, dead)
    ensures DirInv(s, r.(inbound := None), d, back, dead)
  {
    hide LockInv, WireInv, HistInv, TaskInv, AckInv, ReplyInv, History, DoneIds, SavedIds, DialogsInv, SavedInv,
         SlotInv, IsStray;
  }

  lemma NewQuestion(s: Conv, r: Conv, d: Dir, back: seq<seq<Msg>>, dead: set<nat>, q: Dialog)
    requires DirInv(s, r, d, back, dead)
    requires q.AskFiles? && q.batchId !in d.catalog && q.batchId < s.counter
    ensures DirInv(s, r.(dialogs := r.dialogs + [q]), d, back, dead)
  {
    hide LockInv, WireInv, HistInv, TaskInv, AckInv, ReplyInv, History, DoneIds, SavedIds, DialogsInv, SavedInv,
         SlotInv, NotAsked;
    AskAbout(r, d.past, d.catalog, s.counter, q);
  }

  /** The receiver takes a message of another kind: a question, a text, or a reply. */
  lemma DeliverOther(s: Conv, r: Conv, d: Dir, back: seq<seq<Msg>>, dead: set<nat>, t: nat)
    requires DirInv(s, r, d, back, dead)
    requires t < |d.wires| && d.wires[t] != [] && !IsStream(d.wires[t][0])
    ensures var o := OnMessage(r, d.wires[t][0], t);
            o.sends == [] && DirInv(s, o.conv, Consume(d, t), back, dead)
  {
    hide DirInv, Consume, Benign;
    var m := d.wires[t][0];
    var d' := Consume(d, t);
    TakeOther(s, r, d, back, dead, t);
    BenignSame(r.log);
    if m.Text? {
      BenignStep(r.log, TextShown(m.body));
      ReceiverAside(s, r, OnMessage(r, m, t).conv, d', back, dead);
    } else if m.Cancel? {
      if r.inbound.Some? {
        var e := ReceiveFailed(r.inbound.value.id);
        BenignStep(r.log, e);
        ReceiverAside(s, r, Emit(r, e), d', back, dead);
        EmptySlot(s, Emit(r, e), d', back, dead);
      }
    } else if m.Batch? {
      NewQuestion(s, r, d', back, dead, AskFiles(m.batchId, m.files, t));
    } else {
      ReceiverAside(s, r, OnMessage(r, m, t).conv, d', back, dead);
    }
  }

  lemma DropQuestion(r: Conv, past: seq<Msg>, ended: set<Id>, catalog: map<Id, Bytes>, counter: nat, n: nat)
    requires Books(r, past, ended, catalog, counter) && n < |r.dialogs|
    ensures Books(r.(dialogs := r.dialogs[..n] + r.dialogs[n + 1..]), past, ended, catalog, counter)
    ensures r.dialogs[n].AskDoc? ==> NotAsked(r.dialogs[..n] + r.dialogs[n + 1..], r.dialogs[n].id)
    ensures DialogInv(r.dialogs[n], past, catalog, counter, r.log)
  {
    hide SavedInv, SlotInv, DialogInv, KeysMatch;
  }

  lemma OpenAsked(r: Conv, past: seq<Msg>, ended: set<Id>, catalog: map<Id, Bytes>, counter: nat, id: Id, size: real)
    requires Books(r, past, ended, catalog, counter) && NotAsked(r.dialogs, id)
    requires exists t :: DialogInv(AskDoc(id, size, t), past, catalog, counter, r.log)
    ensures Books(OpenDoc(r, id, size).conv, past, ended, catalog, counter)
  {
    hide Scan, StartIds, SavedIds, DialogsInv, SavedInv, KeysMatch, NotAsked, Flatten;
    var e := Opened(true, id);
    DialogsLog(r.dialogs, past, catalog, counter, r.log, e);
    SavedLog(r.log, past, ended, catalog, e);
    LogStep(r.log, e);
    EmptyFlatten();
  }

  /** A document about to be opened has not been ended. */
  lemma StraysAsked(r: Conv, d: Dir, counter: nat, id: Id, size: real)
    requires Strays(r, d) && exists t :: DialogInv(AskDoc(id, size, t), d.past, d.catalog, counter, r.log)
    ensures StraysInv(d.wires, d.on, d.late, OpenDoc(r, id, size).conv.inbound, OpenDoc(r, id, size).conv.log, d.past,
                      d.catalog)
  {
    hide IsStray, StartIds, Flatten, SavedIds, Scan;
  }

  /** The receiver's user answers a dialog, perhaps long after the sender gave up. */
  lemma AnswerKeeps(s: Conv, r: Conv, d: Dir, backd: Dir, dead: set<nat>, n: nat, accepted: bool)
    requires DirInv(s, r, d, backd.wires, dead) && n < |r.dialogs|
    ensures var o := AnswerDialog(r, n, accepted);
            DirInv(s, o.conv, d, Put(backd, r.dialogs[n].on, o.sends, dead).wires, dead)
  {
    hide LockInv, WireInv, HistInv, TaskInv, AckInv, ReplyInv, History, DoneIds, SavedIds, DialogsInv, SavedInv,
         SlotInv, KeysMatch, MetaMap, Put, NotAsked, Scan, StartIds;
    var q := r.dialogs[n];
    var r1 := r.(dialogs := r.dialogs[..n] + r.dialogs[n + 1..]);
    DropQuestion(r, d.past, d.ended, d.catalog, s.counter, n);
    var o := AnswerDialog(r, n, accepted);
    match q
    case AskFiles(b, fs, _) =>
      FilesKeyed(fs);
      ReplyPut(d.catalog, s.counter, backd, q.on, o.sends, dead, o.conv.log);
    case AskDoc(id, size, on) =>
      if accepted {
        LogGrows(s, d, backd.wires, dead, r.log, Opened(true, id));
        StraysAsked(r, d, s.counter, id, size);
        OpenAsked(r1, d.past, d.ended, d.catalog, s.counter, id, size);
      }
      NamesBelow(History(d), d.catalog, s.counter, r.log);
      ReplyPut(d.catalog, s.counter, backd, q.on, o.sends, dead, o.conv.log);
  }

  lemma FilesKeyed(files: seq<FileMeta>)
    ensures KeysMatch(MetaMap(files))
  {
    MetaMapKeys(files);
  }

  // -------------------------------------------------- the sender's other roles

  /** The receiver's yes or no reaches the sender. */
  lemma DecisionArrives(s: Conv, r: Conv, d: Dir, back: seq<seq<Msg>>, dead: set<nat>, x: Id, accepted: bool)
    requires DirInv(s, r, d, back, dead)
    requires accepted ==> ReplyBacked(Accept(x), d.catalog, s.counter, r.log)
    ensures DirInv(ResolveDecision(s, x, accepted), r, d, back, dead)
  {
    hide WireInv, HistInv, TaskInv, ReceiverInv, StraysInv, ReplyInv, History, DoneIds, SavedIds, IsSubseq, EndsWith;
    if s.task.Deciding? && s.pendingDecision == Some(x) {
      var k' := s.task.(answer := Some(accepted));
      if s.task.job.doc {
        DocIsBatch(s.task.job);
        NameKnown(s.task, s.counter, History(d), d.on, |d.wires|, d.catalog, d.ended, dead, r.log);
      }
      TaskRests(s.task, k', s.counter, History(d), d.on, |d.wires|, d.catalog, d.ended, dead, r.log);
    }
  }

  lemma NameKnown(k: Task, counter: nat, h: seq<Msg>, on: nat, n: nat, catalog: map<Id, Bytes>, ended: set<Id>,
                  dead: set<nat>, rlog: seq<Event>)
    requires TaskInv(k, counter, h, on, n, catalog, ended, dead, rlog) && ValidTask(k) && HasJob(k)
    ensures forall id :: id in k.job.ids ==> id in catalog
  {
  }

  lemma ConfirmationArrives(s: Conv, r: Conv, d: Dir, back: seq<seq<Msg>>, dead: set<nat>, id: Id)
    requires DirInv(s, r, d, back, dead) && id in SavedIds(r.log)
    ensures DirInv(ResolveAck(s, id), r, d, back, dead)
  {
    hide WireInv, HistInv, TaskInv, ReceiverInv, StraysInv, ReplyInv, History, DoneIds, SavedIds, IsSubseq, EndsWith;
    if id in s.pendingAcks && s.task.Acking? {
      TaskRests(s.task, s.task.(resolved := true), s.counter, History(d), d.on, |d.wires|, d.catalog, d.ended, dead,
                r.log);
    }
  }

  /** Other messages leave everything the sending side uses as it was. */
  lemma NotAReply(c: Conv, m: Msg, t: nat)
    requires !m.Accept? && !m.Decline? && !m.Received?
    ensures var c' := OnMessage(c, m, t).conv;
      && c'.task == c.task && c'.pendingDecision == c.pendingDecision && c'.pendingAcks == c.pendingAcks
      && c'.sending == c.sending && c'.counter == c.counter && DoneIds(c'.log) == DoneIds(c.log)
    ensures forall x :: x in OnMessage(c, m, t).sends ==> !IsStream(x) && !x.Batch?
  {
    hide DoneIds, Flatten;
    LogAfter(c, m, t);
    var l := OnMessage(c, m, t).conv.log;
    if l != c.log {
      var e :| l == c.log + [e] && !e.Done?;
      LogStep(c.log, e);
    }
  }

  lemma BackedReceipt(id: Id, catalog: map<Id, Bytes>, counter: nat, rlog: seq<Event>)
    requires ReplyBacked(Received(id), catalog, counter, rlog)
    ensures id in SavedIds(rlog)
  {
  }

  /** A message that is no part of a stream reaches the sender. */
  lemma ReplyArrives(s: Conv, r: Conv, d: Dir, backd: Dir, dead: set<nat>, t: nat)
    requires DirInv(s, r, d, backd.wires, dead)
    requires t < |backd.wires| && backd.wires[t] != [] && !IsStream(backd.wires[t][0])
    ensures DirInv(OnMessage(s, backd.wires[t][0], t).conv, r, d, Consume(backd, t).wires, dead)
  {
    hide DirInv, Consume, ReplyBacked, DoneIds, SavedIds;
    BackTaken(s, r, d, backd, dead, t);
    var m := backd.wires[t][0];
    var back := Consume(backd, t).wires;
    if m.Accept? {
      DecisionArrives(s, r, d, back, dead, m.batchId, true);
    } else if m.Decline? {
      DecisionArrives(s, r, d, back, dead, m.batchId, false);
    } else if m.Received? {
      BackedReceipt(m.id, d.catalog, s.counter, r.log);
      ConfirmationArrives(s, r, d, back, dead, m.id);
    } else {
      NotAReply(s, m, t);
      hide OnMessage;
      SenderAside(s, OnMessage(s, m, t).conv, r, d, back, dead);
    }
  }

  /** The sender, as receiver of the other direction, takes a stream message. */
  lemma SenderReceives(s: Conv, r: Conv, d: Dir, backd: Dir, dead: set<nat>, t: nat)
    requires DirInv(s, r, d, backd.wires, dead)
    requires t < |backd.wires| && backd.wires[t] != [] && IsStream(backd.wires[t][0])
    ensures var o := OnMessage(s, backd.wires[t][0], t);
            DirInv(o.conv, r, Put(d, t, o.sends, dead), Consume(backd, t).wires, dead)
  {
    hide DirInv, Consume, OnMessage, ReplyBacked, Put, DoneIds;
    var m := backd.wires[t][0];
    var o := OnMessage(s, m, t);
    BackTaken(s, r, d, backd, dead, t);
    NotAReply(s, m, t);
    SenderAside(s, o.conv, r, d, Consume(backd, t).wires, dead);
    WiresAside(o.conv, r, d, Consume(backd, t).wires, dead, t, o.sends);
  }

  lemma SenderAnswers(s: Conv, r: Conv, d: Dir, back: seq<seq<Msg>>, dead: set<nat>, n: nat, accepted: bool)
    requires DirInv(s, r, d, back, dead) && n < |s.dialogs|
    ensures var o := AnswerDialog(s, n, accepted);
            DirInv(o.conv, r, Put(d, s.dialogs[n].on, o.sends, dead), back, dead)
  {
    hide DirInv, MetaMap, Put, DoneIds;
    var o := AnswerDialog(s, n, accepted);
    if s.dialogs[n].AskDoc? {
      LogStep(s.log, Opened(true, s.dialogs[n].id));
    }
    SenderAside(s, o.conv, r, d, back, dead);
    WiresAside(o.conv, r, d, back, dead, s.dialogs[n].on, o.sends);
  }

  /** A transport closes: what it carried is gone and was never part of the history. */
  lemma CloseKeeps(s: Conv, r: Conv, d: Dir, backd: Dir, dead: set<nat>, t: nat)
    requires DirInv(s, r, d, backd.wires, dead)
    ensures DirInv(s, r, Lose(d, t), Lose(backd, t).wires, dead + {t})
  {
    hide LockInv, WireInv, HistInv, TaskInv, AckInv, ReceiverInv, StraysInv, ReplyInv, History, DoneIds, SavedIds,
         FewerStrays;
    CloseHistory(d, t, s.counter, r.log);
    CloseWires(d, t, s.counter, dead);
    CloseTask(s.task, s.counter, d, dead, r.log, t);
    CloseReplies(d.catalog, s.counter, backd, r.log, t);
    WiresMove(r, d, Lose(d, t), s.counter);
  }

  lemma CloseReplies(catalog: map<Id, Bytes>, counter: nat, backd: Dir, rlog: seq<Event>, t: nat)
    requires ReplyInv(catalog, counter, backd.wires, rlog)
    ensures ReplyInv(catalog, counter, Lose(backd, t).wires, rlog)
  {
  }

  lemma CloseWires(d: Dir, t: nat, counter: nat, dead: set<nat>)
    requires Wired(d, counter, dead)
    ensures Wired(Lose(d, t), counter, dead + {t}) && FewerStrays(d, Lose(d, t))
  {
    assert Stream([]) == [];
    hide Stream;
  }

  lemma CloseHistory(d: Dir, t: nat, counter: nat, rlog: seq<Event>)
    requires HistInv(History(d), d.catalog, counter, rlog)
    ensures HistInv(History(Lose(d, t)), d.catalog, counter, rlog)
    ensures forall id :: id in StartIds(History(Lose(d, t))) ==> id in StartIds(History(d))
    ensures t != d.on ==> History(Lose(d, t)) == History(d)
  {
    LoseLive(d, t);
    var lost := if t == d.on then Live(d) else [];
    hide Live, HistInv, StartIds;
    assert History(d) == History(Lose(d, t)) + lost;
    HistPrefix(History(Lose(d, t)), lost, d.catalog, counter, rlog);
  }

  lemma LoseLive(d: Dir, t: nat)
    ensures Live(Lose(d, t)) == if t == d.on then [] else Live(d)
  {
    assert Stream([]) == [] && Stream([])[0..] == [];
    hide Stream;
  }

  lemma CloseTask(k: Task, counter: nat, d: Dir, dead: set<nat>, rlog: seq<Event>, t: nat)
    requires TaskInv(k, counter, History(d), d.on, |d.wires|, d.catalog, d.ended, dead, rlog)
    requires HistInv(History(d), d.catalog, counter, rlog)
    ensures TaskInv(k, counter, History(Lose(d, t)), d.on, |d.wires|, d.catalog, d.ended, dead + {t}, rlog)
  {
    hide Scan, StartIds, History, HistInv, Lose, JobKnown, OpenSeg;
    CloseHistory(d, t, counter, rlog);
  }

  lemma HistPrefix(h: seq<Msg>, rest: seq<Msg>, catalog: map<Id, Bytes>, counter: nat, rlog: seq<Event>)
    requires HistInv(h + rest, catalog, counter, rlog)
    ensures HistInv(h, catalog, counter, rlog)
    ensures forall id :: id in StartIds(h) ==> id in StartIds(h + rest)
  {
    WellSentPrefix(h, rest, catalog, rlog);
    StartIdsConcat(h, rest);
    NoDupPrefix(StartIds(h), StartIds(rest));
    hide StartIds, WellSent;
  }
}
