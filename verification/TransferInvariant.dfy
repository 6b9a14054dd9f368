/**
 * The invariant of the two-party transfer system. It is stated for one direction
 * (sender S, receiver R) and used for both.
 */
module TransferInvariant {
  import opened Basics
  import opened TransferProtocol
  import opened TransferSystem

  // ------------------------------------------------------- lists and folds

  lemma {:induction false} StreamConcat(a: seq<Msg>, b: seq<Msg>)
    ensures Stream(a + b) == Stream(a) + Stream(b)
  {
    if b == [] {
      assert a + b == a;
    } else {
      assert (a + b)[..|a + b| - 1] == a + b[..|b| - 1];
      StreamConcat(a, b[..|b| - 1]);
    }
  }

  lemma StreamOne(m: Msg)
    ensures Stream([m]) == if IsStream(m) then [m] else []
  {
    assert [m][..0] == [];
  }

  lemma StreamPop(w: seq<Msg>)
    requires w != []
    ensures Stream(w) == (if IsStream(w[0]) then [w[0]] else []) + Stream(w[1..])
  {
    assert w == [w[0]] + w[1..];
    StreamConcat([w[0]], w[1..]);
    StreamOne(w[0]);
  }

  lemma {:induction false} StreamHas(w: seq<Msg>, m: Msg)
    ensures m in Stream(w) <==> m in w && IsStream(m)
  {
    if w != [] {
      var n := |w| - 1;
      StreamHas(w[..n], m);
      assert w == w[..n] + [w[n]];
    }
  }

  lemma {:induction false} StartIdsConcat(a: seq<Msg>, b: seq<Msg>)
    ensures StartIds(a + b) == StartIds(a) + StartIds(b)
  {
    hide StartOf;
    if b == [] {
      assert a + b == a;
    } else {
      var init, last := b[..|b| - 1], b[|b| - 1];
      StartIdsConcat(a, init);
      assert (a + b)[..|a + b| - 1] == a + init && (a + b)[|a + b| - 1] == last;
      assert StartIds(a + b) == StartIds(a + init) + StartOf(last);
      assert StartIds(b) == StartIds(init) + StartOf(last);
      hide StartIds;
      assert (StartIds(a) + StartIds(init)) + StartOf(last) == StartIds(a) + (StartIds(init) + StartOf(last));
    }
  }

  /** How one more message changes every reading of a stream. */
  lemma AppendOne(h: seq<Msg>, m: Msg, catalog: map<Id, Bytes>, rlog: seq<Event>)
    ensures Scan(h + [m]) == ScanStep(Scan(h), m)
    ensures StartIds(h + [m]) == StartIds(h) + StartOf(m)
    ensures WellSent(h + [m], catalog, rlog) <==> WellSent(h, catalog, rlog) && Entitled(Scan(h), m, catalog, rlog)
  {
    assert (h + [m])[..|h + [m]| - 1] == h;
  }

  lemma {:induction false} WellSentPrefix(a: seq<Msg>, b: seq<Msg>, catalog: map<Id, Bytes>, rlog: seq<Event>)
    requires WellSent(a + b, catalog, rlog)
    ensures WellSent(a, catalog, rlog)
  {
    if b == [] {
      assert a + b == a;
    } else {
      assert (a + b)[..|a + b| - 1] == a + b[..|b| - 1];
      WellSentPrefix(a, b[..|b| - 1], catalog, rlog);
    }
  }

  /** More catalog entries and more receiver events never spoil what was well sent. */
  lemma {:induction false} WellSentGrow(h: seq<Msg>, c1: map<Id, Bytes>, c2: map<Id, Bytes>, l1: seq<Event>,
                                        l2: seq<Event>)
    requires WellSent(h, c1, l1)
    requires forall id :: id in c1 ==> id in c2 && c2[id] == c1[id]
    requires forall e :: e in l1 ==> e in l2
    ensures WellSent(h, c2, l2)
  {
    if h != [] {
      WellSentGrow(h[..|h| - 1], c1, c2, l1, l2);
    }
  }

  lemma LogStep(log: seq<Event>, e: Event)
    ensures DoneIds(log + [e]) == if e.Done? then DoneIds(log) + [e.id] else DoneIds(log)
    ensures SavedIds(log + [e]) == if e.Saved? then SavedIds(log) + [e.id] else SavedIds(log)
  {
    assert (log + [e])[..|log + [e]| - 1] == log;
  }

  lemma {:induction false} SavedIdsMember(log: seq<Event>, id: Id)
    ensures id in SavedIds(log) <==> exists e :: e in log && e.Saved? && e.id == id
  {
    if log != [] {
      var n := |log| - 1;
      SavedIdsMember(log[..n], id);
      assert log == log[..n] + [log[n]];
    }
  }

  lemma {:induction false} ContentsAre(ids: seq<Id>, blobs: seq<Bytes>)
    requires |ids| == |blobs|
    requires NoDup(ids)
    ensures forall id :: id in Contents(ids, blobs) <==> id in ids
    ensures forall k :: 0 <= k < |ids| ==> Contents(ids, blobs)[ids[k]] == blobs[k]
  {
    if ids != [] {
      var n := |ids| - 1;
      ContentsAre(ids[..n], blobs[..n]);
      assert ids == ids[..n] + [ids[n]];
    }
  }

  lemma {:induction false} MetaMapKeys(files: seq<FileMeta>)
    ensures forall id :: id in MetaMap(files) ==> MetaMap(files)[id].id == id
  {
    if files != [] {
      MetaMapKeys(files[..|files| - 1]);
    }
  }

  // ------------------------------------------------------------- the invariant

  /** The job's names stand for its contents, and its batch name stands for no file. */
  ghost predicate JobKnown(job: Job, counter: nat, catalog: map<Id, Bytes>) {
    && ValidJob(job)
    && NoDup(job.ids)
    && job.batch < counter
    && (!job.doc ==> job.batch !in catalog)
    && (forall k :: 0 <= k < |job.ids| ==> job.ids[k] in catalog && catalog[job.ids[k]] == job.blobs[k])
  }

  ghost predicate NoneIn(ids: seq<Id>, from: nat, used: seq<Id>) {
    forall k :: from <= k < |ids| ==> ids[k] !in used
  }

  ghost predicate NoneEnded(ids: seq<Id>, from: nat, ended: set<Id>) {
    forall k :: from <= k < |ids| ==> ids[k] !in ended
  }

  predicate HasJob(k: Task) { k.Deciding? || k.Looping? || k.Pumping? || k.Acking? }

  /** The index of the first blob of the job whose start marker has not been sent. */
  function FirstUnstarted(k: Task): nat
    requires HasJob(k)
  {
    match k
    case Deciding(_, job, _) => if job.doc then 1 else 0
    case Looping(_, _, i) => i
    case Pumping(_, _, i, _) => i + 1
    case Acking(_, _, i, _) => i + 1
  }

  /** The index of the first blob of the job whose end marker has not been sent. */
  function FirstUnended(k: Task): nat
    requires HasJob(k)
  {
    match k
    case Deciding(_, _, _) => 0
    case Looping(_, _, i) => i
    case Pumping(_, _, i, _) => i
    case Acking(_, _, i, _) => i + 1
  }

  /** What the stream has open because of the running job, if anything. */
  function OpenSeg(k: Task): Option<Seg>
    requires ValidTask(k)
  {
    match k
    case Deciding(_, job, _) => if job.doc then Some(Seg(true, job.batch, [])) else None
    case Pumping(_, job, i, offset) => Some(Seg(job.doc, job.ids[i], job.blobs[i][..offset]))
    case _ => None
  }

  /** The receiver is known to have opened the document being sent. */
  predicate DocAccepted(k: Task) {
    (k.Deciding? && k.job.doc && k.answer == Some(true)) || (k.Pumping? && k.job.doc)
  }

  /** What one end keeps on its own: the lock, the decision slot and the ack table. */
  ghost predicate LockInv(k: Task, sending: bool, pendingDecision: Option<Id>, pendingAcks: set<Id>, done: seq<Id>) {
    && ValidTask(k)
    && (sending <==> k != NoTask)
    && pendingDecision == (if k.Deciding? && k.answer.None? then Some(k.job.batch) else None)
    && pendingAcks == (if k.Acking? && !k.resolved then {k.job.ids[k.i]} else {})
    && (k.Looping? || k.Pumping? || k.Acking? ==> EndsWith(done, k.job.ids, k.i))
  }

  /** The last `i` confirmed transfers are the first `i` of the job, in order. */
  ghost predicate EndsWith(done: seq<Id>, ids: seq<Id>, i: nat) {
    i <= |ids| && |done| >= i && done[|done| - i..] == ids[..i]
  }

  /** How far the running job has got into the stream `h`. */
  ghost predicate TaskInv(k: Task, counter: nat, h: seq<Msg>, on: nat, transports: nat, catalog: map<Id, Bytes>,
                          ended: set<Id>, dead: set<nat>, rlog: seq<Event>)
  {
    ValidTask(k) && HasJob(k) ==>
      && JobKnown(k.job, counter, catalog)
      && k.t == on < transports
      && NoneIn(k.job.ids, FirstUnstarted(k), StartIds(h))
      && NoneEnded(k.job.ids, FirstUnended(k), ended)
      && (k.t !in dead && OpenSeg(k).Some? ==> Scan(h) == OpenSeg(k).value)
      && (DocAccepted(k) ==> Opened(true, k.job.batch) in rlog)
  }

  /** Confirmed transfers are saved ones, in the same order; so will be the next. */
  ghost predicate AckInv(k: Task, done: seq<Id>, saved: seq<Id>) {
    && IsSubseq(done, saved)
    && (k.Acking? && k.i < |k.job.ids| ==>
          && (k.job.ids[k.i] in saved ==> IsSubseq(done + [k.job.ids[k.i]], saved))
          && (k.resolved ==> k.job.ids[k.i] in saved))
  }

  ghost predicate WireInv(wires: seq<seq<Msg>>, on: nat, late: nat, catalog: map<Id, Bytes>, ended: set<Id>,
                          counter: nat, dead: set<nat>) {
    && (on < |wires| ==> late <= |Stream(wires[on])|)
    && (forall t :: 0 <= t < |wires| && t in dead ==> wires[t] == [])
    && (forall t :: 0 <= t < |wires| ==> BatchesFresh(wires[t], catalog, counter) && EndsKnown(wires[t], ended))
    && ended <= catalog.Keys
  }

  ghost predicate EndsKnown(w: seq<Msg>, ended: set<Id>) {
    forall m :: m in w && IsEnd(m) ==> m.id in ended
  }

  ghost predicate BatchesFresh(w: seq<Msg>, catalog: map<Id, Bytes>, counter: nat) {
    forall m :: m in w && m.Batch? ==> m.batchId !in catalog && m.batchId < counter
  }

  ghost predicate HistInv(h: seq<Msg>, catalog: map<Id, Bytes>, counter: nat, rlog: seq<Event>) {
    && WellSent(h, catalog, rlog)
    && NoDup(StartIds(h))
    && (forall id :: id in StartIds(h) ==> id in catalog)
    && (forall id :: id in catalog ==> id < counter)
  }

  /** A stream message in flight that is no longer part of the current stream. */
  ghost predicate IsStray(wires: seq<seq<Msg>>, on: nat, late: nat, m: Msg) {
    || (exists u :: 0 <= u < |wires| && u != on && m in wires[u] && IsStream(m))
    || (on < |wires| && late <= |Stream(wires[on])| && m in Stream(wires[on])[..late])
  }

  ghost predicate NoStrays(wires: seq<seq<Msg>>, on: nat, late: nat) {
    forall m :: !IsStray(wires, on, late, m)
  }

  /** It is an end marker, and if what it ends is still open at the receiver it is complete. */
  ghost predicate StrayOk(m: Msg, slot: Option<Inbound>, log: seq<Event>, past: seq<Msg>, catalog: map<Id, Bytes>) {
    && IsEnd(m) && m.id in catalog && m.id in StartIds(past)
    && (m.DEnd? ==> Opened(true, m.id) in log)
    && (slot.Some? && slot.value.doc == m.DEnd? && slot.value.id == m.id ==> Flatten(slot.value.parts) == catalog[m.id])
  }

  /** What the receiver has open is what the stream has open, if the stream's next bytes are for anything. */
  ghost predicate Aligned(slot: Option<Inbound>, log: seq<Event>, past: seq<Msg>) {
    var seg := Scan(past);
    seg.Seg? && (seg.doc ==> Opened(true, seg.id) in log) && slot.Some? ==>
      slot.value.doc == seg.doc && slot.value.id == seg.id
  }

  ghost predicate StraysInv(wires: seq<seq<Msg>>, on: nat, late: nat, slot: Option<Inbound>, log: seq<Event>,
                            past: seq<Msg>, catalog: map<Id, Bytes>)
  {
    forall m :: IsStray(wires, on, late, m) ==> StrayOk(m, slot, log, past, catalog)
  }

  /** The receiver agrees with the ideal reading of what it has been given. */
  ghost predicate ReceiverInv(batch: Option<InboundBatch>, slot: Option<Inbound>, dialogs: seq<Dialog>, log: seq<Event>,
                              past: seq<Msg>, ended: set<Id>, catalog: map<Id, Bytes>, counter: nat)
  {
    && (batch.Some? ==> KeysMatch(batch.value.files))
    && (slot.Some? ==> SlotInv(slot.value, past, log) && NotAsked(dialogs, slot.value.id))
    && DialogsInv(dialogs, past, catalog, counter, log)
    && SavedInv(log, past, ended, catalog)
  }

  ghost predicate NotAsked(dialogs: seq<Dialog>, id: Id) {
    forall n :: 0 <= n < |dialogs| && dialogs[n].AskDoc? ==> dialogs[n].id != id
  }

  ghost predicate KeysMatch(files: map<Id, FileMeta>) {
    forall id :: id in files ==> files[id].id == id
  }

  ghost predicate DialogsInv(dialogs: seq<Dialog>, past: seq<Msg>, catalog: map<Id, Bytes>, counter: nat,
                             log: seq<Event>) {
    && (forall n :: 0 <= n < |dialogs| ==> DialogInv(dialogs[n], past, catalog, counter, log))
    && (forall i, j :: 0 <= i < j < |dialogs| && dialogs[i].AskDoc? && dialogs[j].AskDoc? ==>
          dialogs[i].id != dialogs[j].id)
  }

  /** Everything saved is exactly what its name stands for, and is saved once. */
  ghost predicate SavedInv(log: seq<Event>, past: seq<Msg>, ended: set<Id>, catalog: map<Id, Bytes>) {
    && (forall id :: Opened(true, id) in log ==> id in StartIds(past))
    && NoDup(SavedIds(log))
    && (forall id, data :: Saved(id, data) in log ==>
          id in catalog && data == catalog[id] && id in ended && id in StartIds(past))
  }

  ghost predicate SlotInv(ib: Inbound, past: seq<Msg>, log: seq<Event>) {
    && ib.id in StartIds(past)
    && ib.id !in SavedIds(log)
    && (ib.doc ==> Opened(true, ib.id) in log)
    && (Scan(past).Seg? && Scan(past).doc == ib.doc && Scan(past).id == ib.id ==> Scan(past).got == Flatten(ib.parts))
  }

  ghost predicate DialogInv(q: Dialog, past: seq<Msg>, catalog: map<Id, Bytes>, counter: nat, log: seq<Event>) {
    match q
    case AskFiles(b, _, _) => b !in catalog && b < counter
    case AskDoc(id, _, _) =>
      && id in StartIds(past)
      && id in catalog
      && id !in SavedIds(log)
      && Opened(true, id) !in log
      && (Scan(past).Seg? && Scan(past).doc && Scan(past).id == id ==> Scan(past).got == [])
  }

  /** Replies on their way back are backed by what the receiver has done. */
  ghost predicate ReplyInv(catalog: map<Id, Bytes>, counter: nat, back: seq<seq<Msg>>, rlog: seq<Event>) {
    forall t :: 0 <= t < |back| ==> forall m :: m in back[t] ==> ReplyBacked(m, catalog, counter, rlog)
  }

  ghost predicate ReplyBacked(m: Msg, catalog: map<Id, Bytes>, counter: nat, rlog: seq<Event>) {
    match m
    case Accept(x) => if x in catalog then Opened(true, x) in rlog else x < counter
    case Decline(x) => x < counter
    case Received(id) => id in SavedIds(rlog)
    case _ => true
  }

  ghost predicate DirInv(s: Conv, r: Conv, d: Dir, back: seq<seq<Msg>>, dead: set<nat>) {
    && LockInv(s.task, s.sending, s.pendingDecision, s.pendingAcks, DoneIds(s.log))
    && WireInv(d.wires, d.on, d.late, d.catalog, d.ended, s.counter, dead)
    && HistInv(History(d), d.catalog, s.counter, r.log)
    && TaskInv(s.task, s.counter, History(d), d.on, |d.wires|, d.catalog, d.ended, dead, r.log)
    && AckInv(s.task, DoneIds(s.log), SavedIds(r.log))
    && ReceiverInv(r.inboundBatch, r.inbound, r.dialogs, r.log, d.past, d.ended, d.catalog, s.counter)
    && StraysInv(d.wires, d.on, d.late, r.inbound, r.log, d.past, d.catalog)
    && ReplyInv(d.catalog, s.counter, back, r.log)
  }

  ghost predicate Inv(n: Net) {
    && DirInv(n.a, n.b, n.ab, n.ba.wires, n.dead)
    && DirInv(n.b, n.a, n.ba, n.ab.wires, n.dead)
    && |n.ab.wires| == |n.ba.wires|
  }

  // --------------------------------------------------------- wires and history

  ghost predicate Wired(d: Dir, counter: nat, dead: set<nat>) {
    WireInv(d.wires, d.on, d.late, d.catalog, d.ended, counter, dead)
  }

  /** Nothing has come to be late that was not. */
  ghost predicate FewerStrays(d: Dir, d': Dir) {
    forall m :: IsStray(d'.wires, d'.on, d'.late, m) ==> IsStray(d.wires, d.on, d.late, m)
  }

  lemma PutStream(d: Dir, m: Msg, dead: set<nat>, counter: nat)
    requires Wired(d, counter, dead)
    requires d.on < |d.wires| && d.on !in dead && IsStream(m) && forall id :: id in EndOf(m) ==> id in d.catalog
    ensures var d' := Put(d, d.on, [m], dead);
      && Wired(d', counter, dead) && History(d') == History(d) + [m] && Live(d') == Live(d) + [m]
      && FewerStrays(d, d') && d'.ended == d.ended + (set x | x in EndOf(m))
  {
    PutLive(d, m, dead);
    assert EndedBy([m]) == set x | x in EndOf(m);
    hide Stream, WireInv, History, Live, IsStray, FewerStrays;
    PutWires(d, d.on, [m], dead, counter);
    PutStrays(d, d.on, [m], dead);
  }

  lemma PutLive(d: Dir, m: Msg, dead: set<nat>)
    requires d.on < |d.wires| && d.on !in dead && IsStream(m) && d.late <= |Stream(d.wires[d.on])|
    ensures var d' := Put(d, d.on, [m], dead);
      History(d') == History(d) + [m] && Live(d') == Live(d) + [m]
  {
    var w := d.wires[d.on] + [m];
    var d' := Put(d, d.on, [m], dead);
    StreamConcat(d.wires[d.on], [m]);
    StreamOne(m);
    var was := Stream(d.wires[d.on]);
    hide Stream;
    assert Stream(w) == was + [m] && Stream(w)[d.late..] == was[d.late..] + [m];
    assert d.past + (was[d.late..] + [m]) == (d.past + was[d.late..]) + [m];
  }

  lemma PutWires(d: Dir, t: nat, sends: seq<Msg>, dead: set<nat>, counter: nat)
    requires Wired(d, counter, dead) && BatchesFresh(sends, d.catalog, counter)
    requires forall m :: m in sends && IsEnd(m) ==> m.id in d.catalog
    ensures Wired(Put(d, t, sends, dead), counter, dead)
  {
    var d' := Put(d, t, sends, dead);
    if t < |d.wires| && t !in dead {
      StreamConcat(d.wires[t], sends);
      hide Stream;
      forall u | 0 <= u < |d'.wires|
        ensures BatchesFresh(d'.wires[u], d.catalog, counter) && EndsKnown(d'.wires[u], d'.ended)
      {
        assert BatchesFresh(d.wires[u], d.catalog, counter) && EndsKnown(d.wires[u], d.ended);
      }
    }
  }

  /** On the current transport, or if no part of a stream, what is put on a wire is not late. */
  lemma PutStrays(d: Dir, t: nat, sends: seq<Msg>, dead: set<nat>)
    requires t == d.on || forall m :: m in sends ==> !IsStream(m)
    requires d.on < |d.wires| ==> d.late <= |Stream(d.wires[d.on])|
    ensures FewerStrays(d, Put(d, t, sends, dead))
  {
    var d' := Put(d, t, sends, dead);
    if t < |d.wires| && t !in dead {
      StreamConcat(d.wires[t], sends);
      hide Stream;
      assert t == d.on ==> (Stream(d.wires[t]) + Stream(sends))[..d.late] == Stream(d.wires[t])[..d.late];
    }
  }

  lemma PutSame(d: Dir, t: nat, sends: seq<Msg>, dead: set<nat>)
    ensures var d' := Put(d, t, sends, dead);
      d'.past == d.past && d'.catalog == d.catalog && d'.on == d.on && d'.late == d.late && |d'.wires| == |d.wires|
  {
  }

  /** Messages that are no part of a stream may join any wire. */
  lemma PutOther(d: Dir, t: nat, sends: seq<Msg>, dead: set<nat>, counter: nat)
    requires Wired(d, counter, dead)
    requires forall m :: m in sends ==> !IsStream(m)
    requires BatchesFresh(sends, d.catalog, counter)
    ensures var d' := Put(d, t, sends, dead);
      Wired(d', counter, dead) && History(d') == History(d) && Live(d') == Live(d) && FewerStrays(d, d')
        && d'.ended == d.ended
  {
    NoStream(sends);
    if t < |d.wires| && t !in dead {
      StreamConcat(d.wires[t], sends);
      assert Stream(d.wires[t]) + [] == Stream(d.wires[t]);
    }
    hide Stream;
    assert EndedBy(sends) == {};
    PutWires(d, t, sends, dead, counter);
    PutStrays(d, t, sends, dead);
  }

  lemma {:induction false} NoStream(w: seq<Msg>)
    requires forall m :: m in w ==> !IsStream(m)
    ensures Stream(w) == []
  {
    if w != [] {
      NoStream(w[..|w| - 1]);
    }
  }

  lemma PutEmpty(d: Dir, t: nat, dead: set<nat>)
    ensures Put(d, t, [], dead) == d
  {
    assert EndedBy([]) == {};
    if t < |d.wires| {
      assert d.wires[t] + [] == d.wires[t];
      assert d.wires[t := d.wires[t]] == d.wires;
      assert d.ended + {} == d.ended;
    }
  }

  /** The next message on transport t is the next of the current stream. */
  predicate IsNext(d: Dir, t: nat)
    requires t < |d.wires| && d.wires[t] != []
  {
    IsStream(d.wires[t][0]) && t == d.on && d.late == 0
  }

  /** Taking a message moves it from the wire into the past, or it was late; the history is the same. */
  lemma TakeKeeps(d: Dir, t: nat, counter: nat, dead: set<nat>)
    requires Wired(d, counter, dead)
    requires t < |d.wires| && d.wires[t] != []
    ensures var d' := Consume(d, t);
      && Wired(d', counter, dead) && History(d') == History(d) && FewerStrays(d, d')
      && d'.on == d.on && d'.catalog == d.catalog && d'.ended == d.ended && |d'.wires| == |d.wires|
      && d'.past == if IsNext(d, t) then d.past + [d.wires[t][0]] else d.past
    ensures var m := d.wires[t][0];
      && (IsStream(m) && !IsNext(d, t) ==> IsStray(d.wires, d.on, d.late, m))
      && (m.Batch? ==> m.batchId !in d.catalog && m.batchId < counter)
      && (IsEnd(m) ==> m.id in d.ended)
  {
    TakeHistory(d, t);
    TakeStrays(d, t);
    TakeWires(d, t, counter, dead);
    hide History, IsStray, WireInv, FewerStrays;
  }

  lemma TakeHistory(d: Dir, t: nat)
    requires d.on < |d.wires| ==> d.late <= |Stream(d.wires[d.on])|
    requires t < |d.wires| && d.wires[t] != []
    ensures var d' := Consume(d, t);
      && History(d') == History(d)
      && (d'.on < |d'.wires| ==> d'.late <= |Stream(d'.wires[d'.on])|)
    ensures IsStream(d.wires[t][0]) && !IsNext(d, t) ==> IsStray(d.wires, d.on, d.late, d.wires[t][0])
  {
    hide Stream, IsStray;
    StreamPop(d.wires[t]);
    if IsStream(d.wires[t][0]) && t == d.on {
      var m, w := d.wires[t][0], Stream(d.wires[t][1..]);
      Behind(d.past, m, w, d.late);
      if d.late > 0 { HeadIsLate(d.wires, d.on, d.late, m, w); }
    } else if IsStream(d.wires[t][0]) {
      HeadElsewhere(d.wires, d.on, d.late, t);
    } else {
      assert [] + Stream(d.wires[t][1..]) == Stream(d.wires[t][1..]);
    }
  }

  lemma Behind(past: seq<Msg>, m: Msg, w: seq<Msg>, late: nat)
    requires late <= |w| + 1
    ensures late == 0 ==> ([m] + w)[0..] == [m] + w && w[0..] == w && past + ([m] + w) == (past + [m]) + w
    ensures late > 0 ==> ([m] + w)[late..] == w[late - 1..]
  {
  }

  lemma HeadIsLate(wires: seq<seq<Msg>>, on: nat, late: nat, m: Msg, w: seq<Msg>)
    requires on < |wires| && 0 < late <= |Stream(wires[on])| && Stream(wires[on]) == [m] + w
    ensures IsStray(wires, on, late, m)
  {
    hide Stream;
    assert ([m] + w)[..late][0] == m;
  }

  lemma HeadElsewhere(wires: seq<seq<Msg>>, on: nat, late: nat, t: nat)
    requires t < |wires| && t != on && wires[t] != [] && IsStream(wires[t][0])
    ensures IsStray(wires, on, late, wires[t][0])
  {
    hide Stream;
    assert wires[t][0] in wires[t];
  }

  lemma TakeStrays(d: Dir, t: nat)
    requires d.on < |d.wires| ==> d.late <= |Stream(d.wires[d.on])|
    requires t < |d.wires| && d.wires[t] != []
    ensures FewerStrays(d, Consume(d, t))
  {
    StreamPop(d.wires[t]);
    var m, w := d.wires[t][0], Stream(d.wires[t][1..]);
    var d' := Consume(d, t);
    hide Stream;
    forall x | IsStray(d'.wires, d'.on, d'.late, x) ensures IsStray(d.wires, d.on, d.late, x) {
      if u :| 0 <= u < |d'.wires| && u != d.on && x in d'.wires[u] && IsStream(x) {
        assert x in d.wires[u];
      } else if t == d.on {
        assert IsStream(m) && d.late > 0 ==> ([m] + w)[..d.late] == [m] + w[..d.late - 1];
        assert !IsStream(m) ==> [] + w == w;
      }
    }
  }

  lemma TakeWires(d: Dir, t: nat, counter: nat, dead: set<nat>)
    requires Wired(d, counter, dead)
    requires t < |d.wires| && d.wires[t] != []
    ensures Wired(Consume(d, t), counter, dead)
    ensures d.wires[t][0].Batch? ==> d.wires[t][0].batchId !in d.catalog && d.wires[t][0].batchId < counter
    ensures IsEnd(d.wires[t][0]) ==> d.wires[t][0].id in d.ended
  {
    TakeHistory(d, t);
    hide Stream, Live, FewerStrays;
    BatchesPop(d.wires[t], d.catalog, counter);
    hide BatchesFresh;
    assert d.wires[t][0] in d.wires[t];
    assert forall m :: m in d.wires[t][1..] ==> m in d.wires[t];
    assert EndsKnown(d.wires[t], d.ended);
  }

  lemma BatchesPop(w: seq<Msg>, catalog: map<Id, Bytes>, counter: nat)
    requires BatchesFresh(w, catalog, counter) && w != []
    ensures BatchesFresh(w[1..], catalog, counter)
    ensures w[0].Batch? ==> w[0].batchId !in catalog && w[0].batchId < counter
  {
    assert w[0] in w;
    assert forall m :: m in w[1..] ==> m in w;
  }
}
