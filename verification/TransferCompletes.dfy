/**
 * That the transfer engine gets its work done: what is sent over a live transport and accepted
 * arrives whole, from every state; what is declined is not sent; how every job ends; and that
 * texts are neither lost nor made up.
 */
module TransferCompletes {
  import opened Basics
  import opened TransferProtocol
  import opened TransferSystem
  import opened TransferInvariant
  import opened TransferOrder
  import opened TransferRuns

  // --------------------------------------------------------- from state to state

  ghost predicate Reaches(care: Care, s: Net, last: Net) { exists steps :: IsRun(care, s, steps, last) }

  lemma Stays(care: Care, s: Net)
    ensures Reaches(care, s, s)
  {
    assert IsRun(care, s, [], s);
  }

  lemma Moves(care: Care, s0: Net, s: Net, step: Step)
    requires Reaches(care, s0, s) && CanStep(s, step) && CleanSwitch(care, s, step)
    ensures Reaches(care, s0, Next(s, step))
  {
    var steps :| IsRun(care, s0, steps, s);
    hide CanStep, CleanSwitch, Next, IsRun;
    RunSnoc(care, s0, steps, s, step);
  }

  /** Transport t is live, and this is what it carries either way. */
  predicate Carrying(s: Net, t: nat, out: seq<Msg>, back: seq<Msg>) {
    t < |s.ab.wires| && t < |s.ba.wires| && t !in s.dead && s.ab.wires[t] == out && s.ba.wires[t] == back
  }

  /** Elsewhere nothing has changed for A. */
  predicate Elsewhere(s: Net, s1: Net, t: nat) {
    |s1.ab.wires| == |s.ab.wires| && forall u :: 0 <= u < |s.ab.wires| && u != t ==> s1.ab.wires[u] == s.ab.wires[u]
  }

  lemma Alone(m: Msg)
    ensures [m] + [] == [m] && [] + [m] == [m]
    ensures var none: seq<Msg> := []; none + none == none
  {
  }

  /** A goes on to its next suspension. */
  lemma AGoesOn(care: Care, s0: Net, s: Net, t: nat) returns (s1: Net)
    requires Reaches(care, s0, s) && Carrying(s, t, [], []) && ValidTask(s.a.task)
    requires Advance(s.a).sends != [] ==> TaskTransport(s.a.task) == t
    ensures Reaches(care, s0, s1) && Carrying(s1, t, Advance(s.a).sends, [])
    ensures s1.a == Advance(s.a).conv && s1.b == s.b
  {
    hide Reaches, Advance, ValidTask;
    s1 := Next(s, ByA(Resume));
    Moves(care, s0, s, ByA(Resume));
    assert s.ab.wires[t] + [] == s.ab.wires[t] && [] + Advance(s.a).sends == Advance(s.a).sends;
  }

  /** B takes the next message. */
  lemma BTakes(care: Care, s0: Net, s: Net, t: nat, m: Msg, rest: seq<Msg>, back: seq<Msg>) returns (s1: Net)
    requires Reaches(care, s0, s) && Carrying(s, t, [m] + rest, back)
    ensures Reaches(care, s0, s1) && Carrying(s1, t, rest, back + OnMessage(s.b, m, t).sends) && Elsewhere(s, s1, t)
    ensures s1.a == s.a && s1.b == OnMessage(s.b, m, t).conv
  {
    hide Reaches, OnMessage;
    assert ([m] + rest)[1..] == rest && ([m] + rest)[0] == m;
    s1 := Next(s, ByB(Deliver(t)));
    Moves(care, s0, s, ByB(Deliver(t)));
  }

  /** A takes the next message. */
  lemma ATakes(care: Care, s0: Net, s: Net, t: nat, m: Msg, out: seq<Msg>, rest: seq<Msg>) returns (s1: Net)
    requires Reaches(care, s0, s) && Carrying(s, t, out, [m] + rest)
    ensures Reaches(care, s0, s1) && Carrying(s1, t, out + OnMessage(s.a, m, t).sends, rest) && Elsewhere(s, s1, t)
    ensures s1.a == OnMessage(s.a, m, t).conv && s1.b == s.b
  {
    hide Reaches, OnMessage;
    assert ([m] + rest)[1..] == rest && ([m] + rest)[0] == m;
    s1 := Next(s, ByA(Deliver(t)));
    Moves(care, s0, s, ByA(Deliver(t)));
  }

  /** What a message still brings about: itself, and a reply to it. */
  function Load(w: seq<Msg>): nat {
    if w == [] then 0 else (if w[0].DStart? || IsEnd(w[0]) then 2 else 1) + Load(w[1..])
  }

  lemma {:induction false} LoadConcat(a: seq<Msg>, b: seq<Msg>)
    ensures Load(a + b) == Load(a) + Load(b)
  {
    if a == [] {
      assert a + b == b;
    } else {
      assert (a + b)[1..] == a[1..] + b;
      LoadConcat(a[1..], b);
    }
  }

  lemma RepliesLighter(c: Conv, m: Msg, t: nat, w: seq<Msg>)
    ensures Load(w + OnMessage(c, m, t).sends) + Load([]) < Load([m]) + Load(w)
  {
    var sends := OnMessage(c, m, t).sends;
    LoadConcat(w, sends);
    assert sends == [] || (sends == [sends[0]] && sends[1..] == [] && [m][1..] == []);
    hide Flatten;
  }

  /** Receiving leaves the sending side's lock, names and cancellations alone. */
  lemma HearingKeeps(c: Conv, m: Msg, t: nat)
    ensures var c' := OnMessage(c, m, t).conv;
            c'.sending == c.sending && c'.counter == c.counter && c'.cancelled == c.cancelled
  {
    hide Flatten;
  }

  /** Whatever transport t carries can be taken. */
  lemma {:induction false} Drains(care: Care, s0: Net, s: Net, t: nat, out: seq<Msg>, back: seq<Msg>) returns (s1: Net)
    requires Reaches(care, s0, s) && Carrying(s, t, out, back)
    ensures Reaches(care, s0, s1) && Carrying(s1, t, [], []) && Elsewhere(s, s1, t)
    ensures s1.a.sending == s.a.sending && s1.a.counter == s.a.counter && s1.a.cancelled == s.a.cancelled
    decreases Load(out) + Load(back)
  {
    hide Reaches, OnMessage;
    if out != [] {
      var m, rest := out[0], out[1..];
      assert out == [m] + rest;
      var s2 := BTakes(care, s0, s, t, m, rest, back);
      LoadConcat([m], rest);
      RepliesLighter(s.b, m, t, back);
      s1 := Drains(care, s0, s2, t, rest, back + OnMessage(s.b, m, t).sends);
    } else if back != [] {
      var m, rest := back[0], back[1..];
      assert back == [m] + rest;
      var s2 := ATakes(care, s0, s, t, m, out, rest);
      HearingKeeps(s.a, m, t);
      LoadConcat([m], rest);
      RepliesLighter(s.a, m, t, out);
      s1 := Drains(care, s0, s2, t, out + OnMessage(s.a, m, t).sends, rest);
    } else {
      s1 := s;
    }
  }

  // ------------------------------------------------------------------ one blob

  /** The receiver has this file or document open, with these bytes of it. */
  predicate Open(c: Conv, doc: bool, id: Id, got: Bytes, size: nat) {
    c.inbound.Some? && var ib := c.inbound.value;
      ib.doc == doc && ib.id == id && Flatten(ib.parts) == got && ib.received == |got| && ib.size == size as real
  }

  /** What else a job's sender knows while it pumps. */
  predicate SameJob(c: Conv, c': Conv) {
    c'.log == c.log && c'.sending == c.sending && c'.cancelled == c.cancelled && c'.counter == c.counter
  }

  /** What else the receiver knows meanwhile. */
  predicate SameBatch(c: Conv, c': Conv) { c'.log == c.log && c'.inboundBatch == c.inboundBatch }

  lemma ChunkTaken(c: Conv, doc: bool, id: Id, blob: Bytes, offset: nat, end: nat)
    requires offset <= end <= |blob| && Open(c, doc, id, blob[..offset], |blob|)
    ensures var o := OnMessage(c, Chunk(blob[offset..end]), 0);
            o.sends == [] && Open(o.conv, doc, id, blob[..end], |blob|) && SameBatch(c, o.conv)
  {
    FlattenPush(c.inbound.value.parts, blob[offset..end]);
    assert blob[..offset] + blob[offset..end] == blob[..end];
    hide Flatten;
  }

  /** The rest of a blob goes over, chunk by chunk. */
  lemma {:induction false} PumpsOver(care: Care, s0: Net, s: Net, t: nat, job: Job, i: nat, offset: nat)
    returns (s1: Net)
    requires Reaches(care, s0, s) && Carrying(s, t, [], []) && ValidTask(s.a.task)
    requires s.a.task == Pumping(t, job, i, offset) && job.batch !in s.a.cancelled
    requires Open(s.b, job.doc, job.ids[i], job.blobs[i][..offset], |job.blobs[i]|)
    ensures Reaches(care, s0, s1) && Carrying(s1, t, [], []) && i < |job.ids| == |job.blobs|
    ensures s1.a.task == Pumping(t, job, i, |job.blobs[i]|) && SameJob(s.a, s1.a) && SameBatch(s.b, s1.b)
    ensures Open(s1.b, job.doc, job.ids[i], job.blobs[i], |job.blobs[i]|)
    decreases |job.blobs[i]| - offset
  {
    var blob := job.blobs[i];
    hide Reaches, Open;
    if offset == |blob| {
      s1 := s;
      assert blob[..offset] == blob;
    } else {
      var end := Min(offset + CHUNK_SIZE, |blob|);
      var m := Chunk(blob[offset..end]);
      ChunkTaken(s.b, job.doc, job.ids[i], blob, offset, end);
      var s2 := AGoesOn(care, s0, s, t);
      Alone(m);
      var s3 := BTakes(care, s0, s2, t, m, [], []);
      s1 := PumpsOver(care, s0, s3, t, job, i, end);
    }
  }

  /** And its end is confirmed. */
  lemma GoesOver(care: Care, s0: Net, s: Net, t: nat, job: Job, i: nat) returns (s1: Net)
    requires Reaches(care, s0, s) && Carrying(s, t, [], []) && ValidTask(s.a.task)
    requires s.a.task == Pumping(t, job, i, 0) && job.batch !in s.a.cancelled
    requires Open(s.b, job.doc, job.ids[i], [], |job.blobs[i]|)
    ensures Reaches(care, s0, s1) && Carrying(s1, t, [], []) && i < |job.ids| == |job.blobs|
    ensures s1.a.task == Acking(t, job, i, true) && SameJob(s.a, s1.a)
    ensures s1.b.inboundBatch == s.b.inboundBatch && s1.b.log == s.b.log + [Saved(job.ids[i], job.blobs[i])]
  {
    hide Reaches;
    assert job.blobs[i][..0] == [];
    var s2 := PumpsOver(care, s0, s, t, job, i, 0);
    var id := job.ids[i];
    var m := if job.doc then DEnd(id) else FEnd(job.batch, id);
    var s3 := AGoesOn(care, s0, s2, t);
    Alone(m);
    Alone(Received(id));
    var s4 := BTakes(care, s0, s3, t, m, [], []);
    s1 := ATakes(care, s0, s4, t, Received(id), [], []);
    hide Flatten;
  }

  // ---------------------------------------------------------------- a whole job

  /** The receiver holds the first i of the job, and the sender has reported them done after `done`. */
  ghost predicate Through(s: Net, job: Job, i: nat, done: seq<Id>)
    requires i <= |job.ids| == |job.blobs|
  {
    && DoneIds(s.a.log) == done + job.ids[..i]
    && forall k :: 0 <= k < i ==> Saved(job.ids[k], job.blobs[k]) in s.b.log
  }

  /** The receiver's user has accepted these files. */
  predicate Accepted(c: Conv, job: Job) {
    c.inboundBatch.Some? && c.inboundBatch.value.batchId == job.batch && |job.ids| == |job.blobs|
    && forall k :: 0 <= k < |job.ids| ==>
      job.ids[k] in c.inboundBatch.value.files
      && c.inboundBatch.value.files[job.ids[k]] == FileMeta(job.ids[k], |job.blobs[k]|)
  }

  lemma {:induction false} MetaMapAt(files: seq<FileMeta>, k: nat)
    requires k < |files| && forall i, j :: 0 <= i < j < |files| ==> files[i].id != files[j].id
    ensures files[k].id in MetaMap(files) && MetaMap(files)[files[k].id] == files[k]
  {
    if k < |files| - 1 { MetaMapAt(files[..|files| - 1], k); }
  }

  /** A file of an accepted batch is opened. */
  lemma FileOpens(care: Care, s0: Net, s: Net, t: nat, job: Job, i: nat) returns (s1: Net)
    requires Reaches(care, s0, s) && Carrying(s, t, [], []) && ValidTask(s.a.task)
    requires s.a.task == Looping(t, job, i) && i < |job.ids| && job.batch !in s.a.cancelled && Accepted(s.b, job)
    ensures Reaches(care, s0, s1) && Carrying(s1, t, [], []) && ValidTask(s1.a.task)
    ensures s1.a.task == Pumping(t, job, i, 0) && s1.a.cancelled == s.a.cancelled
    ensures s1.a.log == s.a.log + [SendStarted(job.ids[i])]
    ensures Open(s1.b, false, job.ids[i], [], |job.blobs[i]|) && s1.b.inboundBatch == s.b.inboundBatch
    ensures s1.b.log == s.b.log + [Opened(false, job.ids[i])]
  {
    hide Reaches;
    var m := FStart(job.batch, job.ids[i]);
    var s2 := AGoesOn(care, s0, s, t);
    Alone(m);
    assert Flatten<Byte>([]) == [];
    hide Flatten;
    s1 := BTakes(care, s0, s2, t, m, [], []);
  }

  lemma ThroughOne(s: Net, s1: Net, job: Job, i: nat, done: seq<Id>)
    requires i < |job.ids| == |job.blobs| && Through(s, job, i, done)
    requires s1.a.log == s.a.log + [SendStarted(job.ids[i])] + [Done(job.ids[i])]
    requires s1.b.log == s.b.log + [Opened(false, job.ids[i])] + [Saved(job.ids[i], job.blobs[i])]
    ensures Through(s1, job, i + 1, done)
  {
    var id := job.ids[i];
    LogStep(s.a.log, SendStarted(id));
    LogStep(s.a.log + [SendStarted(id)], Done(id));
    hide DoneIds;
    assert job.ids[..i] + [id] == job.ids[..i + 1];
    assert done + (job.ids[..i] + [id]) == (done + job.ids[..i]) + [id];
    forall k | 0 <= k < i + 1 ensures Saved(job.ids[k], job.blobs[k]) in s1.b.log {
      if k == i { assert s1.b.log[|s1.b.log| - 1] == Saved(id, job.blobs[i]); }
    }
  }

  /** One file of an accepted batch. */
  lemma FileGoesOver(care: Care, s0: Net, s: Net, t: nat, job: Job, i: nat, done: seq<Id>) returns (s1: Net)
    requires Reaches(care, s0, s) && Carrying(s, t, [], []) && ValidTask(s.a.task)
    requires s.a.task == Looping(t, job, i) && i < |job.ids| && job.batch !in s.a.cancelled
    requires Accepted(s.b, job) && Through(s, job, i, done)
    ensures Reaches(care, s0, s1) && Carrying(s1, t, [], []) && ValidTask(s1.a.task)
    ensures s1.a.task == Looping(t, job, i + 1) && s1.a.cancelled == s.a.cancelled
    ensures Accepted(s1.b, job) && Through(s1, job, i + 1, done)
  {
    hide Reaches, Open, Through, DoneIds;
    var s2 := FileOpens(care, s0, s, t, job, i);
    var s3 := GoesOver(care, s0, s2, t, job, i);
    s1 := AGoesOn(care, s0, s3, t);
    ThroughOne(s, s1, job, i, done);
  }

  /** Its remaining files. */
  lemma {:induction false} FilesGoOver(care: Care, s0: Net, s: Net, t: nat, job: Job, i: nat, done: seq<Id>)
    returns (s1: Net)
    requires Reaches(care, s0, s) && Carrying(s, t, [], []) && ValidTask(s.a.task)
    requires s.a.task == Looping(t, job, i) && job.batch !in s.a.cancelled
    requires Accepted(s.b, job) && Through(s, job, i, done)
    ensures Reaches(care, s0, s1) && s1.a.task.NoTask? && !s1.a.sending
    ensures |job.ids| == |job.blobs| && Through(s1, job, |job.ids|, done)
    decreases |job.ids| - i
  {
    hide Reaches, Through, Accepted;
    if i == |job.ids| {
      s1 := AGoesOn(care, s0, s, t);
      StillThrough(s, s1, job, i, done);
    } else {
      var s2 := FileGoesOver(care, s0, s, t, job, i, done);
      s1 := FilesGoOver(care, s0, s2, t, job, i + 1, done);
    }
  }

  lemma StillThrough(s: Net, s1: Net, job: Job, i: nat, done: seq<Id>)
    requires i <= |job.ids| == |job.blobs| && Through(s, job, i, done) && s1.a.log == s.a.log && s1.b.log == s.b.log
    ensures Through(s1, job, i, done)
  {
  }

  // ------------------------------------------------------- from the user's click

  function ContentsOf(work: Work): seq<Bytes> {
    match work
    case Files(contents) => contents
    case Doc(html) => [html]
  }

  /** What the engine can get across: some files, or a document of 1 byte to 24 MB. An empty one is declined. */
  predicate Sendable(work: Work) {
    match work
    case Files(contents) => contents != []
    case Doc(html) => 0 < |html| <= 24 * 1024 * 1024
  }

  /** The job has been announced, and nothing else is under way on the transport. */
  predicate Waiting(s: Net, t: nat, job: Job) {
    && s.a.task == Deciding(t, job, None) && s.a.pendingDecision == Some(job.batch) && s.a.sending
    && ValidJob(job) && job.batch !in s.a.cancelled
  }

  /** A starts to send over t. */
  lemma Begins(care: Care, s0: Net, s: Net, t: nat, work: Work) returns (s1: Net, job: Job)
    requires Reaches(care, s0, s) && Carrying(s, t, [], []) && Sendable(work) && !s.a.sending
    requires s.a.counter !in s.a.cancelled && Careful(care, s.a, s.b, s.ab, Acquire(t))
    ensures Reaches(care, s0, s1) && Waiting(s1, t, job) && job.blobs == ContentsOf(work) && job.doc == work.Doc?
    ensures NoDup(job.ids) && s1.b == s.b && s1.a.log == s.a.log
    ensures Carrying(s1, t, [if job.doc then DStart(Some(job.batch), Some(|job.blobs[0]| as real))
                             else Batch(job.batch, Metas(job.ids, job.blobs))], [])
  {
    hide Reaches;
    var start, acquire := ByA(Start(work)), ByA(Acquire(t));
    var s2 := Next(s, start);
    Moves(care, s0, s, start);
    assert s2.a == s.a.(sending := true, task := Acquiring(work));
    s1 := Next(s2, acquire);
    Moves(care, s0, s2, acquire);
    job := s1.a.task.job;
    assert [] + Acquired(s2.a, t).sends == Acquired(s2.a, t).sends;
    hide Stream, Contents;
  }

  /** B's user says yes to what has been asked last. */
  lemma SaysYes(care: Care, s0: Net, s: Net, t: nat, job: Job, q: Dialog) returns (s1: Net)
    requires Reaches(care, s0, s) && Carrying(s, t, [], []) && Waiting(s, t, job)
    requires s.b.dialogs != [] && s.b.dialogs[|s.b.dialogs| - 1] == q && q.on == t
    requires (if q.AskFiles? then q.batchId else q.id) == job.batch
    ensures var o := AnswerDialog(s.b, |s.b.dialogs| - 1, true);
            s1.b == o.conv && Carrying(s1, t, [], o.sends)
    ensures Reaches(care, s0, s1) && s1.a == s.a
  {
    hide Reaches, AnswerDialog;
    var step := ByB(Answer(|s.b.dialogs| - 1, true));
    s1 := Next(s, step);
    Moves(care, s0, s, step);
    var sends := AnswerDialog(s.b, |s.b.dialogs| - 1, true).sends;
    assert [] + sends == sends;
  }

  /** The yes reaches A. */
  lemma YesArrives(care: Care, s0: Net, s: Net, t: nat, job: Job) returns (s1: Net)
    requires Reaches(care, s0, s) && Carrying(s, t, [], [Accept(job.batch)]) && Waiting(s, t, job)
    ensures Reaches(care, s0, s1) && Carrying(s1, t, [], []) && s1.b == s.b
    ensures s1.a.task == Deciding(t, job, Some(true))
    ensures s1.a.log == s.a.log && s1.a.sending && s1.a.cancelled == s.a.cancelled
  {
    hide Reaches;
    Alone(Accept(job.batch));
    s1 := ATakes(care, s0, s, t, Accept(job.batch), [], []);
  }

  lemma FilesFromClick(care: Care, s0: Net, s: Net, t: nat, work: Work) returns (s1: Net, ids: seq<Id>)
    requires Reaches(care, s0, s) && Carrying(s, t, [], []) && Sendable(work) && work.Files? && !s.a.sending
    requires s.a.counter !in s.a.cancelled && Careful(care, s.a, s.b, s.ab, Acquire(t))
    ensures Reaches(care, s0, s1) && s1.a.task.NoTask? && !s1.a.sending && NoDup(ids)
    ensures |ids| == |ContentsOf(work)| && DoneIds(s1.a.log) == DoneIds(s.a.log) + ids
    ensures forall k :: 0 <= k < |ids| ==> Saved(ids[k], ContentsOf(work)[k]) in s1.b.log
  {
    hide Reaches, NoDup, Careful;
    var s2, job := Begins(care, s0, s, t, work);
    ids := job.ids;
    var m := Batch(job.batch, Metas(ids, job.blobs));
    Alone(m);
    var s3 := BTakes(care, s0, s2, t, m, [], []);
    var s4 := SaysYes(care, s0, s3, t, job, AskFiles(job.batch, Metas(ids, job.blobs), t));
    AcceptsThem(s4.b, job);
    var s5 := YesArrives(care, s0, s4, t, job);
    var s6 := AGoesOn(care, s0, s5, t);
    assert job.ids[..0] == [] && DoneIds(s.a.log) + [] == DoneIds(s.a.log);
    hide DoneIds, Accepted, Metas, MetaMap;
    var s7 := FilesGoOver(care, s0, s6, t, job, 0, DoneIds(s.a.log));
    s1 := s7;
    assert job.ids[..|job.ids|] == job.ids;
  }

  lemma AcceptsThem(c: Conv, job: Job)
    requires |job.ids| == |job.blobs| && NoDup(job.ids)
    requires c.inboundBatch == Some(InboundBatch(job.batch, MetaMap(Metas(job.ids, job.blobs))))
    ensures Accepted(c, job)
  {
    var files := Metas(job.ids, job.blobs);
    forall k | 0 <= k < |job.ids|
      ensures job.ids[k] in MetaMap(files) && MetaMap(files)[job.ids[k]] == FileMeta(job.ids[k], |job.blobs[k]|)
    {
      assert files[k] == FileMeta(job.ids[k], |job.blobs[k]|);
      MetaMapAt(files, k);
    }
  }

  lemma DocFromClick(care: Care, s0: Net, s: Net, t: nat, work: Work) returns (s1: Net, ids: seq<Id>)
    requires Reaches(care, s0, s) && Carrying(s, t, [], []) && Sendable(work) && work.Doc? && !s.a.sending
    requires s.a.counter !in s.a.cancelled && Careful(care, s.a, s.b, s.ab, Acquire(t))
    ensures Reaches(care, s0, s1) && s1.a.task.NoTask? && !s1.a.sending && NoDup(ids)
    ensures |ids| == |ContentsOf(work)| && DoneIds(s1.a.log) == DoneIds(s.a.log) + ids
    ensures forall k :: 0 <= k < |ids| ==> Saved(ids[k], ContentsOf(work)[k]) in s1.b.log
  {
    hide Reaches, Careful;
    var s2, job := Begins(care, s0, s, t, work);
    ids := job.ids;
    var s3 := DocAsked(care, s0, s2, t, job);
    var s4 := YesArrives(care, s0, s3, t, job);
    hide Open, Carrying, NoDup;
    var s5 := AGoesOn(care, s0, s4, t);
    LogStep(s4.a.log, SendStarted(job.batch));
    var s6 := GoesOver(care, s0, s5, t, job, 0);
    s1 := AGoesOn(care, s0, s6, t);
    LogStep(s6.a.log, Done(job.batch));
    hide DoneIds;
    assert s1.b.log[|s1.b.log| - 1] == Saved(job.batch, work.html);
  }

  /** A document is opened, at once or after the user has been asked, and its sender told so. */
  lemma DocAsked(care: Care, s0: Net, s: Net, t: nat, job: Job) returns (s1: Net)
    requires Reaches(care, s0, s) && Waiting(s, t, job) && job.doc && 0 < |job.blobs[0]| <= 24 * 1024 * 1024
    requires Carrying(s, t, [DStart(Some(job.batch), Some(|job.blobs[0]| as real))], [])
    ensures Reaches(care, s0, s1) && Carrying(s1, t, [], [Accept(job.batch)]) && s1.a == s.a
    ensures Open(s1.b, true, job.batch, [], |job.blobs[0]|)
  {
    hide Reaches;
    var size := |job.blobs[0]| as real;
    var m := DStart(Some(job.batch), Some(size));
    Alone(m);
    Alone(Accept(job.batch));
    assert Flatten<Byte>([]) == [];
    hide Flatten;
    var s2 := BTakes(care, s0, s, t, m, [], []);
    if |job.blobs[0]| <= 2 * 1024 * 1024 {
      s1 := s2;
    } else {
      s1 := SaysYes(care, s0, s2, t, job, AskDoc(job.batch, size, t));
    }
  }

  /**
   * What is sent and accepted arrives. From every state in which A is not sending, for every live
   * transport that may be used and everything that can be sent, there is a careful way on after
   * which each file, or the document, has been saved by the other end byte for byte, all of them
   * have been reported done, in order, and the lock has been given back.
   */
  lemma SendingCompletes(care: Care, s: Net, t: nat, work: Work)
    requires t < |s.ab.wires| && t < |s.ba.wires| && t !in s.dead && Sendable(work) && !s.a.sending
    requires s.a.counter !in s.a.cancelled && Careful(care, s.a, s.b, s.ab, Acquire(t))
    ensures exists last, done, ids ::
      && Reaches(care, s, last) && last.a.task.NoTask? && !last.a.sending && NoDup(ids)
      && |ids| == |ContentsOf(work)| && DoneIds(last.a.log) == done + ids
      && forall k :: 0 <= k < |ids| ==> Saved(ids[k], ContentsOf(work)[k]) in last.b.log
  {
    Stays(care, s);
    hide Reaches, Careful;
    var s1 := Drains(care, s, s, t, s.ab.wires[t], s.ba.wires[t]);
    StillCareful(care, s, s1, t);
    var last: Net, ids: seq<Id>;
    if work.Files? {
      last, ids := FilesFromClick(care, s, s1, t, work);
    } else {
      last, ids := DocFromClick(care, s, s1, t, work);
    }
    assert DoneIds(last.a.log) == DoneIds(s1.a.log) + ids;
    hide DoneIds, NoDup, Carrying, Elsewhere;
  }

  lemma StillCareful(care: Care, s: Net, s1: Net, t: nat)
    requires Careful(care, s.a, s.b, s.ab, Acquire(t)) && Elsewhere(s, s1, t)
    ensures Careful(care, s1.a, s1.b, s1.ab, Acquire(t))
  {
    hide Stream;
  }

  /** The same two ends, seen from the other side. */
  function Flip(s: Net): Net { Net(s.b, s.a, s.ba, s.ab, s.dead) }

  function FlipStep(step: Step): Step {
    match step
    case ByA(act) => ByB(act)
    case ByB(act) => ByA(act)
    case Close(t) => Close(t)
  }

  lemma StepFlips(care: Care, s: Net, step: Step)
    requires CanStep(s, step) && CleanSwitch(care, s, step)
    ensures CanStep(Flip(s), FlipStep(step)) && CleanSwitch(care, Flip(s), FlipStep(step))
    ensures Next(Flip(s), FlipStep(step)) == Flip(Next(s, step))
  {
    hide CanAct, Act, Careful, Lose;
  }

  lemma {:induction false} RunFlips(care: Care, s: Net, steps: seq<Step>, last: Net)
    requires IsRun(care, s, steps, last)
    ensures Reaches(care, Flip(s), Flip(last))
    decreases |steps|
  {
    if steps == [] {
      Stays(care, Flip(s));
    } else {
      StepFlips(care, s, steps[0]);
      RunFlips(care, Next(s, steps[0]), steps[1..], last);
      var more :| IsRun(care, Flip(Next(s, steps[0])), more, Flip(last));
      var all := [FlipStep(steps[0])] + more;
      assert all[0] == FlipStep(steps[0]) && all[1..] == more;
      hide CanStep, CleanSwitch, Next, Flip, FlipStep;
      assert IsRun(care, Flip(s), all, Flip(last));
    }
  }

  /** And so it does for what B sends. */
  lemma SendingBackCompletes(care: Care, s: Net, t: nat, work: Work)
    requires t < |s.ab.wires| && t < |s.ba.wires| && t !in s.dead && Sendable(work) && !s.b.sending
    requires s.b.counter !in s.b.cancelled && Careful(care, s.b, s.a, s.ba, Acquire(t))
    ensures exists last, done, ids ::
      && Reaches(care, s, last) && last.b.task.NoTask? && !last.b.sending && NoDup(ids)
      && |ids| == |ContentsOf(work)| && DoneIds(last.b.log) == done + ids
      && forall k :: 0 <= k < |ids| ==> Saved(ids[k], ContentsOf(work)[k]) in last.a.log
  {
    SendingCompletes(care, Flip(s), t, work);
    hide DoneIds, NoDup, IsRun, Careful;
    var there, done, ids :|
      && Reaches(care, Flip(s), there) && there.a.task.NoTask? && !there.a.sending && NoDup(ids)
      && |ids| == |ContentsOf(work)| && DoneIds(there.a.log) == done + ids
      && forall k :: 0 <= k < |ids| ==> Saved(ids[k], ContentsOf(work)[k]) in there.b.log;
    var steps :| IsRun(care, Flip(s), steps, there);
    RunFlips(care, Flip(s), steps, there);
    assert Flip(Flip(s)) == s;
    var last := Flip(there);
    assert Reaches(care, s, last) && last.b == there.a && last.a == there.b;
  }

  // ------------------------------------------------------------ what is declined

  /** B's user says no. */
  lemma SaysNo(care: Care, s: Net, t: nat, job: Job, n: nat)
    requires Carrying(s, t, [], []) && Waiting(s, t, job) && n < |s.b.dialogs| && s.b.dialogs[n].on == t
    requires (if s.b.dialogs[n].AskFiles? then s.b.dialogs[n].batchId else s.b.dialogs[n].id) == job.batch
    ensures exists last ::
      && Reaches(care, s, last) && Carrying(last, t, [], []) && last.a.task.NoTask? && !last.a.sending
      && last.a.log == s.a.log + [Declined(job.batch)] && last.b.log == s.b.log
      && last.b.inbound == s.b.inbound && last.b.inboundBatch == s.b.inboundBatch
  {
    Stays(care, s);
    hide Reaches;
    var step := ByB(Answer(n, false));
    var s1 := Next(s, step);
    Moves(care, s, s, step);
    Alone(Decline(job.batch));
    var s2 := ATakes(care, s, s1, t, Decline(job.batch), [], []);
    var last := AGoesOn(care, s, s2, t);
    assert Reaches(care, s, last);
  }

  /** Once a job is cancelled, nothing more of its files is put on any wire but an end marker. */
  lemma CancelledSendsNoMore(s: Net, u: nat)
    requires CanStep(s, ByA(Resume)) && HasJob(s.a.task) && s.a.task.job.batch in s.a.cancelled && u < |s.ab.wires|
    ensures var was, now := s.ab.wires[u], Next(s, ByA(Resume)).ab.wires[u];
            now == was || exists m :: IsEnd(m) && now == was + [m]
  {
    var was, now := s.ab.wires[u], Next(s, ByA(Resume)).ab.wires[u];
    if now != was {
      var m := Advance(s.a).sends[0];
      assert was + [] == was;
      assert IsEnd(m) && now == was + [m];
    }
  }

  // ------------------------------------------------------------- how a job ends

  /** Everything that can become of a job: all of it done, or said why not. */
  ghost predicate AccountedFor(c: Conv, act: Action, c': Conv)
    requires HasJob(c.task)
  {
    var job := c.task.job;
    || EndsWith(DoneIds(c'.log), job.ids, |job.ids|)
    || (c.task.Deciding? && c.task.answer == Some(false) && c'.log == c.log + [Declined(job.batch)])
    || (c.task.Deciding? && c.task.answer == None && act.Fault?)
    || (c'.log != [] && c'.log[|c'.log| - 1].SendFailed? && c'.log[|c'.log| - 1].id in job.ids)
    || (c.task.Looping? && job.batch in c.cancelled)
  }

  /** A sender that goes on of its own, neither declined nor cancelled. */
  predicate Undisturbed(c: Conv, act: Action)
    requires HasJob(c.task)
  {
    act.Resume? && c.task.job.batch !in c.cancelled && !(c.task.Deciding? && c.task.answer == Some(false))
  }

  lemma AllDone(done: seq<Id>, ids: seq<Id>, i: nat, id: Id)
    requires EndsWith(done, ids, i) && i < |ids| && ids[i] == id
    ensures EndsWith(done + [id], ids, i + 1)
  {
    var more := done + [id];
    assert more[|more| - (i + 1)..] == done[|done| - i..] + [id];
    assert ids[..i + 1] == ids[..i] + [id];
  }

  lemma ResumeEnds(c: Conv)
    requires ValidTask(c.task) && HasJob(c.task) && Advance(c).conv.task.NoTask?
    requires c.task.Looping? || c.task.Pumping? || c.task.Acking? ==> EndsWith(DoneIds(c.log), c.task.job.ids, c.task.i)
    ensures AccountedFor(c, Resume, Advance(c).conv)
    ensures Undisturbed(c, Resume) ==> EndsWith(DoneIds(Advance(c).conv.log), c.task.job.ids, |c.task.job.ids|)
  {
    hide EndsWith, DoneIds;
    match c.task
    case Deciding(_, _, _) =>
    case Looping(_, _, _) =>
    case Pumping(_, job, i, _) =>
    case Acking(_, job, i, _) =>
      LogStep(c.log, Done(job.ids[i]));
      AllDone(DoneIds(c.log), job.ids, i, job.ids[i]);
  }

  lemma FaultEnds(c: Conv)
    requires ValidTask(c.task) && HasJob(c.task) && Fail(c).task.NoTask?
    ensures AccountedFor(c, Fault, Fail(c))
  {
    hide EndsWith, DoneIds;
  }

  /** Nothing else ends a job. */
  lemma OthersRest(me: Conv, out: Dir, inc: Dir, dead: set<nat>, act: Action)
    requires CanAct(me, out, inc, dead, act) && HasJob(me.task) && !act.Resume? && !act.Fault?
    ensures !Act(me, out, inc, dead, act).me.task.NoTask?
  {
    if act.Deliver? { HearingRests(me, inc.wires[act.t][0], act.t); }
    hide Flatten, Stream, Contents, OnMessage, Put;
  }

  lemma TaskEnds(me: Conv, out: Dir, inc: Dir, dead: set<nat>, act: Action)
    requires LockInv(me.task, me.sending, me.pendingDecision, me.pendingAcks, DoneIds(me.log))
    requires CanAct(me, out, inc, dead, act) && HasJob(me.task) && Act(me, out, inc, dead, act).me.task.NoTask?
    ensures AccountedFor(me, act, Act(me, out, inc, dead, act).me)
    ensures Undisturbed(me, act) ==>
        EndsWith(DoneIds(Act(me, out, inc, dead, act).me.log), me.task.job.ids, |me.task.job.ids|)
  {
    hide EndsWith, DoneIds, AccountedFor, Advance, Fail;
    if act.Resume? {
      ResumeEnds(me);
    } else if act.Fault? {
      FaultEnds(me);
    } else {
      OthersRest(me, out, inc, dead, act);
      hide Act, CanAct;
      assert false;
    }
  }

  /** Nothing that is heard ends a job. */
  lemma HearingRests(c: Conv, m: Msg, t: nat)
    ensures OnMessage(c, m, t).conv.task.NoTask? ==> c.task.NoTask?
  {
    hide Flatten;
  }

  /** The end that acts in a step. */
  function Actor(s: Net, step: Step): Conv { if step.ByB? then s.b else s.a }

  /**
   * In every careful run, when a job ends, every one of its files has been reported done, in
   * order and last of all; or it was declined, or cancelled between two files, or failed at one of
   * its files, or nobody answered. In particular a sender that goes on of its own, neither declined
   * nor cancelled, has gone through the whole of its batch.
   */
  lemma JobsEndAccountedFor(care: Care, n: nat, steps: seq<Step>, s: Net, step: Step)
    requires IsRun(care, InitNet(n), steps, s) && !care.Reckless? && !step.Close? && CanStep(s, step)
    requires HasJob(Actor(s, step).task) && Actor(Next(s, step), step).task.NoTask?
    ensures var me, me' := Actor(s, step), Actor(Next(s, step), step);
      && AccountedFor(me, step.act, me')
      && (Undisturbed(me, step.act) ==> EndsWith(DoneIds(me'.log), me.task.job.ids, |me.task.job.ids|))
  {
    InitKept(care, n);
    RunKeeps(care, InitNet(n), steps, s);
    hide IsRun, Kept, LockInv, WireInv, HistInv, TaskInv, AckInv, ReceiverInv, StraysInv, ReplyInv, CanAct, Act,
         AccountedFor, EndsWith, DoneIds;
    if step.ByA? { TaskEnds(s.a, s.ab, s.ba, s.dead, step.act); } else { TaskEnds(s.b, s.ba, s.ab, s.dead, step.act); }
  }

  // -------------------------------------------------------------------- texts

  function TextsIn(w: seq<Msg>): seq<string> {
    if w == [] then [] else TextsIn(w[..|w| - 1]) + TextOf(w[|w| - 1])
  }

  function TextOf(m: Msg): seq<string> { if m.Text? then [m.body] else [] }

  /** The texts A's user has sent over transport t in a run, in order. */
  function Written(steps: seq<Step>, t: nat): seq<string> {
    if steps == [] then []
    else (if steps[0].ByA? && steps[0].act.SendText? && steps[0].act.t == t then [steps[0].act.body] else [])
         + Written(steps[1..], t)
  }

  /** The texts B has shown, with the transports they came by. */
  function Shown(s: Net, steps: seq<Step>): seq<(nat, string)>
    decreases |steps|
  {
    if steps == [] || !CanStep(s, steps[0]) then []
    else Shows(s, steps[0]) + Shown(Next(s, steps[0]), steps[1..])
  }

  function Shows(s: Net, step: Step): seq<(nat, string)>
    requires CanStep(s, step)
  {
    if step.ByB? && step.act.Deliver? && s.ab.wires[step.act.t][0].Text?
    then [(step.act.t, s.ab.wires[step.act.t][0].body)] else []
  }

  function By(shown: seq<(nat, string)>, t: nat): seq<string> {
    if shown == [] then [] else By(shown[..|shown| - 1], t) + if shown[|shown| - 1].0 == t then [shown[|shown| - 1].1]
      else []
  }

  function TextEvents(log: seq<Event>): seq<string> {
    if log == [] then [] else TextEvents(log[..|log| - 1]) + if log[|log| - 1].TextShown? then [log[|log| - 1].body]
      else []
  }

  function Bodies(shown: seq<(nat, string)>): seq<string> { seq(|shown|, k requires 0 <= k < |shown| => shown[k].1) }

  predicate Prefix<T(==)>(a: seq<T>, b: seq<T>) { |a| <= |b| && a == b[..|a|] }

  /** Of what was written for t, first what has been shown, then, while t lives, what it carries. */
  predicate TextsKept(s: Net, t: nat, shown: seq<(nat, string)>, written: seq<string>) {
    && t < |s.ab.wires|
    && Prefix(By(shown, t), written)
    && (t !in s.dead ==> By(shown, t) + TextsIn(s.ab.wires[t]) == written)
  }

  lemma {:induction false} TextsConcat(a: seq<Msg>, b: seq<Msg>)
    ensures TextsIn(a + b) == TextsIn(a) + TextsIn(b)
  {
    if b == [] {
      assert a + b == a;
    } else {
      assert (a + b)[..|a + b| - 1] == a + b[..|b| - 1];
      TextsConcat(a, b[..|b| - 1]);
    }
  }

  lemma {:induction false} NoTexts(w: seq<Msg>)
    requires forall k :: 0 <= k < |w| ==> !w[k].Text?
    ensures TextsIn(w) == []
  {
    if w != [] { NoTexts(w[..|w| - 1]); }
  }

  lemma OneText(m: Msg)
    ensures TextsIn([m]) == TextOf(m)
  {
    assert [m][..0] == [] && TextsIn([]) == [];
  }

  lemma SendsNoTexts(me: Conv, act: Action, inc: Dir)
    ensures act.Acquire? && me.task.Acquiring? ==> TextsIn(Acquired(me, act.t).sends) == []
    ensures act.Resume? && ValidTask(me.task) ==> TextsIn(Advance(me).sends) == []
    ensures act.Answer? && act.n < |me.dialogs| ==> TextsIn(AnswerDialog(me, act.n, act.accepted).sends) == []
    ensures act.Deliver? && act.t < |inc.wires| && inc.wires[act.t] != [] ==>
        TextsIn(OnMessage(me, inc.wires[act.t][0], act.t).sends) == []
  {
    hide Flatten, Stream;
    if act.Acquire? && me.task.Acquiring? { NoTexts(Acquired(me, act.t).sends); }
    if act.Resume? && ValidTask(me.task) { NoTexts(Advance(me).sends); }
    if act.Answer? && act.n < |me.dialogs| { NoTexts(AnswerDialog(me, act.n, act.accepted).sends); }
    if act.Deliver? && act.t < |inc.wires| && inc.wires[act.t] != [] {
      NoTexts(OnMessage(me, inc.wires[act.t][0], act.t).sends);
    }
  }

  lemma PutTexts(d: Dir, u: nat, sends: seq<Msg>, dead: set<nat>, t: nat)
    requires t < |d.wires|
    ensures var d' := Put(d, u, sends, dead);
            |d'.wires| == |d.wires|
              && TextsIn(d'.wires[t]) == TextsIn(d.wires[t]) + if u == t && u !in dead then TextsIn(sends) else []
  {
    TextsConcat(d.wires[t], sends);
    hide TextsIn;
    assert TextsIn(d.wires[t]) + [] == TextsIn(d.wires[t]);
  }

  /** Only a text sent puts a text on a wire. */
  lemma ActTexts(me: Conv, out: Dir, inc: Dir, dead: set<nat>, act: Action, t: nat)
    requires CanAct(me, out, inc, dead, act) && t < |out.wires|
    ensures var out' := Act(me, out, inc, dead, act).out;
            |out'.wires| == |out.wires|
              && TextsIn(out'.wires[t]) == TextsIn(out.wires[t])
                 + if act.SendText? && act.t == t then [act.body] else []
  {
    SendsNoTexts(me, act, inc);
    hide Stream, TextsIn, Advance, OnMessage, Acquired, AnswerDialog, Flatten, Begin, Fail, Put, Contents;
    assert TextsIn(out.wires[t]) + [] == TextsIn(out.wires[t]);
    match act
    case SendText(u, body) => PutTexts(out, u, [Text(body)], dead, t); OneText(Text(body));
    case Acquire(u) =>
      var o := Acquired(me, u);
      PutTexts(Register(out, u, o.conv), u, o.sends, dead, t);
    case Resume => PutTexts(out, TaskTransport(me.task), Advance(me).sends, dead, t);
    case Deliver(u) => PutTexts(out, u, OnMessage(me, inc.wires[u][0], u).sends, dead, t);
    case Answer(n, accepted) => PutTexts(out, me.dialogs[n].on, AnswerDialog(me, n, accepted).sends, dead, t);
    case _ =>
  }

  lemma TextEventsPush(log: seq<Event>, e: Event)
    ensures TextEvents(log + [e]) == TextEvents(log) + if e.TextShown? then [e.body] else []
  {
    assert (log + [e])[..|log + [e]| - 1] == log;
  }

  /** What one log adds to another: at most two events, none of them a text. */
  predicate Quietly(log: seq<Event>, log': seq<Event>) {
    |log| <= |log'| <= |log| + 2 && log'[..|log|] == log && forall e :: e in log'[|log|..] ==> !e.TextShown?
  }

  lemma ResumingIsQuiet(c: Conv)
    requires ValidTask(c.task)
    ensures Quietly(c.log, Advance(c).conv.log)
  {
  }

  lemma FailingIsQuiet(c: Conv)
    requires ValidTask(c.task)
    ensures Quietly(c.log, Fail(c).log)
  {
  }

  lemma AnsweringIsQuiet(c: Conv, n: nat, accepted: bool)
    requires n < |c.dialogs|
    ensures Quietly(c.log, AnswerDialog(c, n, accepted).conv.log)
  {
  }

  lemma HearingIsQuiet(c: Conv, m: Msg, t: nat)
    ensures if m.Text? then OnMessage(c, m, t).conv.log == c.log + [TextShown(m.body)]
            else Quietly(c.log, OnMessage(c, m, t).conv.log)
  {
    hide Flatten;
  }

  lemma ActIsQuiet(me: Conv, out: Dir, inc: Dir, dead: set<nat>, act: Action)
    requires CanAct(me, out, inc, dead, act)
    ensures var me' := Act(me, out, inc, dead, act).me;
            if act.Deliver? && inc.wires[act.t][0].Text? then me'.log == me.log + [TextShown(inc.wires[act.t][0].body)]
            else Quietly(me.log, me'.log)
  {
    if ValidTask(me.task) {
      ResumingIsQuiet(me);
      FailingIsQuiet(me);
    }
    if act.Answer? { AnsweringIsQuiet(me, act.n, act.accepted); }
    if act.Deliver? { HearingIsQuiet(me, inc.wires[act.t][0], act.t); }
    hide Flatten, Stream, Contents, OnMessage, Advance, Fail, AnswerDialog, Put, Register;
  }

  lemma ActEvents(me: Conv, out: Dir, inc: Dir, dead: set<nat>, act: Action)
    requires CanAct(me, out, inc, dead, act)
    ensures TextEvents(Act(me, out, inc, dead, act).me.log) ==
            TextEvents(me.log) + if act.Deliver? then TextOf(inc.wires[act.t][0]) else []
  {
    ActIsQuiet(me, out, inc, dead, act);
    var log, log' := me.log, Act(me, out, inc, dead, act).me.log;
    hide Act;
    if act.Deliver? && inc.wires[act.t][0].Text? {
      TextEventsPush(log, TextShown(inc.wires[act.t][0].body));
    } else {
      QuietEvents(log, log');
      assert TextEvents(log) + [] == TextEvents(log);
    }
    hide TextEvents;
  }

  lemma QuietEvents(log: seq<Event>, log': seq<Event>)
    requires Quietly(log, log')
    ensures TextEvents(log') == TextEvents(log)
  {
    if log' != log {
      var init, e := log'[..|log'| - 1], log'[|log'| - 1];
      assert log' == init + [e] && e in log'[|log|..];
      TextEventsPush(init, e);
      if init != log {
        var first := init[|init| - 1];
        assert init == log + [first] && log'[|log|..][0] == first;
        TextEventsPush(log, first);
      }
      hide TextEvents;
      assert TextEvents(log) + [] == TextEvents(log);
    }
  }

  /** A message taken leaves the wire it came by, and no other changes. */
  lemma ActTakes(me: Conv, out: Dir, inc: Dir, dead: set<nat>, act: Action, t: nat)
    requires CanAct(me, out, inc, dead, act) && t < |inc.wires|
    ensures var inc' := Act(me, out, inc, dead, act).inc;
      && |inc'.wires| == |inc.wires|
      && inc'.wires[t] == if act.Deliver? && act.t == t then inc.wires[t][1..] else inc.wires[t]
  {
    hide OnMessage, Advance, AnswerDialog, Acquired, Stream, Contents;
  }

  lemma ByPush(shown: seq<(nat, string)>, x: (nat, string), t: nat)
    ensures By(shown + [x], t) == By(shown, t) + if x.0 == t then [x.1] else []
  {
    assert (shown + [x])[..|shown + [x]| - 1] == shown;
  }

  lemma StepTexts(s: Net, step: Step, t: nat, shown: seq<(nat, string)>, written: seq<string>)
    requires CanStep(s, step) && TextsKept(s, t, shown, written)
    ensures TextsKept(Next(s, step), t, shown + Shows(s, step),
                      written + if step.ByA? && step.act.SendText? && step.act.t == t then [step.act.body] else [])
  {
    assert shown + [] == shown && written + [] == written;
    hide CanAct, Act, TextsIn, By;
    match step
    case ByA(act) =>
      AWrites(s, act, t, shown, written);
    case ByB(act) => BReads(s, act, t, shown, written);
    case Close(u) =>
  }

  lemma AWrites(s: Net, act: Action, t: nat, shown: seq<(nat, string)>, written: seq<string>)
    requires CanStep(s, ByA(act)) && TextsKept(s, t, shown, written)
    ensures TextsKept(Next(s, ByA(act)), t, shown, written + if act.SendText? && act.t == t then [act.body] else [])
  {
    ActTexts(s.a, s.ab, s.ba, s.dead, act, t);
    assert act.SendText? ==> act.t !in s.dead;
    hide CanAct, Act, TextsIn, By;
    var more := if act.SendText? && act.t == t then [act.body] else [];
    assert By(shown, t) + (TextsIn(s.ab.wires[t]) + more) == (By(shown, t) + TextsIn(s.ab.wires[t])) + more;
    assert written + [] == written;
  }

  lemma Shift<T>(a: seq<T>, b: seq<T>, c: seq<T>)
    ensures (a + b) + c == a + (b + c)
  {
  }

  /** A text leaves the wire to be shown. */
  lemma TakeKeepsTexts(shown: seq<(nat, string)>, t: nat, u: nat, w: seq<Msg>)
    requires w != []
    ensures var more := if w[0].Text? then [(u, w[0].body)] else [];
      && (u == t ==> By(shown + more, t) + TextsIn(w[1..]) == By(shown, t) + TextsIn(w))
      && (u != t ==> By(shown + more, t) == By(shown, t))
  {
    assert w == [w[0]] + w[1..] && shown + [] == shown;
    TextsConcat([w[0]], w[1..]);
    OneText(w[0]);
    if w[0].Text? { ByPush(shown, (u, w[0].body), t); }
    hide TextsIn, By;
    Shift(By(shown, t), TextOf(w[0]), TextsIn(w[1..]));
    assert By(shown, t) + [] == By(shown, t);
  }

  lemma PrefixOf<T>(a: seq<T>, b: seq<T>, c: seq<T>, d: seq<T>)
    requires a + b == c + d
    ensures d == [] ==> Prefix(a, c)
  {
    assert (a + b)[..|a|] == a;
    assert d == [] ==> c + d == c;
  }

  lemma BReads(s: Net, act: Action, t: nat, shown: seq<(nat, string)>, written: seq<string>)
    requires CanStep(s, ByB(act)) && TextsKept(s, t, shown, written)
    ensures TextsKept(Next(s, ByB(act)), t, shown + Shows(s, ByB(act)), written)
  {
    ActTakes(s.b, s.ba, s.ab, s.dead, act, t);
    assert shown + [] == shown;
    if act.Deliver? {
      var w := s.ab.wires[act.t];
      TakeKeepsTexts(shown, t, act.t, w);
      hide Act, TextsIn, By;
      if act.t == t {
        var now := By(shown + Shows(s, ByB(act)), t);
        PrefixOf(now, TextsIn(w[1..]), written, []);
        assert written + [] == written;
      }
    } else {
      hide Act, CanAct, TextsIn, By;
    }
  }

  lemma {:induction false} RunTexts(care: Care, s: Net, steps: seq<Step>, last: Net, t: nat, shown: seq<(nat, string)>,
                                    written: seq<string>)
    requires IsRun(care, s, steps, last) && TextsKept(s, t, shown, written) && TextEvents(s.b.log) == Bodies(shown)
    ensures TextsKept(last, t, shown + Shown(s, steps), written + Written(steps, t))
    ensures TextEvents(last.b.log) == Bodies(shown + Shown(s, steps))
    decreases |steps|
  {
    hide CanStep, CleanSwitch, Next, Shows, TextsKept, TextEvents, Bodies;
    if steps == [] {
      assert shown + [] == shown && written + [] == written;
    } else {
      var step := steps[0];
      var s1, rest := Next(s, step), steps[1..];
      var more := Shows(s, step);
      var told := if step.ByA? && step.act.SendText? && step.act.t == t then [step.act.body] else [];
      StepTexts(s, step, t, shown, written);
      StepEvents(s, step, shown);
      RunTexts(care, s1, rest, last, t, shown + more, written + told);
      assert Shown(s, steps) == more + Shown(s1, rest) && Written(steps, t) == told + Written(rest, t);
      hide Shown, Written, IsRun;
      Shift(shown, more, Shown(s1, rest));
      Shift(written, told, Written(rest, t));
    }
  }

  lemma StepEvents(s: Net, step: Step, shown: seq<(nat, string)>)
    requires CanStep(s, step) && TextEvents(s.b.log) == Bodies(shown)
    ensures TextEvents(Next(s, step).b.log) == Bodies(shown + Shows(s, step))
  {
    assert shown + [] == shown && TextEvents(s.b.log) + [] == TextEvents(s.b.log);
    if step.ByB? {
      ActEvents(s.b, s.ba, s.ab, s.dead, step.act);
      hide Act, TextEvents;
    }
  }

  /**
   * For every run, however careless, and every transport: the texts B has shown that came by it are
   * the first of those A's user sent by it, in order; while the transport lives, the rest are on it.
   * And B shows nothing else.
   */
  lemma TextsArrive(care: Care, n: nat, steps: seq<Step>, last: Net, t: nat)
    requires IsRun(care, InitNet(n), steps, last) && t < n
    ensures var shown := Shown(InitNet(n), steps);
      && t < |last.ab.wires|
      && Prefix(By(shown, t), Written(steps, t))
      && (t !in last.dead ==> By(shown, t) + TextsIn(last.ab.wires[t]) == Written(steps, t))
      && TextEvents(last.b.log) == Bodies(shown)
  {
    assert TextsIn([]) == [] && By([], t) == [] && TextEvents([]) == [] && Bodies([]) == [];
    hide IsRun, TextsIn, By, TextEvents, Bodies, Written, Shown;
    RunTexts(care, InitNet(n), steps, last, t, [], []);
    var shown := Shown(InitNet(n), steps);
    assert [] + shown == shown && [] + Written(steps, t) == Written(steps, t);
  }
}
