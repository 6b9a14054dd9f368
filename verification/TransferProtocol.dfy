/**
 * The transfer engine of web/js/transfer.js: one peer's outbound job and inbound
 * assembly machine. The functions below give the effect of each message handler
 * and of each stretch of an asynchronous send between two suspension points; the
 * class Conversation of module TransferEngine updates its fields in place and is
 * proved to do the same.
 */
module TransferProtocol {
  import opened Basics

  const CHUNK_SIZE: nat := 64 * 1024
  const AUTO_ACCEPT_DOC_BYTES: nat := 2 * 1024 * 1024
  const MAX_DOC_BYTES: nat := 24 * 1024 * 1024

  /** Identifiers are only ever compared for equality; newId counts upwards. */
  type Id = nat

  datatype FileMeta = FileMeta(id: Id, size: nat)

  datatype Msg =
    | Batch(batchId: Id, files: seq<FileMeta>)
    | Accept(batchId: Id)
    | Decline(batchId: Id)
    | FStart(batchId: Id, id: Id)
    | Chunk(data: Bytes)
    | FEnd(batchId: Id, id: Id)
    // None stands for a field that is missing, of the wrong type or not finite.
    | DStart(docId: Option<Id>, docSize: Option<real>)
    | DEnd(id: Id)
    | Received(id: Id)
    | Text(body: string)
    | Cancel
    | Unknown

  datatype Inbound = Inbound(doc: bool, id: Id, size: real, parts: seq<Bytes>, received: nat)
  datatype InboundBatch = InboundBatch(batchId: Id, files: map<Id, FileMeta>)

  /** A question put to the user that has not been answered yet. */
  datatype Dialog =
    | AskFiles(batchId: Id, files: seq<FileMeta>, on: nat)
    | AskDoc(id: Id, size: real, on: nat)

  /** One call of sendFiles or sendDoc. A document is a job with a single blob. */
  datatype Job = Job(doc: bool, batch: Id, ids: seq<Id>, blobs: seq<Bytes>)

  /** What the user asked to send. */
  datatype Work = Files(contents: seq<Bytes>) | Doc(html: Bytes)

  /** Where the running send is suspended; `t` is the transport it was given. */
  datatype Task =
    | NoTask
    | Acquiring(work: Work)
    | Deciding(t: nat, job: Job, answer: Option<bool>)
    | Looping(t: nat, job: Job, i: nat)
    | Pumping(t: nat, job: Job, i: nat, offset: nat)
    | Acking(t: nat, job: Job, i: nat, resolved: bool)

  datatype Event =
    | SendStarted(id: Id)
    | Done(id: Id)
    | SendFailed(id: Id)
    | Declined(id: Id)
    | Opened(doc: bool, id: Id)
    | Saved(id: Id, data: Bytes)
    | ReceiveFailed(id: Id)
    | TextShown(body: string)

  datatype Conv = Conv(
    inboundBatch: Option<InboundBatch>,
    inbound: Option<Inbound>,
    pendingDecision: Option<Id>,
    pendingAcks: set<Id>,
    sending: bool,
    cancelled: set<Id>,
    dialogs: seq<Dialog>,
    task: Task,
    counter: nat,
    log: seq<Event>)

  /** A new state together with the messages handed to the transport meanwhile. */
  datatype Outcome = Outcome(conv: Conv, sends: seq<Msg>)

  const FRESH := Conv(None, None, None, {}, false, {}, [], NoTask, 0, [])

  // -------------------------------------------------------------- receiving

  function MetaMap(files: seq<FileMeta>): map<Id, FileMeta> {
    if files == [] then map[]
    else MetaMap(files[..|files| - 1])[files[|files| - 1].id := files[|files| - 1]]
  }

  function Emit(c: Conv, e: Event): Conv { c.(log := c.log + [e]) }

  function OnMessage(c: Conv, m: Msg, t: nat): Outcome {
    match m
    case Chunk(data) => Outcome(OnChunk(c, data), [])
    case Batch(batchId, files) => Outcome(c.(dialogs := c.dialogs + [AskFiles(batchId, files, t)]), [])
    case Accept(batchId) => Outcome(ResolveDecision(c, batchId, true), [])
    case Decline(batchId) => Outcome(ResolveDecision(c, batchId, false), [])
    case FStart(batchId, id) => Outcome(OnFileStart(c, batchId, id), [])
    case FEnd(_, id) => OnEnd(c, false, id)
    case DStart(docId, docSize) => OnDocStart(c, docId, docSize, t)
    case DEnd(id) => OnEnd(c, true, id)
    case Received(id) => Outcome(ResolveAck(c, id), [])
    case Text(body) => Outcome(Emit(c, TextShown(body)), [])
    case Cancel => Outcome(OnRemoteCancel(c), [])
    case Unknown => Outcome(c, [])
  }

  function ResolveDecision(c: Conv, batchId: Id, accepted: bool): Conv {
    if c.pendingDecision != Some(batchId) then c
    else
      c.(pendingDecision := None,
         task := if c.task.Deciding? then c.task.(answer := Some(accepted)) else c.task)
  }

  function ResolveAck(c: Conv, id: Id): Conv {
    if id !in c.pendingAcks then c
    else
      c.(pendingAcks := c.pendingAcks - {id},
         task := if c.task.Acking? then c.task.(resolved := true) else c.task)
  }

  function OnFileStart(c: Conv, batchId: Id, id: Id): Conv {
    if c.inboundBatch.None? || c.inboundBatch.value.batchId != batchId then c
    else if id !in c.inboundBatch.value.files then c
    else
      var meta := c.inboundBatch.value.files[id];
      Emit(c.(inbound := Some(Inbound(false, meta.id, meta.size as real, [], 0))), Opened(false, meta.id))
  }

  function OpenDoc(c: Conv, id: Id, size: real): Outcome {
    Outcome(Emit(c.(inbound := Some(Inbound(true, id, size, [], 0))), Opened(true, id)), [Accept(id)])
  }

  function OnDocStart(c: Conv, docId: Option<Id>, docSize: Option<real>, t: nat): Outcome {
    if docId.None? then Outcome(c, [])
    else if docSize.None? || docSize.value <= 0.0 || docSize.value > MAX_DOC_BYTES as real then
      Outcome(c, [Decline(docId.value)])
    else if docSize.value > AUTO_ACCEPT_DOC_BYTES as real then
      Outcome(c.(dialogs := c.dialogs + [AskDoc(docId.value, docSize.value, t)]), [])
    else OpenDoc(c, docId.value, docSize.value)
  }

  function OnChunk(c: Conv, data: Bytes): Conv {
    if c.inbound.None? then c
    else
      var ib := c.inbound.value;
      if ib.doc && (ib.received + |data|) as real > ib.size then
        Emit(c.(inbound := None), ReceiveFailed(ib.id))
      else
        c.(inbound := Some(ib.(parts := ib.parts + [data], received := ib.received + |data|)))
  }

  /** fend and dend differ only in the kind of inbound slot they close. */
  function OnEnd(c: Conv, doc: bool, id: Id): Outcome {
    if c.inbound.None? || c.inbound.value.doc != doc || c.inbound.value.id != id then Outcome(c, [])
    else
      Outcome(Emit(c.(inbound := None), Saved(id, Flatten(c.inbound.value.parts))), [Received(id)])
  }

  function OnRemoteCancel(c: Conv): Conv {
    if c.inbound.None? then c
    else Emit(c.(inbound := None), ReceiveFailed(c.inbound.value.id))
  }

  /** The user answers dialog number `n`; a dialog that throws counts as a refusal. */
  function AnswerDialog(c: Conv, n: nat, accepted: bool): Outcome
    requires n < |c.dialogs|
  {
    var c1 := c.(dialogs := c.dialogs[..n] + c.dialogs[n + 1..]);
    match c.dialogs[n]
    case AskFiles(batchId, files, _) =>
      if !accepted then Outcome(c1, [Decline(batchId)])
      else Outcome(c1.(inboundBatch := Some(InboundBatch(batchId, MetaMap(files)))), [Accept(batchId)])
    case AskDoc(id, size, _) =>
      if !accepted then Outcome(c1, [Decline(id)]) else OpenDoc(c1, id, size)
  }

  // ---------------------------------------------------------------- sending

  /** sendFiles or sendDoc up to its first suspension; a busy conversation refuses. */
  function Begin(c: Conv, work: Work): Conv {
    if work == Files([]) || c.sending then c
    else c.(sending := true, task := Acquiring(work))
  }

  function Finish(c: Conv): Conv { c.(task := NoTask, sending := false) }

  function FreshIds(from: Id, n: nat): (ids: seq<Id>)
    ensures |ids| == n
    ensures forall k :: 0 <= k < n ==> ids[k] == from + k
  {
    seq(n, k => from + k)
  }

  function Metas(ids: seq<Id>, blobs: seq<Bytes>): seq<FileMeta>
    requires |ids| == |blobs|
  {
    seq(|ids|, k requires 0 <= k < |ids| => FileMeta(ids[k], |blobs[k]|))
  }

  /** The transport has been acquired: announce the job and wait for a decision. */
  function Acquired(c: Conv, t: nat): Outcome
    requires c.task.Acquiring?
  {
    match c.task.work
    case Doc(html) =>
      if |html| > MAX_DOC_BYTES then Outcome(Finish(c), [])
      else
        var id := c.counter;
        Outcome(c.(counter := id + 1, pendingDecision := Some(id),
                   task := Deciding(t, Job(true, id, [id], [html]), None)),
                [DStart(Some(id), Some(|html| as real))])
    case Files(blobs) =>
      var batch := c.counter;
      var ids := FreshIds(batch + 1, |blobs|);
      Outcome(c.(counter := batch + 1 + |blobs|, pendingDecision := Some(batch),
                 task := Deciding(t, Job(false, batch, ids, blobs), None)),
              [Batch(batch, Metas(ids, blobs))])
  }

  function Min(a: nat, b: nat): nat { if a <= b then a else b }

  predicate ValidTask(k: Task) {
    match k
    case NoTask => true
    case Acquiring(_) => true
    case Deciding(_, job, _) => ValidJob(job)
    case Looping(_, job, i) => ValidJob(job) && !job.doc && i <= |job.ids|
    case Pumping(_, job, i, offset) => ValidJob(job) && i < |job.ids| && offset <= |job.blobs[i]|
    case Acking(_, job, i, _) => ValidJob(job) && i < |job.ids|
  }

  predicate ValidJob(job: Job) {
    && |job.ids| == |job.blobs|
    && (job.doc ==> job.ids == [job.batch])
  }

  /** Runs the suspended send to its next suspension, or does nothing if it must wait. */
  function Advance(c: Conv): Outcome
    requires ValidTask(c.task)
  {
    match c.task
    case NoTask => Outcome(c, [])
    case Acquiring(_) => Outcome(c, [])
    case Deciding(t, job, answer) =>
      if answer.None? then Outcome(c, [])
      else if !answer.value then Outcome(Finish(Emit(c, Declined(job.batch))), [])
      else if job.doc then Outcome(Emit(c.(task := Pumping(t, job, 0, 0)), SendStarted(job.batch)), [])
      else Outcome(c.(task := Looping(t, job, 0)), [])
    case Looping(t, job, i) =>
      if i == |job.ids| || job.batch in c.cancelled then Outcome(Finish(c), [])
      else
        Outcome(Emit(c.(task := Pumping(t, job, i, 0)), SendStarted(job.ids[i])),
                [FStart(job.batch, job.ids[i])])
    case Pumping(t, job, i, offset) =>
      if offset < |job.blobs[i]| then
        if job.batch in c.cancelled then Outcome(Finish(Emit(c, SendFailed(job.ids[i]))), [])
        else
          var end := Min(offset + CHUNK_SIZE, |job.blobs[i]|);
          Outcome(c.(task := Pumping(t, job, i, end)), [Chunk(job.blobs[i][offset..end])])
      else
        Outcome(c.(task := Acking(t, job, i, false), pendingAcks := c.pendingAcks + {job.ids[i]}),
                [if job.doc then DEnd(job.ids[i]) else FEnd(job.batch, job.ids[i])])
    case Acking(t, job, i, resolved) =>
      if !resolved then Outcome(c, [])
      else
        var c1 := Emit(c, Done(job.ids[i]));
        if job.doc then Outcome(Finish(c1), [])
        else Outcome(c1.(task := Looping(t, job, i + 1)), [])
  }

  /**
   * The suspended send throws: no transport, a decision or confirmation that timed
   * out, a transport that closed while pumping. An answered wait cannot time out.
   */
  function Fail(c: Conv): Conv
    requires ValidTask(c.task)
  {
    match c.task
    case NoTask => c
    case Acquiring(_) => Finish(c)
    case Deciding(_, _, answer) => if answer.None? then Finish(c.(pendingDecision := None)) else c
    case Looping(_, job, i) =>
      if i < |job.ids| && job.batch !in c.cancelled
      then Finish(Emit(Emit(c, SendStarted(job.ids[i])), SendFailed(job.ids[i]))) else c
    case Pumping(_, job, i, _) => Finish(Emit(c, SendFailed(job.ids[i])))
    case Acking(_, job, i, resolved) =>
      if resolved then c
      else Finish(Emit(c.(pendingAcks := c.pendingAcks - {job.ids[i]}), SendFailed(job.ids[i])))
  }

  function CancelJob(c: Conv, batch: Id): Conv { c.(cancelled := c.cancelled + {batch}) }
}
