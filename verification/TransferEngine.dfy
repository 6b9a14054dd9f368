/**
 * The Conversation, MemorySink and #pump of web/js/transfer.js as they update their
 * fields in place. Each method is proved to do what the function of module
 * TransferProtocol says, so the theorems about those functions are about this class.
 */
module TransferEngine {
  import opened Basics
  import opened TransferInvariant
  import opened TransferProtocol

  /** The inbound slot. Its sink is an object of its own, written to chunk by chunk. */
  datatype Slot = Slot(doc: bool, id: Id, size: real, received: nat, sink: MemorySink)

  class Conversation {
    var inboundBatch: Option<InboundBatch>
    var inbound: Option<Slot>
    var pendingDecision: Option<Id>
    var pendingAcks: set<Id>
    var sending: bool
    var cancelled: set<Id>
    var dialogs: seq<Dialog>
    var task: Task
    var counter: nat
    var log: seq<Event>

    function Sinks(): set<MemorySink>
      reads this
    {
      if inbound.Some? then {inbound.value.sink} else {}
    }

    ghost function Inbox(): Option<Inbound>
      reads this, Sinks()
    {
      if inbound.None? then None
      else
        var i := inbound.value;
        Some(Inbound(i.doc, i.id, i.size, i.sink.parts, i.received))
    }

    ghost function View(): Conv
      reads this, Sinks()
    {
      Conv(inboundBatch, Inbox(), pendingDecision, pendingAcks, sending, cancelled, dialogs, task, counter, log)
    }

    constructor ()
      ensures View() == FRESH
    {
      inboundBatch, inbound, pendingDecision, pendingAcks := None, None, None, {};
      sending, cancelled, dialogs, task, counter, log := false, {}, [], NoTask, 0, [];
    }

    method HandleMessage(m: Msg, t: nat) returns (sends: seq<Msg>)
      modifies this, Sinks()
      ensures Outcome(View(), sends) == OnMessage(old(View()), m, t)
      ensures m.Batch? ==> sends == [] && dialogs == old(dialogs) + [AskFiles(m.batchId, m.files, t)]
      ensures m.Text? ==> sends == [] && log == old(log) + [TextShown(m.body)]
      ensures m.Cancel? && old(inbound).Some? ==>
          sends == [] && inbound == None && log == old(log) + [ReceiveFailed(old(inbound.value.id))]
      ensures fresh(Sinks() - old(Sinks()))
    {
      sends := [];
      match m
      case Chunk(data) => HandleChunk(data);
      case Batch(batchId, files) => dialogs := dialogs + [AskFiles(batchId, files, t)];
      case Accept(batchId) => SettleDecision(batchId, true);
      case Decline(batchId) => SettleDecision(batchId, false);
      case FStart(batchId, id) => HandleFileStart(batchId, id);
      case FEnd(_, id) => sends := HandleEnd(false, id);
      case DStart(docId, docSize) => sends := HandleDocStart(docId, docSize, t);
      case DEnd(id) => sends := HandleEnd(true, id);
      case Received(id) => SettleAck(id);
      case Text(body) => log := log + [TextShown(body)];
      case Cancel =>
        if inbound.Some? {
          inbound.value.sink.Abort();
          log := log + [ReceiveFailed(inbound.value.id)];
          inbound := None;
        }
      case Unknown =>
    }

    method SettleDecision(batchId: Id, accepted: bool)
      modifies `pendingDecision, `task
      ensures View() == ResolveDecision(old(View()), batchId, accepted)
      ensures old(pendingDecision) == Some(batchId) && old(task).Deciding? ==>
          pendingDecision == None && task == old(task).(answer := Some(accepted))
      ensures old(pendingDecision) != Some(batchId) ==> pendingDecision == old(pendingDecision) && task == old(task)
    {
      if pendingDecision != Some(batchId) { return; }
      pendingDecision := None;
      if task.Deciding? {
        task := task.(answer := Some(accepted));
      }
    }

    method SettleAck(id: Id)
      modifies `pendingAcks, `task
      ensures View() == ResolveAck(old(View()), id)
      ensures pendingAcks == old(pendingAcks) - {id}
      ensures task == if id in old(pendingAcks) && old(task).Acking? then old(task).(resolved := true) else old(task)
    {
      if id !in pendingAcks { return; }
      pendingAcks := pendingAcks - {id};
      if task.Acking? {
        task := task.(resolved := true);
      }
    }

    /** The file is of the batch accepted last. */
    predicate Awaited(batchId: Id, id: Id)
      reads `inboundBatch
    {
      inboundBatch.Some? && inboundBatch.value.batchId == batchId && id in inboundBatch.value.files
    }

    method HandleFileStart(batchId: Id, id: Id)
      modifies this
      ensures View() == OnFileStart(old(View()), batchId, id)
      ensures Awaited(batchId, id) ==>
                var meta := inboundBatch.value.files[id];
                && inbound.Some? && fresh(inbound.value.sink) && inbound.value.sink.parts == []
                && inbound.value == Slot(false, meta.id, meta.size as real, 0, inbound.value.sink)
                && log == old(log) + [Opened(false, meta.id)]
      ensures !Awaited(batchId, id) ==> inbound == old(inbound) && log == old(log)
      ensures fresh(Sinks() - old(Sinks()))
    {
      if inboundBatch.None? || inboundBatch.value.batchId != batchId { return; }
      if id !in inboundBatch.value.files { return; }
      var meta := inboundBatch.value.files[id];
      var sink := new MemorySink();
      inbound := Some(Slot(false, meta.id, meta.size as real, 0, sink));
      log := log + [Opened(false, meta.id)];
    }

    /** A declared size is positive and no more than 24 MB. */
    predicate Fits(docSize: Option<real>) { docSize.Some? && 0.0 < docSize.value <= 25165824.0 }

    method HandleDocStart(docId: Option<Id>, docSize: Option<real>, t: nat) returns (sends: seq<Msg>)
      modifies `inbound, `dialogs, `log
      ensures Outcome(View(), sends) == OnDocStart(old(View()), docId, docSize, t)
      ensures docId.None? ==> sends == [] && inbound == old(inbound) && dialogs == old(dialogs)
      ensures docId.Some? && !Fits(docSize) ==>
          sends == [Decline(docId.value)] && inbound == old(inbound) && dialogs == old(dialogs)
      ensures docId.Some? && Fits(docSize) && docSize.value > 2097152.0 ==>
          sends == [] && inbound == old(inbound) && dialogs == old(dialogs) + [AskDoc(docId.value, docSize.value, t)]
      ensures docId.Some? && Fits(docSize) && docSize.value <= 2097152.0 ==>
                && sends == [Accept(docId.value)] && dialogs == old(dialogs)
                && inbound.Some? && fresh(inbound.value.sink) && inbound.value.sink.parts == []
                && inbound.value == Slot(true, docId.value, docSize.value, 0, inbound.value.sink)
      ensures fresh(Sinks() - old(Sinks()))
    {
      if docId.None? { return []; }
      if docSize.None? || docSize.value <= 0.0 || docSize.value > MAX_DOC_BYTES as real {
        return [Decline(docId.value)];
      }
      if docSize.value > AUTO_ACCEPT_DOC_BYTES as real {
        dialogs := dialogs + [AskDoc(docId.value, docSize.value, t)];
        return [];
      }
      var sink := new MemorySink();
      inbound := Some(Slot(true, docId.value, docSize.value, 0, sink));
      log := log + [Opened(true, docId.value)];
      sends := [Accept(docId.value)];
    }

    method HandleChunk(data: Bytes)
      modifies `inbound, `log, Sinks()
      ensures View() == OnChunk(old(View()), data)
      ensures old(inbound).None? ==> inbound == None && log == old(log)
      ensures old(inbound).Some? ==>
                var was := old(inbound.value);
                var over := was.doc && (was.received + |data|) as real > was.size;
                && (over ==> inbound == None && was.sink.parts == [] && log == old(log) + [ReceiveFailed(was.id)])
                && (!over ==> inbound == Some(was.(received := was.received + |data|)) && log == old(log))
                && (!over ==> was.sink.parts == old(inbound.value.sink.parts) + [data])
      ensures Sinks() <= old(Sinks())
    {
      if inbound.None? { return; }
      var ib := inbound.value;
      if ib.doc && (ib.received + |data|) as real > ib.size {
        inbound := None;
        ib.sink.Abort();
        log := log + [ReceiveFailed(ib.id)];
      } else {
        ib.sink.Write(data);
        inbound := Some(ib.(received := ib.received + |data|));
      }
    }

    method HandleEnd(doc: bool, id: Id) returns (sends: seq<Msg>)
      modifies `inbound, `log, Sinks()
      ensures Outcome(View(), sends) == OnEnd(old(View()), doc, id)
      ensures if old(inbound).Some? && old(inbound.value.doc) == doc && old(inbound.value.id) == id
              then inbound == None && sends == [Received(id)]
                && log == old(log) + [Saved(id, Flatten(old(inbound.value.sink.parts)))]
              else inbound == old(inbound) && sends == [] && log == old(log)
      ensures Sinks() <= old(Sinks())
    {
      if inbound.None? || inbound.value.doc != doc || inbound.value.id != id { return []; }
      var sink := inbound.value.sink;
      inbound := None;
      var joined := sink.Finish();
      log := log + [Saved(id, joined)];
      sends := [Received(id)];
    }

    method SettleDialog(n: nat, accepted: bool) returns (sends: seq<Msg>)
      requires n < |dialogs|
      modifies `dialogs, `inboundBatch, `inbound, `log
      ensures Outcome(View(), sends) == AnswerDialog(old(View()), n, accepted)
      ensures dialogs == old(dialogs)[..n] + old(dialogs)[n + 1..]
      ensures var q := old(dialogs)[n]; var id := if q.AskFiles? then q.batchId else q.id;
              sends == [if accepted then Accept(id) else Decline(id)]
      ensures !accepted ==> inboundBatch == old(inboundBatch) && inbound == old(inbound) && log == old(log)
      ensures accepted && old(dialogs)[n].AskFiles? ==>
          inboundBatch == Some(InboundBatch(old(dialogs)[n].batchId, MetaMap(old(dialogs)[n].files)))
      ensures accepted && old(dialogs)[n].AskDoc? ==>
                && inbound.Some? && fresh(inbound.value.sink) && inbound.value.sink.parts == []
                && inbound.value == Slot(true, old(dialogs)[n].id, old(dialogs)[n].size, 0, inbound.value.sink)
      ensures fresh(Sinks() - old(Sinks()))
    {
      var q := dialogs[n];
      dialogs := dialogs[..n] + dialogs[n + 1..];
      match q
      case AskFiles(batchId, files, _) =>
        if !accepted { return [Decline(batchId)]; }
        inboundBatch := Some(InboundBatch(batchId, MetaMap(files)));
        sends := [Accept(batchId)];
      case AskDoc(id, size, _) =>
        if !accepted { return [Decline(id)]; }
        var sink := new MemorySink();
        inbound := Some(Slot(true, id, size, 0, sink));
        log := log + [Opened(true, id)];
        sends := [Accept(id)];
    }

    /** sendFiles / sendDoc: takes the lock before anything is awaited. */
    method Send(work: Work) returns (refused: bool)
      modifies `sending, `task
      ensures View() == Begin(old(View()), work)
      ensures work != Files([]) && !old(sending) ==> sending && task == Acquiring(work)
      ensures work == Files([]) || old(sending) ==> sending == old(sending) && task == old(task)
      ensures refused <==> work != Files([]) && old(sending)
    {
      if work == Files([]) { return false; }
      if sending { return true; }
      sending := true;
      task := Acquiring(work);
      refused := false;
    }

    method TransportReady(t: nat) returns (sends: seq<Msg>)
      requires task.Acquiring?
      modifies `counter, `pendingDecision, `task, `sending
      ensures Outcome(View(), sends) == Acquired(old(View()), t)
      ensures old(task).work.Doc? && |old(task).work.html| > 25165824 ==> sends == [] && task == NoTask && !sending
      ensures sends != [] ==> task.Deciding? && task.t == t && task.answer == None
      ensures sends != [] ==> pendingDecision == Some(task.job.batch) && sending == old(sending)
      ensures old(task).work.Doc? && |old(task).work.html| <= 25165824 ==>
          sends == [DStart(Some(old(counter)), Some(|old(task).work.html| as real))] && counter == old(counter) + 1
            && task.job == Job(true, old(counter), [old(counter)], [old(task).work.html])
      ensures old(task).work.Files? ==>
                && |sends| == 1 && sends[0].Batch? && sends[0].batchId == old(counter) == task.job.batch
                && !task.job.doc
                && task.job.blobs == old(task).work.contents && |task.job.ids| == |task.job.blobs| == |sends[0].files|
                && counter == old(counter) + 1 + |task.job.ids|
                && forall k :: 0 <= k < |task.job.ids| ==>
                  task.job.ids[k] == old(counter) + 1 + k
                    && sends[0].files[k] == FileMeta(task.job.ids[k], |task.job.blobs[k]|)
    {
      match task.work
      case Doc(html) =>
        if |html| > MAX_DOC_BYTES {
          task, sending := NoTask, false;
          return [];
        }
        var id := counter;
        counter := counter + 1;
        pendingDecision := Some(id);
        task := Deciding(t, Job(true, id, [id], [html]), None);
        sends := [DStart(Some(id), Some(|html| as real))];
      case Files(blobs) =>
        var batch := counter;
        var ids := FreshIds(batch + 1, |blobs|);
        counter := batch + 1 + |blobs|;
        pendingDecision := Some(batch);
        task := Deciding(t, Job(false, batch, ids, blobs), None);
        sends := [Batch(batch, Metas(ids, blobs))];
    }

    /** What the suspended send waits for has not happened. */
    static predicate Waits(k: Task) {
      k.Acquiring? || (k.Deciding? && k.answer == None) || (k.Acking? && !k.resolved)
    }

    /** Resumes the suspended send when whatever it waits for has happened. */
    method Proceed() returns (sends: seq<Msg>)
      requires ValidTask(task)
      modifies `log, `pendingAcks, `task, `sending
      ensures Outcome(View(), sends) == Advance(old(View()))
      ensures task == NoTask != old(task) ==> !sending
      ensures old(task).Deciding? && old(task).answer == Some(true) ==>
          sends == [] && task == if old(task).job.doc then Pumping(old(task).t, old(task).job, 0, 0)
            else Looping(old(task).t, old(task).job, 0)
      ensures old(task).Deciding? && old(task).answer == Some(false) ==>
          sends == [] && task == NoTask && log == old(log) + [Declined(old(task).job.batch)]
      ensures old(task).Looping? ==>
                var k := old(task);
                if k.i < |k.job.ids| && k.job.batch !in cancelled
                then sends == [FStart(k.job.batch, k.job.ids[k.i])] && task == Pumping(k.t, k.job, k.i, 0)
                  && log == old(log) + [SendStarted(k.job.ids[k.i])]
                else sends == [] && task == NoTask && log == old(log)
      ensures old(task).Pumping? && old(task).offset < |old(task).job.blobs[old(task).i]| ==>
                var k := old(task); var blob := k.job.blobs[k.i];
                var end := if k.offset + 65536 <= |blob| then k.offset + 65536 else |blob|;
                if k.job.batch in cancelled then sends == [] && task == NoTask
                  && log == old(log) + [SendFailed(k.job.ids[k.i])]
                else sends == [Chunk(blob[k.offset..end])] && task == Pumping(k.t, k.job, k.i, end)
      ensures old(task).Pumping? && old(task).offset == |old(task).job.blobs[old(task).i]| ==>
                var k := old(task); var id := k.job.ids[k.i];
                && sends == [if k.job.doc then DEnd(id) else FEnd(k.job.batch, id)]
                && task == Acking(k.t, k.job, k.i, false) && pendingAcks == old(pendingAcks) + {id}
      ensures old(task).Acking? && old(task).resolved ==>
                var k := old(task);
                && sends == [] && log == old(log) + [Done(k.job.ids[k.i])]
                && task == if k.job.doc then NoTask else Looping(k.t, k.job, k.i + 1)
      ensures Waits(old(task)) ==> sends == [] && task == old(task) && log == old(log)
    {
      sends := [];
      match task
      case NoTask =>
      case Acquiring(_) =>
      case Deciding(t, job, answer) =>
        if answer == Some(false) {
          log := log + [Declined(job.batch)];
          task, sending := NoTask, false;
        } else if answer == Some(true) {
          if job.doc {
            log := log + [SendStarted(job.batch)];
            task := Pumping(t, job, 0, 0);
          } else {
            task := Looping(t, job, 0);
          }
        }
      case Looping(t, job, i) =>
        if i == |job.ids| || job.batch in cancelled {
          task, sending := NoTask, false;
        } else {
          log := log + [SendStarted(job.ids[i])];
          sends := [FStart(job.batch, job.ids[i])];
          task := Pumping(t, job, i, 0);
        }
      case Pumping(t, job, i, offset) =>
        if offset < |job.blobs[i]| {
          if job.batch in cancelled {
            log := log + [SendFailed(job.ids[i])];
            task, sending := NoTask, false;
          } else {
            var end := Min(offset + CHUNK_SIZE, |job.blobs[i]|);
            sends := [Chunk(job.blobs[i][offset..end])];
            task := Pumping(t, job, i, end);
          }
        } else {
          sends := [if job.doc then DEnd(job.ids[i]) else FEnd(job.batch, job.ids[i])];
          pendingAcks := pendingAcks + {job.ids[i]};
          task := Acking(t, job, i, false);
        }
      case Acking(t, job, i, resolved) =>
        if resolved {
          log := log + [Done(job.ids[i])];
          if job.doc {
            task, sending := NoTask, false;
          } else {
            task := Looping(t, job, i + 1);
          }
        }
    }

    /** What the sender waits for times out or fails: the lock is given back and what waits is forgotten. */
    method GiveUp()
      requires ValidTask(task)
      modifies `log, `pendingDecision, `pendingAcks, `task, `sending
      ensures View() == Fail(old(View()))
      ensures task == NoTask || task == old(task)
      ensures task != old(task) ==> !sending && (pendingDecision == None || !old(task).Deciding?)
      ensures task != old(task) && (old(task).Looping? || old(task).Pumping? || old(task).Acking?) ==>
          var id := old(task).job.ids[old(task).i];
          log != [] && log[|log| - 1] == SendFailed(id)
            && (old(task).Acking? ==> pendingAcks == old(pendingAcks) - {id})
      ensures task == old(task) && task != NoTask ==>
          || (task.Deciding? && task.answer.Some?) || (task.Acking? && task.resolved)
          || (task.Looping? && (task.i == |task.job.ids| || task.job.batch in cancelled))
    {
      match task
      case NoTask =>
      case Acquiring(_) => task, sending := NoTask, false;
      case Deciding(_, _, answer) =>
        if answer.None? {
          pendingDecision := None;
          task, sending := NoTask, false;
        }
      case Looping(_, job, i) =>
        if i < |job.ids| && job.batch !in cancelled {
          log := log + [SendStarted(job.ids[i])];
          log := log + [SendFailed(job.ids[i])];
          task, sending := NoTask, false;
        }
      case Pumping(_, job, i, _) =>
        log := log + [SendFailed(job.ids[i])];
        task, sending := NoTask, false;
      case Acking(_, job, i, resolved) =>
        if !resolved {
          pendingAcks := pendingAcks - {job.ids[i]};
          log := log + [SendFailed(job.ids[i])];
          task, sending := NoTask, false;
        }
    }

    /** cancel: only noted, and looked at by the loops. */
    method CancelBatch(batch: Id)
      modifies `cancelled
      ensures View() == CancelJob(old(View()), batch)
      ensures cancelled == old(cancelled) + {batch}
    {
      cancelled := cancelled + {batch};
    }
  }

  /** Keeps a document's parts in memory and joins them once at the end. */
  class MemorySink {
    var parts: seq<Bytes>

    constructor ()
      ensures parts == []
    {
      parts := [];
    }

    method Write(chunk: Bytes)
      modifies this
      ensures parts == old(parts) + [chunk]
    {
      parts := parts + [chunk];
    }

    method Abort()
      modifies this
      ensures parts == []
    {
      parts := [];
    }

    method Finish() returns (text: Bytes)
      modifies this
      ensures text == Flatten(old(parts))
      ensures parts == []
    {
      var total, i := 0, 0;
      while i < |parts|
        invariant 0 <= i <= |parts|
        invariant parts == old(parts) && total == |Flatten(parts[..i])|
      {
        FlattenPush(parts[..i], parts[i]);
        assert parts[..i + 1] == parts[..i] + [parts[i]];
        total := total + |parts[i]|;
        i := i + 1;
      }
      assert parts[..|parts|] == parts;
      var joined := new Byte[total](_ => 0);
      var at, k := 0, 0;
      while k < |parts|
        invariant 0 <= k <= |parts|
        invariant at == |Flatten(parts[..k])| <= total
        invariant parts == old(parts) && joined.Length == total == |Flatten(parts)|
        invariant joined[..at] == Flatten(parts[..k])
      {
        FlattenPush(parts[..k], parts[k]);
        FlattenAppend(parts[..k + 1], parts[k + 1..]);
        assert parts[..k + 1] == parts[..k] + [parts[k]];
        assert parts[..k + 1] + parts[k + 1..] == parts;
        Set(joined, parts[k], at);
        at := at + |parts[k]|;
        k := k + 1;
      }
      assert parts[..|parts|] == parts;
      assert joined[..at] == joined[..];
      text := joined[..];
      parts := [];
    }
  }

  /** TypedArray.set: copies `part` into `a` from index `at` on. */
  method Set(a: array<Byte>, part: Bytes, at: nat)
    requires at + |part| <= a.Length
    modifies a
    ensures a[..at + |part|] == old(a[..at]) + part
  {
    var j := 0;
    while j < |part|
      invariant 0 <= j <= |part|
      invariant a[..at + j] == old(a[..at]) + part[..j]
    {
      a[at + j] := part[j];
      j := j + 1;
    }
  }

  /** The chunks #pump cuts a blob into. */
  function Chunks(blob: Bytes, offset: nat): seq<Bytes>
    requires offset <= |blob|
    decreases |blob| - offset
  {
    if offset == |blob| then []
    else
      var end := Min(offset + CHUNK_SIZE, |blob|);
      [blob[offset..end]] + Chunks(blob, end)
  }

  /** Nothing is lost, repeated or reordered, and no message exceeds the chunk size. */
  lemma {:induction false} ChunksJoin(blob: Bytes, offset: nat)
    requires offset <= |blob|
    ensures Flatten(Chunks(blob, offset)) == blob[offset..]
    ensures forall c :: c in Chunks(blob, offset) ==> 0 < |c| <= CHUNK_SIZE
    decreases |blob| - offset
  {
    if offset < |blob| {
      var end := Min(offset + CHUNK_SIZE, |blob|);
      ChunksJoin(blob, end);
      assert blob[offset..] == blob[offset..end] + blob[end..];
    }
  }

  class Transport {
    var sent: seq<Msg>

    method Send(m: Msg)
      modifies this
      ensures sent == old(sent) + [m]
    {
      sent := sent + [m];
    }
  }

  function AsChunks(parts: seq<Bytes>): seq<Msg> { seq(|parts|, k requires 0 <= k < |parts| => Chunk(parts[k])) }

  lemma SameSlice(blob: Bytes, from: nat, to: nat, end: nat)
    requires from <= to <= end <= |blob|
    ensures blob[..end][from..to] == blob[from..to]
  {
  }

  /** One more chunk of the blob. */
  lemma {:induction false} ChunksPush(blob: Bytes, from: nat, k: nat)
    requires from + k * CHUNK_SIZE < |blob|
    ensures var offset := from + k * CHUNK_SIZE;
            var end := Min(offset + CHUNK_SIZE, |blob|);
            Chunks(blob[..end], from) == Chunks(blob[..offset], from) + [blob[offset..end]]
    decreases k
  {
    var offset := from + k * CHUNK_SIZE;
    var end := Min(offset + CHUNK_SIZE, |blob|);
    assert blob[..end][offset..end] == blob[offset..end];
    if k > 0 {
      var next := from + CHUNK_SIZE;
      assert next + (k - 1) * CHUNK_SIZE == offset && next <= offset;
      ChunksPush(blob, next, k - 1);
      SameSlice(blob, from, next, offset);
      SameSlice(blob, from, next, end);
    }
  }

  /**
   * #pump. `stops` says of an offset whether the loop ends before the chunk at it is sent,
   * because the job is cancelled or because the path is lost while waiting for it to be
   * writable. What has been sent is then all chunks before the first such offset.
   */
  method Pump(transport: Transport, blob: Bytes, stops: nat -> bool) returns (reached: nat)
    modifies transport
    ensures reached <= |blob| && transport.sent == old(transport.sent) + AsChunks(Chunks(blob[..reached], 0))
    ensures reached < |blob| ==> reached % CHUNK_SIZE == 0 && stops(reached)
    ensures forall k: nat :: k * CHUNK_SIZE < reached ==> !stops(k * CHUNK_SIZE)
  {
    reached := 0;
    ghost var done := 0;
    while reached < |blob| && !stops(reached)
      invariant 0 <= reached <= |blob|
      invariant reached < |blob| ==> reached == done * CHUNK_SIZE
      invariant transport.sent == old(transport.sent) + AsChunks(Chunks(blob[..reached], 0))
      invariant (done - 1) * CHUNK_SIZE < reached <= done * CHUNK_SIZE
      invariant forall k: nat :: k < done ==> !stops(k * CHUNK_SIZE)
    {
      var end := Min(reached + CHUNK_SIZE, |blob|);
      transport.Send(Chunk(blob[reached..end]));
      ChunksPush(blob, 0, done);
      reached, done := end, done + 1;
    }
  }

  // -------------------------------------------- the bound on open documents

  /** A document being received, and one waiting for the user, stay within the limit. */
  ghost predicate DocBounded(c: Conv) {
    && (c.inbound.Some? && c.inbound.value.doc ==>
          |Flatten(c.inbound.value.parts)| == c.inbound.value.received
            && c.inbound.value.received as real <= c.inbound.value.size <= MAX_DOC_BYTES as real)
    && (forall n :: 0 <= n < |c.dialogs| && c.dialogs[n].AskDoc? ==> 0.0 < c.dialogs[n].size <= MAX_DOC_BYTES as real)
  }

  /** Anything a peer or the user can do to the receiving side. */
  datatype Input = Hear(m: Msg, t: nat) | Decide(n: nat, accepted: bool)

  function Feed(c: Conv, inputs: seq<Input>): Conv
    decreases |inputs|
  {
    if inputs == [] then c
    else
      var rest := inputs[1..];
      match inputs[0]
      case Hear(m, t) => Feed(OnMessage(c, m, t).conv, rest)
      case Decide(n, accepted) => Feed(if n < |c.dialogs| then AnswerDialog(c, n, accepted).conv else c, rest)
  }

  lemma OpenDocumentsStayBounded(c: Conv, inputs: seq<Input>)
    requires DocBounded(c)
    ensures DocBounded(Feed(c, inputs))
    decreases |inputs|
  {
    if inputs != [] {
      match inputs[0]
      case Hear(m, t) =>
        HearKeepsBound(c, m, t);
        OpenDocumentsStayBounded(OnMessage(c, m, t).conv, inputs[1..]);
      case Decide(n, accepted) =>
        OpenDocumentsStayBounded(if n < |c.dialogs| then AnswerDialog(c, n, accepted).conv else c, inputs[1..]);
    }
  }

  lemma HearKeepsBound(c: Conv, m: Msg, t: nat)
    requires DocBounded(c)
    ensures DocBounded(OnMessage(c, m, t).conv)
  {
    if m.Chunk? && c.inbound.Some? {
      FlattenPush(c.inbound.value.parts, m.data);
    }
  }

  // ------------------------------------------- what is saved, whatever is heard

  function DataOf(i: Input): Bytes { if i.Hear? && i.m.Chunk? then i.m.data else [] }

  /** The bytes of all chunks heard, in order. */
  function Heard(inputs: seq<Input>): Bytes {
    if inputs == [] then [] else Heard(inputs[..|inputs| - 1]) + DataOf(inputs[|inputs| - 1])
  }

  /** What can open a file or document of this name: its start marker, or the user's yes to a document. */
  predicate Starts(i: Input, doc: bool, id: Id) {
    match i
    case Hear(m, _) => if doc then m.DStart? && m.docId == Some(id) else m.FStart? && m.id == id
    case Decide(_, accepted) => doc && accepted
  }

  predicate EndsIt(i: Input, doc: bool, id: Id) {
    i.Hear? && if doc then i.m == DEnd(id) else i.m.FEnd? && i.m.id == id
  }

  predicate Stops(i: Input, doc: bool, id: Id) { EndsIt(i, doc, id) || (i.Hear? && i.m.Cancel?) }

  predicate StreamedFrom(inputs: seq<Input>, j: nat, doc: bool, id: Id, data: Bytes) {
    && j < |inputs| && Starts(inputs[j], doc, id) && Heard(inputs[j + 1..]) == data
    && forall k :: j < k < |inputs| ==> !Stops(inputs[k], doc, id)
  }

  /** The inputs end in a stream that carries these bytes of this file or document, and has not ended. */
  ghost predicate Streamed(inputs: seq<Input>, doc: bool, id: Id, data: Bytes) {
    exists j: nat :: StreamedFrom(inputs, j, doc, id, data)
  }

  /** At input k a stream of exactly these bytes is ended by the marker of its own kind and name. */
  ghost predicate SavedAt(inputs: seq<Input>, k: nat, doc: bool, id: Id, data: Bytes) {
    k < |inputs| && EndsIt(inputs[k], doc, id) && Streamed(inputs[..k], doc, id, data)
  }

  ghost predicate SlotExplained(slot: Option<Inbound>, inputs: seq<Input>) {
    slot.Some? ==> Streamed(inputs, slot.value.doc, slot.value.id, Flatten(slot.value.parts))
  }

  ghost predicate LogExplained(log: seq<Event>, inputs: seq<Input>) {
    forall id, data :: Saved(id, data) in log ==> exists k, doc :: SavedAt(inputs, k, doc, id, data)
  }

  ghost predicate Explained(c: Conv, inputs: seq<Input>) {
    && (c.inboundBatch.Some? ==> KeysMatch(c.inboundBatch.value.files))
    && SlotExplained(c.inbound, inputs) && LogExplained(c.log, inputs)
  }

  lemma HeardPush(inputs: seq<Input>, i: Input)
    ensures Heard(inputs + [i]) == Heard(inputs) + DataOf(i)
  {
    assert (inputs + [i])[..|inputs + [i]| - 1] == inputs;
  }

  lemma StreamsOn(inputs: seq<Input>, i: Input, doc: bool, id: Id, data: Bytes)
    requires Streamed(inputs, doc, id, data) && !Stops(i, doc, id)
    ensures Streamed(inputs + [i], doc, id, data + DataOf(i))
  {
    hide Heard, Starts, Stops, DataOf;
    var j: nat :| StreamedFrom(inputs, j, doc, id, data);
    var tail, more := inputs[j + 1..], inputs + [i];
    HeardPush(tail, i);
    assert more[j + 1..] == tail + [i] && more[j] == inputs[j];
    forall k | j < k < |more| ensures !Stops(more[k], doc, id) { if k < |inputs| { assert more[k] == inputs[k]; } }
    assert StreamedFrom(more, j, doc, id, data + DataOf(i));
  }

  lemma StreamOpens(inputs: seq<Input>, i: Input, doc: bool, id: Id)
    requires Starts(i, doc, id)
    ensures Streamed(inputs + [i], doc, id, [])
  {
    assert (inputs + [i])[|inputs| + 1..] == [] && Heard([]) == [];
    assert StreamedFrom(inputs + [i], |inputs|, doc, id, []);
  }

  lemma SavedStays(inputs: seq<Input>, i: Input, k: nat, doc: bool, id: Id, data: Bytes)
    requires SavedAt(inputs, k, doc, id, data)
    ensures SavedAt(inputs + [i], k, doc, id, data)
  {
    assert (inputs + [i])[..k] == inputs[..k];
  }

  /** What was saved before stays explained, and so is anything saved now. */
  lemma LogGrows(log: seq<Event>, inputs: seq<Input>, i: Input)
    requires LogExplained(log, inputs)
    ensures LogExplained(log, inputs + [i])
  {
    hide SavedAt;
    forall x, d | Saved(x, d) in log
      ensures exists k, b :: SavedAt(inputs + [i], k, b, x, d)
    {
      var k, b :| SavedAt(inputs, k, b, x, d);
      SavedStays(inputs, i, k, b, x, d);
    }
  }

  lemma LogSame(log: seq<Event>, e: Event, inputs: seq<Input>)
    requires LogExplained(log, inputs) && !e.Saved?
    ensures LogExplained(log + [e], inputs)
  {
    hide SavedAt;
  }

  lemma LogSaves(log: seq<Event>, inputs: seq<Input>, k: nat, doc: bool, id: Id, data: Bytes)
    requires LogExplained(log, inputs) && SavedAt(inputs, k, doc, id, data)
    ensures LogExplained(log + [Saved(id, data)], inputs)
  {
    hide SavedAt;
  }

  /** What is open goes on with whatever does not end it. */
  lemma SlotGoesOn(slot: Option<Inbound>, inputs: seq<Input>, i: Input)
    requires SlotExplained(slot, inputs) && (slot.Some? ==> !Stops(i, slot.value.doc, slot.value.id))
    ensures DataOf(i) == [] ==> SlotExplained(slot, inputs + [i])
    ensures slot.Some? ==> forall received: nat ::
      SlotExplained(Some(slot.value.(parts := slot.value.parts + [DataOf(i)], received := received)), inputs + [i])
  {
    if slot.Some? {
      var ib := slot.value;
      StreamsOn(inputs, i, ib.doc, ib.id, Flatten(ib.parts));
      FlattenPush(ib.parts, DataOf(i));
      assert Flatten(ib.parts) + [] == Flatten(ib.parts);
      hide Flatten, Streamed, Stops, DataOf;
    }
  }

  /** A slot just opened holds nothing yet. */
  lemma SlotOpens(inputs: seq<Input>, i: Input, doc: bool, id: Id, size: real)
    requires Starts(i, doc, id)
    ensures SlotExplained(Some(Inbound(doc, id, size, [], 0)), inputs + [i])
  {
    StreamOpens(inputs, i, doc, id);
    assert Flatten<Byte>([]) == [];
    hide Streamed;
  }

  lemma HearSlot(c: Conv, inputs: seq<Input>, m: Msg, t: nat)
    requires SlotExplained(c.inbound, inputs) && (c.inboundBatch.Some? ==> KeysMatch(c.inboundBatch.value.files))
    ensures SlotExplained(OnMessage(c, m, t).conv.inbound, inputs + [Hear(m, t)])
    ensures OnMessage(c, m, t).conv.inboundBatch == c.inboundBatch
  {
    var i, c' := Hear(m, t), OnMessage(c, m, t).conv;
    if c'.inbound.Some? {
      if c'.inbound.value.parts == [] && (m.FStart? || m.DStart?) && c'.inbound != c.inbound {
        SlotOpens(inputs, i, m.DStart?, c'.inbound.value.id, c'.inbound.value.size);
      } else {
        SlotGoesOn(c.inbound, inputs, i);
      }
    }
    hide Flatten, Streamed, SlotExplained;
  }

  lemma HearLog(c: Conv, inputs: seq<Input>, m: Msg, t: nat)
    requires SlotExplained(c.inbound, inputs) && LogExplained(c.log, inputs)
    ensures LogExplained(OnMessage(c, m, t).conv.log, inputs + [Hear(m, t)])
  {
    var i, log := Hear(m, t), OnMessage(c, m, t).conv.log;
    LogGrows(c.log, inputs, i);
    hide Flatten, Streamed, LogExplained;
    if log != c.log {
      var e := log[|log| - 1];
      assert log == c.log + [e];
      if e.Saved? {
        var ib := c.inbound.value;
        assert (inputs + [i])[..|inputs|] == inputs;
        assert SavedAt(inputs + [i], |inputs|, ib.doc, ib.id, Flatten(ib.parts));
        LogSaves(c.log, inputs + [i], |inputs|, ib.doc, ib.id, Flatten(ib.parts));
      } else {
        LogSame(c.log, e, inputs + [i]);
      }
    }
  }

  lemma HearExplained(c: Conv, inputs: seq<Input>, m: Msg, t: nat)
    requires Explained(c, inputs)
    ensures Explained(OnMessage(c, m, t).conv, inputs + [Hear(m, t)])
  {
    hide OnMessage, SlotExplained, LogExplained, KeysMatch;
    HearSlot(c, inputs, m, t);
    HearLog(c, inputs, m, t);
  }

  lemma DecideExplained(c: Conv, inputs: seq<Input>, n: nat, accepted: bool)
    requires Explained(c, inputs)
    ensures Explained(if n < |c.dialogs| then AnswerDialog(c, n, accepted).conv else c, inputs + [Decide(n, accepted)])
  {
    var i := Decide(n, accepted);
    assert Flatten<Byte>([]) == [];
    LogGrows(c.log, inputs, i);
    if c.inbound.Some? {
      var ib := c.inbound.value;
      assert Flatten(ib.parts) + [] == Flatten(ib.parts);
      StreamsOn(inputs, i, ib.doc, ib.id, Flatten(ib.parts));
    }
    if n < |c.dialogs| && c.dialogs[n].AskDoc? && accepted {
      StreamOpens(inputs, i, true, c.dialogs[n].id);
      LogSame(c.log, Opened(true, c.dialogs[n].id), inputs + [i]);
    }
    if n < |c.dialogs| && c.dialogs[n].AskFiles? { MetaMapKeys(c.dialogs[n].files); }
    hide Flatten, Streamed, LogExplained, MetaMap;
  }

  lemma {:induction false} FeedExplained(c: Conv, before: seq<Input>, inputs: seq<Input>)
    requires Explained(c, before)
    ensures Explained(Feed(c, inputs), before + inputs)
    decreases |inputs|
  {
    if inputs == [] {
      assert before + inputs == before;
    } else {
      var i, rest := inputs[0], inputs[1..];
      assert before + inputs == (before + [i]) + rest;
      match i {
        case Hear(m, t) =>
          HearExplained(c, before, m, t);
          hide Explained;
          FeedExplained(OnMessage(c, m, t).conv, before + [i], rest);
        case Decide(n, accepted) =>
          DecideExplained(c, before, n, accepted);
          hide Explained;
          FeedExplained(if n < |c.dialogs| then AnswerDialog(c, n, accepted).conv else c, before + [i], rest);
      }
    }
  }

  /**
   * Whatever a peer sends and the user answers, well formed or not: what is saved under a name is
   * exactly the chunks heard between a start and the end marker of that kind and name, nothing
   * having ended it in between.
   */
  lemma WhatIsSavedWasStreamed(inputs: seq<Input>, id: Id, data: Bytes)
    requires Saved(id, data) in Feed(FRESH, inputs).log
    ensures exists k, doc :: SavedAt(inputs, k, doc, id, data)
  {
    FeedExplained(FRESH, [], inputs);
    assert [] + inputs == inputs;
    hide SavedAt, Feed;
  }
}
