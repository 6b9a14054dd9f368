/**
 * Why transports must be switched, and questions answered, with care: what happens
 * otherwise, from any state and in runs from the start.
 */
module TransferStrays {
  import opened Basics
  import opened TransferProtocol
  import opened TransferSystem
  import opened TransferInvariant
  import opened TransferSafety
  import opened TransferOrder
  import opened TransferRuns

  // ----------------------------------------------- careful ways on from a state

  /** The two ends can get from `s` to `last` with every care. */
  ghost predicate Onward(s: Net, last: Net) {
    exists steps :: IsRun(Drained, s, steps, last) && IsRun(Attended, s, steps, last)
  }

  lemma Move(s0: Net, s: Net, step: Step)
    requires Onward(s0, s) && CanStep(s, step) && CleanSwitch(Drained, s, step) && CleanSwitch(Attended, s, step)
    ensures Onward(s0, Next(s, step))
  {
    var steps :| IsRun(Drained, s0, steps, s) && IsRun(Attended, s0, steps, s);
    hide CanStep, CleanSwitch, Next, IsRun;
    RunSnoc(Drained, s0, steps, s, step);
    RunSnoc(Attended, s0, steps, s, step);
  }

  lemma Stay(s: Net)
    ensures Onward(s, s)
  {
    assert IsRun(Drained, s, [], s) && IsRun(Attended, s, [], s);
  }

  /** B takes the next message of transport u. */
  lemma Takes(s0: Net, s: Net, u: nat)
    requires Onward(s0, s) && u < |s.ab.wires| && u !in s.dead && s.ab.wires[u] != []
    ensures var o := OnMessage(s.b, s.ab.wires[u][0], u);
      Onward(s0, s.(b := o.conv, ab := Consume(s.ab, u), ba := Put(s.ba, u, o.sends, s.dead)))
  {
    hide Onward, OnMessage;
    Move(s0, s, ByB(Deliver(u)));
  }

  /** No answer to the question about `e` is on its way. */
  ghost predicate NoVerdict(back: seq<seq<Msg>>, e: Id) {
    forall v, m :: 0 <= v < |back| && m in back[v] ==> m != Accept(e) && m != Decline(e)
  }

  predicate IsStartOf(m: Msg, e: Id) { m.DStart? && m.docId == Some(e) }

  lemma OneHeard(s: Net, u: nat, e: Id)
    requires u < |s.ab.wires| == |s.ba.wires| && s.ab.wires[u] != [] && !IsStartOf(s.ab.wires[u][0], e)
    requires NoVerdict(s.ba.wires, e)
    ensures NoVerdict(Put(s.ba, u, OnMessage(s.b, s.ab.wires[u][0], u).sends, s.dead).wires, e)
  {
    hide Flatten;
  }

  /** The message is about something other than the open file `id`, and opens nothing. */
  predicate Bystander(m: Msg, id: Id) {
    !m.FStart? && !m.DStart? && !m.Chunk? && !m.Cancel? && !(IsEnd(m) && m.id == id)
  }

  /** Taking these messages closes no question, and leaves open what they are not about. */
  ghost predicate Undisturbed(c: Conv, c': Conv, ms: seq<Msg>) {
    && c.dialogs <= c'.dialogs
    && (c.inbound.Some? && (forall m :: m in ms ==> Bystander(m, c.inbound.value.id)) ==> c'.inbound == c.inbound)
  }

  lemma OneUndisturbed(c: Conv, m: Msg, t: nat)
    ensures Undisturbed(c, OnMessage(c, m, t).conv, [m])
  {
    assert m in [m];
    hide Flatten;
  }

  lemma UndisturbedThen(c: Conv, c': Conv, c'': Conv, m: Msg, rest: seq<Msg>)
    requires Undisturbed(c, c', [m]) && Undisturbed(c', c'', rest)
    ensures Undisturbed(c, c'', [m] + rest)
  {
    assert forall x :: x in [m] ==> x in [m] + rest;
    assert forall x :: x in rest ==> x in [m] + rest;
  }

  predicate IsReply(m: Msg) { m.Accept? || m.Decline? || m.Received? }

  /** Nothing but replies has joined the wire. */
  ghost predicate MoreReplies(w: seq<Msg>, w': seq<Msg>) {
    |w| <= |w'| && w'[..|w|] == w && forall i :: |w| <= i < |w'| ==> IsReply(w'[i])
  }

  lemma RepliesOnly(c: Conv, m: Msg, t: nat, w: seq<Msg>)
    ensures MoreReplies(w, w + OnMessage(c, m, t).sends)
  {
    var sends := OnMessage(c, m, t).sends;
    assert forall x :: x in sends ==> IsReply(x) by { hide Flatten; }
    forall i | |w| <= i < |w + sends| ensures IsReply((w + sends)[i]) { assert (w + sends)[i] in sends; }
    hide OnMessage;
  }

  lemma RepliesThen(w: seq<Msg>, w': seq<Msg>, w'': seq<Msg>)
    requires MoreReplies(w, w') && MoreReplies(w', w'')
    ensures MoreReplies(w, w'')
  {
    assert w''[..|w|] == w''[..|w'|][..|w|];
    forall i | |w| <= i < |w'| ensures IsReply(w''[i]) { assert w''[..|w'|][i] == w'[i]; }
  }

  /** B takes the first k messages of transport u, whatever they are. */
  lemma {:induction false} Hears(s0: Net, s: Net, u: nat, k: nat, e: Id) returns (z: Net)
    requires Onward(s0, s) && u < |s.ab.wires| == |s.ba.wires| && u !in s.dead && k <= |s.ab.wires[u]|
    ensures Onward(s0, z) && z.a == s.a && z.dead == s.dead && z.ab.catalog == s.ab.catalog
    ensures |z.ba.wires| == |s.ba.wires|
    ensures z.ab.wires == s.ab.wires[u := s.ab.wires[u][k..]]
    ensures z.b.inboundBatch == s.b.inboundBatch
    ensures NoVerdict(s.ba.wires, e) && (forall m :: m in s.ab.wires[u][..k] ==> !IsStartOf(m, e)) ==>
        NoVerdict(z.ba.wires, e)
    ensures Undisturbed(s.b, z.b, s.ab.wires[u][..k])
    decreases k
  {
    if k == 0 {
      z := s;
      assert s.ab.wires[u][0..] == s.ab.wires[u] && s.ab.wires[u := s.ab.wires[u]] == s.ab.wires;
    } else {
      var m := s.ab.wires[u][0];
      var o := OnMessage(s.b, m, u);
      var y := s.(b := o.conv, ab := Consume(s.ab, u), ba := Put(s.ba, u, o.sends, s.dead));
      Takes(s0, s, u);
      BatchStays(s.b, m, u);
      assert s.ab.wires[u][..k] == [m] + s.ab.wires[u][1..][..k - 1];
      if NoVerdict(s.ba.wires, e) && !IsStartOf(m, e) { OneHeard(s, u, e); }
      OneUndisturbed(s.b, m, u);
      hide Onward, OnMessage, NoVerdict, Undisturbed;
      z := Hears(s0, y, u, k - 1, e);
      UndisturbedThen(s.b, y.b, z.b, m, s.ab.wires[u][1..][..k - 1]);
      assert s.ab.wires[u][1..][k - 1..] == s.ab.wires[u][k..];
      assert z.ab.wires == s.ab.wires[u := s.ab.wires[u][k..]];
    }
  }

  // -------------------------------------- a chunk left behind, and a batch of files

  /** A offers `job` on transport t; on transport u a message of an earlier stream is next. */
  ghost predicate Offering(s: Net, t: nat, u: nat, job: Job) {
    && t != u && t < |s.ab.wires| == |s.ba.wires| && u < |s.ab.wires| && t !in s.dead && u !in s.dead
    && ValidJob(job) && !job.doc && job.ids != [] && job.batch !in s.a.cancelled
    && job.ids[0] in s.ab.catalog && s.ab.catalog[job.ids[0]] == job.blobs[0]
    && s.ab.wires[u] != []
  }

  predicate Undecided(s: Net, t: nat, job: Job) {
    s.a.task == Deciding(t, job, None) && s.a.pendingDecision == Some(job.batch)
  }

  /** The answer to the question about `e` is yes, and comes last. */
  ghost predicate YesLast(w: seq<Msg>, e: Id) {
    w != [] && w[|w| - 1] == Accept(e) && forall i :: 0 <= i < |w| - 1 ==> w[i] != Accept(e) && w[i] != Decline(e)
  }

  /** B is asked and says yes. */
  lemma SaysYes(s0: Net, s: Net, t: nat, u: nat, job: Job, k: nat) returns (z: Net)
    requires Onward(s0, s) && Offering(s, t, u, job) && Undecided(s, t, job) && NoVerdict(s.ba.wires, job.batch)
    requires k < |s.ab.wires[t]| && s.ab.wires[t][k] == Batch(job.batch, Metas(job.ids, job.blobs))
    requires forall m :: m in s.ab.wires[t][..k] ==> !IsStartOf(m, job.batch)
    ensures Onward(s0, z) && Offering(z, t, u, job) && Undecided(z, t, job)
    ensures z.b.inboundBatch == Some(InboundBatch(job.batch, MetaMap(Metas(job.ids, job.blobs))))
    ensures YesLast(z.ba.wires[t], job.batch) && z.ab.wires[u] == s.ab.wires[u]
    ensures z.ab.wires[t] == s.ab.wires[t][k + 1..]
    ensures Undisturbed(s.b, z.b, s.ab.wires[t][..k]) && z.ab.catalog == s.ab.catalog
  {
    var y := Hears(s0, s, t, k, job.batch);
    hide Onward, MetaMap, Metas;
    assert y.ab.wires[t][0] == s.ab.wires[t][k];
    Takes(s0, y, t);
    var x := y.(b := OnMessage(y.b, y.ab.wires[t][0], t).conv, ab := Consume(y.ab, t), ba := Put(y.ba, t, [], s.dead));
    PutEmpty(y.ba, t, s.dead);
    var n := |y.b.dialogs|;
    assert x.b.dialogs[n] == AskFiles(job.batch, Metas(job.ids, job.blobs), t);
    Move(s0, x, ByB(Answer(n, true)));
    z := Next(x, ByB(Answer(n, true)));
    assert z.b.dialogs == y.b.dialogs && z.ab == x.ab;
    assert z.ba.wires[t] == x.ba.wires[t] + [Accept(job.batch)];
    forall i | 0 <= i < |x.ba.wires[t]|
      ensures x.ba.wires[t][i] != Accept(job.batch) && x.ba.wires[t][i] != Decline(job.batch)
    {
      assert x.ba.wires[t][i] in y.ba.wires[t];
    }
  }

  /** A takes the first k messages of transport t, none of them the answer it awaits. */
  lemma {:induction false} Waits(s0: Net, s: Net, t: nat, job: Job, k: nat) returns (z: Net)
    requires Onward(s0, s) && t < |s.ab.wires| == |s.ba.wires| && t !in s.dead && Undecided(s, t, job)
    requires k <= |s.ba.wires[t]|
    requires forall i :: 0 <= i < k ==> s.ba.wires[t][i] != Accept(job.batch) && s.ba.wires[t][i] != Decline(job.batch)
    ensures Onward(s0, z) && Undecided(z, t, job) && z.a.cancelled == s.a.cancelled && z.b == s.b && z.dead == s.dead
    ensures |z.ba.wires| == |s.ba.wires| && z.ba.wires[t] == s.ba.wires[t][k..]
    ensures |z.ab.wires| == |s.ab.wires| && z.ab.catalog == s.ab.catalog
    ensures forall v :: 0 <= v < |s.ab.wires| && v != t ==> z.ab.wires[v] == s.ab.wires[v]
    ensures MoreReplies(s.ab.wires[t], z.ab.wires[t])
    decreases k
  {
    if k == 0 {
      z := s;
    } else {
      var m := s.ba.wires[t][0];
      var o := OnMessage(s.a, m, t);
      StillUndecided(s, m, t, job);
      RepliesOnly(s.a, m, t, s.ab.wires[t]);
      Move(s0, s, ByA(Deliver(t)));
      var y := s.(a := o.conv, ba := Consume(s.ba, t), ab := Put(s.ab, t, o.sends, s.dead));
      assert forall i :: 0 <= i < k - 1 ==> y.ba.wires[t][i] == s.ba.wires[t][i + 1];
      hide Onward, OnMessage, MoreReplies;
      z := Waits(s0, y, t, job, k - 1);
      assert s.ba.wires[t][1..][k - 1..] == s.ba.wires[t][k..];
      RepliesThen(s.ab.wires[t], y.ab.wires[t], z.ab.wires[t]);
    }
  }

  lemma StillUndecided(s: Net, m: Msg, t: nat, job: Job)
    requires Undecided(s, t, job) && m != Accept(job.batch) && m != Decline(job.batch)
    ensures var a := OnMessage(s.a, m, t).conv;
      a.task == s.a.task && a.pendingDecision == s.a.pendingDecision && a.cancelled == s.a.cancelled
  {
    hide Flatten;
  }

  /** A hears the yes. */
  lemma HearsYes(s0: Net, s: Net, t: nat, job: Job) returns (z: Net)
    requires Onward(s0, s) && t < |s.ab.wires| == |s.ba.wires| && t !in s.dead && Undecided(s, t, job)
    requires YesLast(s.ba.wires[t], job.batch)
    ensures Onward(s0, z) && z.a.task == Deciding(t, job, Some(true)) && z.a.cancelled == s.a.cancelled && z.b == s.b
    ensures z.dead == s.dead
    ensures |z.ab.wires| == |s.ab.wires| == |z.ba.wires| && z.ab.catalog == s.ab.catalog
    ensures forall v :: 0 <= v < |s.ab.wires| && v != t ==> z.ab.wires[v] == s.ab.wires[v]
    ensures MoreReplies(s.ab.wires[t], z.ab.wires[t])
  {
    var y := Waits(s0, s, t, job, |s.ba.wires[t]| - 1);
    hide Onward;
    assert y.ba.wires[t][0] == Accept(job.batch);
    Move(s0, y, ByA(Deliver(t)));
    z := y.(a := ResolveDecision(y.a, job.batch, true), ba := Consume(y.ba, t));
    PutEmpty(y.ab, t, y.dead);
    assert Next(y, ByA(Deliver(t))) == z;
  }

  /** A hears the yes and starts its first file. */
  lemma Begins(s0: Net, s: Net, t: nat, u: nat, job: Job) returns (z: Net)
    requires Onward(s0, s) && Offering(s, t, u, job) && Undecided(s, t, job) && YesLast(s.ba.wires[t], job.batch)
    ensures Onward(s0, z) && Offering(z, t, u, job) && z.a.task == Pumping(t, job, 0, 0) && z.b == s.b
    ensures z.ab.wires[u] == s.ab.wires[u]
    ensures z.ab.wires[t] != [] && z.ab.wires[t][|z.ab.wires[t]| - 1] == FStart(job.batch, job.ids[0])
    ensures MoreReplies(s.ab.wires[t], z.ab.wires[t][..|z.ab.wires[t]| - 1]) && z.ab.catalog == s.ab.catalog
    ensures |z.ab.wires| == |s.ab.wires|
  {
    var x := HearsYes(s0, s, t, job);
    hide Onward, MoreReplies;
    Move(s0, x, ByA(Resume));
    var w := x.(a := x.a.(task := Looping(t, job, 0)));
    PutEmpty(x.ab, t, x.dead);
    assert Next(x, ByA(Resume)) == w;
    Move(s0, w, ByA(Resume));
    z := Next(w, ByA(Resume));
    assert z.ab.wires[t] == w.ab.wires[t] + [FStart(job.batch, job.ids[0])];
    assert z.ab.wires[t][..|z.ab.wires[t]| - 1] == w.ab.wires[t];
  }

  /** The file A is pumping is open at B, and what A has pumped follows foreign bytes. */
  ghost predicate Spoilt(s: Net, t: nat, job: Job, offset: nat, foreign: nat) {
    && t < |s.ab.wires| == |s.ba.wires| && t !in s.dead && s.ab.wires[t] == []
    && ValidJob(job) && !job.doc && job.ids != [] && job.batch !in s.a.cancelled
    && job.ids[0] in s.ab.catalog && s.ab.catalog[job.ids[0]] == job.blobs[0]
    && offset <= |job.blobs[0]| && s.a.task == Pumping(t, job, 0, offset)
    && s.b.inbound.Some? && !s.b.inbound.value.doc && s.b.inbound.value.id == job.ids[0]
    && |Flatten(s.b.inbound.value.parts)| == foreign + offset
  }

  /** B opens the file. */
  lemma OpensFile(s0: Net, s: Net, t: nat, u: nat, job: Job) returns (z: Net)
    requires Onward(s0, s) && Offering(s, t, u, job)
    requires s.b.inboundBatch == Some(InboundBatch(job.batch, MetaMap(Metas(job.ids, job.blobs))))
    requires s.ab.wires[t] != [] && s.ab.wires[t][|s.ab.wires[t]| - 1] == FStart(job.batch, job.ids[0])
    ensures Onward(s0, z) && z.a == s.a && z.dead == s.dead && |z.ba.wires| == |s.ba.wires|
    ensures z.ab.catalog == s.ab.catalog
    ensures z.ab.wires == s.ab.wires[t := []]
    ensures z.b.inbound.Some? && !z.b.inbound.value.doc && z.b.inbound.value.id == job.ids[0]
    ensures z.b.inbound.value.parts == []
  {
    var y := Hears(s0, s, t, |s.ab.wires[t]| - 1, 0);
    hide Onward, ValidJob;
    assert y.ab.wires[t] == [FStart(job.batch, job.ids[0])];
    BatchNames(job, Metas(job.ids, job.blobs));
    MetaMapKeys(Metas(job.ids, job.blobs));
    assert job.ids[0] in job.ids;
    hide MetaMap, Metas;
    Takes(s0, y, t);
    z := y.(b := OnFileStart(y.b, job.batch, job.ids[0]), ab := Consume(y.ab, t), ba := Put(y.ba, t, [], y.dead));
    PutEmpty(y.ba, t, y.dead);
    assert z.ab.wires[t] == [];
  }

  /** The chunk left behind lands in the file. */
  lemma Lands(s0: Net, s: Net, t: nat, u: nat, job: Job) returns (z: Net)
    requires Onward(s0, s) && Offering(s, t, u, job) && s.a.task == Pumping(t, job, 0, 0) && s.ab.wires[u][0].Chunk?
    requires s.b.inboundBatch == Some(InboundBatch(job.batch, MetaMap(Metas(job.ids, job.blobs))))
    requires s.ab.wires[t] != [] && s.ab.wires[t][|s.ab.wires[t]| - 1] == FStart(job.batch, job.ids[0])
    ensures Onward(s0, z) && Spoilt(z, t, job, 0, |s.ab.wires[u][0].data|)
  {
    var x := OpensFile(s0, s, t, u, job);
    hide Onward, MetaMap, Metas, ValidJob;
    assert x.ab.wires[t] == [] && x.ab.wires[u] == s.ab.wires[u];
    var data := s.ab.wires[u][0].data;
    Takes(s0, x, u);
    z := x.(b := OnChunk(x.b, data), ab := Consume(x.ab, u), ba := Put(x.ba, u, [], x.dead));
    FlattenPush([], data);
    EmptyFlatten();
    assert z.b.inbound.value.parts == [] + [data];
    hide Flatten;
    assert z.ab.wires[t] == [];
  }

  /** The rest follows, and B saves what it has. */
  lemma {:induction false} Saves(s0: Net, s: Net, t: nat, job: Job, offset: nat, foreign: nat) returns (z: Net)
    requires Onward(s0, s) && Spoilt(s, t, job, offset, foreign)
    ensures Onward(s0, z) && z.ab.catalog == s.ab.catalog
    ensures exists data :: Saved(job.ids[0], data) in z.b.log && |data| == foreign + |job.blobs[0]|
    decreases |job.blobs[0]| - offset
  {
    if offset < |job.blobs[0]| {
      var y := Pumps(s0, s, t, job, offset, foreign);
      hide Onward, Spoilt;
      z := Saves(s0, y, t, job, Min(offset + CHUNK_SIZE, |job.blobs[0]|), foreign);
    } else {
      hide Onward, Flatten;
      Move(s0, s, ByA(Resume));
      var y := Next(s, ByA(Resume));
      var m := FEnd(job.batch, job.ids[0]);
      assert y.ab.wires[t] == [m];
      Takes(s0, y, t);
      var o := OnMessage(y.b, m, t);
      z := y.(b := o.conv, ab := Consume(y.ab, t), ba := Put(y.ba, t, o.sends, y.dead));
      assert Saved(job.ids[0], Flatten(s.b.inbound.value.parts)) in z.b.log;
    }
  }

  lemma Pumps(s0: Net, s: Net, t: nat, job: Job, offset: nat, foreign: nat) returns (z: Net)
    requires Onward(s0, s) && Spoilt(s, t, job, offset, foreign) && offset < |job.blobs[0]|
    ensures Onward(s0, z) && Spoilt(z, t, job, Min(offset + CHUNK_SIZE, |job.blobs[0]|), foreign)
    ensures z.ab.catalog == s.ab.catalog
  {
    hide Onward;
    var end := Min(offset + CHUNK_SIZE, |job.blobs[0]|);
    var m := Chunk(job.blobs[0][offset..end]);
    Move(s0, s, ByA(Resume));
    PutPlain(s.ab, t, m, s.dead);
    var y := s.(a := s.a.(task := Pumping(t, job, 0, end)), ab := s.ab.(wires := s.ab.wires[t := [] + [m]]));
    assert Next(s, ByA(Resume)) == y;
    assert y.ab.wires[t] == [m];
    Takes(s0, y, t);
    z := y.(b := OnChunk(y.b, m.data), ab := Consume(y.ab, t), ba := Put(y.ba, t, [], y.dead));
    FlattenPush(s.b.inbound.value.parts, m.data);
    hide Flatten;
    assert z.ab.wires[t] == [];
  }

  /** What announcing a batch puts on the wire, and what it leaves alone. */
  lemma AnnouncesFiles(s: Net, t: nat, blobs: seq<Bytes>) returns (job: Job)
    requires s.a.task == Acquiring(Files(blobs)) && blobs != [] && t < |s.ab.wires| && t !in s.dead
    ensures CanStep(s, ByA(Acquire(t)))
    ensures var z := Next(s, ByA(Acquire(t)));
      && Undecided(z, t, job) && job == Acquired(s.a, t).conv.task.job
      && job.batch == s.a.counter && ValidJob(job) && !job.doc && job.blobs == blobs
      && job.ids == FreshIds(s.a.counter + 1, |blobs|)
      && z.ab.wires == s.ab.wires[t := s.ab.wires[t] + [Batch(job.batch, Metas(job.ids, job.blobs))]]
      && z.ab.catalog == s.ab.catalog + Contents(job.ids, blobs)
      && z.a.cancelled == s.a.cancelled && z.dead == s.dead && z.ba.wires == s.ba.wires && z.b == s.b
  {
    job := Acquired(s.a, t).conv.task.job;
    hide Contents, Stream, Metas;
  }

  /** What a careful state and the step A takes next come to. */
  lemma Offered(care: Care, s: Net, t: nat, u: nat, k: nat, blobs: seq<Bytes>) returns (job: Job)
    requires CareInv(care, s) && s.a.task == Acquiring(Files(blobs)) && blobs != [] && s.a.counter !in s.a.cancelled
    requires t < |s.ab.wires| && t !in s.dead && u < |s.ab.wires| && u != t && k < |s.ab.wires[u]|
    ensures CanStep(s, ByA(Acquire(t)))
    ensures var z := Next(s, ByA(Acquire(t)));
      && Undecided(z, t, job) && z.ab.wires[u] == s.ab.wires[u] && z.a.cancelled == s.a.cancelled
      && job.batch == s.a.counter && ValidJob(job) && !job.doc && job.ids != [] && z.dead == s.dead && u !in z.dead
      && job.ids[0] in z.ab.catalog && z.ab.catalog[job.ids[0]] == job.blobs[0]
      && z.ab.wires[t] == s.ab.wires[t] + [Batch(job.batch, Metas(job.ids, job.blobs))] && z.ba.wires == s.ba.wires
      && z.b == s.b
      && |z.ab.wires| == |z.ba.wires| && job.blobs == blobs
    ensures NoVerdict(s.ba.wires, job.batch)
    ensures forall m :: m in s.ab.wires[t] || m in s.ab.wires[u] ==> !IsStartOf(m, job.batch)
    ensures s.ab.wires[u][k].Chunk? ==> s.ab.wires[u][k].data != []
  {
    job := AnnouncesFiles(s, t, blobs);
    hide Kept, Next, CanStep, Undecided, ValidJob;
    WiredIs(s.a, s.b, s.ab, s.ba.wires, s.dead);
    FreshJob(s.a, s.b, s.ab, s.ba.wires, s.dead, job.(doc := true));
    NoVerdictYet(s.ab.catalog, s.a.counter, s.ba.wires, s.b.log, History(s.ab));
    ChunkHasBytes(s.b, s.ab, s.a.counter, s.dead, u, k);
    DeadIsEmpty(s.ab, s.a.counter, s.dead, u);
    ContentsAre(job.ids, blobs);
    hide DirInv, Wired, ReceiverOk, HistInv, ReplyInv, Contents, NoVerdict, Accepts, Acquired;
    assert job.ids[0] in job.ids;
    assert forall m :: m in s.ab.wires[t] || m in s.ab.wires[u] ==> !Announces(m, job.(doc := true));
  }

  lemma DeadIsEmpty(d: Dir, counter: nat, dead: set<nat>, u: nat)
    requires Wired(d, counter, dead) && u < |d.wires| && d.wires[u] != []
    ensures u !in dead
  {
    hide Stream, BatchesFresh, EndsKnown;
  }

  lemma NoVerdictYet(catalog: map<Id, Bytes>, counter: nat, back: seq<seq<Msg>>, rlog: seq<Event>, h: seq<Msg>)
    requires ReplyInv(catalog, counter, back, rlog) && HistInv(h, catalog, counter, rlog)
    ensures NoVerdict(back, counter)
  {
    NamesBelow(h, catalog, counter, rlog);
    assert !ReplyBacked(Accept(counter), catalog, counter, rlog)
           && !ReplyBacked(Decline(counter), catalog, counter, rlog);
    hide ReplyBacked, HistInv;
  }

  lemma ChunkHasBytes(r: Conv, d: Dir, counter: nat, dead: set<nat>, u: nat, k: nat)
    requires Wired(d, counter, dead) && ReceiverOk(r, d, counter) && HistInv(History(d), d.catalog, counter, r.log)
    requires u < |d.wires| && k < |d.wires[u]|
    ensures d.wires[u][k].Chunk? ==> d.wires[u][k].data != []
  {
    var m := d.wires[u][k];
    assert m in d.wires[u];
    StreamHas(d.wires[u], m);
    if m.Chunk? && !IsStray(d.wires, d.on, d.late, m) {
      InLive(d, m);
      ChunkOfStream(History(d), d.catalog, r.log, m);
    }
    hide Stream, Live, Books, StartIds, WellSent;
  }

  lemma {:induction false} ChunkOfStream(h: seq<Msg>, catalog: map<Id, Bytes>, rlog: seq<Event>, m: Msg)
    requires WellSent(h, catalog, rlog) && m in h && m.Chunk?
    ensures m.data != []
  {
    var n := |h| - 1;
    assert h == h[..n] + [h[n]];
    if m != h[n] { ChunkOfStream(h[..n], catalog, rlog, m); }
  }

  /**
   * A chunk left behind on another transport is one too many: from any state careful use
   * can reach, starting a batch of files while a chunk is in flight elsewhere leaves the two
   * ends with a way on, careful again in every respect, that breaks what is promised.
   */
  lemma StrayChunkCorrupts(care: Care, s: Net, t: nat, u: nat, k: nat, blobs: seq<Bytes>)
    requires CareInv(care, s) && s.a.task == Acquiring(Files(blobs)) && blobs != [] && s.a.counter !in s.a.cancelled
    requires t < |s.ab.wires| && t !in s.dead && u < |s.ab.wires| && u != t && k < |s.ab.wires[u]|
    requires s.ab.wires[u][k].Chunk?
    ensures CanStep(s, ByA(Acquire(t)))
    ensures exists last :: Onward(Next(s, ByA(Acquire(t))), last) && !Delivered(last.a, last.b, last.ab)
  {
    hide CareInv, Onward, NoVerdict;
    var job := Offered(care, s, t, u, k, blobs);
    var s0 := Next(s, ByA(Acquire(t)));
    var n := |s.ab.wires[t]|;
    hide Next, CanStep;
    Stay(s0);
    assert forall m :: m in s0.ab.wires[u][..k] ==> m in s.ab.wires[u];
    var z := Hears(s0, s0, u, k, job.batch);
    assert s0.ab.wires[t][..n] == s.ab.wires[t];
    assert z.ab.wires[u][0] == s.ab.wires[u][k];
    var y := SaysYes(s0, z, t, u, job, n);
    var x := Begins(s0, y, t, u, job);
    var foreign := |x.ab.wires[u][0].data|;
    var w := Lands(s0, x, t, u, job);
    var last := Saves(s0, w, t, job, 0, foreign);
    var data :| Saved(job.ids[0], data) in last.b.log && |data| == foreign + |job.blobs[0]|;
    hide IsSubseq, SavedIds, DoneIds, NoDup, Flatten;
    assert data != last.ab.catalog[job.ids[0]];
    assert !Delivered(last.a, last.b, last.ab);
  }

  // ------------------------------- a start marker left behind, and anything new

  /** A start marker left behind takes the place of what is open, and the next chunk lands in it. */
  lemma Overtakes(s0: Net, s: Net, t: nat, u: nat, data: Bytes) returns (z: Net)
    requires Onward(s0, s) && t < |s.ab.wires| == |s.ba.wires| && u < |s.ab.wires| && t != u && t !in s.dead
    requires u !in s.dead
    requires s.ab.wires[t] == [Chunk(data)] && data != [] && s.ab.wires[u] != [] && Opens(s.b, s.ab.wires[u][0], |data|)
    ensures Onward(s0, z) && LandedIn(z.b, s.ab.wires[u][0], data)
  {
    hide Onward;
    var m := s.ab.wires[u][0];
    Takes(s0, s, u);
    var o := OnMessage(s.b, m, u);
    var y := s.(b := o.conv, ab := Consume(s.ab, u), ba := Put(s.ba, u, o.sends, s.dead));
    assert y.ab.wires[t][0] == Chunk(data);
    Takes(s0, y, t);
    z := y.(b := OnChunk(y.b, data), ab := Consume(y.ab, t), ba := Put(y.ba, t, [], y.dead));
    PutEmpty(y.ba, t, y.dead);
  }

  /** The end would open what `m` starts, with room for `n` bytes. */
  predicate Opens(c: Conv, m: Msg, n: nat) {
    || (m.FStart? && c.inboundBatch.Some? && c.inboundBatch.value.batchId == m.batchId
        && m.id in c.inboundBatch.value.files
        && c.inboundBatch.value.files[m.id].id == m.id)
    || (m.DStart? && m.docId.Some? && m.docSize.Some? && 0.0 < m.docSize.value <= AUTO_ACCEPT_DOC_BYTES as real
        && n as real <= m.docSize.value)
  }

  /** What is open is what `m` started, and it holds these bytes, which are of something else. */
  predicate LandedIn(c: Conv, m: Msg, data: Bytes) {
    && c.inbound.Some? && c.inbound.value.parts == [data] && data != []
    && c.inbound.value.doc == m.DStart? && StartOf(m) == [c.inbound.value.id]
  }

  function FirstChunk(blob: Bytes): Bytes { blob[..Min(CHUNK_SIZE, |blob|)] }

  /** A pumps the first chunk of its job, and B is brought to it. */
  lemma PumpsFirst(s0: Net, s: Net, t: nat, u: nat, job: Job) returns (z: Net)
    requires Onward(s0, s) && t < |s.ab.wires| == |s.ba.wires| && u < |s.ab.wires| && t != u && t !in s.dead
    requires ValidJob(job) && job.ids != [] && job.blobs[0] != [] && job.batch !in s.a.cancelled
    requires s.a.task == Pumping(t, job, 0, 0)
    ensures Onward(s0, z) && |z.ab.wires| == |z.ba.wires| == |s.ab.wires| && z.dead == s.dead
    ensures z.ab.wires[t] == [Chunk(FirstChunk(job.blobs[0]))] && z.ab.wires[u] == s.ab.wires[u]
    ensures z.b.inboundBatch == s.b.inboundBatch
  {
    var m := Chunk(job.blobs[0][0..Min(CHUNK_SIZE, |job.blobs[0]|)]);
    assert m.data == FirstChunk(job.blobs[0]);
    Move(s0, s, ByA(Resume));
    PutPlain(s.ab, t, m, s.dead);
    var y := Next(s, ByA(Resume));
    assert y.ab.wires[t] == s.ab.wires[t] + [m];
    hide Onward, Next;
    z := Hears(s0, y, t, |s.ab.wires[t]|, 0);
    assert z.ab.wires[t] == [m];
  }

  /** An announced document left behind swallows the next batch's bytes. */
  lemma StrayDocumentSwallows(care: Care, s: Net, t: nat, u: nat, k: nat, blobs: seq<Bytes>)
    requires CareInv(care, s) && s.a.task == Acquiring(Files(blobs)) && blobs != [] && blobs[0] != []
    requires s.a.counter !in s.a.cancelled
    requires t < |s.ab.wires| && t !in s.dead && u < |s.ab.wires| && u != t && k < |s.ab.wires[u]|
    requires s.ab.wires[u][k].DStart? && Opens(s.b, s.ab.wires[u][k], |FirstChunk(blobs[0])|)
    ensures CanStep(s, ByA(Acquire(t)))
    ensures exists last ::
      && Onward(Next(s, ByA(Acquire(t))), last)
      && LandedIn(last.b, s.ab.wires[u][k], FirstChunk(blobs[0]))
  {
    hide CareInv, Onward, NoVerdict;
    var job := Offered(care, s, t, u, k, blobs);
    var s0 := Next(s, ByA(Acquire(t)));
    var n := |s.ab.wires[t]|;
    hide Next, CanStep;
    Stay(s0);
    assert s0.ab.wires[t][..n] == s.ab.wires[t];
    assert forall m :: m in s0.ab.wires[u][..k] ==> m in s.ab.wires[u];
    var z := Hears(s0, s0, u, k, job.batch);
    assert z.ab.wires[u][0] == s.ab.wires[u][k];
    var y := SaysYes(s0, z, t, u, job, n);
    var x := Begins(s0, y, t, u, job);
    var w := PumpsFirst(s0, x, t, u, job);
    var last := Overtakes(s0, w, t, u, FirstChunk(blobs[0]));
  }

  /** What announcing a document puts on the wire, and what it leaves alone. */
  lemma AnnouncesDoc(s: Net, t: nat, html: Bytes)
    requires s.a.task == Acquiring(Doc(html)) && 0 < |html| <= AUTO_ACCEPT_DOC_BYTES && t < |s.ab.wires| && t !in s.dead
    ensures CanStep(s, ByA(Acquire(t)))
    ensures var z, job := Next(s, ByA(Acquire(t))), Job(true, s.a.counter, [s.a.counter], [html]);
      && Acquired(s.a, t).conv.task.Deciding? && Acquired(s.a, t).conv.task.job == job && Undecided(z, t, job)
      && z.ab.wires == s.ab.wires[t := s.ab.wires[t] + [DStart(Some(job.batch), Some(|html| as real))]]
      && z.a.cancelled == s.a.cancelled && z.dead == s.dead && z.ba.wires == s.ba.wires && z.b == s.b
  {
    hide Contents, Stream;
  }

  /** What announcing a document in a careful state comes to. */
  lemma OfferedDoc(s: Net, t: nat, u: nat, k: nat, html: Bytes) returns (job: Job)
    requires CareInv(Attended, s) && s.a.task == Acquiring(Doc(html)) && 0 < |html| <= AUTO_ACCEPT_DOC_BYTES
    requires t < |s.ab.wires| && t !in s.dead && u < |s.ab.wires| && u != t && k < |s.ab.wires[u]|
    ensures CanStep(s, ByA(Acquire(t)))
    ensures var z := Next(s, ByA(Acquire(t)));
      && Undecided(z, t, job) && z.ab.wires[u] == s.ab.wires[u] && z.a.cancelled == s.a.cancelled
      && job == Job(true, s.a.counter, [s.a.counter], [html]) && z.dead == s.dead && u !in z.dead
      && z.ab.wires[t] == s.ab.wires[t] + [DStart(Some(job.batch), Some(|html| as real))] && z.ba.wires == s.ba.wires
      && z.b == s.b
      && |z.ab.wires| == |z.ba.wires|
    ensures NoVerdict(s.ba.wires, job.batch)
    ensures forall m :: m in s.ab.wires[t] || m in s.ab.wires[u] ==> !IsStartOf(m, job.batch)
    ensures s.ab.wires[u][k].FStart? ==> Opens(s.b, s.ab.wires[u][k], 0)
  {
    AnnouncesDoc(s, t, html);
    job := Job(true, s.a.counter, [s.a.counter], [html]);
    hide Kept, Next, CanStep, Acquired, Undecided;
    WiredIs(s.a, s.b, s.ab, s.ba.wires, s.dead);
    FreshJob(s.a, s.b, s.ab, s.ba.wires, s.dead, job);
    NoVerdictYet(s.ab.catalog, s.a.counter, s.ba.wires, s.b.log, History(s.ab));
    StartIsAwaited(s, u, k);
    DeadIsEmpty(s.ab, s.a.counter, s.dead, u);
    hide DirInv, Wired, ReceiverOk, HistInv, ReplyInv, NoVerdict, Accepts, Opens;
    assert forall m :: m in s.ab.wires[t] || m in s.ab.wires[u] ==> !Announces(m, job);
  }

  lemma StartIsAwaited(s: Net, u: nat, k: nat)
    requires CareInv(Attended, s) && u < |s.ab.wires| && k < |s.ab.wires[u]|
    ensures s.ab.wires[u][k].FStart? ==> Opens(s.b, s.ab.wires[u][k], 0)
  {
    var d, m := s.ab, s.ab.wires[u][k];
    hide DirInv, Aligned, Whole, Granting, Asking;
    WiredIs(s.a, s.b, s.ab, s.ba.wires, s.dead);
    assert m in d.wires[u];
    StreamHas(d.wires[u], m);
    hide HistInv, ReplyInv, Books, Stream, Live;
    if m.FStart? {
      StartIsNoStray(s.b, d, u, m);
      InLive(d, m);
      assert Awaits(s.b.inboundBatch, m.batchId, m.id);
      FilesUnderName(s.b, d, s.a.counter);
    }
  }

  lemma StartIsNoStray(r: Conv, d: Dir, u: nat, m: Msg)
    requires Strays(r, d) && m.FStart? && u < |d.wires| && m in d.wires[u]
    ensures !IsStray(d.wires, d.on, d.late, m) && d.on == u
  {
    hide Stream, Flatten, StartIds;
  }

  lemma FilesUnderName(r: Conv, d: Dir, counter: nat)
    requires ReceiverOk(r, d, counter) && r.inboundBatch.Some?
    ensures KeysMatch(r.inboundBatch.value.files)
  {
    hide SlotInv, DialogsInv, SavedInv, Strays;
  }

  /** A file's start marker left behind takes the next document's bytes. */
  lemma StrayFileSwallows(s: Net, t: nat, u: nat, k: nat, html: Bytes)
    requires CareInv(Attended, s) && s.a.task == Acquiring(Doc(html)) && 0 < |html| <= AUTO_ACCEPT_DOC_BYTES
    requires s.a.counter !in s.a.cancelled
    requires t < |s.ab.wires| && t !in s.dead && u < |s.ab.wires| && u != t && k < |s.ab.wires[u]|
    requires s.ab.wires[u][k].FStart?
    ensures CanStep(s, ByA(Acquire(t)))
    ensures exists last ::
      && Onward(Next(s, ByA(Acquire(t))), last)
      && LandedIn(last.b, s.ab.wires[u][k], FirstChunk(html))
  {
    hide CareInv, Onward, NoVerdict;
    var job := OfferedDoc(s, t, u, k, html);
    var s0 := Next(s, ByA(Acquire(t)));
    var n := |s.ab.wires[t]|;
    hide Next, CanStep;
    Stay(s0);
    assert s0.ab.wires[t][..n] == s.ab.wires[t];
    assert forall m :: m in s0.ab.wires[u][..k] ==> m in s.ab.wires[u];
    var z := Hears(s0, s0, u, k, job.batch);
    assert z.ab.wires[u][0] == s.ab.wires[u][k];
    var y := Hears(s0, z, t, n, job.batch);
    var x := OpensDoc(s0, y, t, u, job, html);
    var w := HearsYes(s0, x, t, job);
    var v := StartsDoc(s0, w, t, u, job);
    var p := PumpsFirst(s0, v, t, u, job);
    var last := Overtakes(s0, p, t, u, FirstChunk(html));
  }

  /** B is told of a document it opens unasked. */
  lemma OpensDoc(s0: Net, s: Net, t: nat, u: nat, job: Job, html: Bytes) returns (z: Net)
    requires Onward(s0, s) && t < |s.ab.wires| == |s.ba.wires| && u < |s.ab.wires| && t != u && t !in s.dead
    requires Undecided(s, t, job) && NoVerdict(s.ba.wires, job.batch) && 0 < |html| <= AUTO_ACCEPT_DOC_BYTES
    requires s.ab.wires[t] == [DStart(Some(job.batch), Some(|html| as real))]
    ensures |z.ab.wires| == |z.ba.wires| == |s.ab.wires|
    ensures Onward(s0, z) && Undecided(z, t, job) && YesLast(z.ba.wires[t], job.batch) && z.a == s.a && z.dead == s.dead
    ensures z.ab.wires[u] == s.ab.wires[u] && z.b.inboundBatch == s.b.inboundBatch
  {
    hide Onward;
    Takes(s0, s, t);
    var o := OpenDoc(s.b, job.batch, |html| as real);
    assert OnMessage(s.b, s.ab.wires[t][0], t) == o;
    z := s.(b := o.conv, ab := Consume(s.ab, t), ba := Put(s.ba, t, o.sends, s.dead));
    assert z.ba.wires[t] == s.ba.wires[t] + [Accept(job.batch)];
    forall i | 0 <= i < |s.ba.wires[t]|
      ensures s.ba.wires[t][i] != Accept(job.batch) && s.ba.wires[t][i] != Decline(job.batch)
    {
      assert s.ba.wires[t][i] in s.ba.wires[t];
    }
  }

  lemma StartsDoc(s0: Net, s: Net, t: nat, u: nat, job: Job) returns (z: Net)
    requires Onward(s0, s) && t < |s.ab.wires| == |s.ba.wires| && u < |s.ab.wires| && t !in s.dead
    requires s.a.task == Deciding(t, job, Some(true)) && ValidJob(job) && job.doc
    ensures Onward(s0, z) && z.a.task == Pumping(t, job, 0, 0) && z.a.cancelled == s.a.cancelled && z.b == s.b
    ensures z.dead == s.dead
    ensures z.ab.wires == s.ab.wires && z.ba == s.ba
  {
    hide Onward;
    Move(s0, s, ByA(Resume));
    z := Next(s, ByA(Resume));
    PutEmpty(s.ab, t, s.dead);
  }

  // ------------------------------------- an end marker left behind, and a late yes

  /** A file is open at B that holds all its bytes; its end marker is next on transport u. */
  ghost predicate Complete(s: Net, u: nat, id: Id) {
    && u < |s.ab.wires| == |s.ba.wires| && u !in s.dead
    && s.ab.wires[u] != [] && s.ab.wires[u][0].FEnd? && s.ab.wires[u][0].id == id
    && s.b.inbound.Some? && !s.b.inbound.value.doc && s.b.inbound.value.id == id
    && id in s.ab.catalog && s.ab.catalog[id] == Flatten(s.b.inbound.value.parts)
  }

  /** A has sent the start marker of its next file, and no more of it. */
  predicate Started(s: Net, t: nat, job: Job) {
    && t < |s.ab.wires| && t !in s.dead && s.a.task == Pumping(t, job, 0, 0) && job.batch !in s.a.cancelled
    && ValidJob(job) && job.ids != [] && job.blobs[0] != [] && s.ab.wires[t] == [FStart(job.batch, job.ids[0])]
  }

  /** B says yes to an earlier batch, which its sender no longer waits for. */
  lemma SaysLateYes(s: Net, t: nat, u: nat, id: Id, job: Job, n: nat) returns (z: Net)
    requires Complete(s, u, id) && Started(s, t, job) && n < |s.b.dialogs| && s.b.dialogs[n].AskFiles?
    requires s.b.dialogs[n].batchId != job.batch
    ensures CanStep(s, ByB(Answer(n, true))) && !CleanSwitch(Attended, s, ByB(Answer(n, true)))
    ensures z == Next(s, ByB(Answer(n, true))) && Complete(z, u, id) && Started(z, t, job)
    ensures z.b.inboundBatch.Some? && z.b.inboundBatch.value.batchId != job.batch && |z.ab.wires| == |s.ab.wires|
  {
    hide Flatten, MetaMap;
    z := Next(s, ByB(Answer(n, true)));
    assert z.ab == s.ab && z.b.inbound == s.b.inbound;
  }

  /** B ignores the start marker. */
  lemma Ignores(s0: Net, s: Net, t: nat, u: nat, id: Id, job: Job) returns (z: Net)
    requires Onward(s0, s) && Complete(s, u, id) && Started(s, t, job) && u != t
    requires s.b.inboundBatch.Some? && s.b.inboundBatch.value.batchId != job.batch
    ensures Onward(s0, z) && Complete(z, u, id) && z.a == s.a && z.dead == s.dead && |z.ab.wires| == |s.ab.wires|
    ensures z.ab.wires[t] == []
  {
    hide Onward, Flatten;
    Move(s0, s, ByB(Deliver(t)));
    z := Next(s, ByB(Deliver(t)));
    assert z.b == s.b && z.ab.wires[t] == [] && z.ab.wires[u] == s.ab.wires[u];
  }

  /** The file's first chunk is sent, and lands in what is open. */
  lemma LandsForeign(s0: Net, s: Net, t: nat, u: nat, id: Id, job: Job) returns (z: Net)
    requires Onward(s0, s) && Complete(s, u, id) && u != t && t < |s.ab.wires| && t !in s.dead && s.ab.wires[t] == []
    requires s.a.task == Pumping(t, job, 0, 0) && job.batch !in s.a.cancelled
    requires ValidJob(job) && job.ids != [] && job.blobs[0] != []
    ensures Onward(s0, z) && |z.ab.wires| == |z.ba.wires| == |s.ab.wires| && z.ab.wires[u] == s.ab.wires[u]
    ensures z.dead == s.dead && z.ab.catalog == s.ab.catalog
    ensures z.b.inbound.Some? && !z.b.inbound.value.doc && z.b.inbound.value.id == id
    ensures z.b.inbound.value.parts == s.b.inbound.value.parts + [FirstChunk(job.blobs[0])]
  {
    hide Onward, Flatten;
    var chunk := FirstChunk(job.blobs[0]);
    Move(s0, s, ByA(Resume));
    PutPlain(s.ab, t, Chunk(chunk), s.dead);
    assert job.blobs[0][0..Min(CHUNK_SIZE, |job.blobs[0]|)] == chunk;
    var y := Next(s, ByA(Resume));
    assert y.ab.wires[t] == [] + [Chunk(chunk)] && y.ab.wires[u] == s.ab.wires[u] && y.b == s.b;
    Move(s0, y, ByB(Deliver(t)));
    z := Next(y, ByB(Deliver(t)));
  }

  /** The end marker left behind saves what has landed. */
  lemma SavesForeign(s0: Net, s: Net, t: nat, u: nat, id: Id, job: Job) returns (z: Net)
    requires Onward(s0, s) && Complete(s, u, id) && u != t && t < |s.ab.wires| && t !in s.dead && s.ab.wires[t] == []
    requires s.a.task == Pumping(t, job, 0, 0) && job.batch !in s.a.cancelled
    requires ValidJob(job) && job.ids != [] && job.blobs[0] != []
    ensures Onward(s0, z) && id in z.ab.catalog
    ensures exists data :: Saved(id, data) in z.b.log && data != z.ab.catalog[id]
  {
    var x := LandsForeign(s0, s, t, u, id, job);
    hide Onward, Flatten, ValidJob;
    Move(s0, x, ByB(Deliver(u)));
    z := Next(x, ByB(Deliver(u)));
    FlattenPush(s.b.inbound.value.parts, FirstChunk(job.blobs[0]));
    var data := Flatten(x.b.inbound.value.parts);
    assert Saved(id, data) == z.b.log[|z.b.log| - 1];
    assert |data| > |s.ab.catalog[id]|;
  }

  /** An end marker that careful use leaves behind ends something the receiver holds all of. */
  lemma LeftComplete(s: Net, t: nat, u: nat, k: nat)
    requires CareInv(Attended, s) && t < |s.ab.wires| && u < |s.ab.wires| && u != t && EndsElsewhere(s.ab, t)
    requires k < |s.ab.wires[u]| && s.ab.wires[u][k].FEnd?
    requires s.b.inbound.Some? && !s.b.inbound.value.doc && s.b.inbound.value.id == s.ab.wires[u][k].id
    ensures s.ab.wires[u][k].id in s.ab.catalog && s.ab.catalog[s.ab.wires[u][k].id] == Flatten(s.b.inbound.value.parts)
    ensures s.ab.wires[u][k].id < s.a.counter
  {
    hide Kept;
    WiredIs(s.a, s.b, s.ab, s.ba.wires, s.dead);
    hide DirInv, CareInv, Flatten, Wired, EndsElsewhere, ReplyInv, History, StrayOk;
    Moves(s.b, s.ab, t, s.a.counter, s.dead);
    var d, m := MoveTo(s.ab, t), s.ab.wires[u][k];
    assert IsStray(d.wires, d.on, d.late, m) by { hide Stream; assert m in d.wires[u]; }
    hide IsStray, HistInv, Books;
    assert StrayOk(m, s.b.inbound, s.b.log, d.past, d.catalog);
    assert m.id in d.catalog && Flatten(s.b.inbound.value.parts) == d.catalog[m.id] by {
      EndMatches(m, s.b.inbound, s.b.log, d.past, d.catalog);
    }
    assert m.id < s.a.counter by { CatalogBelow(History(s.ab), s.ab.catalog, s.a.counter, s.b.log); }
  }

  lemma EndMatches(m: Msg, slot: Option<Inbound>, log: seq<Event>, past: seq<Msg>, catalog: map<Id, Bytes>)
    requires StrayOk(m, slot, log, past, catalog) && m.FEnd? && slot.Some? && !slot.value.doc && slot.value.id == m.id
    ensures m.id in catalog && Flatten(slot.value.parts) == catalog[m.id]
  {
  }

  lemma CatalogBelow(h: seq<Msg>, catalog: map<Id, Bytes>, counter: nat, rlog: seq<Event>)
    requires HistInv(h, catalog, counter, rlog)
    ensures forall id :: id in catalog ==> id < counter
  {
  }

  /** Open questions are about earlier batches. */
  lemma AskedEarlier(s: Net, n: nat)
    requires CareInv(Attended, s) && n < |s.b.dialogs| && s.b.dialogs[n].AskFiles?
    ensures s.b.dialogs[n].batchId < s.a.counter
  {
    hide Kept;
    WiredIs(s.a, s.b, s.ab, s.ba.wires, s.dead);
    hide DirInv, Wired, HistInv, ReplyInv, Strays, SlotInv, SavedInv, KeysMatch;
    assert DialogInv(s.b.dialogs[n], s.ab.past, s.ab.catalog, s.a.counter, s.b.log);
  }

  lemma KeepsOpen(c: Conv, c': Conv, ms: seq<Msg>)
    requires Undisturbed(c, c', ms) && c.inbound.Some? && forall m :: m in ms ==> Bystander(m, c.inbound.value.id)
    ensures c'.inbound == c.inbound && c.dialogs <= c'.dialogs
  {
  }

  lemma RepliesPass(w: seq<Msg>, id: Id)
    requires MoreReplies([], w)
    ensures forall m :: m in w ==> Bystander(m, id)
  {
    forall m | m in w ensures Bystander(m, id) {
      var i: nat :| i < |w| && w[i] == m;
      assert IsReply(w[i]);
    }
  }

  /** A new batch gives out new names. */
  lemma CatalogStays(s: Net, t: nat, blobs: seq<Bytes>, id: Id)
    requires s.a.task == Acquiring(Files(blobs)) && blobs != [] && t < |s.ab.wires| && t !in s.dead
    requires id in s.ab.catalog && id < s.a.counter
    ensures CanStep(s, ByA(Acquire(t)))
    ensures var c := Next(s, ByA(Acquire(t))).ab.catalog; id in c && c[id] == s.ab.catalog[id]
  {
    var job := AnnouncesFiles(s, t, blobs);
    hide Next, CanStep, Contents;
    assert NoDup(job.ids);
    ContentsAre(job.ids, blobs);
    assert id !in job.ids;
  }

  /** A's batch is accepted, and at B all else is as it was. */
  lemma Agreed(s0: Net, s: Net, t: nat, u: nat, k: nat, job: Job, id: Id) returns (z: Net)
    requires Onward(s0, s) && t != u && t < |s.ab.wires| == |s.ba.wires| && u < |s.ab.wires| && t !in s.dead
    requires u !in s.dead
    requires k < |s.ab.wires[u]| && ValidJob(job) && !job.doc && job.ids != [] && job.batch !in s.a.cancelled
    requires job.ids[0] in s.ab.catalog && s.ab.catalog[job.ids[0]] == job.blobs[0]
    requires Undecided(s, t, job) && NoVerdict(s.ba.wires, job.batch) && s.ab.wires[t] != []
    requires s.ab.wires[t][|s.ab.wires[t]| - 1] == Batch(job.batch, Metas(job.ids, job.blobs))
    requires forall m :: m in s.ab.wires[t][..|s.ab.wires[t]| - 1] || m in s.ab.wires[u][..k] ==>
        !IsStartOf(m, job.batch) && Bystander(m, id)
    requires s.b.inbound.Some? && s.b.inbound.value.id == id
    ensures Onward(s0, z) && Offering(z, t, u, job) && Undecided(z, t, job) && YesLast(z.ba.wires[t], job.batch)
    ensures z.ab.wires[t] == [] && z.ab.wires[u] == s.ab.wires[u][k..] && z.ab.catalog == s.ab.catalog
    ensures z.b.inbound == s.b.inbound && s.b.dialogs <= z.b.dialogs
  {
    hide Onward, NoVerdict, Undisturbed, Bystander, IsStartOf, Metas, ValidJob, YesLast;
    var n := |s.ab.wires[t]| - 1;
    var y := Hears(s0, s, u, k, job.batch);
    KeepsOpen(s.b, y.b, s.ab.wires[u][..k]);
    assert y.ab.wires[t] == s.ab.wires[t];
    z := SaysYes(s0, y, t, u, job, n);
    KeepsOpen(y.b, z.b, s.ab.wires[t][..n]);
  }

  /** A begins its file, and B hears all but the start marker. */
  lemma Awaited(s0: Net, s: Net, t: nat, u: nat, job: Job) returns (z: Net)
    requires Onward(s0, s) && Offering(s, t, u, job) && Undecided(s, t, job) && YesLast(s.ba.wires[t], job.batch)
    requires s.ab.wires[t] == [] && s.b.inbound.Some? && job.blobs[0] != []
    ensures |z.ab.wires| == |z.ba.wires| == |s.ab.wires|
    ensures Onward(s0, z) && Started(z, t, job) && z.ab.wires[u] == s.ab.wires[u] && z.ab.catalog == s.ab.catalog
    ensures u !in z.dead && z.b.inbound == s.b.inbound && s.b.dialogs <= z.b.dialogs
  {
    hide Onward, Undisturbed, MoreReplies, YesLast, Bystander, Undecided;
    var v := Begins(s0, s, t, u, job);
    var m := |v.ab.wires[t]| - 1;
    z := Hears(s0, v, t, m, 0);
    RepliesPass(v.ab.wires[t][..m], s.b.inbound.value.id);
    KeepsOpen(v.b, z.b, v.ab.wires[t][..m]);
    assert z.ab.wires[t] == [FStart(job.batch, job.ids[0])];
  }

  /** A begins its next file, and at B all is as it was. */
  lemma FileBegun(s: Net, t: nat, u: nat, k: nat, blobs: seq<Bytes>) returns (x: Net, job: Job)
    requires CareInv(Attended, s) && s.a.task == Acquiring(Files(blobs)) && blobs != [] && blobs[0] != []
    requires s.a.counter !in s.a.cancelled
    requires t < |s.ab.wires| && t !in s.dead && u < |s.ab.wires| && u != t && k < |s.ab.wires[u]|
    requires s.ab.wires[u][k].FEnd?
    requires s.b.inbound.Some? && !s.b.inbound.value.doc && s.b.inbound.value.id == s.ab.wires[u][k].id
    requires var id := s.ab.wires[u][k].id;
            id in s.ab.catalog && id < s.a.counter && s.ab.catalog[id] == Flatten(s.b.inbound.value.parts)
    requires forall m :: m in s.ab.wires[t] || m in s.ab.wires[u][..k] ==> Bystander(m, s.b.inbound.value.id)
    ensures CanStep(s, ByA(Acquire(t))) && Onward(Next(s, ByA(Acquire(t))), x)
    ensures Complete(x, u, s.ab.wires[u][k].id) && Started(x, t, job) && job.batch == s.a.counter
    ensures s.b.dialogs <= x.b.dialogs
  {
    hide CareInv, Onward, NoVerdict, Flatten, Bystander, IsStartOf, YesLast;
    var id := s.ab.wires[u][k].id;
    job := Offered(Attended, s, t, u, k, blobs);
    CatalogStays(s, t, blobs, id);
    var s0 := Next(s, ByA(Acquire(t)));
    hide Next, CanStep, ValidJob, Undecided;
    Stay(s0);
    assert s0.ab.wires[t][..|s.ab.wires[t]|] == s.ab.wires[t] && s0.ab.wires[u][..k] == s.ab.wires[u][..k];
    assert forall m :: m in s.ab.wires[u][..k] ==> m in s.ab.wires[u];
    var y := Agreed(s0, s0, t, u, k, job, id);
    x := Awaited(s0, y, t, u, job);
  }

  /**
   * A way on from `s0` in which B answers question n with yes too late, and which is careful
   * in every respect before and after that one step.
   */
  ghost predicate OneLapse(s0: Net, mid: Net, n: nat, last: Net) {
    && Onward(s0, mid)
    && CanStep(mid, ByB(Answer(n, true))) && !CleanSwitch(Attended, mid, ByB(Answer(n, true)))
    && Onward(Next(mid, ByB(Answer(n, true))), last)
  }

  /**
   * Timely answers are what end markers left behind ask for: from any attended state with a
   * question about an earlier batch still open, a careful move that leaves behind the end
   * marker of a file still open at B, with nothing about that file ahead of it, has a way on
   * that breaks what is promised, careful in every respect but for one yes to that question.
   * (In drained use, where nothing is left behind, that yes does no such harm.)
   */
  lemma StrayEndSaves(s: Net, t: nat, u: nat, k: nat, blobs: seq<Bytes>, n: nat)
    requires CareInv(Attended, s) && s.a.task == Acquiring(Files(blobs)) && blobs != [] && blobs[0] != []
    requires s.a.counter !in s.a.cancelled
    requires t < |s.ab.wires| && t !in s.dead && u < |s.ab.wires| && u != t && EndsElsewhere(s.ab, t)
    requires k < |s.ab.wires[u]| && s.ab.wires[u][k].FEnd?
    requires s.b.inbound.Some? && !s.b.inbound.value.doc && s.b.inbound.value.id == s.ab.wires[u][k].id
    requires n < |s.b.dialogs| && s.b.dialogs[n].AskFiles?
    requires forall m :: m in s.ab.wires[t] || m in s.ab.wires[u][..k] ==> Bystander(m, s.b.inbound.value.id)
    ensures CanStep(s, ByA(Acquire(t))) && CleanSwitch(Attended, s, ByA(Acquire(t)))
    ensures exists mid, last ::
      OneLapse(Next(s, ByA(Acquire(t))), mid, n, last) && !Delivered(last.a, last.b, last.ab)
  {
    hide CareInv, Onward, NoVerdict, Flatten, Undisturbed, MoreReplies;
    LeftComplete(s, t, u, k);
    AskedEarlier(s, n);
    var x, job := FileBegun(s, t, u, k, blobs);
    var s0 := Next(s, ByA(Acquire(t)));
    hide EndsElsewhere, Bystander, Complete;
    var id := s.ab.wires[u][k].id;
    var y := SaysLateYes(x, t, u, id, job, n);
    hide Next, CanStep, CleanSwitch;
    Stay(y);
    var w := Ignores(y, y, t, u, id, job);
    var last := SavesForeign(y, w, t, u, id, job);
    assert OneLapse(s0, x, n, last);
    hide IsSubseq, SavedIds, DoneIds, NoDup, OneLapse;
    assert !Delivered(last.a, last.b, last.ab);
  }

  // ------------------------------------------- an answer that comes too late

  /**
   * Saying yes to a document while the next message of the stream is a chunk of something
   * else puts that chunk into the document.
   */
  lemma LateYesMisplaces(care: Care, s: Net, n: nat, t: nat)
    requires CareInv(care, s) && n < |s.b.dialogs| && s.b.dialogs[n].AskDoc?
    requires t < |s.ab.wires| && t !in s.dead && s.ab.wires[t] != [] && s.ab.wires[t][0].Chunk?
    requires |s.ab.wires[t][0].data| as real <= s.b.dialogs[n].size
    ensures CanStep(s, ByB(Answer(n, true))) && CanStep(Next(s, ByB(Answer(n, true))), ByB(Deliver(t)))
    ensures var q, data := s.b.dialogs[n], s.ab.wires[t][0].data;
            var z := Next(Next(s, ByB(Answer(n, true))), ByB(Deliver(t)));
            z.b.inbound == Some(Inbound(true, q.id, q.size, [data], |data|)) && data != []
    ensures var seg := Scan(s.ab.past); seg.Seg? && !(seg.doc && seg.id == s.b.dialogs[n].id)
  {
    hide Kept, DirInv;
    WiredIs(s.a, s.b, s.ab, s.ba.wires, s.dead);
    NotItsChunk(s.b, s.ab, s.a.counter, s.dead, t, n);
    hide Wired, ReceiverOk, HistInv, ReplyInv, Scan, Inv, CareInv;
    YesThenDeliver(s, n, t);
  }

  lemma NotItsChunk(r: Conv, d: Dir, counter: nat, dead: set<nat>, t: nat, n: nat)
    requires Wired(d, counter, dead) && ReceiverOk(r, d, counter) && HistInv(History(d), d.catalog, counter, r.log)
    requires t < |d.wires| && d.wires[t] != [] && d.wires[t][0].Chunk? && n < |r.dialogs| && r.dialogs[n].AskDoc?
    ensures d.wires[t][0].data != []
    ensures var seg := Scan(d.past); seg.Seg? && !(seg.doc && seg.id == r.dialogs[n].id)
  {
    ChunkIsNext(r, d, counter, dead, t);
    NextMessage(d, t, counter, r.log);
    assert DialogInv(r.dialogs[n], d.past, d.catalog, counter, r.log);
    hide HistInv, Wired, Scan, StartIds, SavedIds, Strays, SlotInv, SavedInv;
  }

  lemma YesThenDeliver(s: Net, n: nat, t: nat)
    requires n < |s.b.dialogs| && s.b.dialogs[n].AskDoc?
    requires t < |s.ab.wires| && t !in s.dead && s.ab.wires[t] != [] && s.ab.wires[t][0].Chunk?
    requires |s.ab.wires[t][0].data| as real <= s.b.dialogs[n].size
    ensures CanStep(s, ByB(Answer(n, true))) && CanStep(Next(s, ByB(Answer(n, true))), ByB(Deliver(t)))
    ensures var q, data := s.b.dialogs[n], s.ab.wires[t][0].data;
            var z := Next(Next(s, ByB(Answer(n, true))), ByB(Deliver(t)));
            z.b.inbound == Some(Inbound(true, q.id, q.size, [data], |data|))
  {
    hide Stream, Flatten, Put;
    var y, data := Next(s, ByB(Answer(n, true))), s.ab.wires[t][0].data;
    assert y.ab == s.ab && y.b.inbound == Some(Inbound(true, s.b.dialogs[n].id, s.b.dialogs[n].size, [], 0));
    assert [] + [data] == [data];
  }

  lemma ChunkIsNext(r: Conv, d: Dir, counter: nat, dead: set<nat>, t: nat)
    requires Wired(d, counter, dead) && ReceiverOk(r, d, counter) && t < |d.wires| && d.wires[t] != []
    requires d.wires[t][0].Chunk?
    ensures IsNext(d, t)
  {
    hide Books, IsStray, FewerStrays, WireInv, Stream, StartIds;
    TakeKeeps(d, t, counter, dead);
  }

  // --------------------------------------- why an unfinished stream must drain

  ghost predicate Reachable(care: Care, n: nat, s: Net) {
    exists steps :: IsRun(care, InitNet(n), steps, s)
  }

  lemma Reach(care: Care, n: nat, s: Net, step: Step)
    requires Reachable(care, n, s) && CanStep(s, step) && CleanSwitch(care, s, step)
    ensures Reachable(care, n, Next(s, step))
  {
    var steps :| IsRun(care, InitNet(n), steps, s);
    RunSnoc(care, InitNet(n), steps, s, step);
  }

  const FIRST: Bytes := [1]
  const SECOND: Bytes := [2]

  /** Putting anything but an end marker on a wire changes nothing else. */
  lemma PutPlain(d: Dir, t: nat, m: Msg, dead: set<nat>)
    requires t < |d.wires| && t !in dead && !IsEnd(m)
    ensures Put(d, t, [m], dead) == d.(wires := d.wires[t := d.wires[t] + [m]])
  {
    assert EndedBy([m]) == {} && d.ended + {} == d.ended;
  }

  predicate MovesWith(care: Care, d: Dir, t: nat) {
    (care.Drained? ==> DrainedElsewhere(d, t)) && (care.Attended? ==> EndsElsewhere(d, t))
  }

  /** A batch of one file is offered on transport t. */
  lemma OfferSent(care: Care, n: nat, s: Net, t: nat, blob: Bytes, job: Job) returns (z: Net)
    requires Reachable(care, n, s) && t < n && s.dead == {} && |s.ab.wires| == n == |s.ba.wires| && s.ab.wires[t] == []
    requires s.a.task == NoTask && !s.a.sending && MovesWith(care, s.ab, t)
    requires job == Job(false, s.a.counter, FreshIds(s.a.counter + 1, 1), [blob])
    ensures Reachable(care, n, z) && z == s.(
        a := s.a.(sending := true, task := Deciding(t, job, None), counter := job.batch + 2,
                  pendingDecision := Some(job.batch)),
        ab := MoveTo(s.ab, t).(catalog := s.ab.catalog + Contents(job.ids, [blob]),
                               wires := s.ab.wires[t := [Batch(job.batch, Metas(job.ids, [blob]))]]))
  {
    hide Reachable, Contents, Stream, Metas;
    PutPlain(MoveTo(s.ab, t).(catalog := s.ab.catalog + Contents(job.ids, [blob])), t,
             Batch(job.batch, Metas(job.ids, [blob])), {});
    Reach(care, n, s, ByA(Start(Files([blob]))));
    var s1 := Next(s, ByA(Start(Files([blob]))));
    Reach(care, n, s1, ByA(Acquire(t)));
    z := Next(s1, ByA(Acquire(t)));
    assert z.ab.wires[t] == [Batch(job.batch, Metas(job.ids, [blob]))];
  }

  /** It is offered and its question shown. */
  lemma Offer(care: Care, n: nat, s: Net, t: nat, blob: Bytes, job: Job)
    requires Reachable(care, n, s) && t < n && s.dead == {} && |s.ab.wires| == n == |s.ba.wires| && s.ab.wires[t] == []
    requires s.a.task == NoTask && !s.a.sending && MovesWith(care, s.ab, t)
    requires job == Job(false, s.a.counter, FreshIds(s.a.counter + 1, 1), [blob])
    ensures Reachable(care, n, s.(
        a := s.a.(sending := true, task := Deciding(t, job, None), counter := job.batch + 2,
                  pendingDecision := Some(job.batch)),
        b := s.b.(dialogs := s.b.dialogs + [AskFiles(job.batch, Metas(job.ids, [blob]), t)]),
        ab := MoveTo(s.ab, t).(catalog := s.ab.catalog + Contents(job.ids, [blob]))))
  {
    hide Reachable, Contents, Stream, Metas;
    var z := OfferSent(care, n, s, t, blob, job);
    var e := ByB(Deliver(t));
    Reach(care, n, z, e);
    assert Next(z, e).ab.wires[t] == s.ab.wires[t];
    assert Next(z, e).ab.wires == s.ab.wires;
    assert Next(z, e).b.dialogs == s.b.dialogs + [AskFiles(job.batch, Metas(job.ids, [blob]), t)];
    PutEmpty(z.ba, t, {});
  }

  /** The question is answered yes, and the sender hears of it. */
  lemma AcceptOffer(care: Care, n: nat, s: Net, t: nat, job: Job, files: seq<FileMeta>, before: seq<Dialog>)
    requires Reachable(care, n, s) && t < n && s.dead == {} && |s.ab.wires| == n == |s.ba.wires| && s.ba.wires[t] == []
    requires s.a.task == Deciding(t, job, None) && s.a.pendingDecision == Some(job.batch)
    requires s.b.dialogs == before + [AskFiles(job.batch, files, t)]
    ensures Reachable(care, n, s.(
        a := s.a.(task := Deciding(t, job, Some(true)), pendingDecision := None),
        b := s.b.(dialogs := before, inboundBatch := Some(InboundBatch(job.batch, MetaMap(files))))))
  {
    hide Reachable, MetaMap, Stream;
    PutPlain(s.ba, t, Accept(job.batch), {});
    var e1, e2 := ByB(Answer(|before|, true)), ByA(Deliver(t));
    Reach(care, n, s, e1);
    var s1 := Next(s, e1);
    assert s1.ba.wires[t] == [Accept(job.batch)];
    Reach(care, n, s1, e2);
    assert Next(s1, e2).ba.wires[t] == s.ba.wires[t];
    assert Next(s1, e2).ba.wires == s.ba.wires;
    assert s1.b.dialogs == before;
    PutEmpty(s1.ab, t, {});
  }

  /** The sender puts the start marker of its first file on the wire. */
  lemma StartFirst(care: Care, n: nat, s: Net, t: nat, job: Job)
    requires Reachable(care, n, s) && t < n && s.dead == {} && |s.ab.wires| == n == |s.ba.wires|
    requires s.a.task == Deciding(t, job, Some(true)) && ValidJob(job) && !job.doc && |job.ids| == 1
    requires s.a.cancelled == {}
    ensures Reachable(care, n, s.(
        a := Emit(s.a.(task := Pumping(t, job, 0, 0)), SendStarted(job.ids[0])),
        ab := s.ab.(wires := s.ab.wires[t := s.ab.wires[t] + [FStart(job.batch, job.ids[0])]])))
  {
    hide Reachable;
    PutPlain(s.ab, t, FStart(job.batch, job.ids[0]), {});
    Reach(care, n, s, ByA(Resume));
    PutEmpty(s.ab, t, {});
    var s1 := s.(a := s.a.(task := Looping(t, job, 0)));
    assert Next(s, ByA(Resume)) == s1;
    Reach(care, n, s1, ByA(Resume));
  }

  /** The sender pumps the single byte of its file. */
  lemma PumpByte(care: Care, n: nat, s: Net, t: nat, job: Job)
    requires Reachable(care, n, s) && t < n && s.dead == {} && |s.ab.wires| == n == |s.ba.wires|
    requires s.a.task == Pumping(t, job, 0, 0) && ValidTask(s.a.task) && |job.blobs[0]| == 1
    requires s.a.cancelled == {}
    ensures Reachable(care, n, s.(
        a := s.a.(task := Pumping(t, job, 0, 1)),
        ab := s.ab.(wires := s.ab.wires[t := s.ab.wires[t] + [Chunk(job.blobs[0])]])))
  {
    hide Reachable;
    PutPlain(s.ab, t, Chunk(job.blobs[0]), {});
    Reach(care, n, s, ByA(Resume));
    assert job.blobs[0][0..1] == job.blobs[0];
  }

  /** The receiver takes the next message of transport t. */
  lemma Take(care: Care, n: nat, s: Net, t: nat)
    requires Reachable(care, n, s) && t < n && s.dead == {} && |s.ab.wires| == n == |s.ba.wires| && s.ab.wires[t] != []
    requires OnMessage(s.b, s.ab.wires[t][0], t).sends == []
    ensures Reachable(care, n, s.(b := OnMessage(s.b, s.ab.wires[t][0], t).conv, ab := Consume(s.ab, t)))
  {
    hide Reachable, OnMessage;
    Reach(care, n, s, ByB(Deliver(t)));
    PutEmpty(s.ba, t, {});
  }

  lemma ReachInit()
    ensures Reachable(Reckless, 2, InitNet(2))
  {
    assert IsRun(Reckless, InitNet(2), [], InitNet(2));
  }

  const JOB1 := Job(false, 0, [1], [FIRST])
  const JOB2 := Job(false, 2, [3], [SECOND])

  /** The sender gave up on file 1 with its start marker and its byte still in flight. */
  lemma FirstAbandoned() returns (s: Net)
    ensures Reachable(Reckless, 2, s) && s.dead == {} && s.ba.wires == [[], []]
    ensures s.ab.wires == [[FStart(0, 1), Chunk(FIRST)], []]
    ensures s.a.task == NoTask && !s.a.sending && s.a.counter == 2 && s.a.cancelled == {}
    ensures s.b.dialogs == [] && s.b.inbound == None && s.b.log == []
  {
    hide Reachable, Contents, Stream, MetaMap;
    ReachInit();
    var i := InitNet(2);
    assert i.ab.wires == [[], []] == i.ba.wires;
    assert JOB1.ids == FreshIds(1, 1);
    Offer(Reckless, 2, i, 0, FIRST, JOB1);
    var s1 := i.(a := i.a.(sending := true, task := Deciding(0, JOB1, None), counter := 2, pendingDecision := Some(0)),
                 b := i.b.(dialogs := [] + [AskFiles(0, Metas(JOB1.ids, [FIRST]), 0)]),
                 ab := MoveTo(i.ab, 0).(catalog := i.ab.catalog + Contents(JOB1.ids, [FIRST])));
    AcceptOffer(Reckless, 2, s1, 0, JOB1, Metas(JOB1.ids, [FIRST]), []);
    var s2 := s1.(a := s1.a.(task := Deciding(0, JOB1, Some(true)), pendingDecision := None),
                  b := s1.b.(dialogs := [], inboundBatch := Some(InboundBatch(0, MetaMap(Metas(JOB1.ids, [FIRST]))))));
    StartFirst(Reckless, 2, s2, 0, JOB1);
    var s3 := s2.(a := Emit(s2.a.(task := Pumping(0, JOB1, 0, 0)), SendStarted(1)),
                  ab := s2.ab.(wires := s2.ab.wires[0 := s2.ab.wires[0] + [FStart(0, 1)]]));
    PumpByte(Reckless, 2, s3, 0, JOB1);
    var s4 := s3.(a := s3.a.(task := Pumping(0, JOB1, 0, 1)),
                  ab := s3.ab.(wires := s3.ab.wires[0 := s3.ab.wires[0] + [Chunk(FIRST)]]));
    Reach(Reckless, 2, s4, ByA(Fault));
    s := Next(s4, ByA(Fault));
    assert s.ab.wires[0] == [FStart(0, 1), Chunk(FIRST)];
  }

  /** File 3 is started over the other transport and its slot is open. */
  lemma SecondOpened() returns (s: Net)
    ensures Reachable(Reckless, 2, s) && s.dead == {} && |s.ba.wires| == 2
    ensures s.ab.wires == [[FStart(0, 1), Chunk(FIRST)], []]
    ensures s.a.task == Pumping(1, JOB2, 0, 0) && s.a.cancelled == {} && 3 in s.ab.catalog && s.ab.catalog[3] == SECOND
    ensures s.b.inbound == Some(Inbound(false, 3, 1.0, [], 0))
    ensures s.b.inboundBatch.Some? && s.b.inboundBatch.value.batchId == 2
  {
    hide Reachable, Stream;
    var i := FirstAbandoned();
    var files := [FileMeta(3, 1)];
    assert JOB2.ids == FreshIds(3, 1) && Metas(JOB2.ids, [SECOND]) == files;
    Offer(Reckless, 2, i, 1, SECOND, JOB2);
    var s1 := i.(a := i.a.(sending := true, task := Deciding(1, JOB2, None), counter := 4, pendingDecision := Some(2)),
                 b := i.b.(dialogs := [] + [AskFiles(2, files, 1)]),
                 ab := MoveTo(i.ab, 1).(catalog := i.ab.catalog + Contents(JOB2.ids, [SECOND])));
    AcceptOffer(Reckless, 2, s1, 1, JOB2, files, []);
    ContentsAre(JOB2.ids, [SECOND]);
    assert JOB2.ids[0] == 3;
    assert files[..0] == [];
    assert MetaMap(files) == map[3 := FileMeta(3, 1)];
    var s2 := s1.(a := s1.a.(task := Deciding(1, JOB2, Some(true)), pendingDecision := None),
                  b := s1.b.(dialogs := [], inboundBatch := Some(InboundBatch(2, MetaMap(files)))));
    StartFirst(Reckless, 2, s2, 1, JOB2);
    var s3 := s2.(a := Emit(s2.a.(task := Pumping(1, JOB2, 0, 0)), SendStarted(3)),
                  ab := s2.ab.(wires := s2.ab.wires[1 := s2.ab.wires[1] + [FStart(2, 3)]]));
    Take(Reckless, 2, s3, 1);
    s := s3.(b := OnMessage(s3.b, FStart(2, 3), 1).conv, ab := Consume(s3.ab, 1));
    assert s.ab.wires[1] == [];
    assert s.ab.wires[0] == [FStart(0, 1), Chunk(FIRST)];
  }

  /** The late messages of file 1 arrive while file 3 is open. */
  lemma LateBytesLand() returns (s: Net)
    ensures Reachable(Reckless, 2, s) && s.dead == {} && |s.ba.wires| == 2
    ensures s.ab.wires == [[], []]
    ensures s.a.task == Pumping(1, JOB2, 0, 0) && s.a.cancelled == {} && 3 in s.ab.catalog && s.ab.catalog[3] == SECOND
    ensures s.b.inbound == Some(Inbound(false, 3, 1.0, [FIRST], 1))
  {
    hide Reachable;
    var i := SecondOpened();
    Take(Reckless, 2, i, 0);
    var s1 := i.(b := OnMessage(i.b, FStart(0, 1), 0).conv, ab := Consume(i.ab, 0));
    assert s1.b == i.b;
    Take(Reckless, 2, s1, 0);
    s := s1.(b := OnMessage(s1.b, Chunk(FIRST), 0).conv, ab := Consume(s1.ab, 0));
    assert s.ab.wires[0] == [];
    assert s.b.inbound.value.parts == [FIRST];
  }

  /**
   * The first file's bytes are still in flight on transport 0 when its sender gives up;
   * the next file goes over transport 1 at once, and the late bytes land in it.
   */
  lemma StraySwitchCorrupts()
    ensures exists s ::
      Reachable(Reckless, 2, s) && Saved(3, [1, 2]) in s.b.log && 3 in s.ab.catalog && s.ab.catalog[3] == [2]
    ensures exists s :: Reachable(Reckless, 2, s) && !Delivered(s.a, s.b, s.ab)
  {
    hide Reachable, IsSubseq, SavedIds, DoneIds, NoDup;
    var i := SecondByteLands();
    var s := EndConfirms(i);
    assert s.ab.catalog[3] != [1, 2];
  }

  /** The second file's own byte follows the foreign one. */
  lemma SecondByteLands() returns (s: Net)
    ensures Reachable(Reckless, 2, s) && s.dead == {} && |s.ba.wires| == 2
    ensures s.ab.wires == [[], []]
    ensures s.a.task == Pumping(1, JOB2, 0, 1) && s.a.cancelled == {} && 3 in s.ab.catalog && s.ab.catalog[3] == SECOND
    ensures s.b.inbound == Some(Inbound(false, 3, 1.0, [FIRST, SECOND], 2))
  {
    hide Reachable;
    var i := LateBytesLand();
    PumpByte(Reckless, 2, i, 1, JOB2);
    var s1 := i.(a := i.a.(task := Pumping(1, JOB2, 0, 1)),
                 ab := i.ab.(wires := i.ab.wires[1 := i.ab.wires[1] + [Chunk(SECOND)]]));
    Take(Reckless, 2, s1, 1);
    s := s1.(b := OnMessage(s1.b, Chunk(SECOND), 1).conv, ab := Consume(s1.ab, 1));
    assert s.b.inbound.value.parts == [FIRST, SECOND];
    assert s.ab.wires[1] == [];
  }

  /** The end marker arrives, and the receiver saves what it has. */
  lemma EndConfirms(i: Net) returns (s: Net)
    requires Reachable(Reckless, 2, i) && i.dead == {} && i.ab.wires == [[], []]
    requires i.a.task == Pumping(1, JOB2, 0, 1) && 3 in i.ab.catalog
    requires i.b.inbound == Some(Inbound(false, 3, 1.0, [FIRST, SECOND], 2))
    ensures Reachable(Reckless, 2, s) && Saved(3, [1, 2]) in s.b.log && s.ab.catalog == i.ab.catalog
  {
    hide Reachable;
    Reach(Reckless, 2, i, ByA(Resume));
    var s1 := Next(i, ByA(Resume));
    assert s1.ab.wires[1] == [FEnd(2, 3)];
    Reach(Reckless, 2, s1, ByB(Deliver(1)));
    s := Next(s1, ByB(Deliver(1)));
    BothBytes();
  }

  lemma BothBytes()
    ensures Flatten([FIRST, SECOND]) == [1, 2]
  {
    FlattenPush([FIRST], SECOND);
    FlattenPush([], FIRST);
    assert [FIRST, SECOND] == [FIRST] + [SECOND] && [] + [FIRST] == [FIRST];
  }

  // --------------------------------------------- the answer that came too late

  const BIG: nat := AUTO_ACCEPT_DOC_BYTES + 1

  function Zeros(n: nat): Bytes { seq(n, _ => 0) }

  const LATE: Dialog := AskDoc(0, BIG as real, 0)
  const DOC: Job := Job(true, 0, [0], [Zeros(BIG)])
  const JOB: Job := Job(false, 1, [2], [FIRST])

  /** A large document is announced. */
  lemma DocSent() returns (s: Net)
    ensures Reachable(Drained, 1, s) && s.dead == {} && s.ab.wires == [[DStart(Some(0), Some(BIG as real))]]
    ensures s.ba.wires == [[]]
    ensures s.a.task == Deciding(0, DOC, None) && s.a.sending && s.a.counter == 1 && s.a.cancelled == {} && s.b == FRESH
    ensures s.ab.on == 0 && s.ab.late == 0 && 0 in s.ab.catalog && s.ab.catalog[0] == Zeros(BIG)
  {
    hide Reachable, Contents, Stream, Zeros;
    var html := Zeros(BIG);
    assert |html| == BIG by { assert |Zeros(BIG)| == BIG by { ZerosAre(BIG); } }
    var i := InitNet(1);
    assert Reachable(Drained, 1, i) by { assert IsRun(Drained, InitNet(1), [], InitNet(1)); ReachIs(Drained, 1, i); }
    Reach(Drained, 1, i, ByA(Start(Doc(html))));
    var s1 := Next(i, ByA(Start(Doc(html))));
    assert i.ab.wires == [[]];
    Reach(Drained, 1, s1, ByA(Acquire(0)));
    s := Next(s1, ByA(Acquire(0)));
    ContentsAre([0], [html]);
    assert [0][0] == 0 && 0 in Contents([0], [html]) && s.ab.catalog[0] == html;
    assert s.ab.wires[0] == [] + [DStart(Some(0), Some(BIG as real))] == [DStart(Some(0), Some(BIG as real))];
  }

  /** The sender gave up waiting; the question about its document is still open. */
  lemma DocAsked() returns (s: Net)
    ensures Reachable(Drained, 1, s) && s.dead == {} && s.ab.wires == [[]] == s.ba.wires
    ensures s.a.task == NoTask && !s.a.sending && s.a.counter == 1 && s.a.cancelled == {}
    ensures s.b.dialogs == [LATE] && s.b.inbound == None
    ensures 0 in s.ab.catalog && s.ab.catalog[0] == Zeros(BIG)
  {
    hide Reachable, Contents, Stream, Zeros;
    var s2 := DocSent();
    Reach(Drained, 1, s2, ByB(Deliver(0)));
    var s3 := Next(s2, ByB(Deliver(0)));
    assert s3.b.dialogs == [LATE];
    PutEmpty(s2.ba, 0, {});
    assert s3.ab.wires[0] == [] && |s3.ab.wires| == 1;
    Reach(Drained, 1, s3, ByA(Fault));
    s := Next(s3, ByA(Fault));
  }

  lemma ReachIs(care: Care, n: nat, s: Net)
    requires IsRun(care, InitNet(n), [], s)
    ensures Reachable(care, n, s)
  {
  }

  lemma ZerosAre(n: nat)
    ensures |Zeros(n)| == n && forall k :: 0 <= k < n ==> Zeros(n)[k] == 0
  {
  }

  /** A file is under way, its byte next, when the answer comes. */
  lemma FileUnderWay() returns (s: Net)
    ensures Reachable(Drained, 1, s) && s.dead == {} && s.ab.wires == [[Chunk(FIRST)]] && |s.ba.wires| == 1
    ensures s.b.dialogs == [LATE]
    ensures 0 in s.ab.catalog && s.ab.catalog[0] == Zeros(BIG)
  {
    hide Reachable, Contents, Stream, Zeros, MetaMap;
    var i := DocAsked();
    var files := Metas(JOB.ids, [FIRST]);
    assert JOB.ids == FreshIds(2, 1);
    Offer(Drained, 1, i, 0, FIRST, JOB);
    ContentsAre(JOB.ids, [FIRST]);
    var s1 := i.(a := i.a.(sending := true, task := Deciding(0, JOB, None), counter := 3, pendingDecision := Some(1)),
                 b := i.b.(dialogs := [LATE] + [AskFiles(1, files, 0)]),
                 ab := MoveTo(i.ab, 0).(catalog := i.ab.catalog + Contents(JOB.ids, [FIRST])));
    AcceptOffer(Drained, 1, s1, 0, JOB, files, [LATE]);
    var s2 := s1.(a := s1.a.(task := Deciding(0, JOB, Some(true)), pendingDecision := None),
                  b := s1.b.(dialogs := [LATE], inboundBatch := Some(InboundBatch(1, MetaMap(files)))));
    StartFirst(Drained, 1, s2, 0, JOB);
    var s3 := s2.(a := Emit(s2.a.(task := Pumping(0, JOB, 0, 0)), SendStarted(2)),
                  ab := s2.ab.(wires := s2.ab.wires[0 := s2.ab.wires[0] + [FStart(1, 2)]]));
    Take(Drained, 1, s3, 0);
    var s4 := s3.(b := OnMessage(s3.b, FStart(1, 2), 0).conv, ab := Consume(s3.ab, 0));
    assert s4.ab.wires[0] == [];
    PumpByte(Drained, 1, s4, 0, JOB);
    s := s4.(a := s4.a.(task := Pumping(0, JOB, 0, 1)),
             ab := s4.ab.(wires := s4.ab.wires[0 := s4.ab.wires[0] + [Chunk(FIRST)]]));
    assert s.ab.wires[0] == [Chunk(FIRST)];
    assert 0 !in Contents(JOB.ids, [FIRST]);
  }

  /**
   * Keeping streams apart is not enough: in a run in which no job moves before everything
   * earlier has arrived, a yes that comes after its sender has given up puts a byte of a
   * file into a document.
   */
  lemma LateYesHappens()
    ensures exists s :: Reachable(Drained, 1, s) && !Whole(s.b.inbound, s.ab.catalog)
  {
    hide Reachable, Zeros, Stream;
    var i := FileUnderWay();
    Reach(Drained, 1, i, ByB(Answer(0, true)));
    var s1 := Next(i, ByB(Answer(0, true)));
    assert s1.ab == i.ab;
    Reach(Drained, 1, s1, ByB(Deliver(0)));
    YesThenDeliver(i, 0, 0);
    var s := Next(s1, ByB(Deliver(0)));
    assert s.b.inbound == Some(Inbound(true, 0, BIG as real, [FIRST], 1));
    FlattenPush([], FIRST);
    EmptyFlatten();
    assert [] + [FIRST] == [FIRST] && [] + FIRST == FIRST;
    ZerosAre(BIG);
    assert Flatten([FIRST])[0] == 1 && Zeros(BIG)[0] == 0;
  }

  const JOB3 := Job(false, 2, [3], [FIRST])
  const EARLIER: Dialog := AskFiles(0, [FileMeta(1, 1)], 0)

  /** The sender gave up waiting for an answer, and has offered its next file instead. */
  lemma OfferedAgain() returns (s: Net)
    ensures Reachable(Attended, 2, s) && s.dead == {} && s.ab.wires == [[], []] == s.ba.wires
    ensures s.a.task == Deciding(0, JOB3, None) && s.a.pendingDecision == Some(2) && s.a.cancelled == {}
    ensures s.a.counter == 4
    ensures s.b.dialogs == [EARLIER] + [AskFiles(2, [FileMeta(3, 1)], 0)] && s.a.pendingAcks == {}
  {
    hide Reachable, Contents, Stream;
    var i := InitNet(2);
    assert Reachable(Attended, 2, i) by { assert IsRun(Attended, InitNet(2), [], InitNet(2)); ReachIs(Attended, 2, i); }
    assert i.ab.wires == [[], []] == i.ba.wires;
    assert JOB1.ids == FreshIds(1, 1) && Metas(JOB1.ids, [FIRST]) == [FileMeta(1, 1)];
    Offer(Attended, 2, i, 0, FIRST, JOB1);
    var s1 := i.(a := i.a.(sending := true, task := Deciding(0, JOB1, None), counter := 2, pendingDecision := Some(0)),
                 b := i.b.(dialogs := [] + [EARLIER]),
                 ab := MoveTo(i.ab, 0).(catalog := i.ab.catalog + Contents(JOB1.ids, [FIRST])));
    Reach(Attended, 2, s1, ByA(Fault));
    var s2 := Next(s1, ByA(Fault));
    assert s2.b.dialogs == [EARLIER];
    assert JOB3.ids == FreshIds(3, 1) && Metas(JOB3.ids, [FIRST]) == [FileMeta(3, 1)];
    Offer(Attended, 2, s2, 0, FIRST, JOB3);
    s := s2.(a := s2.a.(sending := true, task := Deciding(0, JOB3, None), counter := 4, pendingDecision := Some(2)),
             b := s2.b.(dialogs := [EARLIER] + [AskFiles(2, [FileMeta(3, 1)], 0)]),
             ab := MoveTo(s2.ab, 0).(catalog := s2.ab.catalog + Contents(JOB3.ids, [FIRST])));
  }

  /** The file is accepted and opened. */
  lemma OpenedAgain() returns (s: Net)
    ensures Reachable(Attended, 2, s) && s.dead == {} && s.ab.wires == [[], []] && |s.ba.wires| == 2
    ensures s.a.task == Pumping(0, JOB3, 0, 0) && s.a.cancelled == {} && s.a.counter == 4
    ensures s.b.dialogs == [EARLIER] && s.b.inbound == Some(Inbound(false, 3, 1.0, [], 0))
  {
    hide Reachable, Stream;
    var files := [FileMeta(3, 1)];
    assert files[..0] == [];
    assert MetaMap(files) == map[3 := FileMeta(3, 1)];
    var i := OfferedAgain();
    AcceptOffer(Attended, 2, i, 0, JOB3, files, [EARLIER]);
    var s1 := i.(a := i.a.(task := Deciding(0, JOB3, Some(true)), pendingDecision := None),
                 b := i.b.(dialogs := [EARLIER], inboundBatch := Some(InboundBatch(2, MetaMap(files)))));
    StartFirst(Attended, 2, s1, 0, JOB3);
    assert JOB3.ids[0] == 3;
    var s2 := s1.(a := Emit(s1.a.(task := Pumping(0, JOB3, 0, 0)), SendStarted(3)),
                  ab := s1.ab.(wires := s1.ab.wires[0 := s1.ab.wires[0] + [FStart(2, 3)]]));
    Take(Attended, 2, s2, 0);
    s := s2.(b := OnMessage(s2.b, FStart(2, 3), 0).conv, ab := Consume(s2.ab, 0));
    assert s.ab.wires[0] == [] && s.ab.wires[1] == [];
  }

  /** The file is pumped, and all of it taken. */
  lemma AllTaken() returns (s: Net)
    ensures Reachable(Attended, 2, s) && s.dead == {} && s.ab.wires == [[], []] && |s.ba.wires| == 2
    ensures s.a.task == Pumping(0, JOB3, 0, 1) && s.a.cancelled == {} && s.a.counter == 4
    ensures s.b.dialogs == [EARLIER] && s.b.inbound == Some(Inbound(false, 3, 1.0, [FIRST], 1))
  {
    hide Reachable, Stream;
    var i := OpenedAgain();
    PumpByte(Attended, 2, i, 0, JOB3);
    var s1 :=
      i.(a := i.a.(task := Pumping(0, JOB3, 0, 1)),
         ab := i.ab.(wires := i.ab.wires[0 := i.ab.wires[0] + [Chunk(FIRST)]]));
    assert s1.ab.wires[0] == [Chunk(FIRST)];
    Take(Attended, 2, s1, 0);
    s := s1.(b := OnMessage(s1.b, Chunk(FIRST), 0).conv, ab := Consume(s1.ab, 0));
    assert s.ab.wires[0] == [];
    assert s.b.inbound.value.parts == [FIRST] && |FIRST| == 1;
  }

  /** The end marker is sent, its confirmation given up, and the next batch begun. */
  lemma EndLeft() returns (s: Net)
    ensures Reachable(Attended, 2, s) && s.dead == {} && s.ab.wires == [[FEnd(2, 3)], []] && |s.ba.wires| == 2
    ensures s.a.task == Acquiring(Files([SECOND])) && s.a.cancelled == {}
    ensures s.b.dialogs == [EARLIER] && s.b.inbound == Some(Inbound(false, 3, 1.0, [FIRST], 1))
  {
    hide Reachable, Stream;
    var i := AllTaken();
    Reach(Attended, 2, i, ByA(Resume));
    var s1 := Next(i, ByA(Resume));
    assert s1.ab.wires[0] == [] + [FEnd(2, 3)] && |s1.ab.wires| == 2;
    Reach(Attended, 2, s1, ByA(Fault));
    var s2 := Next(s1, ByA(Fault));
    Reach(Attended, 2, s2, ByA(Start(Files([SECOND]))));
    s := Next(s2, ByA(Start(Files([SECOND]))));
    assert s.ab.wires[0] == [FEnd(2, 3)] && s.ab.wires[1] == [];
  }

  lemma ReachableIsKept(n: nat, s: Net)
    requires Reachable(Attended, n, s)
    ensures CareInv(Attended, s)
  {
    var steps :| IsRun(Attended, InitNet(n), steps, s);
    InitKept(Attended, n);
    hide CareInv, IsRun;
    RunKeeps(Attended, InitNet(n), steps, s);
  }

  /** So attended use without the care about answers is not enough. */
  lemma StrayEndHappens()
    ensures exists s, mid, last, t, n ::
      && Reachable(Attended, 2, s) && CanStep(s, ByA(Acquire(t))) && CleanSwitch(Attended, s, ByA(Acquire(t)))
      && OneLapse(Next(s, ByA(Acquire(t))), mid, n, last) && !Delivered(last.a, last.b, last.ab)
  {
    hide Reachable, OneLapse, Delivered, CareInv, Stream, Next, CanStep, CleanSwitch;
    var s := EndLeft();
    ReachableIsKept(2, s);
    StrayEndSaves(s, 1, 0, 0, [SECOND], 0);
    var mid, last :| OneLapse(Next(s, ByA(Acquire(1))), mid, 0, last) && !Delivered(last.a, last.b, last.ab);
  }
}
