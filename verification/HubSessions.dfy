/**
 * Who can have anything to do with a relay session: in every run whose session ids are not
 * reused, frames about a session are only ever queued for, held by or handed to its two ends,
 * whatever sessions other clients speak of.
 */
module HubSessions {
  import opened Basics
  import opened HubSystem
  import opened HubSafety
  import opened SessionView

  ghost predicate End(born: map<nat, Sess>, sid: nat, p: nat) {
    sid in born && (p == born[sid].from || p == born[sid].to)
  }

  ghost predicate MailKnown(born: map<nat, Sess>, p: nat, box: seq<Mail>) {
    forall k :: 0 <= k < |box| && SidOf(box[k].f).Some? ==> End(born, SidOf(box[k].f).value, p)
  }

  /** A frame about a session goes from one end to the other, or is the opener's own announcement. */
  ghost predicate FrameKnown(born: map<nat, Sess>, p: nat, to: nat, f: Down) {
    SidOf(f).Some? ==>
      && End(born, SidOf(f).value, p) && End(born, SidOf(f).value, to)
      && (p == to ==> p == born[SidOf(f).value].from)
  }

  /** A client that speaks of a session has been told of it, or is rude. */
  ghost predicate Told(seen: seq<Mail>, rude: set<nat>, sid: nat) { sid in rude || Announced(seen, sid) }

  ghost predicate OpKnown(born: map<nat, Sess>, p: nat, seen: seq<Mail>, rude: set<nat>, op: Op) {
    match op
    case Enqueue(to, f) => FrameKnown(born, p, to, f)
    case Route(data) => HeaderOf(data).Some? ==> Told(seen, rude, HeaderOf(data).value)
    case RouteAck(sid, _) => Told(seen, rude, sid)
    case CloseSession(sid) => Told(seen, rude, sid)
    case _ => true
  }

  ghost predicate OpsKnown(born: map<nat, Sess>, p: nat, seen: seq<Mail>, rude: set<nat>, ops: seq<Op>) {
    && (forall k :: 0 <= k < |ops| ==> OpKnown(born, p, seen, rude, ops[k]))
    && (forall k :: 1 <= k < |ops| ==> !(ops[k].Enqueue? && ops[k].f.Ready?))
  }

  ghost predicate SaidKnown(seen: seq<Mail>, rude: set<nat>, ups: seq<Up>) {
    forall k :: 0 <= k < |ups| && UpSid(ups[k]).Some? ==> Told(seen, rude, UpSid(ups[k]).value)
  }

  ghost predicate KnownPeer(born: map<nat, Sess>, p: nat, x: Peer) {
    && MailKnown(born, p, Box(x)) && OpsKnown(born, p, x.seen, x.rude, x.ops)
    && SaidKnown(x.seen, x.rude, x.up) && SaidKnown(x.seen, x.rude, x.took)
  }

  /** Ids are handed out in increasing order, so a session in the table is the one born under its id. */
  ghost predicate Counted(sessions: map<nat, Sess>, born: map<nat, Sess>, next: nat) {
    && (forall sid :: sid in born ==> 1 <= sid <= next)
    && (forall sid :: sid in sessions ==> sid in born && sessions[sid] == born[sid])
  }

  ghost predicate Traceable(h: Hub) {
    && Isolated(h)
    && Counted(h.sessions, h.born, h.nextSess)
    && forall p :: 0 <= p < |h.peers| ==> KnownPeer(h.born, p, h.peers[p])
  }

  /**
   * Neither end of the session has spoken of it before it had read its announcement. A
   * browser creates a relay transport, and speaks for a session, only then.
   */
  ghost predicate Polite(h: Hub, sid: nat) {
    forall p :: 0 <= p < |h.peers| && End(h.born, sid, p) ==> sid !in h.peers[p].rude
  }

  /** The id counter has not come round: fewer than 2^32 - 1 sessions have been opened. */
  ghost predicate NoWrap(h: Hub, s: Step) {
    s.Exec? && s.p < |h.peers| && h.peers[s.p].ops != [] && h.peers[s.p].ops[0].Alloc? ==> h.nextSess < MAX_SESSION
  }

  // ------------------------------------------------------------ small frames

  lemma AnnouncedGrows(seen: seq<Mail>, more: seq<Mail>, sid: nat)
    ensures Announced(seen, sid) ==> Announced(seen + more, sid)
  {
    if Announced(seen, sid) {
      var m :| m in seen && (m.f.Ready? || m.f.Incoming?) && m.f.sid == sid;
      assert m in seen + more;
    }
  }

  lemma SeenGrows(born: map<nat, Sess>, p: nat, seen: seq<Mail>, rude: set<nat>, more: seq<Mail>, ops: seq<Op>,
                  ups: seq<Up>)
    ensures OpsKnown(born, p, seen, rude, ops) ==> OpsKnown(born, p, seen + more, rude, ops)
    ensures SaidKnown(seen, rude, ups) ==> SaidKnown(seen + more, rude, ups)
  {
    forall sid: nat ensures Announced(seen, sid) ==> Announced(seen + more, sid) {
      AnnouncedGrows(seen, more, sid);
    }
    hide Announced, FrameKnown;
  }

  lemma RudeGrows(born: map<nat, Sess>, p: nat, seen: seq<Mail>, rude: set<nat>, more: set<nat>, ops: seq<Op>,
                  ups: seq<Up>)
    ensures OpsKnown(born, p, seen, rude, ops) ==> OpsKnown(born, p, seen, rude + more, ops)
    ensures SaidKnown(seen, rude, ups) ==> SaidKnown(seen, rude + more, ups)
  {
    hide Announced, FrameKnown;
  }

  /** An announcement someone has read came to an end of the session. */
  lemma AnnouncedToEnd(born: map<nat, Sess>, p: nat, x: Peer, sid: nat)
    requires KnownPeer(born, p, x) && Announced(x.seen, sid)
    ensures End(born, sid, p)
  {
    var m :| m in x.seen && (m.f.Ready? || m.f.Incoming?) && m.f.sid == sid;
    var k :| 0 <= k < |x.seen| && x.seen[k] == m;
    assert Box(x)[k] == m;
  }

  lemma BornGrows(born: map<nat, Sess>, sid: nat, s: Sess, p: nat, x: Peer)
    requires sid !in born && KnownPeer(born, p, x)
    ensures KnownPeer(born[sid := s], p, x)
  {
    hide Told, Box, SaidKnown;
    forall i: nat, q: nat ensures End(born, i, q) ==> End(born[sid := s], i, q) { }
    assert MailKnown(born[sid := s], p, Box(x));
    hide MailKnown;
    forall to: nat, f: Down ensures FrameKnown(born, p, to, f) ==> FrameKnown(born[sid := s], p, to, f) { }
    hide FrameKnown, End;
  }

  lemma KnownChanges(h: Hub, h': Hub, p: nat, x: Peer)
    requires Traceable(h) && Isolated(h') && p < |h.peers| && h'.peers == h.peers[p := x]
    requires h'.born == h.born && Counted(h'.sessions, h'.born, h'.nextSess)
    requires KnownPeer(h.born, p, x)
    ensures Traceable(h')
  {
    hide Isolated, Counted, KnownPeer;
  }

  lemma OpsReplaced(born: map<nat, Sess>, p: nat, x: Peer, add: seq<Op>)
    requires KnownPeer(born, p, x) && x.ops != [] && OpsKnown(born, p, x.seen, x.rude, add)
    ensures KnownPeer(born, p, x.(ops := add + x.ops[1..]))
  {
    BoxSame(x, add + x.ops[1..]);
    hide Box, MailKnown, SaidKnown, OpKnown;
    var ops := add + x.ops[1..];
    forall k | 0 <= k < |ops|
      ensures OpKnown(born, p, x.seen, x.rude, ops[k]) && (k >= 1 ==> !(ops[k].Enqueue? && ops[k].f.Ready?))
    {
      if k >= |add| { assert ops[k] == x.ops[k - |add| + 1]; } else { assert ops[k] == add[k]; }
    }
  }

  /** Frames that are about no session are everyone's. */
  ghost predicate Quiet(ops: seq<Op>) {
    forall k :: 0 <= k < |ops| ==>
      match ops[k]
      case Enqueue(_, f) => SidOf(f).None?
      case Route(_) => false
      case RouteAck(_, _) => false
      case CloseSession(_) => false
      case _ => true
  }

  lemma QuietKnown(born: map<nat, Sess>, p: nat, seen: seq<Mail>, rude: set<nat>, ops: seq<Op>)
    requires Quiet(ops)
    ensures OpsKnown(born, p, seen, rude, ops)
  {
  }

  // ------------------------------------------------------ each operation keeps it

  ghost predicate Working(h: Hub, p: nat) {
    Traceable(h) && p < |h.peers| && h.peers[p].ops != []
  }

  lemma KnownParts(h: Hub, p: nat)
    requires Traceable(h) && p < |h.peers|
    ensures KnownPeer(h.born, p, h.peers[p]) && Isolated(h) && Counted(h.sessions, h.born, h.nextSess)
  {
  }

  /** The general case: an operation gives way to others, and sessions may end. */
  lemma KnownReplaces(h: Hub, h': Hub, p: nat, add: seq<Op>)
    requires Working(h, p) && Isolated(h')
    requires h'.peers == h.peers[p := h.peers[p].(ops := add + h.peers[p].ops[1..])]
    requires OpsKnown(h.born, p, h.peers[p].seen, h.peers[p].rude, add)
    requires h'.born == h.born && Counted(h'.sessions, h'.born, h'.nextSess)
    ensures Traceable(h')
  {
    KnownParts(h, p);
    hide Traceable, Isolated, Counted, KnownPeer, OpsKnown;
    OpsReplaced(h.born, p, h.peers[p], add);
    KnownChanges(h, h', p, h.peers[p].(ops := add + h.peers[p].ops[1..]));
  }

  lemma CountedLess(sessions: map<nat, Sess>, gone: set<nat>, born: map<nat, Sess>, next: nat)
    requires Counted(sessions, born, next)
    ensures Counted(sessions - gone, born, next)
  {
  }

  lemma JoinQuiet(room: map<string, nat>, p: nat, id: string, w: Down, order: seq<nat>, f: Down)
    requires SidOf(w).None? && SidOf(f).None?
    ensures Quiet(JoinOps(room, p, id, w, order, f))
  {
  }

  lemma KnowJoin(h: Hub, p: nat, order: seq<nat>)
    requires Working(h, p) && forall x :: x in order ==> x < |h.peers|
    requires Isolated(DoJoin(h, p, order))
    ensures Traceable(DoJoin(h, p, order))
  {
    KnownParts(h, p);
    var me := h.peers[p];
    var w, f := Welcome(InfoOf(me), Infos(h.peers, order)), PeerJoin(InfoOf(me));
    JoinQuiet(RoomMap(h, me.room), p, me.id, w, order, f);
    hide Traceable, Isolated, Counted, OpsKnown, JoinOps, Quiet;
    var add := JoinOps(RoomMap(h, me.room), p, me.id, w, order, f);
    QuietKnown(h.born, p, me.seen, me.rude, add);
    KnownReplaces(h, DoJoin(h, p, order), p, add);
  }

  lemma LeaveQuiet(order: seq<nat>, f: Down)
    requires SidOf(f).None?
    ensures Quiet([DropSessions] + Tell(order, f)) && Quiet(Tell(order, f)) && Quiet([])
  {
  }

  lemma KnowLeave(h: Hub, p: nat, order: seq<nat>)
    requires Working(h, p)
    requires Isolated(DoLeave(h, p, order))
    ensures Traceable(DoLeave(h, p, order))
  {
    KnownParts(h, p);
    var me := h.peers[p];
    LeaveQuiet(order, PeerLeave(me.id));
    hide Traceable, Isolated, Counted, OpsKnown, Quiet, Tell, KnownPeer;
    QuietKnown(h.born, p, me.seen, me.rude, [DropSessions] + Tell(order, PeerLeave(me.id)));
    QuietKnown(h.born, p, me.seen, me.rude, []);
    if Find(h.rooms, me.room, me.id) != Some(p) {
      assert [] + Rest(h, p) == Rest(h, p);
      KnownReplaces(h, DoLeave(h, p, order), p, []);
    } else {
      KnownReplaces(h, DoLeave(h, p, order), p, [DropSessions] + Tell(order, PeerLeave(me.id)));
    }
  }

  lemma KnowRename(h: Hub, p: nat, name: string, order: seq<nat>)
    requires Working(h, p)
    requires Isolated(DoRename(h, p, name, order))
    ensures Traceable(DoRename(h, p, name, order))
  {
    KnownParts(h, p);
    var me := h.peers[p];
    var f := PeerJoin(Info(me.id, name));
    LeaveQuiet(order, f);
    hide Traceable, Isolated, Counted, OpsKnown, Quiet, Tell, MailKnown, SaidKnown, OpKnown;
    QuietKnown(h.born, p, me.seen, me.rude, Tell(order, f));
    OpsReplaced(h.born, p, me, Tell(order, f));
    var x := me.(name := name, ops := Tell(order, f) + Rest(h, p));
    assert Box(x) == Box(me.(ops := x.ops));
    KnownChanges(h, DoRename(h, p, name, order), p, x);
  }

  lemma {:induction false} NoticesKnown(sessions: map<nat, Sess>, born: map<nat, Sess>, next: nat, p: nat,
                                        seen: seq<Mail>, rude: set<nat>, order: seq<nat>)
    requires Counted(sessions, born, next)
    requires forall x :: x in order ==> x in SessionsOf(sessions, p) && sessions[x].from != sessions[x].to
    ensures OpsKnown(born, p, seen, rude, CloseNotices(sessions, p, order))
  {
    if order != [] {
      assert order[0] in order && order[0] in SessionsOf(sessions, p);
      NoticesKnown(sessions, born, next, p, seen, rude, order[1..]);
      var f := CloseTo(order[0]);
      var to := Other(sessions[order[0]], p).value;
      assert FrameKnown(born, p, to, f);
      assert OpKnown(born, p, seen, rude, Enqueue(to, f));
      NoticesPlain(sessions, p, order);
      hide OpKnown, SessionsOf;
    } else {
      assert CloseNotices(sessions, p, order) == [];
    }
  }

  lemma {:induction false} NoticesPlain(sessions: map<nat, Sess>, p: nat, order: seq<nat>)
    requires forall x :: x in order ==> x in SessionsOf(sessions, p)
    ensures forall k :: 0 <= k < |CloseNotices(sessions, p, order)| ==>
              CloseNotices(sessions, p, order)[k].Enqueue? && CloseNotices(sessions, p, order)[k].f.CloseTo?
  {
    if order != [] {
      assert order[0] in order && order[0] in SessionsOf(sessions, p);
      NoticesPlain(sessions, p, order[1..]);
    }
  }

  lemma KnowDrop(h: Hub, p: nat, order: seq<nat>)
    requires Working(h, p) && forall x :: x in order ==> x in SessionsOf(h.sessions, p)
    requires Isolated(DoDrop(h, p, order))
    ensures Traceable(DoDrop(h, p, order))
  {
    KnownParts(h, p);
    Parts(h, p);
    assert forall x :: x in order ==> SessOk(Who(h.peers), h.sessions[x], x);
    NoticesKnown(h.sessions, h.born, h.nextSess, p, h.peers[p].seen, h.peers[p].rude, order);
    hide Traceable, Isolated, OpsKnown, CloseNotices, SessionsOf;
    CountedLess(h.sessions, SessionsOf(h.sessions, p), h.born, h.nextSess);
    hide Counted;
    KnownReplaces(h, DoDrop(h, p, order), p, CloseNotices(h.sessions, p, order));
  }

  /** With no wrap-around the first free id is the next one. */
  lemma NextIsFree(sessions: map<nat, Sess>, born: map<nat, Sess>, next: nat, sid: nat)
    requires Counted(sessions, born, next) && next < MAX_SESSION && FirstFree(next, sessions.Keys, sid)
    ensures sid == next + 1 && sid !in born
  {
    assert Distance(next, next + 1) == 1;
    assert next + 1 !in sessions;
  }

  lemma AnnouncementsKnown(born: map<nat, Sess>, p: nat, t: nat, seen: seq<Mail>, rude: set<nat>, sid: nat, a: string,
                           b: string)
    requires sid in born && born[sid].from == p && born[sid].to == t
    ensures OpsKnown(born, p, seen, rude, [Enqueue(p, Ready(sid, a)), Enqueue(t, Incoming(sid, b))])
  {
    hide Told;
  }

  lemma CountedMore(sessions: map<nat, Sess>, born: map<nat, Sess>, next: nat, s: Sess)
    requires Counted(sessions, born, next) && next < MAX_SESSION && FirstFree(next, sessions.Keys, s.id)
    ensures Counted(sessions[s.id := s], born[s.id := s], s.id)
  {
    NextIsFree(sessions, born, next, s.id);
    hide FirstFree;
  }

  lemma KnowAlloc(h: Hub, p: nat, t: nat, sid: nat)
    requires Working(h, p) && t < |h.peers| && t != p && h.nextSess < MAX_SESSION
    requires FirstFree(h.nextSess, h.sessions.Keys, sid)
    requires Isolated(DoAlloc(h, p, t, sid)) && Rest(h, p) == []
    ensures Traceable(DoAlloc(h, p, t, sid))
  {
    KnownParts(h, p);
    NextIsFree(h.sessions, h.born, h.nextSess, sid);
    var h', s, me := DoAlloc(h, p, t, sid), Sess(sid, p, t), h.peers[p];
    CountedMore(h.sessions, h.born, h.nextSess, s);
    hide Isolated, Counted, FirstFree, KnownPeer;
    forall q | 0 <= q < |h.peers| ensures KnownPeer(h'.born, q, h.peers[q]) {
      BornGrows(h.born, sid, s, q, h.peers[q]);
    }
    hide Traceable;
    AnnouncementsKnown(h'.born, p, t, me.seen, me.rude, sid, h.peers[t].id, me.id);
    hide OpsKnown;
    OpsReplaced(h'.born, p, me, [Enqueue(p, Ready(sid, h.peers[t].id)), Enqueue(t, Incoming(sid, me.id))]);
    TraceableFrom(h, h', p);
  }

  lemma TraceableFrom(h: Hub, h': Hub, p: nat)
    requires Isolated(h') && Counted(h'.sessions, h'.born, h'.nextSess) && p < |h.peers| && |h'.peers| == |h.peers|
    requires forall q :: 0 <= q < |h.peers| ==> KnownPeer(h'.born, q, h.peers[q])
    requires forall q :: 0 <= q < |h.peers| && q != p ==> h'.peers[q] == h.peers[q]
    requires KnownPeer(h'.born, p, h'.peers[p])
    ensures Traceable(h')
  {
    hide Isolated, Counted, KnownPeer;
  }

  lemma ForwardKnown(sessions: map<nat, Sess>, born: map<nat, Sess>, next: nat, p: nat, seen: seq<Mail>, rude: set<nat>,
                     sid: Option<nat>, f: Down)
    requires Counted(sessions, born, next) && SidOf(f) == sid && !f.Ready?
    requires sid.Some? && sid.value in sessions ==> sessions[sid.value].from != sessions[sid.value].to
    ensures OpsKnown(born, p, seen, rude, ForwardIfKnown(sessions, p, sid, f))
  {
  }

  /** Both ends of a session in the table differ. */
  lemma EndsDiffer(h: Hub, sid: nat)
    requires Isolated(h)
    ensures sid in h.sessions ==> h.sessions[sid].from != h.sessions[sid].to
    ensures sid in h.born ==> SessOk(Who(h.peers), h.born[sid], sid)
  {
  }

  lemma KnowRelay(h: Hub, p: nat, sid: Option<nat>, f: Down)
    requires Working(h, p) && SidOf(f) == sid && !f.Ready?
    requires Isolated(DoRelay(h, p, sid, f))
    ensures Traceable(DoRelay(h, p, sid, f))
  {
    KnownParts(h, p);
    if sid.Some? { EndsDiffer(h, sid.value); }
    ForwardKnown(h.sessions, h.born, h.nextSess, p, h.peers[p].seen, h.peers[p].rude, sid, f);
    hide Traceable, Isolated, OpsKnown, ForwardIfKnown, Counted;
    KnownReplaces(h, DoRelay(h, p, sid, f), p, ForwardIfKnown(h.sessions, p, sid, f));
  }

  lemma KnowClose(h: Hub, p: nat, sid: nat)
    requires Working(h, p)
    requires Isolated(DoClose(h, p, sid))
    ensures Traceable(DoClose(h, p, sid))
  {
    KnownParts(h, p);
    EndsDiffer(h, sid);
    ForwardKnown(h.sessions, h.born, h.nextSess, p, h.peers[p].seen, h.peers[p].rude, Some(sid), CloseTo(sid));
    CountedLess(h.sessions, {sid}, h.born, h.nextSess);
    hide Traceable, Isolated, OpsKnown, ForwardIfKnown, Counted;
    KnownReplaces(h, DoClose(h, p, sid), p, ForwardIfKnown(h.sessions, p, Some(sid), CloseTo(sid)));
  }

  lemma KnowAnswer(h: Hub, h': Hub, p: nat, op: Op)
    requires Working(h, p) && Isolated(h') && h' == WithOps(h, p, [op] + Rest(h, p)) && Quiet([op])
    ensures Traceable(h')
  {
    KnownParts(h, p);
    QuietKnown(h.born, p, h.peers[p].seen, h.peers[p].rude, [op]);
    hide Traceable, Isolated, OpsKnown, Counted;
    KnownReplaces(h, h', p, [op]);
  }

  lemma KnowKill(h: Hub, p: nat, v: nat)
    requires Working(h, p) && v < |h.peers|
    requires Isolated(WithOps(h, p, Rest(h, p))) && Isolated(DoKill(h, p, v))
    ensures Traceable(DoKill(h, p, v))
  {
    var h1 := WithOps(h, p, Rest(h, p));
    KnowPop(h, p);
    KnownParts(h1, v);
    var x := h1.peers[v];
    assert Box(x.(closed := true)) == Box(x);
    hide Traceable, Isolated, Counted, Box, OpsKnown, SaidKnown, MailKnown;
    assert KnownPeer(h1.born, v, x.(closed := true));
    KnownChanges(h1, DoKill(h, p, v), v, x.(closed := true));
  }

  lemma KnowPop(h: Hub, p: nat)
    requires Working(h, p) && Isolated(WithOps(h, p, Rest(h, p)))
    ensures Traceable(WithOps(h, p, Rest(h, p)))
    ensures OpKnown(h.born, p, h.peers[p].seen, h.peers[p].rude, h.peers[p].ops[0])
  {
    KnownParts(h, p);
    QuietKnown(h.born, p, h.peers[p].seen, h.peers[p].rude, []);
    assert [] + Rest(h, p) == Rest(h, p);
    hide Traceable, Isolated, Counted, OpKnown;
    KnownReplaces(h, WithOps(h, p, Rest(h, p)), p, []);
  }

  lemma KnowEnqueue(h: Hub, p: nat, to: nat, f: Down)
    requires Working(h, p) && to < |h.peers| && h.peers[p].ops[0] == Enqueue(to, f)
    requires Isolated(WithOps(h, p, Rest(h, p))) && Isolated(DoEnqueue(h, p, to, f))
    ensures Traceable(DoEnqueue(h, p, to, f))
  {
    hide Traceable, Isolated, Counted, OpsKnown, SaidKnown, MailKnown, KnownPeer, FrameKnown;
    var h1 := WithOps(h, p, Rest(h, p));
    KnowPop(h, p);
    if !h1.peers[to].closed {
      KnownParts(h1, to);
      var x := h1.peers[to];
      MailArrives(h1.born, p, to, x, f);
      KnownChanges(h1, DoEnqueue(h, p, to, f), to, x.(queue := x.queue + [Mail(p, f)]));
    } else {
      SameTraces(h1, DoEnqueue(h, p, to, f));
    }
  }

  lemma SameTraces(h: Hub, h': Hub)
    requires Traceable(h) && Isolated(h')
    requires h'.peers == h.peers && h'.sessions == h.sessions && h'.born == h.born && h'.nextSess == h.nextSess
    ensures Traceable(h')
  {
    hide Isolated, Counted, KnownPeer;
  }

  lemma MailArrives(born: map<nat, Sess>, p: nat, to: nat, x: Peer, f: Down)
    requires KnownPeer(born, to, x) && FrameKnown(born, p, to, f)
    ensures KnownPeer(born, to, x.(queue := x.queue + [Mail(p, f)]))
  {
    var x' := x.(queue := x.queue + [Mail(p, f)]);
    assert Box(x') == Box(x) + [Mail(p, f)];
    hide Box, OpsKnown, SaidKnown, End;
  }

  lemma KnowExec(h: Hub, p: nat, pick: Pick)
    requires Traceable(h) && CanExec(h, p, pick) && NoWrap(h, Exec(p, pick))
    ensures Traceable(DoExec(h, p, pick))
  {
    KnownParts(h, p);
    ExecKeeps(h, p, pick);
    OthersTogether(h, p);
    hide Traceable, Isolated, DoJoin, DoLeave, DoDrop, DoOpen, DoAlloc, DoRelay, DoClose, DoSignal, DoRename,
         DoEnqueue, DoKill, OthersIn, Who, Together, SessionsOf, NoDup, FirstFree, KnownPeer, Counted, Find, Told;
    match h.peers[p].ops[0]
    case Join => OrderInRoom(h, p, pick.order); KnowJoin(h, p, pick.order);
    case Leave => OrderInRoom(h, p, pick.order); KnowLeave(h, p, pick.order);
    case DropSessions => KnowDrop(h, p, pick.order);
    case Open(toId) => KnowOpen(h, p, toId);
    case Alloc(t) => AllocAlone(h, p, t); KnowAlloc(h, p, t, pick.sid);
    case Route(data) => KnowRelay(h, p, HeaderOf(data), Payload(data));
    case RouteAck(sid, bytes) => KnowRelay(h, p, Some(sid), AckTo(sid, bytes));
    case CloseSession(sid) => KnowClose(h, p, sid);
    case Signal(toId, body) => KnowSignal(h, p, toId, body);
    case Rename(name) => OrderInRoom(h, p, pick.order); KnowRename(h, p, name, pick.order);
    case Enqueue(to, f) => PopOp(h, p); KnowEnqueue(h, p, to, f);
    case Kill(v) => PopOp(h, p); KnowKill(h, p, v);
  }

  lemma AllocAlone(h: Hub, p: nat, t: nat)
    requires Isolated(h) && p < |h.peers| && h.peers[p].ops != [] && h.peers[p].ops[0] == Alloc(t)
    ensures Rest(h, p) == [] && t != p
  {
    Parts(h, p);
    assert OpOk(Who(h.peers), p, h.peers[p].ops[0]);
  }

  lemma KnowOpen(h: Hub, p: nat, toId: string)
    requires Working(h, p) && Isolated(DoOpen(h, p, toId))
    ensures Traceable(DoOpen(h, p, toId))
  {
    hide Traceable, Isolated, Find;
    var target := Find(h.rooms, h.peers[p].room, toId);
    KnowAnswer(h, DoOpen(h, p, toId), p, if target.None? || target.value == p then Enqueue(p, Problem)
               else Alloc(target.value));
  }

  lemma KnowSignal(h: Hub, p: nat, toId: string, body: string)
    requires Working(h, p) && Isolated(DoSignal(h, p, toId, body))
    ensures Traceable(DoSignal(h, p, toId, body))
  {
    hide Traceable, Isolated, Find;
    var target := Find(h.rooms, h.peers[p].room, toId);
    KnowAnswer(h, DoSignal(h, p, toId, body), p,
               if target.None? then Enqueue(p, Problem) else Enqueue(target.value, Signalled(h.peers[p].id, body)));
  }

  lemma DecodeKnown(born: map<nat, Sess>, p: nat, seen: seq<Mail>, rude: set<nat>, u: Up)
    requires UpSid(u).Some? ==> Told(seen, rude, UpSid(u).value)
    ensures OpsKnown(born, p, seen, rude, Decode(p, u))
  {
    hide Told;
  }

  lemma KnowMoves(h: Hub, s: Step)
    requires Traceable(h) && CanStep(h, s) && Isolated(Next(h, s)) && !s.Connect? && !s.Exec?
    ensures Traceable(Next(h, s))
  {
    var p := s.p;
    var x, x' := h.peers[p], Next(h, s).peers[p];
    hide Traceable, Isolated, Counted, CanExec, DoExec, Told, Decode, KnownPeer, Box;
    KnownParts(h, p);
    if s.Take? {
      KnowTake(h.born, p, x);
    } else if s.ClientReads? {
      KnowRead(h.born, p, x);
    } else if s.ClientSends? {
      KnowSend(h.born, p, x, s.u);
    } else {
      KnowRest(h.born, p, x, x');
    }
    KnownChanges(h, Next(h, s), p, x');
  }

  lemma KnowTake(born: map<nat, Sess>, p: nat, x: Peer)
    requires KnownPeer(born, p, x) && x.up != []
    ensures KnownPeer(born, p, x.(up := x.up[1..], took := x.took + [x.up[0]], ops := Decode(p, x.up[0])))
  {
    hide Told;
    DecodeKnown(born, p, x.seen, x.rude, x.up[0]);
    TakenKnown(x.seen, x.rude, x.up, x.took);
    assert Box(x.(up := x.up[1..], took := x.took + [x.up[0]], ops := Decode(p, x.up[0]))) == Box(x);
    hide Box, MailKnown, OpsKnown, SaidKnown, Decode;
  }

  lemma KnowRead(born: map<nat, Sess>, p: nat, x: Peer)
    requires KnownPeer(born, p, x) && x.down != []
    ensures KnownPeer(born, p, x.(down := x.down[1..], seen := x.seen + [x.down[0]]))
  {
    BoxMoves(x, x.(down := x.down[1..], seen := x.seen + [x.down[0]]));
    SeenGrows(born, p, x.seen, x.rude, [x.down[0]], x.ops, x.up);
    SeenGrows(born, p, x.seen, x.rude, [x.down[0]], x.ops, x.took);
    hide Box, MailKnown, OpsKnown, SaidKnown;
  }

  /** Steps that leave what was seen and taken as it is. */
  lemma KnowRest(born: map<nat, Sess>, p: nat, x: Peer, x': Peer)
    requires KnownPeer(born, p, x) && x'.seen == x.seen && x'.took == x.took && x'.rude == x.rude
    requires || (x.hand.None? && x.queue != [] && x' == x.(queue := x.queue[1..], hand := Some(x.queue[0])))
             || (x.hand.Some? && x' == x.(hand := None, down := x.down + [x.hand.value]))
             || x' == x.(closed := true)
             || x' == x.(ops := [Leave], left := true)
    ensures KnownPeer(born, p, x')
  {
    assert Box(x') == Box(x) by {
      if x'.queue != x.queue || x'.hand != x.hand { BoxMoves(x, x'); }
    }
    hide Box, MailKnown, Told;
  }

  lemma KnowSend(born: map<nat, Sess>, p: nat, x: Peer, u: Up)
    requires KnownPeer(born, p, x)
    ensures KnownPeer(born, p, x.(up := x.up + [u], rude := x.rude + Unbidden(x.seen, u)))
  {
    var more := Unbidden(x.seen, u);
    var x' := x.(up := x.up + [u], rude := x.rude + more);
    RudeGrows(born, p, x.seen, x.rude, more, x.ops, x.up);
    RudeGrows(born, p, x.seen, x.rude, more, x.ops, x.took);
    assert Box(x') == Box(x);
    assert UpSid(u).Some? ==> Told(x.seen, x.rude + more, UpSid(u).value);
    hide Box, MailKnown, OpsKnown, Unbidden, Told;
  }

  lemma TakenKnown(seen: seq<Mail>, rude: set<nat>, up: seq<Up>, took: seq<Up>)
    requires up != [] && SaidKnown(seen, rude, up) && SaidKnown(seen, rude, took)
    ensures SaidKnown(seen, rude, up[1..]) && SaidKnown(seen, rude, took + [up[0]])
  {
    hide Told;
  }

  lemma KnowConnect(h: Hub, s: Step)
    requires Traceable(h) && s.Connect? && Isolated(Next(h, s))
    ensures Traceable(Next(h, s))
  {
    var h' := Next(h, s);
    hide Isolated, Counted;
    assert KnownPeer(h.born, |h.peers|, h'.peers[|h.peers|]);
    hide KnownPeer;
  }

  lemma StepTraceable(h: Hub, s: Step)
    requires Traceable(h) && CanStep(h, s) && NoWrap(h, s)
    ensures Traceable(Next(h, s))
  {
    assert Isolated(Next(h, s)) by {
      hide Isolated, CanStep, Next, NoWrap;
      StepKeeps(h, s);
    }
    hide Traceable, CanExec, DoExec, Told, Isolated, NoWrap;
    if s.Connect? { KnowConnect(h, s); }
    else if s.Exec? { KnowExec(h, s.p, s.pick); }
    else { KnowMoves(h, s); }
  }
}
