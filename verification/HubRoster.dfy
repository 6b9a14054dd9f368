/**
 * The roster is "latest connection wins": under each room and identity stands the most
 * recent connection to have joined, unless that very connection has left.
 */
module HubRoster {
  import opened Basics
  import opened HubSystem
  import opened HubSafety

  /** The last of `joins` with this room and identity. */
  function Latest(joins: seq<nat>, who: seq<Key>, k: Key): Option<nat> {
    if joins == [] then None
    else
      var last := joins[|joins| - 1];
      if last < |who| && who[last] == k then Some(last) else Latest(joins[..|joins| - 1], who, k)
  }

  /** The connection's leave has run to the point where it gave up its entry. */
  predicate Gone(x: Peer) { x.left && Leave !in x.ops }

  ghost predicate EntryIs(h: Hub, k: Key) {
    var l := Latest(h.joins, Who(h.peers), k);
    Find(h.rooms, k.room, k.id) ==
      if l.Some? && l.value < |h.peers| && !Gone(h.peers[l.value]) then l else None
  }

  /** When a connection may still have to join or leave. */
  ghost predicate Standing(h: Hub, p: nat)
    requires p < |h.peers|
  {
    var x := h.peers[p];
    && (Join in x.ops ==> !x.left && p !in h.joins)
    && (Leave in x.ops ==> x.left)
    && (p in h.joins ==> Join !in x.ops)
    && (x.ops != [] && x.ops[0].Join? ==> x.ops == [Join])
    && (x.ops != [] && x.ops[0].Leave? ==> x.ops == [Leave])
    && (Join in x.ops ==> x.ops == [Join])
    && (Leave in x.ops ==> x.ops == [Leave])
  }

  ghost predicate Roster(h: Hub) {
    && (forall k :: EntryIs(h, k))
    && (forall p :: 0 <= p < |h.peers| ==> Standing(h, p))
    && (forall p :: p in h.joins ==> p < |h.peers|)
  }

  // ---------------------------------------------------------------- looking back

  lemma {:induction false} LatestGrow(joins: seq<nat>, who: seq<Key>, more: Key, k: Key)
    requires forall i :: 0 <= i < |joins| ==> joins[i] < |who|
    ensures Latest(joins, who + [more], k) == Latest(joins, who, k)
  {
    if joins != [] {
      LatestGrow(joins[..|joins| - 1], who, more, k);
    }
  }

  lemma LatestPush(joins: seq<nat>, who: seq<Key>, p: nat, k: Key)
    requires p < |who|
    ensures Latest(joins + [p], who, k) == if who[p] == k then Some(p) else Latest(joins, who, k)
  {
    assert (joins + [p])[..|joins + [p]| - 1] == joins;
  }

  lemma {:induction false} LatestKey(joins: seq<nat>, who: seq<Key>, k: Key)
    ensures Latest(joins, who, k).Some? ==> Latest(joins, who, k).value < |who| && who[Latest(joins, who, k).value] == k
    ensures Latest(joins, who, k).Some? ==> Latest(joins, who, k).value in joins
  {
    if joins != [] {
      LatestKey(joins[..|joins| - 1], who, k);
    }
  }

  // -------------------------------------------------------------------- frames

  /** Operations that neither join nor leave. */
  ghost predicate Plain(ops: seq<Op>) { Join !in ops && Leave !in ops }

  /** Only p's operations change, and none of the new ones joins or leaves. */
  ghost predicate OnlyOps(h: Hub, h': Hub, p: nat) {
    && p < |h.peers| == |h'.peers|
    && Who(h'.peers) == Who(h.peers)
    && (forall q :: 0 <= q < |h.peers| ==> h'.peers[q].left == h.peers[q].left)
    && (forall q :: 0 <= q < |h.peers| && q != p ==> h'.peers[q].ops == h.peers[q].ops)
    && Plain(h'.peers[p].ops)
  }

  lemma TellPlain(order: seq<nat>, f: Down)
    ensures Plain(Tell(order, f))
  {
  }

  lemma {:induction false} NoticesPlain(sessions: map<nat, Sess>, p: nat, order: seq<nat>)
    requires forall x :: x in order ==> x in SessionsOf(sessions, p)
    ensures Plain(CloseNotices(sessions, p, order))
  {
    if order != [] {
      assert order[0] in order && order[0] in SessionsOf(sessions, p);
      NoticesPlain(sessions, p, order[1..]);
    }
  }

  lemma WithOpsOnly(h: Hub, h': Hub, p: nat, add: seq<Op>)
    requires p < |h.peers| && h.peers[p].ops != [] && Standing(h, p) && Plain(add)
    requires h'.peers == h.peers[p := h.peers[p].(ops := add + h.peers[p].ops[1..])]
    ensures OnlyOps(h, h', p)
  {
    assert Plain(h.peers[p].ops[1..]);
    WhoSame(h.peers, p, h'.peers[p]);
  }

  lemma OthersBound(h: Hub, p: nat, pick: Pick)
    requires CanExec(h, p, pick)
    ensures forall x :: x in OthersIn(h, p) ==> x < |h.peers|
  {
    forall x | x in OthersIn(h, p) ensures x < |h.peers| {
      var r := h.peers[p].room;
      var m := h.rooms[r] - {h.peers[p].id};
      var i :| i in m && m[i] == x;
      assert i in h.rooms[r];
    }
  }

  lemma ExecOnlyOps(h: Hub, p: nat, pick: Pick)
    requires CanExec(h, p, pick) && Standing(h, p)
    ensures OnlyOps(h, DoExec(h, p, pick), p)
  {
    OthersBound(h, p, pick);
    hide Standing, OnlyOps, Who, Plain, NoDup, FirstFree, OthersIn;
    var me := h.peers[p];
    match me.ops[0]
    case Join =>
      var w, f := Welcome(InfoOf(me), Infos(h.peers, pick.order)), PeerJoin(InfoOf(me));
      JoinOpsPlain(RoomMap(h, me.room), p, me.id, w, pick.order, f);
      WithOpsOnly(h, DoJoin(h, p, pick.order), p, JoinOps(RoomMap(h, me.room), p, me.id, w, pick.order, f));
    case Leave =>
      LeaveOpsPlain(pick.order, PeerLeave(me.id));
      if Find(h.rooms, me.room, me.id) == Some(p) {
        WithOpsOnly(h, DoLeave(h, p, pick.order), p, [DropSessions] + Tell(pick.order, PeerLeave(me.id)));
      } else {
        assert [] + me.ops[1..] == me.ops[1..];
        WithOpsOnly(h, DoLeave(h, p, pick.order), p, []);
      }
    case DropSessions =>
      NoticesPlain(h.sessions, p, pick.order);
      WithOpsOnly(h, DoDrop(h, p, pick.order), p, CloseNotices(h.sessions, p, pick.order));
    case Open(toId) =>
      var target := Find(h.rooms, me.room, toId);
      var op := if target.None? || target.value == p then Enqueue(p, Problem) else Alloc(target.value);
      OnePlain(op);
      WithOpsOnly(h, DoOpen(h, p, toId), p, [op]);
    case Alloc(t) =>
      var a, b := Enqueue(p, Ready(pick.sid, h.peers[t].id)), Enqueue(t, Incoming(pick.sid, me.id));
      TwoPlain(a, b);
      WithOpsOnly(h, DoAlloc(h, p, t, pick.sid), p, [a, b]);
    case Route(data) =>
      ForwardPlain(h.sessions, p, HeaderOf(data), Payload(data));
      WithOpsOnly(h, DoRelay(h, p, HeaderOf(data), Payload(data)), p,
                  ForwardIfKnown(h.sessions, p, HeaderOf(data), Payload(data)));
    case RouteAck(sid, bytes) =>
      ForwardPlain(h.sessions, p, Some(sid), AckTo(sid, bytes));
      WithOpsOnly(h, DoRelay(h, p, Some(sid), AckTo(sid, bytes)), p,
                  ForwardIfKnown(h.sessions, p, Some(sid), AckTo(sid, bytes)));
    case CloseSession(sid) =>
      ForwardPlain(h.sessions, p, Some(sid), CloseTo(sid));
      WithOpsOnly(h, DoClose(h, p, sid), p, ForwardIfKnown(h.sessions, p, Some(sid), CloseTo(sid)));
    case Signal(toId, body) =>
      var target := Find(h.rooms, me.room, toId);
      var op := if target.None? then Enqueue(p, Problem) else Enqueue(target.value, Signalled(me.id, body));
      OnePlain(op);
      WithOpsOnly(h, DoSignal(h, p, toId, body), p, [op]);
    case Rename(name) =>
      TellPlain(pick.order, PeerJoin(Info(me.id, name)));
      RenameOnly(h, p, name, pick.order);
    case Enqueue(to, f) => EnqueueOnly(h, p, to, f);
    case Kill(v) => KillOnly(h, p, v);
  }

  lemma JoinOpsPlain(room: map<string, nat>, p: nat, id: string, w: Down, order: seq<nat>, f: Down)
    ensures Plain(JoinOps(room, p, id, w, order, f))
  {
    TellPlain(order, f);
  }

  lemma LeaveOpsPlain(order: seq<nat>, f: Down)
    ensures Plain([DropSessions] + Tell(order, f)) && Plain([])
  {
    TellPlain(order, f);
  }

  lemma OnePlain(op: Op)
    requires !op.Join? && !op.Leave?
    ensures Plain([op])
  {
  }

  lemma TwoPlain(a: Op, b: Op)
    requires a.Enqueue? && b.Enqueue?
    ensures Plain([a, b])
  {
  }

  lemma ForwardPlain(sessions: map<nat, Sess>, p: nat, sid: Option<nat>, f: Down)
    ensures Plain(ForwardIfKnown(sessions, p, sid, f))
  {
  }

  lemma RenameOnly(h: Hub, p: nat, name: string, order: seq<nat>)
    requires p < |h.peers| && h.peers[p].ops != [] && Standing(h, p)
    requires Plain(Tell(order, PeerJoin(Info(h.peers[p].id, name))))
    ensures OnlyOps(h, DoRename(h, p, name, order), p)
  {
    hide Tell;
    WhoSame(h.peers, p, DoRename(h, p, name, order).peers[p]);
  }

  lemma EnqueueOnly(h: Hub, p: nat, to: nat, f: Down)
    requires p < |h.peers| && to < |h.peers| && h.peers[p].ops != [] && Standing(h, p)
    ensures OnlyOps(h, DoEnqueue(h, p, to, f), p)
  {
    var h1 := WithOps(h, p, Rest(h, p));
    WhoSame(h.peers, p, h1.peers[p]);
    WhoSame(h1.peers, to, DoEnqueue(h, p, to, f).peers[to]);
    hide Who;
  }

  lemma KillOnly(h: Hub, p: nat, v: nat)
    requires p < |h.peers| && v < |h.peers| && h.peers[p].ops != [] && Standing(h, p)
    ensures OnlyOps(h, DoKill(h, p, v), p)
  {
    var h1 := WithOps(h, p, Rest(h, p));
    WhoSame(h.peers, p, h1.peers[p]);
    WhoSame(h1.peers, v, DoKill(h, p, v).peers[v]);
    hide Who;
  }

  // --------------------------------------------------------- the roster is kept

  /** Steps that touch neither the rooms nor anyone's standing. */
  lemma EntriesSame(h: Hub, h': Hub)
    requires Roster(h) && h'.rooms == h.rooms && h'.joins == h.joins
    requires |h'.peers| == |h.peers| && Who(h'.peers) == Who(h.peers)
    requires forall p :: 0 <= p < |h.peers| ==> Gone(h'.peers[p]) == Gone(h.peers[p])
    ensures forall k :: EntryIs(h', k)
  {
    hide Who, Latest, Gone, Standing;
    forall k ensures EntryIs(h', k) {
      assert EntryIs(h, k);
    }
  }

  lemma StandingsAfter(h: Hub, h': Hub, p: nat)
    requires Roster(h) && OnlyOps(h, h', p)
    requires h'.joins == h.joins || (h.peers[p].ops == [Join] && h'.joins == h.joins + [p])
    ensures forall q :: 0 <= q < |h'.peers| ==> Standing(h', q)
    ensures forall q :: q in h'.joins ==> q < |h'.peers|
  {
    hide EntryIs, Who;
    forall q | 0 <= q < |h'.peers| ensures Standing(h', q) {
      assert Standing(h, q);
    }
  }

  lemma JoinKeeps(h: Hub, p: nat, order: seq<nat>)
    requires Roster(h) && p < |h.peers| && h.peers[p].ops == [Join] && forall x :: x in order ==> x < |h.peers|
    requires OnlyOps(h, DoJoin(h, p, order), p)
    ensures Roster(DoJoin(h, p, order))
  {
    var h', who := DoJoin(h, p, order), Who(h.peers);
    assert Standing(h, p);
    StandingsAfter(h, h', p);
    hide JoinOps, Standing;
    forall k ensures EntryIs(h', k) {
      assert EntryIs(h, k);
      LatestPush(h.joins, who, p, k);
      LatestKey(h.joins, who, k);
      hide Latest;
    }
  }

  /** Its own entry: gone if the connection still held it, someone else's otherwise. */
  lemma LeaveOwnEntry(h: Hub, p: nat, order: seq<nat>)
    requires p < |h.peers| && h.peers[p].ops == [Leave]
    requires EntryIs(h, Key(h.peers[p].room, h.peers[p].id)) && Isolated(h)
    requires OnlyOps(h, DoLeave(h, p, order), p) && h.peers[p].left
    ensures EntryIs(DoLeave(h, p, order), Key(h.peers[p].room, h.peers[p].id))
  {
    hide Isolated, Who, Latest, Tell, Plain, DoLeave;
    var h' := DoLeave(h, p, order);
    OwnFind(h, p, order);
    PlainMeans(h'.peers[p].ops);
  }

  /** What stands under one's own identity once one has left. */
  lemma OwnFind(h: Hub, p: nat, order: seq<nat>)
    requires p < |h.peers| && h.peers[p].ops != []
    ensures var me := h.peers[p]; var now := Find(h.rooms, me.room, me.id);
            Find(DoLeave(h, p, order).rooms, me.room, me.id) == if now == Some(p) then None else now
    ensures DoLeave(h, p, order).joins == h.joins
  {
    hide Tell;
  }

  lemma PlainMeans(ops: seq<Op>)
    requires Plain(ops)
    ensures Join !in ops && Leave !in ops
  {
  }

  lemma LeaveFindsSame(h: Hub, p: nat, order: seq<nat>, k: Key)
    requires p < |h.peers| && h.peers[p].ops != [] && k != Key(h.peers[p].room, h.peers[p].id)
    ensures Find(DoLeave(h, p, order).rooms, k.room, k.id) == Find(h.rooms, k.room, k.id)
  {
    var me := h.peers[p];
    if Find(h.rooms, me.room, me.id) == Some(p) && k.room == me.room {
      var room := h.rooms[me.room] - {me.id};
      assert k.id in h.rooms[me.room] <==> k.id in room;
    }
  }

  lemma LeaveOtherEntry(h: Hub, p: nat, order: seq<nat>, k: Key)
    requires p < |h.peers| && h.peers[p].ops == [Leave] && k != Key(h.peers[p].room, h.peers[p].id)
    requires EntryIs(h, k) && OnlyOps(h, DoLeave(h, p, order), p)
    ensures EntryIs(DoLeave(h, p, order), k)
  {
    LatestKey(h.joins, Who(h.peers), k);
    assert Who(h.peers)[p] == Key(h.peers[p].room, h.peers[p].id);
    LeaveFindsSame(h, p, order, k);
    assert DoLeave(h, p, order).joins == h.joins;
    hide Who, Latest, Tell, Plain, Find, DoLeave;
  }

  lemma LeaveKeeps(h: Hub, p: nat, order: seq<nat>)
    requires Roster(h) && Isolated(h) && p < |h.peers| && h.peers[p].ops == [Leave]
    requires OnlyOps(h, DoLeave(h, p, order), p)
    ensures Roster(DoLeave(h, p, order))
  {
    var h' := DoLeave(h, p, order);
    assert Standing(h, p);
    assert h.peers[p].left;
    hide Standing, Tell, Isolated, EntryIs, Who;
    StandingsAfter(h, h', p);
    forall k ensures EntryIs(h', k) {
      assert EntryIs(h, k);
      if k == Key(h.peers[p].room, h.peers[p].id) {
        LeaveOwnEntry(h, p, order);
      } else {
        LeaveOtherEntry(h, p, order, k);
      }
    }
  }

  lemma ExecKeepsRoster(h: Hub, p: nat, pick: Pick)
    requires Roster(h) && Isolated(h) && CanExec(h, p, pick)
    ensures Roster(DoExec(h, p, pick))
  {
    assert Standing(h, p);
    ExecOnlyOps(h, p, pick);
    hide Isolated, EntryIs, Who, OthersIn, NoDup, FirstFree, JoinOps, Tell;
    var op := h.peers[p].ops[0];
    if op.Join? {
      assert forall x :: x in pick.order ==> x < |h.peers| by { OthersBound(h, p, pick); }
      JoinKeeps(h, p, pick.order);
    } else if op.Leave? {
      LeaveKeeps(h, p, pick.order);
    } else {
      var h' := DoExec(h, p, pick);
      ExecSameRooms(h, p, pick);
      StandingsAfter(h, h', p);
      EntriesSame(h, h');
    }
  }

  lemma ExecSameRooms(h: Hub, p: nat, pick: Pick)
    requires CanExec(h, p, pick) && !h.peers[p].ops[0].Join? && !h.peers[p].ops[0].Leave?
    ensures DoExec(h, p, pick).rooms == h.rooms && DoExec(h, p, pick).joins == h.joins
  {
  }

  lemma OtherKeepsRoster(h: Hub, s: Step)
    requires Roster(h) && CanStep(h, s) && !s.Connect? && !s.Exec?
    ensures Roster(Next(h, s))
  {
    var h', p := Next(h, s), s.p;
    WhoSame(h.peers, p, h'.peers[p]);
    hide Who, EntryIs, CanExec, DoExec;
    assert Standing(h, p);
    assert s.Take? ==> Plain(h'.peers[p].ops);
    assert Standing(h', p);
    forall q | 0 <= q < |h'.peers| && q != p ensures Standing(h', q) {
      assert Standing(h, q);
    }
    hide Standing;
    EntriesSame(h, h');
  }

  lemma ConnectKeepsRoster(h: Hub, s: Step)
    requires Roster(h) && s.Connect?
    ensures Roster(Next(h, s))
  {
    var h' := Next(h, s);
    var who, more := Who(h.peers), Key(s.room, s.id);
    assert Who(h'.peers) == who + [more];
    hide Who;
    assert forall i :: 0 <= i < |h.joins| ==> h.joins[i] in h.joins;
    forall k ensures EntryIs(h', k) {
      assert EntryIs(h, k);
      LatestGrow(h.joins, who, more, k);
      LatestKey(h.joins, who, k);
    }
    forall q | 0 <= q < |h'.peers| ensures Standing(h', q) {
      if q < |h.peers| { assert Standing(h, q); }
    }
  }

  lemma StepKeepsRoster(h: Hub, s: Step)
    requires Roster(h) && Isolated(h) && CanStep(h, s)
    ensures Roster(Next(h, s))
  {
    hide Roster, Isolated, CanExec, DoExec;
    if s.Connect? { ConnectKeepsRoster(h, s); }
    else if s.Exec? { ExecKeepsRoster(h, s.p, s.pick); }
    else { OtherKeepsRoster(h, s); }
  }

  /** In every run: rooms never mix, and the roster is the latest connections not gone. */
  lemma {:induction false} RosterIsLatest(steps: seq<Step>, h: Hub, last: Hub)
    requires Roster(h) && Isolated(h) && IsRun(h, steps, last)
    ensures Roster(last) && Isolated(last)
    decreases |steps|
  {
    if steps != [] {
      StepKeepsRoster(h, steps[0]);
      HubSafety.StepKeeps(h, steps[0]);
      hide Roster, Isolated, CanStep, Next;
      RosterIsLatest(steps[1..], Next(h, steps[0]), last);
    }
  }

  lemma EmptyIsFine()
    ensures Roster(EMPTY) && Isolated(EMPTY)
  {
  }

  /**
   * Latest connection wins, in any run: what a room's entry for an identity is, is the last
   * connection to have joined under both, unless that very one has left; a displaced
   * connection's departure evicts nobody; and no empty room is kept.
   */
  lemma LatestWins(steps: seq<Step>, last: Hub, room: string, id: string)
    requires IsRun(EMPTY, steps, last)
    ensures var l := Latest(last.joins, Who(last.peers), Key(room, id));
      Find(last.rooms, room, id) == if l.Some? && l.value < |last.peers| && !Gone(last.peers[l.value]) then l else None
    ensures room in last.rooms ==> last.rooms[room] != map[]
  {
    hide IsRun, Roster, Isolated;
    EmptyIsFine();
    RosterIsLatest(steps, EMPTY, last);
    NoEmptyRoom(last, room);
    EntryHolds(last, Key(room, id));
  }

  lemma NoEmptyRoom(h: Hub, room: string)
    requires Isolated(h)
    ensures room in h.rooms ==> h.rooms[room] != map[]
  {
    if room in h.rooms { assert RoomOk(Who(h.peers), room, h.rooms[room]); }
  }

  lemma EntryHolds(h: Hub, k: Key)
    requires Roster(h)
    ensures EntryIs(h, k)
  {
  }
}
