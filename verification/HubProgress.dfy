/**
 * The server cannot lock up: while clients keep reading, some goroutine can always move
 * unless there is nothing left to do, and every move uses up some of a finite weight, so
 * every backlog drains.
 */
module HubProgress {
  import opened Basics
  import opened HubSystem
  import opened HubSafety

  // ------------------------------------------------------------- no deadlock

  /** A step of a server goroutine, or of a client reading what it was sent. */
  predicate IsWork(s: Step) {
    s.ClientReads? || s.Take? || s.Exec? || s.WriterTakes? || s.WriterWrites? || s.Depart?
  }

  /** As CanStep, except that a socket holds at most `cap` frames the client has not read. */
  ghost predicate CanWork(h: Hub, s: Step, cap: nat) {
    IsWork(s) && CanStep(h, s) && (s.WriterWrites? ==> |h.peers[s.p].down| < cap)
  }

  ghost predicate Stuck(h: Hub, cap: nat) {
    forall s :: !CanWork(h, s, cap)
  }

  /** Nothing under way: all mail to open connections delivered, all they sent dealt with. */
  predicate Settled(x: Peer) {
    && x.ops == [] && x.down == []
    && if x.closed then x.left else x.up == [] && x.queue == [] && x.hand.None?
  }

  ghost predicate Idle(h: Hub) {
    forall p :: 0 <= p < |h.peers| ==> Settled(h.peers[p])
  }

  lemma {:induction false} Enumerate(s: set<nat>) returns (order: seq<nat>)
    ensures Lists(order, s)
  {
    if s == {} {
      order := [];
    } else {
      var x :| x in s;
      var rest := Enumerate(s - {x});
      order := [x] + rest;
    }
  }

  /** Ids below n that are taken are at most n, so a small enough table has a free one. */
  lemma {:induction false} Upto(n: nat) returns (ids: set<nat>)
    ensures (forall x: nat :: x in ids <==> 1 <= x <= n) && |ids| == n
  {
    if n == 0 {
      ids := {};
    } else {
      var rest := Upto(n - 1);
      ids := rest + {n};
    }
  }

  /** The counter finds a free id whenever one is left: the allocation loop ends. */
  lemma FreeIdExists(next: nat, taken: set<nat>) returns (sid: nat)
    requires |taken| < MAX_SESSION && next <= MAX_SESSION
    ensures FirstFree(next, taken, sid)
  {
    var all := Upto(MAX_SESSION);
    assert exists x :: x in all && x !in taken by {
      if all <= taken { Bigger(all, taken); }
    }
    var x :| x in all && x !in taken;
    sid := Nearest(next, taken, x);
  }

  lemma Bigger(a: set<nat>, b: set<nat>)
    requires a <= b
    ensures |a| <= |b|
  {
    assert b == a + (b - a);
  }

  /** From any free id the nearest one is found by going back while a nearer one is free. */
  lemma {:induction false} Nearest(next: nat, taken: set<nat>, x: nat) returns (sid: nat)
    requires 1 <= x <= MAX_SESSION && x !in taken && next <= MAX_SESSION
    ensures FirstFree(next, taken, sid)
    decreases Distance(next, x)
  {
    if y: nat :| 1 <= y <= MAX_SESSION && Distance(next, y) < Distance(next, x) && y !in taken {
      sid := Nearest(next, taken, y);
    } else {
      sid := x;
    }
  }

  /** A goroutine with something to do can do it once no open connection has mail queued. */
  lemma OpsCanRun(h: Hub, p: nat) returns (pick: Pick)
    requires Isolated(h) && p < |h.peers| && h.peers[p].ops != []
    requires |h.sessions| < MAX_SESSION && h.nextSess <= MAX_SESSION
    requires forall q :: 0 <= q < |h.peers| && !h.peers[q].closed ==> h.peers[q].queue == []
    ensures CanExec(h, p, pick)
  {
    var others := Enumerate(OthersIn(h, p));
    var sessions := Enumerate(SessionsOf(h.sessions, p));
    var op := h.peers[p].ops[0];
    pick := Pick(if op.DropSessions? then sessions else others, 0);
    if op.Alloc? {
      var sid := FreeIdExists(h.nextSess, h.sessions.Keys);
      pick := Pick([], sid);
    }
    RoomsInRange(h);
    TargetsInRange(h, p);
    hide Isolated, Lists, OthersIn, SessionsOf, FirstFree;
  }

  lemma TargetsInRange(h: Hub, p: nat)
    requires Isolated(h) && p < |h.peers| && h.peers[p].ops != []
    ensures var op := h.peers[p].ops[0];
      && (op.Enqueue? ==> op.to < |h.peers|) && (op.Alloc? ==> op.target < |h.peers|)
      && (op.Kill? ==> op.victim < |h.peers|)
  {
    Parts(h, p);
    assert OpOk(Who(h.peers), p, h.peers[p].ops[0]);
    hide Isolated, RoomsOk, TableOk, MailOk, OpsOk, OpsShape;
  }

  lemma RoomsInRange(h: Hub)
    requires Isolated(h)
    ensures forall r, i :: r in h.rooms && i in h.rooms[r] ==> h.rooms[r][i] < |h.peers|
  {
    forall r, i | r in h.rooms && i in h.rooms[r] ensures h.rooms[r][i] < |h.peers| {
      assert RoomOk(Who(h.peers), r, h.rooms[r]);
    }
  }

  /**
   * No deadlock. However full the 64-slot queues are and whoever is waiting on whom, as
   * long as one frame fits a socket and an id is free, some goroutine can move or a client
   * can read, unless everything has been dealt with.
   */
  lemma StuckMeansIdle(h: Hub, cap: nat)
    requires Isolated(h) && Stuck(h, cap) && cap >= 1 && |h.sessions| < MAX_SESSION && h.nextSess <= MAX_SESSION
    ensures Idle(h)
  {
    hide Isolated, Stuck;
    forall p | 0 <= p < |h.peers| ensures h.peers[p].down == [] {
      StuckPeer(h, cap, p);
    }
    forall p | 0 <= p < |h.peers| && !h.peers[p].closed ensures h.peers[p].hand.None? && h.peers[p].queue == [] {
      StuckPeer(h, cap, p);
    }
    forall p | 0 <= p < |h.peers| ensures Settled(h.peers[p]) {
      StuckPeer(h, cap, p);
      if h.peers[p].ops != [] {
        var pick := OpsCanRun(h, p);
        StuckOps(h, cap, p, pick);
      }
    }
  }

  lemma StuckPeer(h: Hub, cap: nat, p: nat)
    requires Stuck(h, cap) && p < |h.peers| && cap >= 1
    ensures var x := h.peers[p];
      && x.down == []
      && (!x.closed ==> x.hand.None? && x.queue == [] && (x.ops == [] ==> x.up == []))
      && (x.closed && x.ops == [] ==> x.left)
  {
    assert !CanWork(h, ClientReads(p), cap);
    assert !CanWork(h, WriterWrites(p), cap);
    assert !CanWork(h, WriterTakes(p), cap);
    assert !CanWork(h, Take(p), cap);
    assert !CanWork(h, Depart(p), cap);
    hide CanExec, Stuck;
  }

  lemma StuckOps(h: Hub, cap: nat, p: nat, pick: Pick)
    requires CanExec(h, p, pick)
    ensures !Stuck(h, cap)
  {
    assert CanWork(h, Exec(p, pick), cap);
  }

  // ------------------------------------------------------- a finite weight

  /** An upper bound on the steps an operation can lead to, in a server of n connections. */
  function OpWeight(n: nat, op: Op): nat {
    match op
    case Enqueue(_, _) => 4
    case Kill(_) => 1
    case Join => 10 + 4 * n
    case Leave => 2 + 4 * n
    case DropSessions => 1
    case Open(_) => 14
    case Alloc(_) => 13
    case Route(_) => 5
    case RouteAck(_, _) => 5
    case CloseSession(_) => 1
    case Signal(_, _) => 5
    case Rename(_) => 1 + 4 * n
  }

  function OpsWeight(n: nat, ops: seq<Op>): nat {
    if ops == [] then 0 else OpWeight(n, ops[0]) + OpsWeight(n, ops[1..])
  }

  function PeerWeight(n: nat, x: Peer): nat {
    OpsWeight(n, x.ops) + (15 + 4 * n) * |x.up| + 3 * |x.queue| + (if x.hand.Some? then 2 else 0) + |x.down|
    + if x.left then 0 else 3 + 4 * n
  }

  function PeersWeight(n: nat, peers: seq<Peer>): nat {
    if peers == [] then 0 else PeerWeight(n, peers[0]) + PeersWeight(n, peers[1..])
  }

  /** Everything queued, pending or still owed by the server, and 4 for each session to be closed. */
  function Weight(h: Hub): nat { PeersWeight(|h.peers|, h.peers) + 4 * |h.sessions| }

  lemma {:induction false} OpsWeightConcat(n: nat, a: seq<Op>, b: seq<Op>)
    ensures OpsWeight(n, a + b) == OpsWeight(n, a) + OpsWeight(n, b)
  {
    if a == [] {
      assert a + b == b;
    } else {
      assert (a + b)[1..] == a[1..] + b;
      OpsWeightConcat(n, a[1..], b);
    }
  }

  lemma {:induction false} PeersWeightUpdate(n: nat, peers: seq<Peer>, p: nat, x: Peer)
    requires p < |peers|
    ensures PeersWeight(n, peers[p := x]) == PeersWeight(n, peers) - PeerWeight(n, peers[p]) + PeerWeight(n, x)
  {
    hide PeerWeight;
    if p == 0 {
      assert peers[p := x][1..] == peers[1..];
    } else {
      assert peers[p := x][1..] == peers[1..][p - 1 := x];
      PeersWeightUpdate(n, peers[1..], p - 1, x);
    }
  }

  lemma {:induction false} TellWeight(n: nat, to: seq<nat>, f: Down)
    ensures OpsWeight(n, Tell(to, f)) == 4 * |to|
  {
    if to != [] {
      assert Tell(to, f)[1..] == Tell(to[1..], f);
      TellWeight(n, to[1..], f);
    }
  }

  lemma {:induction false} NoticesWeight(n: nat, sessions: map<nat, Sess>, p: nat, order: seq<nat>)
    requires forall x :: x in order ==> x in SessionsOf(sessions, p)
    ensures OpsWeight(n, CloseNotices(sessions, p, order)) == 4 * |order|
  {
    if order != [] {
      assert order[0] in order && order[0] in SessionsOf(sessions, p);
      NoticesWeight(n, sessions, p, order[1..]);
      var all, rest := CloseNotices(sessions, p, order), CloseNotices(sessions, p, order[1..]);
      assert all[1..] == rest && all[0].Enqueue?;
    }
  }

  lemma {:induction false} ListSize(order: seq<nat>, s: set<nat>)
    requires Lists(order, s)
    ensures |order| == |s|
  {
    if order == [] {
      assert s == {};
    } else {
      var x, rest := order[0], order[1..];
      assert x in order;
      assert forall y :: y in order <==> y == x || y in rest;
      assert x !in rest;
      ListSize(rest, s - {x});
    }
  }

  /** A list of distinct connections is no longer than the list of all of them. */
  lemma Distinct(order: seq<nat>, s: set<nat>, n: nat)
    requires Lists(order, s) && forall x :: x in s ==> x < n
    ensures |order| <= n
  {
    ListSize(order, s);
    BoundedSize(s, n);
  }

  lemma {:induction false} BoundedSize(s: set<nat>, n: nat)
    requires forall x :: x in s ==> x < n
    ensures |s| <= n
  {
    if n == 0 {
      assert s == {};
    } else {
      BoundedSize(s - {n - 1}, n - 1);
    }
  }

  // ------------------------------------------------------- every step uses some up

  /** One goroutine's pending operations change, and the table too. */
  lemma OpsLighter(h: Hub, h': Hub, p: nat, add: seq<Op>)
    requires p < |h.peers| && h.peers[p].ops != []
    requires h'.peers == h.peers[p := h.peers[p].(ops := add + h.peers[p].ops[1..])]
    requires OpsWeight(|h.peers|, add) + 4 * |h'.sessions| < OpWeight(|h.peers|, h.peers[p].ops[0]) + 4 * |h.sessions|
    ensures Weight(h') < Weight(h)
  {
    var n, x := |h.peers|, h.peers[p];
    OpsWeightConcat(n, add, x.ops[1..]);
    PeersWeightUpdate(n, h.peers, p, x.(ops := add + x.ops[1..]));
    hide PeersWeight;
  }

  /** One connection's own fields change. */
  lemma PeerLighter(h: Hub, h': Hub, p: nat, x: Peer)
    requires p < |h.peers| && h'.peers == h.peers[p := x] && h'.sessions == h.sessions
    requires PeerWeight(|h.peers|, x) < PeerWeight(|h.peers|, h.peers[p])
    ensures Weight(h') < Weight(h)
  {
    PeersWeightUpdate(|h.peers|, h.peers, p, x);
    hide PeersWeight, PeerWeight;
  }

  lemma JoinWeight(n: nat, room: map<string, nat>, p: nat, id: string, w: Down, order: seq<nat>, f: Down)
    ensures OpsWeight(n, JoinOps(room, p, id, w, order, f)) <= 9 + 4 * |order|
  {
    var a := if id in room then [Enqueue(room[id], Problem), Kill(room[id])] else [];
    OpsWeightConcat(n, a, [Enqueue(p, w)]);
    OpsWeightConcat(n, a + [Enqueue(p, w)], Tell(order, f));
    TellWeight(n, order, f);
    assert OpsWeight(n, a) <= 5 by {
      if id in room { assert a == [a[0], a[1]] && a[1..] == [a[1]]; assert OpsWeight(n, a[1..]) == 1; }
    }
    assert OpsWeight(n, [Enqueue(p, w)]) == 4;
    hide OpsWeight, Tell;
  }

  lemma LighterJoin(h: Hub, p: nat, order: seq<nat>)
    requires p < |h.peers| && h.peers[p].ops != [] && h.peers[p].ops[0].Join?
    requires (forall x :: x in order ==> x < |h.peers|) && |order| <= |h.peers|
    ensures Weight(DoJoin(h, p, order)) < Weight(h)
  {
    var me := h.peers[p];
    hide Weight, OpsWeight, JoinOps;
    var w, f := Welcome(InfoOf(me), Infos(h.peers, order)), PeerJoin(InfoOf(me));
    JoinWeight(|h.peers|, RoomMap(h, me.room), p, me.id, w, order, f);
    OpsLighter(h, DoJoin(h, p, order), p, JoinOps(RoomMap(h, me.room), p, me.id, w, order, f));
  }

  lemma LighterLeave(h: Hub, p: nat, order: seq<nat>)
    requires p < |h.peers| && h.peers[p].ops != [] && h.peers[p].ops[0].Leave? && |order| <= |h.peers|
    ensures Weight(DoLeave(h, p, order)) < Weight(h)
  {
    var me, f := h.peers[p], PeerLeave(h.peers[p].id);
    var n := |h.peers|;
    assert OpsWeight(n, []) == 0 && OpsWeight(n, [DropSessions]) == 1;
    OpsWeightConcat(n, [DropSessions], Tell(order, f));
    TellWeight(n, order, f);
    hide Weight, OpsWeight, Tell;
    if Find(h.rooms, me.room, me.id) != Some(p) {
      assert [] + Rest(h, p) == Rest(h, p);
      OpsLighter(h, DoLeave(h, p, order), p, []);
    } else {
      OpsLighter(h, DoLeave(h, p, order), p, [DropSessions] + Tell(order, f));
    }
  }

  lemma LighterDrop(h: Hub, p: nat, order: seq<nat>)
    requires p < |h.peers| && h.peers[p].ops != [] && h.peers[p].ops[0].DropSessions?
    requires Lists(order, SessionsOf(h.sessions, p))
    ensures Weight(DoDrop(h, p, order)) < Weight(h)
  {
    NoticesWeight(|h.peers|, h.sessions, p, order);
    ListSize(order, SessionsOf(h.sessions, p));
    Removed(h.sessions, SessionsOf(h.sessions, p));
    hide Weight, OpsWeight, CloseNotices, SessionsOf;
    OpsLighter(h, DoDrop(h, p, order), p, CloseNotices(h.sessions, p, order));
  }

  lemma Removed(m: map<nat, Sess>, gone: set<nat>)
    requires gone <= m.Keys
    ensures |m - gone| == |m| - |gone|
  {
    assert (m - gone).Keys == m.Keys - gone;
    assert |(m - gone).Keys| == |m - gone| && |m.Keys| == |m|;
  }

  lemma LighterAlloc(h: Hub, p: nat, t: nat, sid: nat)
    requires p < |h.peers| && t < |h.peers| && h.peers[p].ops != [] && h.peers[p].ops[0].Alloc? && sid !in h.sessions
    ensures Weight(DoAlloc(h, p, t, sid)) < Weight(h)
  {
    hide Weight, OpsWeight;
    var add := [Enqueue(p, Ready(sid, h.peers[t].id)), Enqueue(t, Incoming(sid, h.peers[p].id))];
    TwoWeight(|h.peers|, add[0], add[1]);
    OneMore(h.sessions, sid, Sess(sid, p, t));
    OpsLighter(h, DoAlloc(h, p, t, sid), p, add);
  }

  lemma TwoWeight(n: nat, a: Op, b: Op)
    requires a.Enqueue? && b.Enqueue?
    ensures OpsWeight(n, [a, b]) == 8
  {
    assert [a, b][1..] == [b] && [b][1..] == [];
    assert OpsWeight(n, [b]) == 4 + OpsWeight(n, []);
  }

  lemma OneMore(m: map<nat, Sess>, sid: nat, s: Sess)
    requires sid !in m
    ensures |m[sid := s]| == |m| + 1
  {
    assert m[sid := s].Keys == m.Keys + {sid};
    assert |m[sid := s].Keys| == |m[sid := s]| && |m.Keys| == |m|;
  }

  lemma ForwardWeight(n: nat, sessions: map<nat, Sess>, p: nat, sid: Option<nat>, f: Down)
    ensures OpsWeight(n, ForwardIfKnown(sessions, p, sid, f)) <= if sid.Some? && sid.value in sessions then 4 else 0
  {
  }

  lemma LighterRelay(h: Hub, p: nat, sid: Option<nat>, f: Down)
    requires p < |h.peers| && h.peers[p].ops != [] && (h.peers[p].ops[0].Route? || h.peers[p].ops[0].RouteAck?)
    ensures Weight(DoRelay(h, p, sid, f)) < Weight(h)
  {
    hide Weight, OpsWeight, ForwardIfKnown;
    ForwardWeight(|h.peers|, h.sessions, p, sid, f);
    OpsLighter(h, DoRelay(h, p, sid, f), p, ForwardIfKnown(h.sessions, p, sid, f));
  }

  lemma LighterClose(h: Hub, p: nat, sid: nat)
    requires p < |h.peers| && h.peers[p].ops != [] && h.peers[p].ops[0].CloseSession?
    ensures Weight(DoClose(h, p, sid)) < Weight(h)
  {
    hide Weight, OpsWeight, ForwardIfKnown;
    ForwardWeight(|h.peers|, h.sessions, p, Some(sid), CloseTo(sid));
    if sid in h.sessions { Removed(h.sessions, {sid}); } else { assert h.sessions - {sid} == h.sessions; }
    OpsLighter(h, DoClose(h, p, sid), p, ForwardIfKnown(h.sessions, p, Some(sid), CloseTo(sid)));
  }

  lemma LighterAnswer(h: Hub, h': Hub, p: nat, op: Op)
    requires p < |h.peers| && h.peers[p].ops != [] && h' == WithOps(h, p, [op] + Rest(h, p))
    requires OpWeight(|h.peers|, op) < OpWeight(|h.peers|, h.peers[p].ops[0])
    ensures Weight(h') < Weight(h)
  {
    assert OpsWeight(|h.peers|, [op]) == OpWeight(|h.peers|, op);
    hide Weight, OpsWeight;
    OpsLighter(h, h', p, [op]);
  }

  lemma LighterRename(h: Hub, p: nat, name: string, order: seq<nat>)
    requires p < |h.peers| && h.peers[p].ops != [] && h.peers[p].ops[0].Rename? && |order| <= |h.peers|
    ensures Weight(DoRename(h, p, name, order)) < Weight(h)
  {
    var me := h.peers[p];
    var f := PeerJoin(Info(me.id, name));
    TellWeight(|h.peers|, order, f);
    OpsWeightConcat(|h.peers|, Tell(order, f), Rest(h, p));
    var x := me.(name := name, ops := Tell(order, f) + Rest(h, p));
    hide Tell;
    PeerLighter(h, DoRename(h, p, name, order), p, x);
  }

  lemma LighterPop(h: Hub, p: nat)
    requires p < |h.peers| && h.peers[p].ops != []
    ensures Weight(WithOps(h, p, Rest(h, p))) == Weight(h) - OpWeight(|h.peers|, h.peers[p].ops[0])
  {
    PeersWeightUpdate(|h.peers|, h.peers, p, h.peers[p].(ops := Rest(h, p)));
    hide PeersWeight;
  }

  lemma LighterEnqueue(h: Hub, p: nat, to: nat, f: Down)
    requires p < |h.peers| && h.peers[p].ops != [] && h.peers[p].ops[0] == Enqueue(to, f) && to < |h.peers|
    ensures Weight(DoEnqueue(h, p, to, f)) < Weight(h)
  {
    LighterPop(h, p);
    var h1 := WithOps(h, p, Rest(h, p));
    if !h1.peers[to].closed {
      PeersWeightUpdate(|h.peers|, h1.peers, to, h1.peers[to].(queue := h1.peers[to].queue + [Mail(p, f)]));
    }
    hide PeersWeight;
  }

  lemma LighterKill(h: Hub, p: nat, v: nat)
    requires p < |h.peers| && h.peers[p].ops != [] && h.peers[p].ops[0] == Kill(v) && v < |h.peers|
    ensures Weight(DoKill(h, p, v)) < Weight(h)
  {
    LighterPop(h, p);
    var h1 := WithOps(h, p, Rest(h, p));
    PeersWeightUpdate(|h.peers|, h1.peers, v, h1.peers[v].(closed := true));
    hide PeersWeight;
  }

  lemma LighterExec(h: Hub, p: nat, pick: Pick)
    requires Isolated(h) && CanExec(h, p, pick)
    ensures Weight(DoExec(h, p, pick)) < Weight(h)
  {
    OthersTogether(h, p);
    hide Isolated, Weight, DoJoin, DoLeave, DoDrop, DoOpen, DoAlloc, DoRelay, DoClose, DoSignal, DoRename, DoEnqueue,
         DoKill, OthersIn, Who, Together, SessionsOf, NoDup, Find;
    match h.peers[p].ops[0]
    case Join => Few(h, p, pick.order); LighterJoin(h, p, pick.order);
    case Leave => Few(h, p, pick.order); LighterLeave(h, p, pick.order);
    case DropSessions => LighterDrop(h, p, pick.order);
    case Open(toId) => LighterOpen(h, p, toId);
    case Alloc(t) => assert pick.sid !in h.sessions; LighterAlloc(h, p, t, pick.sid);
    case Route(data) => LighterRelay(h, p, HeaderOf(data), Payload(data));
    case RouteAck(sid, bytes) => LighterRelay(h, p, Some(sid), AckTo(sid, bytes));
    case CloseSession(sid) => LighterClose(h, p, sid);
    case Signal(toId, body) => LighterSignal(h, p, toId, body);
    case Rename(name) => Few(h, p, pick.order); LighterRename(h, p, name, pick.order);
    case Enqueue(to, f) => LighterEnqueue(h, p, to, f);
    case Kill(v) => LighterKill(h, p, v);
  }

  lemma Few(h: Hub, p: nat, order: seq<nat>)
    requires p < |h.peers| && Lists(order, OthersIn(h, p))
    requires forall x :: x in OthersIn(h, p) ==> Together(Who(h.peers), p, x)
    ensures |order| <= |h.peers| && forall x :: x in order ==> x < |h.peers|
  {
    Distinct(order, OthersIn(h, p), |h.peers|);
  }

  lemma LighterOpen(h: Hub, p: nat, toId: string)
    requires p < |h.peers| && h.peers[p].ops != [] && h.peers[p].ops[0].Open?
    ensures Weight(DoOpen(h, p, toId)) < Weight(h)
  {
    hide Weight, Find;
    var target := Find(h.rooms, h.peers[p].room, toId);
    LighterAnswer(h, DoOpen(h, p, toId), p, if target.None? || target.value == p then Enqueue(p, Problem)
                  else Alloc(target.value));
  }

  lemma LighterSignal(h: Hub, p: nat, toId: string, body: string)
    requires p < |h.peers| && h.peers[p].ops != [] && h.peers[p].ops[0].Signal?
    ensures Weight(DoSignal(h, p, toId, body)) < Weight(h)
  {
    hide Weight, Find;
    var target := Find(h.rooms, h.peers[p].room, toId);
    LighterAnswer(h, DoSignal(h, p, toId, body), p,
                  if target.None? then Enqueue(p, Problem) else Enqueue(target.value, Signalled(h.peers[p].id, body)));
  }

  lemma DecodeWeight(n: nat, p: nat, u: Up)
    ensures OpsWeight(n, Decode(p, u)) < 15 + 4 * n
  {
    assert Decode(p, u) != [] ==> Decode(p, u)[1..] == [];
  }

  lemma LighterMoves(h: Hub, s: Step)
    requires CanStep(h, s) && IsWork(s) && !s.Exec?
    ensures Weight(Next(h, s)) < Weight(h)
  {
    var x, x' := h.peers[s.p], Next(h, s).peers[s.p];
    var n := |h.peers|;
    hide Weight, PeersWeight;
    if s.Take? {
      DecodeWeight(n, s.p, x.up[0]);
      assert |x'.up| == |x.up| - 1;
      TakeWeight(n, |x.up|);
    }
    if s.Depart? { assert OpsWeight(n, [Leave]) == 2 + 4 * n; }
    hide Decode;
    PeerLighter(h, Next(h, s), s.p, x');
  }

  lemma TakeWeight(n: nat, k: nat)
    ensures k > 0 ==> (15 + 4 * n) * k == (15 + 4 * n) * (k - 1) + 15 + 4 * n
  {
  }

  lemma WorkLightens(h: Hub, s: Step)
    requires Isolated(h) && CanStep(h, s) && IsWork(s)
    ensures Weight(Next(h, s)) < Weight(h)
  {
    hide Isolated, Weight, CanExec, DoExec;
    if s.Exec? { LighterExec(h, s.p, s.pick); } else { LighterMoves(h, s); }
  }

  ghost predicate AllWork(steps: seq<Step>) { forall k :: 0 <= k < |steps| ==> IsWork(steps[k]) }

  lemma {:induction false} WorkIsBounded(h: Hub, steps: seq<Step>, last: Hub)
    requires Isolated(h) && IsRun(h, steps, last) && AllWork(steps)
    ensures |steps| + Weight(last) <= Weight(h)
    decreases |steps|
  {
    if steps != [] {
      assert IsWork(steps[0]);
      StepKeeps(h, steps[0]);
      WorkLightens(h, steps[0]);
      hide Isolated, Weight, CanStep, Next, IsWork;
      WorkIsBounded(Next(h, steps[0]), steps[1..], last);
    }
  }

  lemma CounterInRange(h: Hub, s: Step)
    requires CanStep(h, s) && h.nextSess <= MAX_SESSION
    ensures Next(h, s).nextSess <= MAX_SESSION
  {
    hide Lists;
    if s.Exec? {
      var op := h.peers[s.p].ops[0];
      if op.Alloc? { FreeInRange(h.nextSess, h.sessions.Keys, s.pick.sid); }
      hide FirstFree;
    }
  }

  lemma {:induction false} RunInRange(h: Hub, steps: seq<Step>, last: Hub)
    requires IsRun(h, steps, last) && h.nextSess <= MAX_SESSION
    ensures last.nextSess <= MAX_SESSION
    decreases |steps|
  {
    if steps != [] {
      CounterInRange(h, steps[0]);
      hide CanStep, Next;
      RunInRange(Next(h, steps[0]), steps[1..], last);
    }
  }

  /**
   * From any state the server can be in, it and its clients can work for at most as many
   * steps as the state weighs, in whatever order they go about it, and when they can go no
   * further everything that was under way has been dealt with.
   */
  lemma BacklogDrains(before: seq<Step>, h: Hub, work: seq<Step>, last: Hub, cap: nat)
    requires IsRun(EMPTY, before, h) && IsRun(h, work, last) && AllWork(work)
    ensures |work| <= Weight(h)
    ensures cap >= 1 && Stuck(last, cap) && |last.sessions| < MAX_SESSION ==> Idle(last)
  {
    assert Isolated(EMPTY);
    hide Isolated, Weight, IsRun, Stuck, Idle, AllWork;
    RunKeeps(EMPTY, before, h);
    WorkIsBounded(h, work, last);
    RunKeeps(h, work, last);
    RunInRange(EMPTY, before, h);
    RunInRange(h, work, last);
    if cap >= 1 && Stuck(last, cap) && |last.sessions| < MAX_SESSION { StuckMeansIdle(last, cap); }
  }
}
