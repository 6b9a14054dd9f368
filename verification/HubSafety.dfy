/**
 * What every run of the server keeps: rooms never mix, queues stay bounded, the session
 * table joins two distinct members of one room, and the roster is exactly the latest
 * connections that have not left.
 */
module HubSafety {
  import opened Basics
  import opened HubSystem

  datatype Key = Key(room: string, id: string)

  function Who(peers: seq<Peer>): seq<Key> {
    seq(|peers|, p requires 0 <= p < |peers| => Key(peers[p].room, peers[p].id))
  }

  ghost predicate Together(who: seq<Key>, p: nat, q: nat) {
    p < |who| && q < |who| && who[p].room == who[q].room
  }

  /** An operation pending at p concerns only connections of p's own room. */
  ghost predicate OpOk(who: seq<Key>, p: nat, op: Op) {
    match op
    case Enqueue(to, _) => Together(who, p, to)
    case Alloc(t) => Together(who, p, t) && t != p
    case Kill(v) => Together(who, p, v)
    case _ => true
  }

  ghost predicate OpsOk(who: seq<Key>, p: nat, ops: seq<Op>) {
    forall k :: 0 <= k < |ops| ==> OpOk(who, p, ops[k])
  }

  predicate IsTell(op: Op) { op.Enqueue? || op.Kill? }

  ghost predicate AllTells(ops: seq<Op>) {
    forall k :: 0 <= k < |ops| ==> IsTell(ops[k])
  }

  /** Only the first pending operation can be anything but a frame to queue. */
  ghost predicate OpsShape(ops: seq<Op>) {
    && (forall k :: 1 <= k < |ops| ==> IsTell(ops[k]))
    && (ops != [] && ops[0].DropSessions? ==> forall k :: 1 <= k < |ops| ==> ops[k].Enqueue? && ops[k].f.PeerLeave?)
    && (ops != [] && !IsTell(ops[0]) && !ops[0].DropSessions? ==> |ops| == 1)
  }

  /** Everything on its way to a connection, or there already, in the order queued. */
  function Box(x: Peer): seq<Mail> {
    x.seen + x.down + (if x.hand.Some? then [x.hand.value] else []) + x.queue
  }

  ghost predicate MailOk(who: seq<Key>, p: nat, box: seq<Mail>) {
    forall k :: 0 <= k < |box| ==> Together(who, p, box[k].src)
  }

  ghost predicate PeerOk(who: seq<Key>, p: nat, x: Peer) {
    OpsOk(who, p, x.ops) && OpsShape(x.ops) && MailOk(who, p, Box(x)) && |x.queue| <= OUTBOUND_QUEUE
  }

  /** A room lists live entries under their own room and identity, and is not empty. */
  ghost predicate RoomOk(who: seq<Key>, r: string, room: map<string, nat>) {
    room != map[] && forall i :: i in room ==> room[i] < |who| && who[room[i]] == Key(r, i)
  }

  ghost predicate RoomsOk(who: seq<Key>, rooms: map<string, map<string, nat>>) {
    forall r :: r in rooms ==> RoomOk(who, r, rooms[r])
  }

  ghost predicate SessOk(who: seq<Key>, s: Sess, sid: nat) {
    s.id == sid && 1 <= sid <= MAX_SESSION && s.from != s.to && Together(who, s.from, s.to)
  }

  ghost predicate TableOk(who: seq<Key>, sessions: map<nat, Sess>, born: map<nat, Sess>) {
    && (forall sid :: sid in sessions ==> sid in born && SessOk(who, sessions[sid], sid))
    && (forall sid :: sid in born ==> SessOk(who, born[sid], sid))
  }

  ghost predicate Isolated(h: Hub) {
    var who := Who(h.peers);
    && RoomsOk(who, h.rooms)
    && TableOk(who, h.sessions, h.born)
    && forall p :: 0 <= p < |h.peers| ==> PeerOk(who, p, h.peers[p])
  }

  // ------------------------------------------------------------ small frames

  lemma WhoSame(peers: seq<Peer>, p: nat, x: Peer)
    requires p < |peers| && x.room == peers[p].room && x.id == peers[p].id
    ensures Who(peers[p := x]) == Who(peers)
  {
  }

  lemma PeerChanges(h: Hub, h': Hub, p: nat, x: Peer)
    requires Isolated(h) && p < |h.peers| && h'.peers == h.peers[p := x]
    requires x.room == h.peers[p].room && x.id == h.peers[p].id
    requires PeerOk(Who(h.peers), p, x)
    requires RoomsOk(Who(h.peers), h'.rooms) && TableOk(Who(h.peers), h'.sessions, h'.born)
    ensures Isolated(h')
  {
    hide PeerOk, RoomsOk, TableOk, Who;
    WhoSame(h.peers, p, x);
  }

  lemma Grows(who: seq<Key>, k: Key, p: nat, x: Peer)
    requires PeerOk(who, p, x)
    ensures PeerOk(who + [k], p, x)
  {
    hide OpsShape, Box;
    var who' := who + [k];
    assert forall a, b :: Together(who, a, b) ==> Together(who', a, b);
    hide Together;
  }

  lemma TellOk(who: seq<Key>, p: nat, to: seq<nat>, f: Down)
    requires forall x :: x in to ==> Together(who, p, x)
    ensures OpsOk(who, p, Tell(to, f)) && forall k :: 0 <= k < |to| ==> Tell(to, f)[k] == Enqueue(to[k], f)
  {
    forall k | 0 <= k < |to| ensures OpOk(who, p, Tell(to, f)[k]) {
      assert to[k] in to;
    }
  }

  lemma OpsConcat(who: seq<Key>, p: nat, a: seq<Op>, b: seq<Op>)
    requires OpsOk(who, p, a) && OpsOk(who, p, b)
    ensures OpsOk(who, p, a + b)
  {
    hide OpOk;
  }

  lemma {:induction false} NoticesOk(who: seq<Key>, sessions: map<nat, Sess>, born: map<nat, Sess>, p: nat,
                                     order: seq<nat>)
    requires TableOk(who, sessions, born) && forall x :: x in order ==> x in SessionsOf(sessions, p)
    ensures OpsOk(who, p, CloseNotices(sessions, p, order))
    ensures AllTells(CloseNotices(sessions, p, order))
  {
    if order != [] {
      assert order[0] in order && order[0] in SessionsOf(sessions, p);
      NoticesOk(who, sessions, born, p, order[1..]);
    }
  }

  /** Everyone a connection tells about itself is in its room. */
  lemma OthersTogether(h: Hub, p: nat)
    requires Isolated(h) && p < |h.peers|
    ensures forall x :: x in OthersIn(h, p) ==> Together(Who(h.peers), p, x)
  {
    forall x | x in OthersIn(h, p) ensures Together(Who(h.peers), p, x) {
      var r := h.peers[p].room;
      assert RoomOk(Who(h.peers), r, h.rooms[r]);
      var m := h.rooms[r] - {h.peers[p].id};
      var i :| i in m && m[i] == x;
      assert i in h.rooms[r];
    }
  }

  lemma FoundTogether(h: Hub, p: nat, id: string)
    requires Isolated(h) && p < |h.peers| && Find(h.rooms, h.peers[p].room, id).Some?
    ensures Together(Who(h.peers), p, Find(h.rooms, h.peers[p].room, id).value)
  {
    assert RoomOk(Who(h.peers), h.peers[p].room, h.rooms[h.peers[p].room]);
  }

  // ------------------------------------------------------ each operation keeps it

  /** The plain case: an operation is replaced by frames to queue in the same room. */
  lemma Replaces(h: Hub, h': Hub, p: nat, add: seq<Op>)
    requires Isolated(h) && p < |h.peers| && h.peers[p].ops != []
    requires h'.peers == h.peers[p := h.peers[p].(ops := add + h.peers[p].ops[1..])]
    requires OpsOk(Who(h.peers), p, add) && OpsShape(add + h.peers[p].ops[1..])
    requires RoomsOk(Who(h.peers), h'.rooms) && TableOk(Who(h.peers), h'.sessions, h'.born)
    ensures Isolated(h')
  {
    hide RoomsOk, TableOk, Who, OpsShape, MailOk, OpOk, Box;
    var x := h.peers[p].(ops := add + h.peers[p].ops[1..]);
    OpsConcat(Who(h.peers), p, add, h.peers[p].ops[1..]);
    assert Box(x) == Box(h.peers[p]) by { BoxSame(h.peers[p], x.ops); }
    PeerChanges(h, h', p, x);
  }

  lemma BoxSame(x: Peer, ops: seq<Op>)
    ensures Box(x.(ops := ops)) == Box(x)
  {
  }

  /** The invariant, part by part. */
  lemma Parts(h: Hub, p: nat)
    requires Isolated(h) && p < |h.peers|
    ensures PeerOk(Who(h.peers), p, h.peers[p]) && RoomsOk(Who(h.peers), h.rooms)
    ensures TableOk(Who(h.peers), h.sessions, h.born)
    ensures p < |Who(h.peers)| && Who(h.peers)[p] == Key(h.peers[p].room, h.peers[p].id)
  {
  }

  lemma JoinKeepsRooms(who: seq<Key>, rooms: map<string, map<string, nat>>, p: nat, r: string, i: string)
    requires RoomsOk(who, rooms) && p < |who| && who[p] == Key(r, i)
    ensures RoomsOk(who, rooms[r := (if r in rooms then rooms[r] else map[])[i := p]])
  {
    var room := (if r in rooms then rooms[r] else map[])[i := p];
    assert i in room;
    assert RoomOk(who, r, room);
    hide RoomOk;
  }

  /** Everything a joining connection has to say concerns its own room. */
  lemma JoinTells(who: seq<Key>, rooms: map<string, map<string, nat>>, p: nat, r: string, i: string,
                  w: Down, order: seq<nat>, f: Down)
    requires RoomsOk(who, rooms) && p < |who| && who[p] == Key(r, i)
    requires forall x :: x in order ==> Together(who, p, x)
    ensures OpsOk(who, p, JoinOps(if r in rooms then rooms[r] else map[], p, i, w, order, f))
    ensures AllTells(JoinOps(if r in rooms then rooms[r] else map[], p, i, w, order, f))
  {
    if r in rooms { assert RoomOk(who, r, rooms[r]); }
    TellOk(who, p, order, f);
  }

  /** A connection about to run an operation of this kind. */
  ghost predicate Doing(h: Hub, p: nat) {
    Isolated(h) && p < |h.peers| && h.peers[p].ops != []
  }

  ghost predicate InRoom(h: Hub, p: nat, order: seq<nat>) {
    forall x :: x in order ==> x < |h.peers| && Together(Who(h.peers), p, x)
  }

  lemma ExecJoin(h: Hub, p: nat, order: seq<nat>)
    requires Doing(h, p) && h.peers[p].ops[0].Join? && InRoom(h, p, order)
    ensures Isolated(DoJoin(h, p, order))
  {
    var me, who := h.peers[p], Who(h.peers);
    Parts(h, p);
    hide Isolated, Who, Box, MailOk, TableOk, RoomsOk, JoinOps;
    assert Rest(h, p) == [];
    JoinKeepsRooms(who, h.rooms, p, me.room, me.id);
    var w, f := Welcome(InfoOf(me), Infos(h.peers, order)), PeerJoin(InfoOf(me));
    JoinTells(who, h.rooms, p, me.room, me.id, w, order, f);
    Replaces(h, DoJoin(h, p, order), p, JoinOps(RoomMap(h, me.room), p, me.id, w, order, f));
  }

  lemma LeaveKeepsRooms(who: seq<Key>, rooms: map<string, map<string, nat>>, r: string, i: string)
    requires RoomsOk(who, rooms) && r in rooms && i in rooms[r]
    ensures var room := rooms[r] - {i}; RoomsOk(who, if room == map[] then rooms - {r} else rooms[r := room])
  {
    assert RoomOk(who, r, rooms[r]);
    var room := rooms[r] - {i};
    assert room != map[] ==> RoomOk(who, r, room);
    hide RoomOk;
  }

  lemma ExecLeave(h: Hub, p: nat, order: seq<nat>)
    requires Doing(h, p) && h.peers[p].ops[0].Leave? && InRoom(h, p, order)
    ensures Isolated(DoLeave(h, p, order))
  {
    hide Isolated, Who, Box, MailOk, TableOk, RoomsOk, Tell, OpsShape, OpsOk, OpOk, Find;
    var me, who := h.peers[p], Who(h.peers);
    Parts(h, p);
    NothingElse(me.ops);
    if Find(h.rooms, me.room, me.id) == Some(p) {
      var f := PeerLeave(me.id);
      assert me.room in h.rooms && me.id in h.rooms[me.room] by { FindMeans(h.rooms, me.room, me.id); }
      LeaveKeepsRooms(who, h.rooms, me.room, me.id);
      TellOk(who, p, order, f);
      LeaveShape(order, f);
      DropOk(who, p);
      OpsConcat(who, p, [DropSessions], Tell(order, f));
      assert [DropSessions] + Tell(order, f) + Rest(h, p) == [DropSessions] + Tell(order, f);
      Replaces(h, DoLeave(h, p, order), p, [DropSessions] + Tell(order, f));
    } else {
      // A displaced connection: its replacement holds the entry.
      assert OpsOk(who, p, []) by { DropOk(who, p); }
      assert [] + Rest(h, p) == Rest(h, p);
      Replaces(h, DoLeave(h, p, order), p, []);
    }
  }

  lemma FindMeans(rooms: map<string, map<string, nat>>, room: string, id: string)
    ensures Find(rooms, room, id).Some? ==> room in rooms && id in rooms[room]
  {
  }

  lemma DropOk(who: seq<Key>, p: nat)
    ensures OpsOk(who, p, [DropSessions]) && OpsOk(who, p, [])
  {
  }

  /** An operation that is not about telling others is the only one pending. */
  lemma NothingElse(ops: seq<Op>)
    requires OpsShape(ops) && ops != [] && !IsTell(ops[0]) && !ops[0].DropSessions?
    ensures ops[1..] == [] && OpsShape([])
    ensures forall a: seq<Op> :: AllTells(a) ==> OpsShape(a + ops[1..])
    ensures forall a: seq<Op> :: |a| == 1 && !a[0].DropSessions? ==> OpsShape(a + ops[1..])
  {
  }

  lemma LeaveShape(order: seq<nat>, f: Down)
    requires f.PeerLeave?
    ensures OpsShape([DropSessions] + Tell(order, f))
  {
  }

  lemma ExecRename(h: Hub, p: nat, name: string, order: seq<nat>)
    requires Doing(h, p) && h.peers[p].ops[0].Rename? && InRoom(h, p, order)
    ensures Isolated(DoRename(h, p, name, order))
  {
    var me, who := h.peers[p], Who(h.peers);
    Parts(h, p);
    hide Isolated, Who, MailOk, TableOk, RoomsOk;
    assert Rest(h, p) == [];
    var f := PeerJoin(Info(me.id, name));
    TellOk(who, p, order, f);
    assert Tell(order, f) + Rest(h, p) == Tell(order, f);
    var x := me.(name := name, ops := Tell(order, f));
    assert Box(x) == Box(me);
    PeerChanges(h, DoRename(h, p, name, order), p, x);
  }

  lemma ExecDrop(h: Hub, p: nat, order: seq<nat>)
    requires Doing(h, p) && h.peers[p].ops[0].DropSessions?
    requires forall x :: x in order ==> x in SessionsOf(h.sessions, p)
    ensures Isolated(DoDrop(h, p, order))
  {
    Parts(h, p);
    hide Isolated, Who, RoomsOk, Box, MailOk;
    var notices := CloseNotices(h.sessions, p, order);
    NoticesOk(Who(h.peers), h.sessions, h.born, p, order);
    assert TableOk(Who(h.peers), h.sessions - SessionsOf(h.sessions, p), h.born);
    hide TableOk, OpsOk, CloseNotices, SessionsOf;
    DropShape(notices, h.peers[p].ops);
    hide OpsShape;
    Replaces(h, DoDrop(h, p, order), p, notices);
  }

  lemma DropShape(notices: seq<Op>, ops: seq<Op>)
    requires AllTells(notices) && OpsShape(ops) && ops != []
    ensures OpsShape(notices + ops[1..])
  {
  }

  lemma AllocKeepsTable(who: seq<Key>, sessions: map<nat, Sess>, born: map<nat, Sess>, s: Sess)
    requires TableOk(who, sessions, born) && SessOk(who, s, s.id)
    ensures TableOk(who, sessions[s.id := s], born[s.id := s])
  {
    hide SessOk;
  }

  lemma ExecAlloc(h: Hub, p: nat, t: nat, sid: nat)
    requires Doing(h, p) && h.peers[p].ops[0] == Alloc(t) && t < |h.peers| && 1 <= sid <= MAX_SESSION
    ensures Isolated(DoAlloc(h, p, t, sid))
  {
    Parts(h, p);
    InRange(h, p);
    var me, who := h.peers[p], Who(h.peers);
    assert OpOk(who, p, me.ops[0]);
    hide Isolated, Who, RoomsOk, Box, MailOk, TableOk, OpsShape;
    AllocKeepsTable(who, h.sessions, h.born, Sess(sid, p, t));
    var add := [Enqueue(p, Ready(sid, h.peers[t].id)), Enqueue(t, Incoming(sid, me.id))];
    assert OpsOk(who, p, add);
    NothingElse(me.ops);
    assert AllTells(add);
    Replaces(h, DoAlloc(h, p, t, sid), p, add);
  }

  lemma ForwardOk(who: seq<Key>, sessions: map<nat, Sess>, born: map<nat, Sess>, p: nat, sid: Option<nat>, f: Down)
    requires TableOk(who, sessions, born)
    ensures OpsOk(who, p, ForwardIfKnown(sessions, p, sid, f)) && AllTells(ForwardIfKnown(sessions, p, sid, f))
    ensures sid.Some? ==> TableOk(who, sessions - {sid.value}, born)
  {
  }

  lemma ExecRelay(h: Hub, p: nat, sid: Option<nat>, f: Down)
    requires Doing(h, p) && (h.peers[p].ops[0].Route? || h.peers[p].ops[0].RouteAck?)
    ensures Isolated(DoRelay(h, p, sid, f))
  {
    Parts(h, p);
    hide Isolated, Who, RoomsOk, Box, MailOk, OpsOk, OpsShape, TableOk, ForwardIfKnown, AllTells;
    ForwardOk(Who(h.peers), h.sessions, h.born, p, sid, f);
    NothingElse(h.peers[p].ops);
    Replaces(h, DoRelay(h, p, sid, f), p, ForwardIfKnown(h.sessions, p, sid, f));
  }

  lemma ExecClose(h: Hub, p: nat, sid: nat)
    requires Doing(h, p) && h.peers[p].ops[0].CloseSession?
    ensures Isolated(DoClose(h, p, sid))
  {
    Parts(h, p);
    hide Isolated, Who, RoomsOk, Box, MailOk, OpsOk, OpsShape, TableOk, ForwardIfKnown, AllTells;
    ForwardOk(Who(h.peers), h.sessions, h.born, p, Some(sid), CloseTo(sid));
    NothingElse(h.peers[p].ops);
    Replaces(h, DoClose(h, p, sid), p, ForwardIfKnown(h.sessions, p, Some(sid), CloseTo(sid)));
  }

  lemma ExecOpen(h: Hub, p: nat, toId: string)
    requires Doing(h, p) && h.peers[p].ops[0].Open?
    ensures Isolated(DoOpen(h, p, toId))
  {
    Parts(h, p);
    InRange(h, p);
    var target := Find(h.rooms, h.peers[p].room, toId);
    if target.Some? { FoundTogether(h, p, toId); }
    hide Isolated, Who, RoomsOk, TableOk, Box, MailOk, Find, Together, OpsShape;
    var add := [if target.None? || target.value == p then Enqueue(p, Problem) else Alloc(target.value)];
    assert OpsOk(Who(h.peers), p, add);
    hide OpsOk;
    NothingElse(h.peers[p].ops);
    Replaces(h, DoOpen(h, p, toId), p, add);
  }

  lemma ExecSignal(h: Hub, p: nat, toId: string, body: string)
    requires Doing(h, p) && h.peers[p].ops[0].Signal?
    ensures Isolated(DoSignal(h, p, toId, body))
  {
    Parts(h, p);
    InRange(h, p);
    var target := Find(h.rooms, h.peers[p].room, toId);
    if target.Some? { FoundTogether(h, p, toId); }
    hide Isolated, Who, RoomsOk, TableOk, Box, MailOk, Find, Together, OpsShape;
    var add := [if target.None? then Enqueue(p, Problem) else Enqueue(target.value, Signalled(h.peers[p].id, body))];
    assert OpsOk(Who(h.peers), p, add);
    hide OpsOk;
    NothingElse(h.peers[p].ops);
    Replaces(h, DoSignal(h, p, toId, body), p, add);
  }

  /** The first of p's operations is done with; what remains is in order. */
  lemma PopOp(h: Hub, p: nat)
    requires Isolated(h) && p < |h.peers| && h.peers[p].ops != []
    ensures var h1 := WithOps(h, p, h.peers[p].ops[1..]); Isolated(h1) && Who(h1.peers) == Who(h.peers)
    ensures OpOk(Who(h.peers), p, h.peers[p].ops[0])
  {
    Parts(h, p);
    hide Isolated, RoomsOk, TableOk, Box, MailOk, OpOk;
    assert [] + h.peers[p].ops[1..] == h.peers[p].ops[1..];
    Replaces(h, WithOps(h, p, h.peers[p].ops[1..]), p, []);
    WhoSame(h.peers, p, h.peers[p].(ops := h.peers[p].ops[1..]));
    hide Who;
  }

  lemma ExecKill(h: Hub, p: nat, v: nat)
    requires Doing(h, p) && v < |h.peers|
    ensures Isolated(DoKill(h, p, v))
  {
    var h1 := WithOps(h, p, Rest(h, p));
    hide Isolated, Who, RoomsOk, TableOk, OpsShape, MailOk, OpsOk;
    PopOp(h, p);
    Parts(h1, v);
    var x := h1.peers[v];
    assert Box(x.(closed := true)) == Box(x);
    PeerChanges(h1, DoKill(h, p, v), v, x.(closed := true));
  }

  lemma ExecEnqueue(h: Hub, p: nat, to: nat, f: Down)
    requires Doing(h, p) && h.peers[p].ops[0] == Enqueue(to, f)
    requires to < |h.peers| && (h.peers[to].closed || |h.peers[to].queue| < OUTBOUND_QUEUE)
    ensures Isolated(DoEnqueue(h, p, to, f))
  {
    var h1 := WithOps(h, p, Rest(h, p));
    hide Isolated, Who, RoomsOk, TableOk, OpsShape, OpsOk;
    PopOp(h, p);
    if !h1.peers[to].closed {
      Parts(h1, to);
      var x := h1.peers[to];
      var x' := x.(queue := x.queue + [Mail(p, f)]);
      assert Box(x') == Box(x) + [Mail(p, f)];
      hide Box;
      PeerChanges(h1, DoEnqueue(h, p, to, f), to, x');
    }
  }

  lemma ExecKeeps(h: Hub, p: nat, pick: Pick)
    requires Isolated(h) && CanExec(h, p, pick)
    ensures Isolated(DoExec(h, p, pick))
  {
    OthersTogether(h, p);
    hide Isolated, DoJoin, DoLeave, DoDrop, DoOpen, DoAlloc, DoRelay, DoClose, DoSignal, DoRename, DoEnqueue, DoKill,
         OthersIn, Who, Together, SessionsOf, NoDup, FirstFree;
    match h.peers[p].ops[0]
    case Join => OrderInRoom(h, p, pick.order); ExecJoin(h, p, pick.order);
    case Leave => OrderInRoom(h, p, pick.order); ExecLeave(h, p, pick.order);
    case DropSessions => ExecDrop(h, p, pick.order);
    case Open(toId) => ExecOpen(h, p, toId);
    case Alloc(t) =>
      assert 1 <= pick.sid <= MAX_SESSION by { FreeInRange(h.nextSess, h.sessions.Keys, pick.sid); }
      ExecAlloc(h, p, t, pick.sid);
    case Route(data) => ExecRelay(h, p, HeaderOf(data), Payload(data));
    case RouteAck(sid, bytes) => ExecRelay(h, p, Some(sid), AckTo(sid, bytes));
    case CloseSession(sid) => ExecClose(h, p, sid);
    case Signal(toId, body) => ExecSignal(h, p, toId, body);
    case Rename(name) => OrderInRoom(h, p, pick.order); ExecRename(h, p, name, pick.order);
    case Enqueue(to, f) => ExecEnqueue(h, p, to, f);
    case Kill(v) => ExecKill(h, p, v);
  }

  lemma FreeInRange(next: nat, taken: set<nat>, sid: nat)
    requires FirstFree(next, taken, sid)
    ensures 1 <= sid <= MAX_SESSION
  {
  }

  lemma OrderInRoom(h: Hub, p: nat, order: seq<nat>)
    requires p < |h.peers| && Lists(order, OthersIn(h, p))
    requires forall x :: x in OthersIn(h, p) ==> Together(Who(h.peers), p, x)
    ensures InRoom(h, p, order)
  {
  }

  /** Moving mail along rearranges one connection's own fields. */
  lemma MailMoves(h: Hub, s: Step)
    requires Isolated(h) && CanStep(h, s) && (s.ClientReads? || s.WriterTakes? || s.WriterWrites?)
    ensures Isolated(Next(h, s))
  {
    var p := s.p;
    Parts(h, p);
    hide Isolated, Who, RoomsOk, TableOk, OpsOk, OpsShape, MailOk, CanExec, DoExec;
    var x, x' := h.peers[p], Next(h, s).peers[p];
    BoxMoves(x, x');
    hide Box;
    PeerChanges(h, Next(h, s), p, x');
  }

  /** Reading from the socket, taking from the queue and writing keep the order of mail. */
  lemma BoxMoves(x: Peer, x': Peer)
    requires || (x.down != [] && x' == x.(down := x.down[1..], seen := x.seen + [x.down[0]]))
             || (x.hand.None? && x.queue != [] && x' == x.(queue := x.queue[1..], hand := Some(x.queue[0])))
             || (x.hand.Some? && x' == x.(hand := None, down := x.down + [x.hand.value]))
    ensures Box(x') == Box(x)
  {
  }

  lemma ReaderMoves(h: Hub, s: Step)
    requires Isolated(h) && CanStep(h, s) && (s.ClientSends? || s.Take? || s.Die? || s.Depart?)
    ensures Isolated(Next(h, s))
  {
    var p := s.p;
    Parts(h, p);
    InRange(h, p);
    hide Isolated, Who, RoomsOk, TableOk, MailOk, CanExec, DoExec;
    var x, x' := h.peers[p], Next(h, s).peers[p];
    NewOpsOk(Who(h.peers), p, x, x');
    hide OpsOk, OpsShape, Decode;
    assert Box(x') == Box(x);
    hide Box;
    PeerChanges(h, Next(h, s), p, x');
  }

  lemma NewOpsOk(who: seq<Key>, p: nat, x: Peer, x': Peer)
    requires OpsOk(who, p, x.ops) && OpsShape(x.ops) && Together(who, p, p)
    requires x'.ops == x.ops || x'.ops == [Leave] || exists u :: x'.ops == Decode(p, u)
    ensures OpsOk(who, p, x'.ops) && OpsShape(x'.ops)
  {
  }

  lemma InRange(h: Hub, p: nat)
    requires p < |h.peers|
    ensures Together(Who(h.peers), p, p)
  {
  }

  lemma ConnectKeeps(h: Hub, s: Step)
    requires Isolated(h) && s.Connect?
    ensures Isolated(Next(h, s))
  {
    var h' := Next(h, s);
    var who, k := Who(h.peers), Key(s.room, s.id);
    assert Who(h'.peers) == who + [k];
    assert forall a, b :: Together(who, a, b) ==> Together(who + [k], a, b);
    assert RoomsOk(who + [k], h'.rooms) && TableOk(who + [k], h'.sessions, h'.born) by { TablesGrow(who, k, h); }
    hide RoomsOk, TableOk, Who;
    assert PeerOk(who + [k], |h.peers|, h'.peers[|h.peers|]);
    hide PeerOk;
    forall p | 0 <= p < |h.peers| ensures PeerOk(who + [k], p, h'.peers[p]) {
      assert h'.peers[p] == h.peers[p];
      Grows(who, k, p, h.peers[p]);
    }
  }

  lemma TablesGrow(who: seq<Key>, k: Key, h: Hub)
    requires RoomsOk(who, h.rooms) && TableOk(who, h.sessions, h.born)
    ensures RoomsOk(who + [k], h.rooms) && TableOk(who + [k], h.sessions, h.born)
  {
    forall r | r in h.rooms ensures RoomOk(who + [k], r, h.rooms[r]) {
      assert RoomOk(who, r, h.rooms[r]);
    }
  }

  lemma StepKeeps(h: Hub, s: Step)
    requires Isolated(h) && CanStep(h, s)
    ensures Isolated(Next(h, s))
  {
    hide Isolated, CanExec, DoExec;
    if s.Connect? { ConnectKeeps(h, s); }
    else if s.Exec? { ExecKeeps(h, s.p, s.pick); }
    else if s.ClientReads? || s.WriterTakes? || s.WriterWrites? { MailMoves(h, s); }
    else { ReaderMoves(h, s); }
  }

  lemma {:induction false} RunKeeps(h: Hub, steps: seq<Step>, last: Hub)
    requires Isolated(h) && IsRun(h, steps, last)
    ensures Isolated(last)
    decreases |steps|
  {
    if steps != [] {
      StepKeeps(h, steps[0]);
      hide Isolated, CanStep, Next;
      RunKeeps(Next(h, steps[0]), steps[1..], last);
    }
  }

  /**
   * Rooms never mix, in any run: whatever a connection has been sent or has waiting was
   * queued by a connection of its own room, roster entries stand under their own room and
   * identity, sessions join two distinct connections of one room, and queues are bounded.
   */
  lemma RoomsNeverMix(steps: seq<Step>, last: Hub)
    requires IsRun(EMPTY, steps, last)
    ensures forall p, k :: 0 <= p < |last.peers| && 0 <= k < |Box(last.peers[p])| ==>
      Box(last.peers[p])[k].src < |last.peers| && last.peers[Box(last.peers[p])[k].src].room == last.peers[p].room
    ensures forall r, i :: r in last.rooms && i in last.rooms[r] ==>
      last.rooms[r][i] < |last.peers| && last.peers[last.rooms[r][i]].room == r && last.peers[last.rooms[r][i]].id == i
    ensures forall sid :: sid in last.sessions ==>
      var s := last.sessions[sid];
      s.id == sid && s.from != s.to && s.from < |last.peers| && s.to < |last.peers|
        && last.peers[s.from].room == last.peers[s.to].room
    ensures forall p :: 0 <= p < |last.peers| ==> |last.peers[p].queue| <= OUTBOUND_QUEUE
  {
    hide IsRun, Isolated, Box;
    assert Isolated(EMPTY) by { EmptyIsolated(); }
    RunKeeps(EMPTY, steps, last);
    forall p | 0 <= p < |last.peers|
      ensures |last.peers[p].queue| <= OUTBOUND_QUEUE
      ensures forall k :: 0 <= k < |Box(last.peers[p])| ==>
        Box(last.peers[p])[k].src < |last.peers| && last.peers[Box(last.peers[p])[k].src].room == last.peers[p].room
    {
      Parts(last, p);
      MailTogether(last, p);
    }
    Tables(last);
  }

  lemma EmptyIsolated()
    ensures Isolated(EMPTY)
  {
  }

  lemma MailTogether(h: Hub, p: nat)
    requires p < |h.peers| && MailOk(Who(h.peers), p, Box(h.peers[p]))
    ensures forall k :: 0 <= k < |Box(h.peers[p])| ==>
      Box(h.peers[p])[k].src < |h.peers| && h.peers[Box(h.peers[p])[k].src].room == h.peers[p].room
  {
    hide Box;
  }

  lemma Tables(h: Hub)
    requires Isolated(h)
    ensures forall r, i :: r in h.rooms && i in h.rooms[r] ==>
      h.rooms[r][i] < |h.peers| && h.peers[h.rooms[r][i]].room == r && h.peers[h.rooms[r][i]].id == i
    ensures forall sid :: sid in h.sessions ==>
      var s := h.sessions[sid];
      s.id == sid && s.from != s.to && s.from < |h.peers| && s.to < |h.peers|
        && h.peers[s.from].room == h.peers[s.to].room
  {
    forall r, i | r in h.rooms && i in h.rooms[r]
      ensures h.rooms[r][i] < |h.peers| && h.peers[h.rooms[r][i]].room == r && h.peers[h.rooms[r][i]].id == i
    {
      assert RoomOk(Who(h.peers), r, h.rooms[r]);
    }
    forall sid | sid in h.sessions
      ensures var s := h.sessions[sid];
        s.id == sid && s.from != s.to && s.from < |h.peers| && s.to < |h.peers|
          && h.peers[s.from].room == h.peers[s.to].room
    {
      assert SessOk(Who(h.peers), h.sessions[sid], sid);
    }
  }
}
