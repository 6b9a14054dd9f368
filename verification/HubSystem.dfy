/**
 * The server as a step system: per connection one reader goroutine working through the
 * operations of the message it has taken, one writer goroutine, a bounded queue and two
 * socket directions. Every stretch of code between taking and releasing a lock, and
 * every wait on a queue, is a step of its own.
 */
module HubSystem {
  import opened Basics

  const OUTBOUND_QUEUE: nat := 64
  const MAX_SESSION: nat := 0xFFFF_FFFF
  const RELAY_HEADER: nat := 4

  // ------------------------------------------------------------------ messages

  datatype Info = Info(id: string, name: string)

  /** Server to client. Payload frames keep their session header. */
  datatype Down =
    | Welcome(self: Info, others: seq<Info>)
    | PeerJoin(info: Info)
    | PeerLeave(id: string)
    | Ready(sid: nat, peer: string)
    | Incoming(sid: nat, peer: string)
    | AckTo(sid: nat, bytes: nat)
    | CloseTo(sid: nat)
    | Payload(data: Bytes)
    | Signalled(from: string, body: string)
    | Problem

  /** Client to server. */
  datatype Up =
    | Binary(data: Bytes)
    | Hello(name: string)
    | OpenTo(to: string)
    | AckFrom(sid: nat, bytes: nat)
    | CloseFrom(sid: nat)
    | SignalTo(to: string, body: string)
    | Malformed
    | Ignored

  function U32(b: Bytes): nat
    requires |b| == 4
  {
    b[0] as nat * 0x100_0000 + b[1] as nat * 0x1_0000 + b[2] as nat * 0x100 + b[3] as nat
  }

  /** The session a frame is routed on; too short a frame has none. */
  function HeaderOf(data: Bytes): Option<nat> {
    if |data| < RELAY_HEADER then None else Some(U32(data[..RELAY_HEADER]))
  }

  // --------------------------------------------------------------------- state

  /** What a reader goroutine still has to do, in order. */
  datatype Op =
    | Join
    | Leave
    | DropSessions
    | Open(toId: string)
    | Alloc(target: nat)
    | Route(data: Bytes)
    | RouteAck(sid: nat, bytes: nat)
    | CloseSession(sid: nat)
    | Signal(toId: string, body: string)
    | Rename(name: string)
    | Enqueue(to: nat, f: Down)
    | Kill(victim: nat)

  /** A queued frame; `src`, the connection whose goroutine queued it, is history. */
  datatype Mail = Mail(src: nat, f: Down)

  /**
   * One connection. `seen` and `took` are history: what each end has been handed. So is
   * `rude`, the sessions its client has spoken of before it had read their announcement.
   */
  datatype Peer = Peer(
    room: string, id: string, name: string,
    closed: bool, left: bool,
    up: seq<Up>, took: seq<Up>,
    ops: seq<Op>,
    queue: seq<Mail>, hand: Option<Mail>, down: seq<Mail>, seen: seq<Mail>, rude: set<nat>)

  datatype Sess = Sess(id: nat, from: nat, to: nat)

  /**
   * `born`, every session ever allocated, `joins`, every join, and `raced`, the sessions
   * whose close was queued for the opener before its announcement, are history.
   */
  datatype Hub = Hub(
    peers: seq<Peer>,
    rooms: map<string, map<string, nat>>,
    sessions: map<nat, Sess>,
    nextSess: nat,
    born: map<nat, Sess>,
    joins: seq<nat>,
    raced: set<nat>)

  const EMPTY := Hub([], map[], map[], 0, map[], [], {})

  datatype Step =
    | Connect(room: string, id: string, name: string)
    | ClientSends(p: nat, u: Up)
    | ClientReads(p: nat)
    | Take(p: nat)
    | Exec(p: nat, pick: Pick)
    | WriterTakes(p: nat)
    | WriterWrites(p: nat)
    | Die(p: nat)
    | Depart(p: nat)

  /** What the code leaves open: the iteration order of a map, and the id found. */
  datatype Pick = Pick(order: seq<nat>, sid: nat)

  // ------------------------------------------------------------------- helpers

  function Find(rooms: map<string, map<string, nat>>, room: string, id: string): Option<nat> {
    if room in rooms && id in rooms[room] then Some(rooms[room][id]) else None
  }

  function Other(s: Sess, p: nat): Option<nat> {
    if p == s.from then Some(s.to) else if p == s.to then Some(s.from) else None
  }

  function InfoOf(p: Peer): Info { Info(p.id, p.name) }

  ghost predicate Lists(order: seq<nat>, members: set<nat>) {
    && (forall x :: x in order <==> x in members)
    && NoDup(order)
  }

  /** How many probes after `next` the counter takes to reach `x`, skipping zero. */
  function Distance(next: nat, x: nat): int {
    if x > next then x - next else MAX_SESSION + x - next
  }

  /** `sid` is the first id after `next`, in counter order, that is not taken. */
  ghost predicate FirstFree(next: nat, taken: set<nat>, sid: nat) {
    && 1 <= sid <= MAX_SESSION
    && sid !in taken
    && forall x :: 1 <= x <= MAX_SESSION && Distance(next, x) < Distance(next, sid) ==> x in taken
  }

  function Tell(to: seq<nat>, f: Down): seq<Op> { seq(|to|, k requires 0 <= k < |to| => Enqueue(to[k], f)) }

  function Infos(peers: seq<Peer>, who: seq<nat>): seq<Info>
    requires forall x :: x in who ==> x < |peers|
  {
    seq(|who|, k requires 0 <= k < |who| => assert who[k] in who; InfoOf(peers[who[k]]))
  }

  /** The sessions a departing peer is part of. */
  function SessionsOf(sessions: map<nat, Sess>, p: nat): set<nat> {
    set sid | sid in sessions && (sessions[sid].from == p || sessions[sid].to == p)
  }

  function CloseNotices(sessions: map<nat, Sess>, p: nat, order: seq<nat>): seq<Op>
    requires forall x :: x in order ==> x in SessionsOf(sessions, p)
  {
    if order == [] then []
    else
      assert order[0] in order && order[0] in SessionsOf(sessions, p);
      [Enqueue(Other(sessions[order[0]], p).value, CloseTo(order[0]))] + CloseNotices(sessions, p, order[1..])
  }

  /** Turn out whoever held the identity, hand over the roster, tell the others. */
  function JoinOps(room: map<string, nat>, p: nat, id: string, w: Down, order: seq<nat>, f: Down): seq<Op> {
    (if id in room then [Enqueue(room[id], Problem), Kill(room[id])] else []) + [Enqueue(p, w)] + Tell(order, f)
  }

  /** The operations one client message asks for (readLoop and handle). */
  function Decode(p: nat, u: Up): seq<Op> {
    match u
    case Binary(data) => [Route(data)]
    case Hello(name) => if name == "" then [] else [Rename(name)]
    case OpenTo(to) => [Open(to)]
    case AckFrom(sid, bytes) => [RouteAck(sid, bytes)]
    case CloseFrom(sid) => [CloseSession(sid)]
    case SignalTo(to, body) => [Signal(to, body)]
    case Malformed => [Enqueue(p, Problem)]
    case Ignored => []
  }

  // -------------------------------------------------------------------- steps

  function WithPeer(h: Hub, p: nat, x: Peer): Hub
    requires p < |h.peers|
  {
    h.(peers := h.peers[p := x])
  }

  function WithOps(h: Hub, p: nat, ops: seq<Op>): Hub
    requires p < |h.peers|
  {
    WithPeer(h, p, h.peers[p].(ops := ops))
  }

  /** Who besides the connection itself is in its room (by identity, as the code compares). */
  function OthersIn(h: Hub, p: nat): set<nat>
    requires p < |h.peers|
  {
    var me := h.peers[p];
    if me.room in h.rooms then (h.rooms[me.room] - {me.id}).Values else {}
  }

  ghost predicate CanExec(h: Hub, p: nat, pick: Pick) {
    && p < |h.peers| && h.peers[p].ops != []
    && (forall r, i :: r in h.rooms && i in h.rooms[r] ==> h.rooms[r][i] < |h.peers|)
    && match h.peers[p].ops[0]
       case Join => Lists(pick.order, OthersIn(h, p))
       case Leave => Lists(pick.order, OthersIn(h, p))
       case Rename(_) => Lists(pick.order, OthersIn(h, p))
       case DropSessions => Lists(pick.order, SessionsOf(h.sessions, p))
       case Alloc(t) => t < |h.peers| && FirstFree(h.nextSess, h.sessions.Keys, pick.sid)
       case Enqueue(to, _) => to < |h.peers| && (h.peers[to].closed || |h.peers[to].queue| < OUTBOUND_QUEUE)
       case Kill(v) => v < |h.peers|
       case _ => true
  }

  /** What remains for p to do once its first operation is done. */
  function Rest(h: Hub, p: nat): seq<Op>
    requires p < |h.peers| && h.peers[p].ops != []
  {
    h.peers[p].ops[1..]
  }

  function RoomMap(h: Hub, room: string): map<string, nat> { if room in h.rooms then h.rooms[room] else map[] }

  function DoJoin(h: Hub, p: nat, order: seq<nat>): Hub
    requires p < |h.peers| && h.peers[p].ops != [] && forall x :: x in order ==> x < |h.peers|
  {
    var me := h.peers[p];
    var room := RoomMap(h, me.room);
    WithOps(h.(rooms := h.rooms[me.room := room[me.id := p]], joins := h.joins + [p]), p,
            JoinOps(room, p, me.id, Welcome(InfoOf(me), Infos(h.peers, order)), order, PeerJoin(InfoOf(me)))
              + Rest(h, p))
  }

  /** Only the connection that still holds the entry removes it and tells the room. */
  function DoLeave(h: Hub, p: nat, order: seq<nat>): Hub
    requires p < |h.peers| && h.peers[p].ops != []
  {
    var me := h.peers[p];
    if Find(h.rooms, me.room, me.id) != Some(p) then WithOps(h, p, Rest(h, p))
    else
      var room := h.rooms[me.room] - {me.id};
      WithOps(h.(rooms := if room == map[] then h.rooms - {me.room} else h.rooms[me.room := room]), p,
              [DropSessions] + Tell(order, PeerLeave(me.id)) + Rest(h, p))
  }

  function DoDrop(h: Hub, p: nat, order: seq<nat>): Hub
    requires p < |h.peers| && h.peers[p].ops != [] && forall x :: x in order ==> x in SessionsOf(h.sessions, p)
  {
    WithOps(h.(sessions := h.sessions - SessionsOf(h.sessions, p)), p,
            CloseNotices(h.sessions, p, order) + Rest(h, p))
  }

  function DoOpen(h: Hub, p: nat, toId: string): Hub
    requires p < |h.peers| && h.peers[p].ops != []
  {
    var target := Find(h.rooms, h.peers[p].room, toId);
    WithOps(h, p, [if target.None? || target.value == p then Enqueue(p, Problem) else Alloc(target.value)] + Rest(h, p))
  }

  function DoAlloc(h: Hub, p: nat, t: nat, sid: nat): Hub
    requires p < |h.peers| && t < |h.peers| && h.peers[p].ops != []
  {
    var s := Sess(sid, p, t);
    WithOps(h.(sessions := h.sessions[sid := s], nextSess := sid, born := h.born[sid := s]), p,
            [Enqueue(p, Ready(sid, h.peers[t].id)), Enqueue(t, Incoming(sid, h.peers[p].id))] + Rest(h, p))
  }

  /** routeRelayFrame and routeRelayAck: an unknown session, or someone else's, is ignored. */
  function DoRelay(h: Hub, p: nat, sid: Option<nat>, f: Down): Hub
    requires p < |h.peers| && h.peers[p].ops != []
  {
    WithOps(h, p, ForwardIfKnown(h.sessions, p, sid, f) + Rest(h, p))
  }

  /** closeRelay: whoever asks, the session goes; only a member's far end is told. */
  function DoClose(h: Hub, p: nat, sid: nat): Hub
    requires p < |h.peers| && h.peers[p].ops != []
  {
    WithOps(h.(sessions := h.sessions - {sid}), p, ForwardIfKnown(h.sessions, p, Some(sid), CloseTo(sid)) + Rest(h, p))
  }

  function DoSignal(h: Hub, p: nat, toId: string, body: string): Hub
    requires p < |h.peers| && h.peers[p].ops != []
  {
    var me := h.peers[p];
    var target := Find(h.rooms, me.room, toId);
    WithOps(h, p,
            [if target.None? then Enqueue(p, Problem) else Enqueue(target.value, Signalled(me.id, body))] + Rest(h, p))
  }

  function DoRename(h: Hub, p: nat, name: string, order: seq<nat>): Hub
    requires p < |h.peers| && h.peers[p].ops != []
  {
    var me := h.peers[p];
    WithPeer(h, p, me.(name := name, ops := Tell(order, PeerJoin(Info(me.id, name))) + Rest(h, p)))
  }

  /** The opener's goroutine has put the session in the table and is about to tell its own client. */
  predicate Telling(peers: seq<Peer>, s: Sess) {
    && s.from < |peers| && peers[s.from].ops != []
    && peers[s.from].ops[0].Enqueue? && peers[s.from].ops[0].to == s.from
    && peers[s.from].ops[0].f.Ready? && peers[s.from].ops[0].f.sid == s.id
  }

  /** History only: the close of a session is queued for its opener before the announcement. */
  predicate Overtakes(h: Hub, to: nat, f: Down) {
    f.CloseTo? && f.sid in h.born && h.born[f.sid].from == to && Telling(h.peers, h.born[f.sid])
  }

  /** A closed connection takes no more mail: its writer is gone, so none could reach it. */
  function DoEnqueue(h: Hub, p: nat, to: nat, f: Down): Hub
    requires p < |h.peers| && to < |h.peers| && h.peers[p].ops != []
  {
    var h1 := WithOps(h.(raced := if Overtakes(h, to, f) then h.raced + {f.sid} else h.raced), p, Rest(h, p));
    if h1.peers[to].closed then h1
    else WithPeer(h1, to, h1.peers[to].(queue := h1.peers[to].queue + [Mail(p, f)]))
  }

  function DoKill(h: Hub, p: nat, v: nat): Hub
    requires p < |h.peers| && v < |h.peers| && h.peers[p].ops != []
  {
    var h1 := WithOps(h, p, Rest(h, p));
    WithPeer(h1, v, h1.peers[v].(closed := true))
  }

  /** Executes the first pending operation of connection p's reader goroutine. */
  ghost function DoExec(h: Hub, p: nat, pick: Pick): Hub
    requires CanExec(h, p, pick)
  {
    match h.peers[p].ops[0]
    case Join => DoJoin(h, p, pick.order)
    case Leave => DoLeave(h, p, pick.order)
    case DropSessions => DoDrop(h, p, pick.order)
    case Open(toId) => DoOpen(h, p, toId)
    case Alloc(t) => DoAlloc(h, p, t, pick.sid)
    case Route(data) => DoRelay(h, p, HeaderOf(data), Payload(data))
    case RouteAck(sid, bytes) => DoRelay(h, p, Some(sid), AckTo(sid, bytes))
    case CloseSession(sid) => DoClose(h, p, sid)
    case Signal(toId, body) => DoSignal(h, p, toId, body)
    case Rename(name) => DoRename(h, p, name, pick.order)
    case Enqueue(to, f) => DoEnqueue(h, p, to, f)
    case Kill(v) => DoKill(h, p, v)
  }

  function Forward(s: Sess, p: nat, f: Down): seq<Op> {
    if Other(s, p).None? then [] else [Enqueue(Other(s, p).value, f)]
  }

  function ForwardIfKnown(sessions: map<nat, Sess>, p: nat, sid: Option<nat>, f: Down): seq<Op> {
    if sid.Some? && sid.value in sessions then Forward(sessions[sid.value], p, f) else []
  }

  /** The session a client message speaks about, if any. */
  function UpSid(u: Up): Option<nat> {
    match u
    case Binary(data) => HeaderOf(data)
    case AckFrom(sid, _) => Some(sid)
    case CloseFrom(sid) => Some(sid)
    case _ => None
  }

  /** The session has been announced to the client that has read `seen`. */
  ghost predicate Announced(seen: seq<Mail>, sid: nat) {
    exists m :: m in seen && (m.f.Ready? || m.f.Incoming?) && m.f.sid == sid
  }

  /** The session a client speaks of without having been told of it. */
  ghost function Unbidden(seen: seq<Mail>, u: Up): set<nat> {
    if UpSid(u).Some? && !Announced(seen, UpSid(u).value) then {UpSid(u).value} else {}
  }

  ghost predicate CanStep(h: Hub, s: Step) {
    match s
    case Connect(_, _, _) => true
    case ClientSends(p, _) => p < |h.peers|
    case ClientReads(p) => p < |h.peers| && h.peers[p].down != []
    case Take(p) => p < |h.peers| && !h.peers[p].closed && h.peers[p].ops == [] && h.peers[p].up != []
    case Exec(p, pick) => CanExec(h, p, pick)
    case WriterTakes(p) => p < |h.peers| && !h.peers[p].closed && h.peers[p].hand.None? && h.peers[p].queue != []
    case WriterWrites(p) => p < |h.peers| && !h.peers[p].closed && h.peers[p].hand.Some?
    case Die(p) => p < |h.peers|
    case Depart(p) => p < |h.peers| && h.peers[p].closed && h.peers[p].ops == [] && !h.peers[p].left
  }

  ghost function Next(h: Hub, s: Step): Hub
    requires CanStep(h, s)
  {
    match s
    case Connect(room, id, name) =>
      h.(peers := h.peers + [Peer(room, id, name, false, false, [], [], [Join], [], None, [], [], {})])
    case ClientSends(p, u) =>
      var x := h.peers[p];
      WithPeer(h, p, x.(up := x.up + [u], rude := x.rude + Unbidden(x.seen, u)))
    case ClientReads(p) =>
      var x := h.peers[p];
      WithPeer(h, p, x.(down := x.down[1..], seen := x.seen + [x.down[0]]))
    case Take(p) =>
      var x := h.peers[p];
      WithPeer(h, p, x.(up := x.up[1..], took := x.took + [x.up[0]], ops := Decode(p, x.up[0])))
    case Exec(p, pick) => DoExec(h, p, pick)
    case WriterTakes(p) =>
      var x := h.peers[p];
      WithPeer(h, p, x.(queue := x.queue[1..], hand := Some(x.queue[0])))
    case WriterWrites(p) =>
      var x := h.peers[p];
      WithPeer(h, p, x.(hand := None, down := x.down + [x.hand.value]))
    case Die(p) => WithPeer(h, p, h.peers[p].(closed := true))
    case Depart(p) => WithPeer(h, p, h.peers[p].(ops := [Leave], left := true))
  }

  ghost predicate IsRun(h: Hub, steps: seq<Step>, last: Hub)
    decreases |steps|
  {
    if steps == [] then h == last
    else CanStep(h, steps[0]) && IsRun(Next(h, steps[0]), steps[1..], last)
  }
}
