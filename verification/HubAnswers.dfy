/**
 * What the server answers, in full: for every two connections of every run, what the one's
 * goroutine has queued or has still to queue for the other is exactly what the messages it
 * has acted on ask for, in order; and it acts on every message, in order.
 */
module HubAnswers {
  import opened Basics
  import opened HubSystem
  import HubRoster
  import opened HubSafety
  import opened SessionView

  // ----------------------------------------------------------- what is asked for

  ghost predicate Holds(h: Hub, room: string, id: string, x: nat) {
    room in h.rooms && id in h.rooms[room] && h.rooms[room][id] == x
  }

  /** q stands in p's room under another identity. */
  ghost predicate Fellow(h: Hub, p: nat, q: nat)
    requires p < |h.peers|
  {
    var me := h.peers[p];
    me.room in h.rooms && exists i :: i in h.rooms[me.room] && i != me.id && h.rooms[me.room][i] == q
  }

  /** p and q are the two ends of the session. */
  predicate FarEnd(sessions: map<nat, Sess>, sid: nat, p: nat, q: nat) {
    sid in sessions && ((sessions[sid].from == p && sessions[sid].to == q)
                        || (sessions[sid].to == p && sessions[sid].from == q))
  }

  function Only(b: bool, f: Down): seq<Down> { if b then [f] else [] }

  function ClosesTo(sessions: map<nat, Sess>, p: nat, q: nat, order: seq<nat>): seq<Down> {
    if order == [] then []
    else Only(FarEnd(sessions, order[0], p, q), CloseTo(order[0])) + ClosesTo(sessions, p, q, order[1..])
  }

  function Descriptions(peers: seq<Peer>, who: seq<nat>): seq<Info> {
    seq(|who|, k requires 0 <= k < |who| => if who[k] < |peers| then Info(peers[who[k]].id, peers[who[k]].name)
                                              else Info("", ""))
  }

  ghost function OwesJoin(h: Hub, p: nat, order: seq<nat>, q: nat): seq<Down>
    requires p < |h.peers|
  {
    var me := h.peers[p];
    Only(Holds(h, me.room, me.id, q), Problem)
    + Only(q == p, Welcome(Info(me.id, me.name), Descriptions(h.peers, order)))
    + Only(Fellow(h, p, q), PeerJoin(Info(me.id, me.name)))
  }

  function OwesOpened(h: Hub, p: nat, t: nat, sid: nat, q: nat): seq<Down>
    requires p < |h.peers|
  {
    Only(q == p, Ready(sid, if t < |h.peers| then h.peers[t].id else "")) + Only(q == t, Incoming(sid, h.peers[p].id))
  }

  /** A signal goes to whoever stands in the sender's room under the identity, or comes back as a problem. */
  ghost function OwesSignal(h: Hub, p: nat, to: string, body: string, q: nat): seq<Down>
    requires p < |h.peers|
  {
    var me := h.peers[p];
    Only(Holds(h, me.room, to, q), Signalled(me.id, body))
    + Only(q == p && forall x: nat :: !Holds(h, me.room, to, x), Problem)
  }

  /** What p's goroutine owes to q for the operation it carries out. */
  ghost function Owes(h: Hub, p: nat, pick: Pick, q: nat): seq<Down>
    requires p < |h.peers| && h.peers[p].ops != []
  {
    var me := h.peers[p];
    match me.ops[0]
    case Join => OwesJoin(h, p, pick.order, q)
    case Leave => Only(Holds(h, me.room, me.id, p) && Fellow(h, p, q), PeerLeave(me.id))
    case DropSessions => ClosesTo(h.sessions, p, q, pick.order)
    case Open(to) => Only(q == p && forall x: nat :: Holds(h, me.room, to, x) ==> x == p, Problem)
    case Alloc(t) => OwesOpened(h, p, t, pick.sid, q)
    case Route(data) => Only(|data| >= 4 && FarEnd(h.sessions, U32(data[..4]), p, q), Payload(data))
    case RouteAck(sid, bytes) => Only(FarEnd(h.sessions, sid, p, q), AckTo(sid, bytes))
    case CloseSession(sid) => Only(FarEnd(h.sessions, sid, p, q), CloseTo(sid))
    case Signal(to, body) => OwesSignal(h, p, to, body, q)
    case Rename(name) => Only(Fellow(h, p, q), PeerJoin(Info(me.id, name)))
    case Enqueue(_, _) => []
    case Kill(_) => []
  }

  ghost function OwesStep(h: Hub, s: Step, p: nat, q: nat): seq<Down>
    requires CanStep(h, s)
  {
    match s
    case Exec(x, pick) => if x == p then Owes(h, p, pick, q) else []
    case Take(x) => Only(x == p == q && h.peers[x].up[0].Malformed?, Problem)
    case _ => []
  }

  /** All that p's goroutine owes to q over a run. */
  ghost function Owed(h: Hub, steps: seq<Step>, p: nat, q: nat): seq<Down>
    decreases |steps|
  {
    if steps == [] || !CanStep(h, steps[0]) then []
    else OwesStep(h, steps[0], p, q) + Owed(Next(h, steps[0]), steps[1..], p, q)
  }

  // ------------------------------------------------------------- what is done

  /** What p's goroutine has put into a mailbox. */
  function From(p: nat, box: seq<Mail>): seq<Down> {
    if box == [] then [] else From(p, box[..|box| - 1]) + Only(box[|box| - 1].src == p, box[|box| - 1].f)
  }

  /** What a goroutine has still to queue for q. */
  function Pending(q: nat, ops: seq<Op>): seq<Down> {
    if ops == [] then [] else ToQueue(q, ops[0]) + Pending(q, ops[1..])
  }

  function ToQueue(q: nat, op: Op): seq<Down> { if op.Enqueue? && op.to == q then [op.f] else [] }

  /** The closes among the frames, or the rest: a leave announced is overtaken by the closes that come of it. */
  function Kind(closes: bool, fs: seq<Down>): seq<Down> {
    if fs == [] then [] else Only(fs[0].CloseTo? == closes, fs[0]) + Kind(closes, fs[1..])
  }

  predicate Paid(closes: bool, closed: bool, sent: seq<Down>, pending: seq<Down>, owed: seq<Down>) {
    && Leads(Kind(closes, sent), Kind(closes, owed))
    && (!closed ==> Kind(closes, sent) + Kind(closes, pending) == Kind(closes, owed))
  }

  ghost predicate Due(h: Hub, p: nat, q: nat, owed: seq<Down>) {
    if p < |h.peers| && q < |h.peers| then
      forall c: bool :: Paid(c, h.peers[q].closed, From(p, Box(h.peers[q])), Pending(q, h.peers[p].ops), owed)
    else owed == []
  }

  // ------------------------------------------------------------------ lists

  lemma {:induction false} KindConcat(c: bool, a: seq<Down>, b: seq<Down>)
    ensures Kind(c, a + b) == Kind(c, a) + Kind(c, b)
  {
    if a == [] {
      assert a + b == b;
    } else {
      assert (a + b)[1..] == a[1..] + b;
      KindConcat(c, a[1..], b);
    }
  }

  lemma {:induction false} PendingConcat(q: nat, a: seq<Op>, b: seq<Op>)
    ensures Pending(q, a + b) == Pending(q, a) + Pending(q, b)
  {
    if a == [] {
      assert a + b == b;
    } else {
      assert (a + b)[1..] == a[1..] + b;
      PendingConcat(q, a[1..], b);
    }
  }

  lemma FromPush(p: nat, box: seq<Mail>, m: Mail)
    ensures From(p, box + [m]) == From(p, box) + Only(m.src == p, m.f)
  {
    assert (box + [m])[..|box + [m]| - 1] == box;
  }

  lemma {:induction false} FromNobody(p: nat, box: seq<Mail>)
    requires forall k :: 0 <= k < |box| ==> box[k].src != p
    ensures From(p, box) == []
  {
    if box != [] { FromNobody(p, box[..|box| - 1]); }
  }

  lemma {:induction false} PendingNobody(q: nat, ops: seq<Op>)
    requires forall k :: 0 <= k < |ops| && ops[k].Enqueue? ==> ops[k].to != q
    ensures Pending(q, ops) == []
  {
    if ops != [] { PendingNobody(q, ops[1..]); }
  }

  lemma {:induction false} PendingTell(q: nat, order: seq<nat>, f: Down)
    requires NoDup(order)
    ensures Pending(q, Tell(order, f)) == Only(q in order, f)
  {
    if order == [] {
      assert Tell(order, f) == [];
    } else {
      var rest := order[1..];
      forall i, j | 0 <= i < j < |rest| ensures rest[i] != rest[j] { assert order[i + 1] != order[j + 1]; }
      PendingTell(q, rest, f);
      assert Tell(order, f) == [Enqueue(order[0], f)] + Tell(rest, f);
      assert order[0] !in rest by {
        forall k | 0 <= k < |rest| ensures rest[k] != order[0] { assert order[0] != order[k + 1]; }
      }
      assert q in order <==> q == order[0] || q in rest;
    }
  }

  lemma {:induction false} PendingNotices(sessions: map<nat, Sess>, p: nat, q: nat, order: seq<nat>)
    requires forall x :: x in order ==> x in SessionsOf(sessions, p)
    ensures Pending(q, CloseNotices(sessions, p, order)) == ClosesTo(sessions, p, q, order)
  {
    if order != [] {
      assert order[0] in order && order[0] in SessionsOf(sessions, p);
      PendingNotices(sessions, p, q, order[1..]);
      var notices := CloseNotices(sessions, p, order);
      assert notices[1..] == CloseNotices(sessions, p, order[1..]);
    }
  }

  lemma {:induction false} AllCloses(sessions: map<nat, Sess>, p: nat, q: nat, order: seq<nat>)
    ensures Kind(false, ClosesTo(sessions, p, q, order)) == []
  {
    if order != [] {
      var first := Only(FarEnd(sessions, order[0], p, q), CloseTo(order[0]));
      AllCloses(sessions, p, q, order[1..]);
      KindConcat(false, first, ClosesTo(sessions, p, q, order[1..]));
    }
  }

  lemma {:induction false} NoCloses(q: nat, ops: seq<Op>)
    requires forall k :: 0 <= k < |ops| ==> ops[k].Enqueue? && ops[k].f.PeerLeave?
    ensures Kind(true, Pending(q, ops)) == []
  {
    if ops != [] {
      NoCloses(q, ops[1..]);
      KindConcat(true, ToQueue(q, ops[0]), Pending(q, ops[1..]));
    }
  }

  // -------------------------------------------------------------- operations

  lemma FellowListed(h: Hub, p: nat, q: nat)
    requires p < |h.peers|
    ensures Fellow(h, p, q) <==> q in OthersIn(h, p)
  {
    var me := h.peers[p];
    if me.room in h.rooms {
      var m := h.rooms[me.room] - {me.id};
      if Fellow(h, p, q) {
        var i :| i in h.rooms[me.room] && i != me.id && h.rooms[me.room][i] == q;
        assert i in m;
      }
      if q in m.Values {
        var i :| i in m && m[i] == q;
        assert i in h.rooms[me.room];
      }
    }
  }

  lemma OrderIs(h: Hub, p: nat, order: seq<nat>, q: nat)
    requires p < |h.peers| && Lists(order, OthersIn(h, p))
    ensures NoDup(order) && (q in order <==> Fellow(h, p, q))
  {
    FellowListed(h, p, q);
    hide OthersIn, Fellow;
  }

  /** An operation that queues nothing itself is replaced by what it owes. */
  ghost predicate Becomes(q: nat, ops: seq<Op>, ops': seq<Op>, owes: seq<Down>) {
    forall c: bool :: Kind(c, Pending(q, ops')) == Kind(c, Pending(q, ops)) + Kind(c, owes)
  }

  lemma BecomesAlone(q: nat, ops: seq<Op>, add: seq<Op>, owes: seq<Down>)
    requires |ops| == 1 && !ops[0].Enqueue? && Pending(q, add) == owes
    ensures Becomes(q, ops, add + ops[1..], owes)
  {
    assert add + ops[1..] == add;
    assert Pending(q, ops) == [] + Pending(q, ops[1..]);
    hide Kind;
    assert forall c: bool :: Kind(c, []) + Kind(c, owes) == Kind(c, owes) by { KindNothing(); }
  }

  lemma KindNothing()
    ensures Kind(true, []) == [] && Kind(false, []) == []
  {
  }

  lemma OnlyOne(q: nat, to: nat, f: Down)
    ensures Pending(q, [Enqueue(to, f)]) == Only(q == to, f)
  {
    assert [Enqueue(to, f)][1..] == [];
    assert Pending(q, []) == [];
  }

  lemma JoinPending(q: nat, room: map<string, nat>, p: nat, id: string, w: Down, order: seq<nat>, f: Down)
    requires NoDup(order)
    ensures Pending(q, JoinOps(room, p, id, w, order, f)) ==
            Only(id in room && room[id] == q, Problem) + Only(q == p, w) + Only(q in order, f)
  {
    PendingTell(q, order, f);
    hide NoDup;
    OnlyOne(q, p, w);
    var out := if id in room then [Enqueue(room[id], Problem), Kill(room[id])] else [];
    assert Pending(q, []) == [];
    if id in room {
      OnlyOne(q, room[id], Problem);
      assert out[1..] == [Kill(room[id])] && [Kill(room[id])][1..] == [];
      assert Pending(q, [Kill(room[id])]) == [] + Pending(q, []);
    }
    PendingConcat(q, out, [Enqueue(p, w)]);
    PendingConcat(q, out + [Enqueue(p, w)], Tell(order, f));
    hide Tell, Pending;
  }

  lemma JoinAnswers(h: Hub, p: nat, pick: Pick, q: nat)
    requires p < |h.peers| && h.peers[p].ops == [Join] && Lists(pick.order, OthersIn(h, p))
    requires forall x :: x in pick.order ==> x < |h.peers|
    ensures Becomes(q, h.peers[p].ops, DoJoin(h, p, pick.order).peers[p].ops, Owes(h, p, pick, q))
  {
    var order, me := pick.order, h.peers[p];
    OrderIs(h, p, order, q);
    Described(h, order);
    hide OthersIn, NoDup, Fellow, JoinOps, Infos, Descriptions, Pending, Becomes;
    var w, f, room := Welcome(InfoOf(me), Infos(h.peers, order)), PeerJoin(InfoOf(me)), RoomMap(h, me.room);
    JoinPending(q, room, p, me.id, w, order, f);
    assert Holds(h, me.room, me.id, q) <==> me.id in room && room[me.id] == q;
    hide Holds;
    assert Owes(h, p, pick, q) == OwesJoin(h, p, order, q);
    hide Owes;
    BecomesAlone(q, me.ops, JoinOps(room, p, me.id, w, order, f), Owes(h, p, pick, q));
  }

  lemma Described(h: Hub, order: seq<nat>)
    requires forall x :: x in order ==> x < |h.peers|
    ensures Infos(h.peers, order) == Descriptions(h.peers, order)
  {
    forall k | 0 <= k < |order| ensures Infos(h.peers, order)[k] == Descriptions(h.peers, order)[k] {
      assert order[k] in order;
    }
  }

  lemma LeaveAnswers(h: Hub, p: nat, pick: Pick, q: nat)
    requires p < |h.peers| && h.peers[p].ops == [Leave] && Lists(pick.order, OthersIn(h, p))
    ensures Becomes(q, h.peers[p].ops, DoLeave(h, p, pick.order).peers[p].ops, Owes(h, p, pick, q))
  {
    OrderIs(h, p, pick.order, q);
    var me := h.peers[p];
    hide OthersIn, NoDup, Fellow;
    if Find(h.rooms, me.room, me.id) == Some(p) {
      var f := PeerLeave(me.id);
      PendingTell(q, pick.order, f);
      PendingConcat(q, [DropSessions], Tell(pick.order, f));
      assert [DropSessions][1..] == [] && Pending(q, []) == [];
      assert [] + Only(Fellow(h, p, q), f) == Only(Fellow(h, p, q), f);
      var add := [DropSessions] + Tell(pick.order, f);
      hide Tell, Pending;
      BecomesAlone(q, me.ops, add, Owes(h, p, pick, q));
    } else {
      assert Pending(q, []) == [];
      assert [] + Rest(h, p) == Rest(h, p);
      BecomesAlone(q, me.ops, [], Owes(h, p, pick, q));
    }
  }

  lemma DropAnswers(h: Hub, p: nat, pick: Pick, q: nat)
    requires p < |h.peers| && h.peers[p].ops != [] && h.peers[p].ops[0] == DropSessions && OpsShape(h.peers[p].ops)
    requires forall x :: x in pick.order ==> x in SessionsOf(h.sessions, p)
    ensures Becomes(q, h.peers[p].ops, DoDrop(h, p, pick.order).peers[p].ops, Owes(h, p, pick, q))
  {
    var me, rest := h.peers[p], Rest(h, p);
    var notices, owes := CloseNotices(h.sessions, p, pick.order), ClosesTo(h.sessions, p, q, pick.order);
    PendingNotices(h.sessions, p, q, pick.order);
    AllCloses(h.sessions, p, q, pick.order);
    NoCloses(q, rest);
    PendingConcat(q, notices, rest);
    assert Pending(q, me.ops) == Pending(q, rest);
    hide Pending, CloseNotices, ClosesTo, SessionsOf;
    forall c: bool
      ensures Kind(c, Pending(q, notices + rest)) == Kind(c, Pending(q, me.ops)) + Kind(c, owes)
    {
      KindConcat(c, owes, Pending(q, rest));
    }
  }

  lemma RelayAnswers(h: Hub, p: nat, sid: Option<nat>, f: Down, q: nat)
    requires p < |h.peers|
    ensures Pending(q, ForwardIfKnown(h.sessions, p, sid, f)) ==
        Only(sid.Some? && FarEnd(h.sessions, sid.value, p, q), f)
  {
    if sid.Some? && sid.value in h.sessions && Other(h.sessions[sid.value], p).Some? {
      OnlyOne(q, Other(h.sessions[sid.value], p).value, f);
    } else {
      assert Pending(q, []) == [];
    }
  }

  lemma AllocAnswers(h: Hub, p: nat, pick: Pick, q: nat)
    requires p < |h.peers| && |h.peers[p].ops| == 1 && h.peers[p].ops[0].Alloc? && h.peers[p].ops[0].target < |h.peers|
    ensures Becomes(q, h.peers[p].ops, DoAlloc(h, p, h.peers[p].ops[0].target, pick.sid).peers[p].ops,
                    Owes(h, p, pick, q))
  {
    var me := h.peers[p];
    var t := me.ops[0].target;
    var a, b := Enqueue(p, Ready(pick.sid, h.peers[t].id)), Enqueue(t, Incoming(pick.sid, me.id));
    OnlyOne(q, a.to, a.f);
    OnlyOne(q, b.to, b.f);
    PendingConcat(q, [a], [b]);
    assert [a] + [b] == [a, b];
    hide Pending, Becomes, Only;
    assert Owes(h, p, pick, q) == OwesOpened(h, p, t, pick.sid, q);
    hide Owes;
    BecomesAlone(q, me.ops, [a, b], OwesOpened(h, p, t, pick.sid, q));
  }

  lemma FoundIs(h: Hub, room: string, id: string)
    ensures forall x: nat :: Holds(h, room, id, x) <==> Find(h.rooms, room, id) == Some(x)
  {
  }

  lemma OpenAnswers(h: Hub, p: nat, pick: Pick, q: nat, to: string)
    requires p < |h.peers| && h.peers[p].ops == [Open(to)]
    ensures Becomes(q, h.peers[p].ops, DoOpen(h, p, to).peers[p].ops, Owes(h, p, pick, q))
  {
    var me := h.peers[p];
    FoundIs(h, me.room, to);
    var target := Find(h.rooms, me.room, to);
    var op := if target.None? || target.value == p then Enqueue(p, Problem) else Alloc(target.value);
    if op.Enqueue? { OnlyOne(q, p, Problem); } else { assert [op][1..] == [] && Pending(q, [op]) == []; }
    hide Holds, Find, Pending;
    BecomesAlone(q, me.ops, [op], Owes(h, p, pick, q));
    hide Becomes;
  }

  lemma SignalAnswers(h: Hub, p: nat, pick: Pick, q: nat, to: string, body: string)
    requires p < |h.peers| && h.peers[p].ops == [Signal(to, body)]
    ensures Becomes(q, h.peers[p].ops, DoSignal(h, p, to, body).peers[p].ops, Owes(h, p, pick, q))
  {
    var me := h.peers[p];
    FoundIs(h, me.room, to);
    var target := Find(h.rooms, me.room, to);
    var op := if target.None? then Enqueue(p, Problem) else Enqueue(target.value, Signalled(me.id, body));
    OnlyOne(q, op.to, op.f);
    assert Owes(h, p, pick, q) == OwesSignal(h, p, to, body, q);
    hide Holds, Find, Pending, Owes, Becomes;
    BecomesAlone(q, me.ops, [op], OwesSignal(h, p, to, body, q));
  }

  lemma RouteAnswers(h: Hub, p: nat, pick: Pick, q: nat, sid: Option<nat>, f: Down)
    requires p < |h.peers| && |h.peers[p].ops| == 1
    requires (h.peers[p].ops[0].Route? && sid == HeaderOf(h.peers[p].ops[0].data)
              && f == Payload(h.peers[p].ops[0].data))
        || (h.peers[p].ops[0].RouteAck? && sid == Some(h.peers[p].ops[0].sid)
            && f == AckTo(h.peers[p].ops[0].sid, h.peers[p].ops[0].bytes))
    ensures Becomes(q, h.peers[p].ops, DoRelay(h, p, sid, f).peers[p].ops, Owes(h, p, pick, q))
  {
    RelayAnswers(h, p, sid, f, q);
    hide Pending, FarEnd, ForwardIfKnown, U32;
    BecomesAlone(q, h.peers[p].ops, ForwardIfKnown(h.sessions, p, sid, f), Owes(h, p, pick, q));
    hide Becomes;
  }

  lemma CloseAnswers(h: Hub, p: nat, pick: Pick, q: nat, sid: nat)
    requires p < |h.peers| && h.peers[p].ops == [CloseSession(sid)]
    ensures Becomes(q, h.peers[p].ops, DoClose(h, p, sid).peers[p].ops, Owes(h, p, pick, q))
  {
    RelayAnswers(h, p, Some(sid), CloseTo(sid), q);
    hide Pending, FarEnd, ForwardIfKnown;
    BecomesAlone(q, h.peers[p].ops, ForwardIfKnown(h.sessions, p, Some(sid), CloseTo(sid)), Owes(h, p, pick, q));
    hide Becomes;
  }

  lemma RenameAnswers(h: Hub, p: nat, pick: Pick, q: nat, name: string)
    requires p < |h.peers| && h.peers[p].ops == [Rename(name)] && Lists(pick.order, OthersIn(h, p))
    ensures Becomes(q, h.peers[p].ops, DoRename(h, p, name, pick.order).peers[p].ops, Owes(h, p, pick, q))
  {
    var me := h.peers[p];
    var f := PeerJoin(Info(me.id, name));
    OrderIs(h, p, pick.order, q);
    PendingTell(q, pick.order, f);
    hide Pending, OthersIn, NoDup, Fellow, Tell;
    BecomesAlone(q, me.ops, Tell(pick.order, f), Owes(h, p, pick, q));
    hide Becomes;
  }

  /** Each operation that queues nothing itself. */
  lemma OpAnswers(h: Hub, p: nat, pick: Pick, q: nat)
    requires Isolated(h) && CanExec(h, p, pick) && !IsTell(h.peers[p].ops[0])
    ensures Becomes(q, h.peers[p].ops, DoExec(h, p, pick).peers[p].ops, Owes(h, p, pick, q))
  {
    var me := h.peers[p];
    Parts(h, p);
    OthersTogether(h, p);
    hide Isolated, Who, Becomes, OthersIn, NoDup, RoomsOk, TableOk, MailOk, OpsOk, FirstFree, Owes, Together,
         SessionsOf,
         DoJoin, DoLeave, DoDrop, DoOpen, DoAlloc, DoRelay, DoClose, DoSignal, DoRename, DoEnqueue, DoKill, HeaderOf;
    match me.ops[0] {
      case Join =>
        OrderInRange(h, p, pick.order);
        JoinAnswers(h, p, pick, q);
      case Leave => LeaveAnswers(h, p, pick, q);
      case DropSessions => DropAnswers(h, p, pick, q);
      case Open(to) => OpenAnswers(h, p, pick, q, to);
      case Alloc(_) => AllocAnswers(h, p, pick, q);
      case Route(data) => RouteAnswers(h, p, pick, q, HeaderOf(data), Payload(data));
      case RouteAck(sid, bytes) => RouteAnswers(h, p, pick, q, Some(sid), AckTo(sid, bytes));
      case CloseSession(sid) => CloseAnswers(h, p, pick, q, sid);
      case Signal(to, body) => SignalAnswers(h, p, pick, q, to, body);
      case Rename(name) => RenameAnswers(h, p, pick, q, name);
    }
  }

  lemma OrderInRange(h: Hub, p: nat, order: seq<nat>)
    requires p < |h.peers| && Lists(order, OthersIn(h, p))
    requires forall x :: x in OthersIn(h, p) ==> Together(Who(h.peers), p, x)
    ensures forall x :: x in order ==> x < |h.peers|
  {
  }

  // ------------------------------------------------------------------- steps

  lemma LeadsMore<T>(s: seq<T>, p: seq<T>, o: seq<T>, more: seq<T>)
    ensures Leads(s, o) ==> Leads(s, o + more)
    ensures s + p == o ==> s + (p + more) == o + more
  {
  }

  /** p's goroutine does one thing; what it owed and now owes to q stays paid. */
  lemma PaysFor(c: bool, closed: bool, sent: seq<Down>, pending: seq<Down>, pending': seq<Down>, owed: seq<Down>,
                owes: seq<Down>)
    requires Paid(c, closed, sent, pending, owed) && Kind(c, pending') == Kind(c, pending) + Kind(c, owes)
    ensures Paid(c, closed, sent, pending', owed + owes)
  {
    hide Kind, Leads;
    KindConcat(c, owed, owes);
    LeadsMore(Kind(c, sent), Kind(c, pending), Kind(c, owed), Kind(c, owes));
  }

  lemma LeadsMoved<T>(s: seq<T>, f: seq<T>, rest: seq<T>, o: seq<T>)
    requires s + (f + rest) == o
    ensures Leads(s + f, o) && (s + f) + rest == o
  {
    assert (s + f) + rest == s + (f + rest);
  }

  /** A frame moves from what is pending to what is sent. */
  lemma PaysOut(c: bool, sent: seq<Down>, f: Down, rest: seq<Down>, owed: seq<Down>)
    requires Paid(c, false, sent, [f] + rest, owed)
    ensures Paid(c, false, sent + [f], rest, owed)
  {
    hide Kind, Leads;
    KindConcat(c, sent, [f]);
    KindConcat(c, [f], rest);
    LeadsMoved(Kind(c, sent), Kind(c, [f]), Kind(c, rest), Kind(c, owed));
  }

  /** Only p's operations change, to others that owe the same and more. */
  lemma DueMore(h: Hub, h': Hub, p: nat, q: nat, owed: seq<Down>, owes: seq<Down>)
    requires Due(h, p, q, owed) && |h'.peers| == |h.peers|
    requires p < |h.peers| && q < |h.peers| ==>
      && Becomes(q, h.peers[p].ops, h'.peers[p].ops, owes) && Box(h'.peers[q]) == Box(h.peers[q])
      && (h.peers[q].closed ==> h'.peers[q].closed)
    requires p >= |h.peers| || q >= |h.peers| ==> owes == []
    ensures Due(h', p, q, owed + owes)
  {
    hide Paid, From, Pending, Box;
    if p < |h.peers| && q < |h.peers| {
      forall c: bool
        ensures Paid(c, h'.peers[q].closed, From(p, Box(h'.peers[q])), Pending(q, h'.peers[p].ops), owed + owes)
      {
        var closed, sent, pending := h.peers[q].closed, From(p, Box(h.peers[q])), Pending(q, h.peers[p].ops);
        PaysFor(c, closed, sent, pending, Pending(q, h'.peers[p].ops), owed, owes);
        PaidClosed(c, closed, h'.peers[q].closed, sent, Pending(q, h'.peers[p].ops), owed + owes);
      }
    }
  }

  lemma PaidClosed(c: bool, closed: bool, closed': bool, sent: seq<Down>, pending: seq<Down>, owed: seq<Down>)
    requires Paid(c, closed, sent, pending, owed) && (closed ==> closed')
    ensures Paid(c, closed', sent, pending, owed)
  {
  }

  lemma BecomesSame(q: nat, ops: seq<Op>, ops': seq<Op>)
    requires Pending(q, ops') == Pending(q, ops)
    ensures Becomes(q, ops, ops', [])
  {
    KindNothing();
    hide Kind;
  }

  lemma DueSame(h: Hub, h': Hub, p: nat, q: nat, owed: seq<Down>)
    requires Due(h, p, q, owed) && |h'.peers| == |h.peers|
    requires p < |h.peers| && q < |h.peers| ==>
      && Pending(q, h'.peers[p].ops) == Pending(q, h.peers[p].ops) && Box(h'.peers[q]) == Box(h.peers[q])
      && (h.peers[q].closed ==> h'.peers[q].closed)
    ensures Due(h', p, q, owed + [])
  {
    hide Due, Pending, Box, Becomes;
    if p < |h.peers| && q < |h.peers| { BecomesSame(q, h.peers[p].ops, h'.peers[p].ops); }
    DueMore(h, h', p, q, owed, []);
  }

  /** A connection that is new has been sent nothing and owes nothing. */
  lemma DueNew(h: Hub, s: Step, p: nat, q: nat, owed: seq<Down>)
    requires Isolated(h) && s.Connect? && Due(h, p, q, owed)
    ensures Due(Next(h, s), p, q, owed + [])
  {
    var h', n := Next(h, s), |h.peers|;
    assert owed + [] == owed;
    hide Isolated, Who;
    if p < n && q < n {
      assert h'.peers[p] == h.peers[p] && h'.peers[q] == h.peers[q];
    } else if p <= n && q <= n {
      assert From(p, Box(h'.peers[q])) == [] by {
        if q < n {
          Parts(h, q);
          WhoSize(h.peers);
          FromNobody(p, Box(h.peers[q]));
        }
      }
      assert Pending(q, h'.peers[p].ops) == [] by {
        if p < n {
          Parts(h, p);
          WhoSize(h.peers);
          ToSomebody(Who(h.peers), p, h.peers[p].ops, q);
        } else {
          assert [Join][1..] == [];
        }
      }
    }
    hide Box, Pending, From;
  }

  lemma ToSomebody(who: seq<Key>, p: nat, ops: seq<Op>, q: nat)
    requires OpsOk(who, p, ops) && q >= |who|
    ensures Pending(q, ops) == []
  {
    forall k | 0 <= k < |ops| && ops[k].Enqueue? ensures ops[k].to != q { assert OpOk(who, p, ops[k]); }
    PendingNobody(q, ops);
  }

  lemma WhoSize(peers: seq<Peer>)
    ensures |Who(peers)| == |peers|
  {
  }

  lemma DecodeAnswers(p: nat, u: Up, q: nat)
    ensures Pending(q, Decode(p, u)) == Only(p == q && u.Malformed?, Problem)
  {
    var ops := Decode(p, u);
    assert Pending(q, []) == [];
    if ops != [] { assert ops == [ops[0]] && ops[1..] == []; }
  }

  lemma DueTake(h: Hub, s: Step, p: nat, q: nat, owed: seq<Down>)
    requires s.Take? && CanStep(h, s) && Due(h, p, q, owed)
    ensures Due(Next(h, s), p, q, owed + OwesStep(h, s, p, q))
  {
    var x := s.p;
    DecodeAnswers(x, h.peers[x].up[0], q);
    assert Pending(q, []) == [];
    var owes := OwesStep(h, s, p, q);
    hide Due, Decode;
    if p < |h.peers| && q < |h.peers| {
      var ops, ops' := h.peers[p].ops, Next(h, s).peers[p].ops;
      assert Box(Next(h, s).peers[q]) == Box(h.peers[q]);
      hide Box;
      KindNothing();
      if p == x {
        hide Kind;
        forall c: bool ensures Kind(c, Pending(q, ops')) == Kind(c, Pending(q, ops)) + Kind(c, owes) { }
      } else {
        BecomesSame(q, ops, ops');
      }
    }
    DueMore(h, Next(h, s), p, q, owed, owes);
  }

  lemma PopPending(q: nat, ops: seq<Op>)
    requires ops != []
    ensures Pending(q, ops) == ToQueue(q, ops[0]) + Pending(q, ops[1..])
  {
  }

  /** What queueing a frame does to each connection. */
  function Queued(x: Peer, mine: bool, more: seq<Mail>): Peer {
    x.(ops := if mine && x.ops != [] then x.ops[1..] else x.ops, queue := x.queue + more)
  }

  lemma TellIs(h: Hub, x: nat, pick: Pick)
    requires CanExec(h, x, pick)
    ensures var op := h.peers[x].ops[0];
      && (op.Enqueue? ==> op.to < |h.peers| && DoExec(h, x, pick) == DoEnqueue(h, x, op.to, op.f))
      && (op.Kill? ==> op.victim < |h.peers| && DoExec(h, x, pick) == DoKill(h, x, op.victim))
  {
    hide DoJoin, DoLeave, DoDrop, DoOpen, DoAlloc, DoRelay, DoClose, DoSignal, DoRename, DoEnqueue, DoKill, NoDup,
         FirstFree, OthersIn, SessionsOf, HeaderOf;
  }

  ghost predicate SameTables(h: Hub, h': Hub) {
    h'.rooms == h.rooms && h'.sessions == h.sessions && h'.nextSess == h.nextSess && h'.joins == h.joins
  }

  lemma EnqueueIs(h: Hub, x: nat, to: nat, f: Down)
    requires x < |h.peers| && to < |h.peers| && h.peers[x].ops != []
    ensures var h' := DoEnqueue(h, x, to, f);
      && |h'.peers| == |h.peers| && SameTables(h, h')
      && forall q :: 0 <= q < |h.peers| ==>
        h'.peers[q] == Queued(h.peers[q], q == x, if q == to && !h.peers[q].closed then [Mail(x, f)] else [])
  {
    hide Overtakes;
    assert forall q :: 0 <= q < |h.peers| ==> h.peers[q].queue + [] == h.peers[q].queue;
  }

  lemma KillIs(h: Hub, x: nat, v: nat)
    requires x < |h.peers| && v < |h.peers| && h.peers[x].ops != []
    ensures var h' := DoKill(h, x, v);
      && |h'.peers| == |h.peers| && SameTables(h, h')
      && forall q :: 0 <= q < |h.peers| ==>
        h'.peers[q] == Queued(h.peers[q], q == x, []).(closed := h.peers[q].closed || q == v)
  {
    assert forall q :: 0 <= q < |h.peers| ==> h.peers[q].queue + [] == h.peers[q].queue;
  }

  lemma BoxQueued(x: Peer, mine: bool, more: seq<Mail>)
    ensures Box(Queued(x, mine, more)) == Box(x) + more
  {
    var front := x.seen + x.down + if x.hand.Some? then [x.hand.value] else [];
    assert front + (x.queue + more) == (front + x.queue) + more;
  }

  /** How a frame is put into an open mailbox. */
  lemma EnqueuePeers(h: Hub, x: nat, pick: Pick)
    requires CanExec(h, x, pick) && h.peers[x].ops[0].Enqueue?
    ensures var h', op := DoExec(h, x, pick), h.peers[x].ops[0];
      && |h'.peers| == |h.peers| && h'.peers[x].ops == h.peers[x].ops[1..]
      && (forall q :: 0 <= q < |h.peers| && q != x ==> h'.peers[q].ops == h.peers[q].ops)
      && (forall q :: 0 <= q < |h.peers| ==> h'.peers[q].closed == h.peers[q].closed)
      && (forall q :: 0 <= q < |h.peers| ==>
          Box(h'.peers[q]) == Box(h.peers[q]) + if q == op.to && !h.peers[q].closed then [Mail(x, op.f)] else [])
  {
    var op := h.peers[x].ops[0];
    TellIs(h, x, pick);
    EnqueueIs(h, x, op.to, op.f);
    hide DoExec, CanExec, DoEnqueue, Box;
    forall q | 0 <= q < |h.peers|
      ensures Box(DoEnqueue(h, x, op.to, op.f).peers[q]) ==
          Box(h.peers[q]) + if q == op.to && !h.peers[q].closed then [Mail(x, op.f)] else []
    {
      BoxQueued(h.peers[q], q == x, if q == op.to && !h.peers[q].closed then [Mail(x, op.f)] else []);
    }
  }

  lemma DueArrives(q: nat, p: nat, box: seq<Mail>, f: Down, ops: seq<Op>, owed: seq<Down>)
    requires ops != [] && ops[0] == Enqueue(q, f)
    requires forall c: bool :: Paid(c, false, From(p, box), Pending(q, ops), owed)
    ensures forall c: bool :: Paid(c, false, From(p, box + [Mail(p, f)]), Pending(q, ops[1..]), owed)
  {
    FromPush(p, box, Mail(p, f));
    PopPending(q, ops);
    var sent, rest := From(p, box), Pending(q, ops[1..]);
    hide From, Pending;
    forall c: bool ensures Paid(c, false, sent + [f], rest, owed) { PaysOut(c, sent, f, rest, owed); }
  }

  lemma DueEnqueue(h: Hub, x: nat, pick: Pick, p: nat, q: nat, owed: seq<Down>)
    requires CanExec(h, x, pick) && h.peers[x].ops[0].Enqueue? && Due(h, p, q, owed)
    ensures Due(DoExec(h, x, pick), p, q, owed + [])
  {
    var to, f, h' := h.peers[x].ops[0].to, h.peers[x].ops[0].f, DoExec(h, x, pick);
    EnqueuePeers(h, x, pick);
    PopPending(q, h.peers[x].ops);
    assert owed + [] == owed;
    hide CanExec, DoExec, Box, From, Pending, Paid;
    if p < |h.peers| && q < |h.peers| {
      var box := Box(h.peers[q]);
      assert box + [] == box;
      var rest := Pending(q, h.peers[x].ops[1..]);
      if q != to {
        assert [] + rest == rest;
        DueSame(h, h', p, q, owed);
      } else if h.peers[q].closed {
        if p == x {
          forall c: bool ensures Paid(c, true, From(p, box), rest, owed) {
            assert Paid(c, true, From(p, box), Pending(q, h.peers[x].ops), owed);
            PaidAnyway(c, From(p, box), Pending(q, h.peers[x].ops), rest, owed);
          }
        }
      } else if p == x {
        DueArrives(q, p, box, f, h.peers[x].ops, owed);
      } else {
        DueElsewhere(q, x, p, box, f, h.peers[p].ops, owed);
      }
    }
  }

  lemma DueElsewhere(q: nat, x: nat, p: nat, box: seq<Mail>, f: Down, ops: seq<Op>, owed: seq<Down>)
    requires p != x && forall c: bool :: Paid(c, false, From(p, box), Pending(q, ops), owed)
    ensures forall c: bool :: Paid(c, false, From(p, box + [Mail(x, f)]), Pending(q, ops), owed)
  {
    FromPush(p, box, Mail(x, f));
    hide From, Pending, Paid;
    assert From(p, box) + [] == From(p, box);
  }

  lemma PaidAnyway(c: bool, sent: seq<Down>, pending: seq<Down>, pending': seq<Down>, owed: seq<Down>)
    requires Paid(c, true, sent, pending, owed)
    ensures Paid(c, true, sent, pending', owed)
  {
  }

  lemma DueKill(h: Hub, x: nat, pick: Pick, p: nat, q: nat, owed: seq<Down>)
    requires CanExec(h, x, pick) && h.peers[x].ops[0].Kill? && Due(h, p, q, owed)
    ensures Due(DoExec(h, x, pick), p, q, owed + [])
  {
    var h' := DoExec(h, x, pick);
    TellIs(h, x, pick);
    KillIs(h, x, h.peers[x].ops[0].victim);
    PopPending(q, h.peers[x].ops);
    assert [] + Pending(q, h.peers[x].ops[1..]) == Pending(q, h.peers[x].ops[1..]);
    hide Due, Pending, CanExec, DoExec, DoKill, Box;
    if q < |h.peers| {
      BoxQueued(h.peers[q], q == x, []);
      assert Box(h.peers[q]) + [] == Box(h.peers[q]);
      BoxClosed(Queued(h.peers[q], q == x, []), h'.peers[q].closed);
    }
    DueSame(h, h', p, q, owed);
  }

  lemma BoxClosed(x: Peer, closed: bool)
    ensures Box(x.(closed := closed)) == Box(x)
  {
  }

  /** Any other operation changes what its own goroutine has to do, and nothing that is queued. */
  lemma ExecPeers(h: Hub, x: nat, pick: Pick)
    requires CanExec(h, x, pick) && !IsTell(h.peers[x].ops[0])
    ensures var h' := DoExec(h, x, pick);
            |h'.peers| == |h.peers|
              && h'.peers == h.peers[x := h.peers[x].(ops := h'.peers[x].ops, name := h'.peers[x].name)]
              && h'.peers[x].name == if h.peers[x].ops[0].Rename? then h.peers[x].ops[0].name else h.peers[x].name
  {
    HubRoster.OthersBound(h, x, pick);
    hide NoDup, FirstFree, JoinOps, Tell, CloseNotices, ForwardIfKnown, Infos, OthersIn, SessionsOf, HeaderOf, Find;
    match h.peers[x].ops[0]
    case Join => JoinPeers(h, x, pick.order);
    case Leave =>
    case DropSessions =>
    case Open(_) =>
    case Alloc(_) =>
    case Route(_) =>
    case RouteAck(_, _) =>
    case CloseSession(_) =>
    case Signal(_, _) =>
    case Rename(_) =>
  }

  lemma JoinPeers(h: Hub, x: nat, order: seq<nat>)
    requires x < |h.peers| && h.peers[x].ops != [] && forall k :: k in order ==> k < |h.peers|
    ensures var h' := DoJoin(h, x, order); h'.peers == h.peers[x := h.peers[x].(ops := h'.peers[x].ops)]
  {
    hide JoinOps, Infos;
  }

  lemma ExecQuiet(h: Hub, x: nat, pick: Pick)
    requires CanExec(h, x, pick) && !IsTell(h.peers[x].ops[0])
    ensures var h' := DoExec(h, x, pick);
      && |h'.peers| == |h.peers|
      && (forall q :: 0 <= q < |h.peers| ==>
          Box(h'.peers[q]) == Box(h.peers[q]) && h'.peers[q].closed == h.peers[q].closed)
      && (forall q :: 0 <= q < |h.peers| && q != x ==> h'.peers[q].ops == h.peers[q].ops)
  {
    ExecPeers(h, x, pick);
    hide CanExec, DoExec;
  }

  lemma OutOfRange(h: Hub, p: nat, q: nat)
    requires Isolated(h) && p < |h.peers| <= q
    ensures (forall room, id :: !Holds(h, room, id, q)) && !Fellow(h, p, q)
    ensures forall sid: nat :: !FarEnd(h.sessions, sid, p, q)
    ensures OpsOk(Who(h.peers), p, h.peers[p].ops)
  {
    WhoSize(h.peers);
    Parts(h, p);
    forall r, i | r in h.rooms && i in h.rooms[r] ensures h.rooms[r][i] < |h.peers| {
      assert RoomOk(Who(h.peers), r, h.rooms[r]);
    }
    forall sid: nat ensures !FarEnd(h.sessions, sid, p, q) { FarInRange(Who(h.peers), h.sessions, h.born, sid, p, q); }
    hide Isolated, Who, RoomsOk, TableOk, PeerOk, FarEnd;
  }

  /** What is owed concerns connections that exist. */
  lemma OwesInRange(h: Hub, p: nat, pick: Pick, q: nat)
    requires Isolated(h) && p < |h.peers| <= q && h.peers[p].ops != []
    requires h.peers[p].ops[0].Alloc? ==> h.peers[p].ops[0].target < |h.peers|
    ensures Owes(h, p, pick, q) == []
  {
    OutOfRange(h, p, q);
    hide Isolated, Who, OpsOk, Holds, Fellow, FarEnd, Descriptions, U32;
    if h.peers[p].ops[0].DropSessions? { NoCloseTo(h.sessions, p, q, pick.order); }
  }

  lemma FarInRange(who: seq<Key>, sessions: map<nat, Sess>, born: map<nat, Sess>, sid: nat, p: nat, q: nat)
    requires TableOk(who, sessions, born) && q >= |who|
    ensures !FarEnd(sessions, sid, p, q)
  {
    if sid in sessions { assert SessOk(who, sessions[sid], sid); }
  }

  lemma {:induction false} NoCloseTo(sessions: map<nat, Sess>, p: nat, q: nat, order: seq<nat>)
    requires forall sid: nat :: !FarEnd(sessions, sid, p, q)
    ensures ClosesTo(sessions, p, q, order) == []
  {
    if order != [] { NoCloseTo(sessions, p, q, order[1..]); }
  }

  lemma DueExec(h: Hub, x: nat, pick: Pick, p: nat, q: nat, owed: seq<Down>)
    requires Isolated(h) && CanExec(h, x, pick) && Due(h, p, q, owed)
    ensures Due(DoExec(h, x, pick), p, q, owed + OwesStep(h, Exec(x, pick), p, q))
  {
    if h.peers[x].ops[0].Enqueue? {
      hide Isolated, CanExec, DoExec, Due;
      DueEnqueue(h, x, pick, p, q, owed);
    } else if h.peers[x].ops[0].Kill? {
      hide Isolated, CanExec, DoExec, Due;
      DueKill(h, x, pick, p, q, owed);
    } else {
      ExecQuiet(h, x, pick);
      if p == x {
        OpAnswers(h, x, pick, q);
        if q >= |h.peers| { OwesInRange(h, x, pick, q); }
        hide Isolated, CanExec, DoExec, Due, Owes, Becomes, Box;
        DueMore(h, DoExec(h, x, pick), p, q, owed, Owes(h, x, pick, q));
      } else {
        hide Isolated, CanExec, DoExec, Due, Box;
        DueSame(h, DoExec(h, x, pick), p, q, owed);
      }
    }
  }

  lemma StepPays(h: Hub, s: Step, p: nat, q: nat, owed: seq<Down>)
    requires Isolated(h) && CanStep(h, s) && Due(h, p, q, owed)
    ensures Due(Next(h, s), p, q, owed + OwesStep(h, s, p, q))
  {
    if s.Connect? {
      hide Isolated, Due;
      DueNew(h, s, p, q, owed);
    } else if s.Exec? {
      hide Isolated, Due, DoExec, CanExec, OwesStep;
      DueExec(h, s.p, s.pick, p, q, owed);
    } else if s.Take? {
      hide Isolated, Due, OwesStep;
      DueTake(h, s, p, q, owed);
    } else {
      StepRests(h, s, p, q);
      hide Isolated, Due, Box, Pending, CanStep, Next;
      DueSame(h, Next(h, s), p, q, owed);
    }
  }

  lemma StepRests(h: Hub, s: Step, p: nat, q: nat)
    requires CanStep(h, s) && !s.Connect? && !s.Exec? && !s.Take?
    ensures |Next(h, s).peers| == |h.peers|
    ensures p < |h.peers| ==> Pending(q, Next(h, s).peers[p].ops) == Pending(q, h.peers[p].ops)
    ensures q < |h.peers| ==> Box(Next(h, s).peers[q]) == Box(h.peers[q])
    ensures q < |h.peers| ==> h.peers[q].closed ==> Next(h, s).peers[q].closed
  {
    assert [Leave][1..] == [] && Pending(q, []) == [];
    var x := h.peers[s.p];
    if s.ClientReads? || s.WriterTakes? || s.WriterWrites? { BoxMoves(x, Next(h, s).peers[s.p]); hide Box; }
  }

  lemma {:induction false} RunPays(h: Hub, steps: seq<Step>, last: Hub, p: nat, q: nat, owed: seq<Down>)
    requires Isolated(h) && IsRun(h, steps, last) && Due(h, p, q, owed)
    ensures Due(last, p, q, owed + Owed(h, steps, p, q))
    decreases |steps|
  {
    if steps == [] {
      assert owed + [] == owed;
    } else {
      var s := steps[0];
      StepPays(h, s, p, q, owed);
      StepKeeps(h, s);
      hide Isolated, Due, CanStep, Next, OwesStep;
      RunPays(Next(h, s), steps[1..], last, p, q, owed + OwesStep(h, s, p, q));
      var more := Owed(Next(h, s), steps[1..], p, q);
      assert (owed + OwesStep(h, s, p, q)) + more == owed + (OwesStep(h, s, p, q) + more);
    }
  }

  /**
   * For every two connections p and q of every run: what p's goroutine has queued for q, on its
   * way or arrived, is the first of what the operations it has carried out owe to q, in order;
   * and while q is open, with what p has still to queue, it is all of it. (Closes apart.)
   */
  lemma EveryAnswerIsDue(steps: seq<Step>, last: Hub, p: nat, q: nat, closes: bool)
    requires IsRun(EMPTY, steps, last) && p < |last.peers| && q < |last.peers|
    ensures var sent, owed := Kind(closes, From(p, Box(last.peers[q]))), Kind(closes, Owed(EMPTY, steps, p, q));
      && Leads(sent, owed)
      && (!last.peers[q].closed ==> sent + Kind(closes, Pending(q, last.peers[p].ops)) == owed)
  {
    EmptyIsolated();
    hide Isolated, IsRun;
    RunPays(EMPTY, steps, last, p, q, []);
    assert [] + Owed(EMPTY, steps, p, q) == Owed(EMPTY, steps, p, q);
    assert Paid(closes, last.peers[q].closed, From(p, Box(last.peers[q])), Pending(q, last.peers[p].ops),
                Owed(EMPTY, steps, p, q));
  }

  // ------------------------------------------------- every message is acted on

  /** The message an operation carries out. */
  function AsUp(op: Op): seq<Up> {
    match op
    case Open(to) => [OpenTo(to)]
    case Route(data) => [Binary(data)]
    case RouteAck(sid, bytes) => [AckFrom(sid, bytes)]
    case CloseSession(sid) => [CloseFrom(sid)]
    case Signal(to, body) => [SignalTo(to, body)]
    case Rename(name) => [Hello(name)]
    case _ => []
  }

  function AsUps(ops: seq<Op>): seq<Up> { if ops == [] then [] else AsUp(ops[0]) + AsUps(ops[1..]) }

  /** The messages that ask for something. */
  function Requests(ups: seq<Up>): seq<Up> {
    if ups == [] then [] else Requests(ups[..|ups| - 1]) + Request(ups[|ups| - 1])
  }

  function Request(u: Up): seq<Up> { if u.Malformed? || u.Ignored? || u == Hello("") then [] else [u] }

  /** The messages p's goroutine carries out over a run, in order. */
  ghost function Executed(h: Hub, steps: seq<Step>, p: nat): seq<Up>
    decreases |steps|
  {
    if steps == [] || !CanStep(h, steps[0]) then []
    else Carried(h, steps[0], p) + Executed(Next(h, steps[0]), steps[1..], p)
  }

  ghost function Carried(h: Hub, s: Step, p: nat): seq<Up>
    requires CanStep(h, s)
  {
    if s.Exec? && s.p == p then AsUp(h.peers[p].ops[0]) else []
  }

  ghost predicate ActsOn(h: Hub, p: nat, done: seq<Up>) {
    if p < |h.peers| then Requests(h.peers[p].took) == done + AsUps(h.peers[p].ops) else done == []
  }

  lemma {:induction false} AsUpsConcat(a: seq<Op>, b: seq<Op>)
    ensures AsUps(a + b) == AsUps(a) + AsUps(b)
  {
    if a == [] {
      assert a + b == b;
    } else {
      assert (a + b)[1..] == a[1..] + b;
      AsUpsConcat(a[1..], b);
    }
  }

  lemma {:induction false} NoRequests(ops: seq<Op>)
    requires forall k :: 0 <= k < |ops| ==> AsUp(ops[k]) == []
    ensures AsUps(ops) == []
  {
    if ops != [] { NoRequests(ops[1..]); }
  }

  lemma NoticesNoRequests(sessions: map<nat, Sess>, p: nat, order: seq<nat>)
    requires forall x :: x in order ==> x in SessionsOf(sessions, p)
    ensures AsUps(CloseNotices(sessions, p, order)) == []
  {
    if order != [] {
      assert order[0] in order && order[0] in SessionsOf(sessions, p);
      NoticesNoRequests(sessions, p, order[1..]);
      assert CloseNotices(sessions, p, order)[1..] == CloseNotices(sessions, p, order[1..]);
    }
  }

  /** What an operation is replaced by asks for nothing of its own. */
  lemma ExecRequests(h: Hub, p: nat, pick: Pick)
    requires CanExec(h, p, pick)
    ensures var h' := DoExec(h, p, pick);
            |h'.peers| == |h.peers| && AsUps(h'.peers[p].ops) == AsUps(h.peers[p].ops[1..])
    ensures forall q :: 0 <= q < |h.peers| ==> DoExec(h, p, pick).peers[q].took == h.peers[q].took
    ensures forall q :: 0 <= q < |h.peers| && q != p ==> DoExec(h, p, pick).peers[q].ops == h.peers[q].ops
  {
    var op := h.peers[p].ops[0];
    TellIs(h, p, pick);
    if op.Enqueue? {
      EnqueueIs(h, p, op.to, op.f);
      hide DoExec, CanExec, DoEnqueue;
    } else if op.Kill? {
      KillIs(h, p, op.victim);
      hide DoExec, CanExec, DoKill;
    } else {
      ExecPeers(h, p, pick);
      AddsNoRequests(h, p, pick);
      hide DoExec, CanExec;
    }
  }

  lemma AddsNoRequests(h: Hub, p: nat, pick: Pick)
    requires CanExec(h, p, pick) && !IsTell(h.peers[p].ops[0])
    ensures AsUps(DoExec(h, p, pick).peers[p].ops) == AsUps(h.peers[p].ops[1..])
  {
    HubRoster.OthersBound(h, p, pick);
    hide NoDup, FirstFree, OthersIn, HeaderOf, DoJoin, DoLeave, DoDrop, DoOpen, DoAlloc, DoRelay, DoClose, DoSignal,
         DoRename, AsUps;
    match h.peers[p].ops[0] {
      case Join => JoinRequests(h, p, pick.order);
      case Leave => LeaveRequests(h, p, pick.order);
      case DropSessions => DropRequests(h, p, pick.order);
      case Rename(name) => RenameRequests(h, p, name, pick.order);
      case Open(to) => OpenRequests(h, p, to);
      case Alloc(t) => AllocRequests(h, p, t, pick.sid);
      case Route(data) => RelayRequests(h, p, HeaderOf(data), Payload(data));
      case RouteAck(sid, bytes) => RelayRequests(h, p, Some(sid), AckTo(sid, bytes));
      case CloseSession(sid) => RelayRequests(h, p, Some(sid), CloseTo(sid));
      case Signal(to, body) => SignalRequests(h, p, to, body);
    }
  }

  lemma JoinRequests(h: Hub, p: nat, order: seq<nat>)
    requires p < |h.peers| && h.peers[p].ops != [] && forall x :: x in order ==> x < |h.peers|
    ensures AsUps(DoJoin(h, p, order).peers[p].ops) == AsUps(h.peers[p].ops[1..])
  {
    var me := h.peers[p];
    var w, f := Welcome(InfoOf(me), Infos(h.peers, order)), PeerJoin(InfoOf(me));
    hide Infos;
    AddsNone(JoinOps(RoomMap(h, me.room), p, me.id, w, order, f), me.ops[1..]);
  }

  lemma LeaveRequests(h: Hub, p: nat, order: seq<nat>)
    requires p < |h.peers| && h.peers[p].ops != []
    ensures AsUps(DoLeave(h, p, order).peers[p].ops) == AsUps(h.peers[p].ops[1..])
  {
    var me := h.peers[p];
    AddsNone([DropSessions] + Tell(order, PeerLeave(me.id)), me.ops[1..]);
  }

  lemma DropRequests(h: Hub, p: nat, order: seq<nat>)
    requires p < |h.peers| && h.peers[p].ops != [] && forall x :: x in order ==> x in SessionsOf(h.sessions, p)
    ensures AsUps(DoDrop(h, p, order).peers[p].ops) == AsUps(h.peers[p].ops[1..])
  {
    NoticesNoRequests(h.sessions, p, order);
    AsUpsConcat(CloseNotices(h.sessions, p, order), h.peers[p].ops[1..]);
    hide CloseNotices, SessionsOf;
  }

  lemma RenameRequests(h: Hub, p: nat, name: string, order: seq<nat>)
    requires p < |h.peers| && h.peers[p].ops != []
    ensures AsUps(DoRename(h, p, name, order).peers[p].ops) == AsUps(h.peers[p].ops[1..])
  {
    AddsNone(Tell(order, PeerJoin(Info(h.peers[p].id, name))), h.peers[p].ops[1..]);
  }

  lemma OpenRequests(h: Hub, p: nat, to: string)
    requires p < |h.peers| && h.peers[p].ops != []
    ensures AsUps(DoOpen(h, p, to).peers[p].ops) == AsUps(h.peers[p].ops[1..])
  {
    AddsNone([DoOpen(h, p, to).peers[p].ops[0]], h.peers[p].ops[1..]);
  }

  lemma AllocRequests(h: Hub, p: nat, t: nat, sid: nat)
    requires p < |h.peers| && t < |h.peers| && h.peers[p].ops != []
    ensures AsUps(DoAlloc(h, p, t, sid).peers[p].ops) == AsUps(h.peers[p].ops[1..])
  {
    AddsNone([Enqueue(p, Ready(sid, h.peers[t].id)), Enqueue(t, Incoming(sid, h.peers[p].id))], h.peers[p].ops[1..]);
  }

  lemma RelayRequests(h: Hub, p: nat, sid: Option<nat>, f: Down)
    requires p < |h.peers| && h.peers[p].ops != []
    ensures AsUps(DoRelay(h, p, sid, f).peers[p].ops) == AsUps(h.peers[p].ops[1..])
    ensures f.CloseTo? && sid == Some(f.sid) ==>
        AsUps(DoClose(h, p, f.sid).peers[p].ops) == AsUps(h.peers[p].ops[1..])
  {
    AddsNone(ForwardIfKnown(h.sessions, p, sid, f), h.peers[p].ops[1..]);
  }

  lemma SignalRequests(h: Hub, p: nat, to: string, body: string)
    requires p < |h.peers| && h.peers[p].ops != []
    ensures AsUps(DoSignal(h, p, to, body).peers[p].ops) == AsUps(h.peers[p].ops[1..])
  {
    AddsNone([DoSignal(h, p, to, body).peers[p].ops[0]], h.peers[p].ops[1..]);
  }

  lemma AddsNone(add: seq<Op>, rest: seq<Op>)
    requires forall k :: 0 <= k < |add| ==> AsUp(add[k]) == []
    ensures AsUps(add + rest) == AsUps(rest)
  {
    NoRequests(add);
    AsUpsConcat(add, rest);
  }

  lemma DecodeActs(p: nat, u: Up)
    ensures AsUps(Decode(p, u)) == Request(u)
  {
    var ops := Decode(p, u);
    assert AsUps([]) == [];
    if ops != [] { assert ops == [ops[0]] && ops[1..] == []; }
  }

  lemma RequestsPush(ups: seq<Up>, u: Up)
    ensures Requests(ups + [u]) == Requests(ups) + Request(u)
  {
    assert (ups + [u])[..|ups + [u]| - 1] == ups;
  }

  lemma InReach(h: Hub, p: nat, pick: Pick)
    requires CanExec(h, p, pick)
    ensures p < |h.peers| && h.peers[p].ops != []
  {
  }

  lemma AsUpsPop(ops: seq<Op>)
    ensures ops != [] ==> AsUps(ops) == AsUp(ops[0]) + AsUps(ops[1..])
    ensures AsUps([]) == [] && AsUps([Join]) == [] && AsUps([Leave]) == []
  {
    assert [Join][1..] == [] && [Leave][1..] == [];
  }

  /** The operation at the head is carried out; what takes its place asks for nothing. */
  lemma Carries(took: seq<Up>, done: seq<Up>, ops: seq<Op>, ops': seq<Op>)
    requires ops != [] && Requests(took) == done + AsUps(ops) && AsUps(ops') == AsUps(ops[1..])
    ensures Requests(took) == (done + AsUp(ops[0])) + AsUps(ops')
  {
    AsUpsPop(ops);
    hide AsUp, AsUps, Requests;
    assert (done + AsUp(ops[0])) + AsUps(ops[1..]) == done + (AsUp(ops[0]) + AsUps(ops[1..]));
  }

  lemma ExecActs(h: Hub, x: nat, pick: Pick, p: nat, done: seq<Up>)
    requires CanExec(h, x, pick) && ActsOn(h, p, done)
    ensures ActsOn(DoExec(h, x, pick), p, if p == x then done + AsUp(h.peers[p].ops[0]) else done)
  {
    InReach(h, x, pick);
    hide DoExec, CanExec, Requests, AsUp, AsUps;
    ExecRequests(h, x, pick);
    if p == x { Carries(h.peers[p].took, done, h.peers[p].ops, DoExec(h, x, pick).peers[p].ops); }
  }

  lemma TakeActs(h: Hub, s: Step, p: nat, done: seq<Up>)
    requires s.Take? && CanStep(h, s) && ActsOn(h, p, done)
    ensures ActsOn(Next(h, s), p, done + [])
  {
    DecodeActs(s.p, h.peers[s.p].up[0]);
    RequestsPush(h.peers[s.p].took, h.peers[s.p].up[0]);
    assert AsUps([]) == [] && done + [] == done;
    hide Decode, Requests, AsUps;
  }

  lemma StepActs(h: Hub, s: Step, p: nat, done: seq<Up>)
    requires CanStep(h, s) && ActsOn(h, p, done)
    ensures ActsOn(Next(h, s), p, done + Carried(h, s, p))
  {
    hide CanExec, DoExec, AsUp, AsUps, Requests, Decode;
    AsUpsPop([]);
    assert done + [] == done;
    if s.Exec? {
      ExecActs(h, s.p, s.pick, p, done);
    } else if s.Take? {
      TakeActs(h, s, p, done);
    } else if s.Connect? {
      assert Requests([]) == [] by { NoRequestsYet(); }
    }
  }

  lemma NoRequestsYet()
    ensures Requests([]) == []
  {
  }

  lemma {:induction false} RunActs(h: Hub, steps: seq<Step>, last: Hub, p: nat, done: seq<Up>)
    requires IsRun(h, steps, last) && ActsOn(h, p, done)
    ensures ActsOn(last, p, done + Executed(h, steps, p))
    decreases |steps|
  {
    if steps == [] {
      assert done + [] == done;
    } else {
      var s := steps[0];
      StepActs(h, s, p, done);
      hide ActsOn, CanStep, Next, Carried;
      RunActs(Next(h, s), steps[1..], last, p, done + Carried(h, s, p));
      var more := Executed(Next(h, s), steps[1..], p);
      assert (done + Carried(h, s, p)) + more == done + (Carried(h, s, p) + more);
    }
  }

  /** Of the messages taken from a client each is carried out, once and in order, but for the one in hand. */
  lemma EveryRequestIsActedOn(steps: seq<Step>, last: Hub, p: nat)
    requires IsRun(EMPTY, steps, last) && p < |last.peers|
    ensures Requests(last.peers[p].took) == Executed(EMPTY, steps, p) + AsUps(last.peers[p].ops)
  {
    RunActs(EMPTY, steps, last, p, []);
    assert [] + Executed(EMPTY, steps, p) == Executed(EMPTY, steps, p);
  }

  // ------------------------------------------------------------------ signals

  /** The signals among the frames from one connection, as sender and body. */
  function Signals(fs: seq<Down>): seq<(string, string)> {
    if fs == [] then [] else Signals(fs[..|fs| - 1]) + Signalling(fs[|fs| - 1])
  }

  function Signalling(f: Down): seq<(string, string)> { if f.Signalled? then [(f.from, f.body)] else [] }

  /** What a client with this identity asked to have signalled to another. */
  function Asked(me: string, ups: seq<Up>, to: string): seq<(string, string)> {
    if ups == [] then [] else Asked(me, ups[..|ups| - 1], to) + Asks(me, ups[|ups| - 1], to)
  }

  function Asks(me: string, u: Up, to: string): seq<(string, string)> {
    if u.SignalTo? && u.to == to then [(me, u.body)] else []
  }

  lemma {:induction false} SignalsConcat(a: seq<Down>, b: seq<Down>)
    ensures Signals(a + b) == Signals(a) + Signals(b)
  {
    if b == [] {
      assert a + b == a;
    } else {
      assert (a + b)[..|a + b| - 1] == a + b[..|b| - 1];
      SignalsConcat(a, b[..|b| - 1]);
    }
  }

  lemma {:induction false} AskedConcat(me: string, a: seq<Up>, b: seq<Up>, to: string)
    ensures Asked(me, a + b, to) == Asked(me, a, to) + Asked(me, b, to)
  {
    if b == [] {
      assert a + b == a;
    } else {
      assert (a + b)[..|a + b| - 1] == a + b[..|b| - 1];
      AskedConcat(me, a, b[..|b| - 1], to);
    }
  }

  lemma {:induction false} SubseqJoin<T>(a: seq<T>, b: seq<T>, x: seq<T>, y: seq<T>)
    requires IsSubseq(a, b) && |x| <= 1 && |y| <= 1 && (x == [] || x == y)
    ensures IsSubseq(a + x, b + y)
  {
    if y == [] {
      assert a + x == a && b + y == b;
    } else if x == [] {
      assert a + x == a && y == [y[0]];
      SubseqGrow(a, b, y[0]);
    } else {
      assert x == [x[0]] && y == [x[0]];
      SubseqPush(a, b, x[0]);
    }
  }

  lemma {:induction false} SubseqPrefix<T>(a: seq<T>, b: seq<T>, n: nat)
    requires IsSubseq(a, b) && n <= |a|
    ensures IsSubseq(a[..n], b)
    decreases |b|
  {
    if n < |a| {
      var a', b' := a[..|a| - 1], b[..|b| - 1];
      assert a[..n] == a'[..n] && b == b' + [b[|b| - 1]];
      if a[|a| - 1] == b[|b| - 1] && IsSubseq(a', b') {
        SubseqPrefix(a', b', n);
      } else {
        SubseqPrefix(a, b', n);
      }
      SubseqGrow(a[..n], b', b[|b| - 1]);
    } else {
      assert a[..n] == a;
    }
  }

  /** A signal is owed to whoever stands under the identity it is addressed to, and to nobody else. */
  lemma SignalOwed(h: Hub, s: Step, p: nat, q: nat)
    requires Isolated(h) && CanStep(h, s) && p < |h.peers| && q < |h.peers|
    ensures var x, y := Signals(OwesStep(h, s, p, q)), Asked(h.peers[p].id, Carried(h, s, p), h.peers[q].id);
            |x| <= 1 && |y| <= 1 && (x == [] || x == y)
  {
    assert Signals([]) == [] && Asked(h.peers[p].id, [], h.peers[q].id) == [];
    OneSignal("", "");
    hide Signals, Asked, Isolated, Owes, AsUp, NoDup, FirstFree;
    if s.Exec? && s.p == p {
      var op := h.peers[p].ops[0];
      if op.Signal? {
        SignalFinds(h, p, s.pick, q, op.toId, op.body);
      } else {
        NoSignal(h, p, s.pick, q);
        NotAsked(h.peers[p].id, op, h.peers[q].id);
      }
    }
  }

  lemma SignalFinds(h: Hub, p: nat, pick: Pick, q: nat, to: string, body: string)
    requires Isolated(h) && p < |h.peers| && q < |h.peers| && h.peers[p].ops != []
    requires h.peers[p].ops[0] == Signal(to, body)
    ensures var x, y := Signals(Owes(h, p, pick, q)), Asked(h.peers[p].id, AsUp(h.peers[p].ops[0]), h.peers[q].id);
            |x| <= 1 && |y| <= 1 && (x == [] || x == y)
  {
    var me := h.peers[p];
    if Holds(h, me.room, to, q) { UnderName(h, me.room, to, q); }
    SignalAsked(me.id, to, body, h.peers[q].id);
    OneSignal(me.id, body);
    assert Owes(h, p, pick, q) == OwesSignal(h, p, to, body, q);
    hide Isolated, Signals, Asked, Holds, AsUp, Owes;
    var problem := Only(q == p && forall x: nat :: !Holds(h, me.room, to, x), Problem);
    if Holds(h, me.room, to, q) {
      assert problem == [];
      assert [Signalled(me.id, body)] + [] == [Signalled(me.id, body)];
    } else {
      assert [] + problem == problem;
    }
  }

  lemma UnderName(h: Hub, room: string, id: string, q: nat)
    requires Isolated(h) && Holds(h, room, id, q) && q < |h.peers|
    ensures h.peers[q].id == id && h.peers[q].room == room
  {
    assert RoomOk(Who(h.peers), room, h.rooms[room]);
  }

  lemma OneSignal(from: string, body: string)
    ensures Signals([Signalled(from, body)]) == [(from, body)] && Signals([Problem]) == [] && Signals([]) == []
  {
    assert [Signalled(from, body)][..0] == [] && [Problem][..0] == [];
  }

  lemma SignalAsked(me: string, to: string, body: string, id: string)
    ensures Asked(me, AsUp(Signal(to, body)), id) == if to == id then [(me, body)] else []
  {
    assert [SignalTo(to, body)][..0] == [] && Asked(me, [], id) == [];
  }

  lemma NotAsked(me: string, op: Op, id: string)
    requires !op.Signal?
    ensures Asked(me, AsUp(op), id) == []
  {
    var ups := AsUp(op);
    if ups != [] { assert ups[..0] == [] && Asked(me, [], id) == []; }
  }

  lemma NoSignal(h: Hub, p: nat, pick: Pick, q: nat)
    requires p < |h.peers| && h.peers[p].ops != [] && !h.peers[p].ops[0].Signal?
    ensures Signals(Owes(h, p, pick, q)) == []
  {
    hide Holds, Fellow, FarEnd, Descriptions, ClosesTo;
    if h.peers[p].ops[0].DropSessions? { ClosesNoSignal(h.sessions, p, q, pick.order); }
    else { NoneSignal(Owes(h, p, pick, q)); }
  }

  lemma {:induction false} NoneSignal(fs: seq<Down>)
    requires forall k :: 0 <= k < |fs| ==> !fs[k].Signalled?
    ensures Signals(fs) == []
  {
    if fs != [] { NoneSignal(fs[..|fs| - 1]); }
  }

  lemma {:induction false} ClosesNoSignal(sessions: map<nat, Sess>, p: nat, q: nat, order: seq<nat>)
    ensures Signals(ClosesTo(sessions, p, q, order)) == []
  {
    if order != [] {
      var first := Only(FarEnd(sessions, order[0], p, q), CloseTo(order[0]));
      ClosesNoSignal(sessions, p, q, order[1..]);
      SignalsConcat(first, ClosesTo(sessions, p, q, order[1..]));
      NoneSignal(first);
    }
  }

  lemma StepSignals(h: Hub, s: Step, p: nat, q: nat, me: string, to: string, owed: seq<Down>, done: seq<Up>)
    requires Isolated(h) && CanStep(h, s) && IsSubseq(Signals(owed), Asked(me, done, to))
    requires (p < |h.peers| ==> h.peers[p].id == me) && (q < |h.peers| ==> h.peers[q].id == to)
    ensures IsSubseq(Signals(owed + OwesStep(h, s, p, q)), Asked(me, done + Carried(h, s, p), to))
  {
    var owes, doing := OwesStep(h, s, p, q), Carried(h, s, p);
    hide OwesStep, Carried, Signals, Asked, Isolated, CanStep, IsSubseq;
    SignalsConcat(owed, owes);
    AskedConcat(me, done, doing, to);
    if p < |h.peers| && q < |h.peers| {
      SignalOwed(h, s, p, q);
      SubseqJoin(Signals(owed), Asked(me, done, to), Signals(owes), Asked(me, doing, to));
    } else {
      NotYetOwed(h, s, p, q);
      assert Signals(owed) + [] == Signals(owed);
      SubseqMore(Signals(owed), Asked(me, done, to), Asked(me, doing, to));
    }
  }

  lemma {:induction false} RunSignals(h: Hub, steps: seq<Step>, last: Hub, p: nat, q: nat, me: string, to: string,
                                      owed: seq<Down>, done: seq<Up>)
    requires Isolated(h) && IsRun(h, steps, last) && p < |last.peers| && q < |last.peers|
    requires me == last.peers[p].id && to == last.peers[q].id
    requires IsSubseq(Signals(owed), Asked(me, done, to))
    ensures IsSubseq(Signals(owed + Owed(h, steps, p, q)), Asked(me, done + Executed(h, steps, p), to))
    decreases |steps|
  {
    hide Isolated, CanStep, Next, OwesStep, Carried, Signals, Asked, IsSubseq;
    if steps == [] {
      assert owed + [] == owed && done + [] == done;
    } else {
      var s := steps[0];
      var owes, doing := OwesStep(h, s, p, q), Carried(h, s, p);
      StepKeeps(h, s);
      RunNames(h, steps, last);
      StepSignals(h, s, p, q, me, to, owed, done);
      RunSignals(Next(h, s), steps[1..], last, p, q, me, to, owed + owes, done + doing);
      var more, others := Owed(Next(h, s), steps[1..], p, q), Executed(Next(h, s), steps[1..], p);
      assert Owed(h, steps, p, q) == owes + more && Executed(h, steps, p) == doing + others;
      hide Owed, Executed, IsRun;
      assert (owed + owes) + more == owed + (owes + more) && (done + doing) + others == done + (doing + others);
    }
  }

  lemma {:induction false} SubseqMore<T>(a: seq<T>, b: seq<T>, c: seq<T>)
    requires IsSubseq(a, b)
    ensures IsSubseq(a, b + c)
  {
    if c == [] {
      assert b + c == b;
    } else {
      assert (b + c)[..|b + c| - 1] == b + c[..|c| - 1];
      SubseqMore(a, b, c[..|c| - 1]);
    }
  }

  /** A connection that does not exist yet owes nothing and is owed nothing. */
  lemma NotYetOwed(h: Hub, s: Step, p: nat, q: nat)
    requires Isolated(h) && CanStep(h, s) && (p >= |h.peers| || q >= |h.peers|)
    ensures Signals(OwesStep(h, s, p, q)) == []
  {
    assert Signals([]) == [];
    if s.Exec? && s.p == p { OwesInRange(h, p, s.pick, q); }
    hide Isolated, Owes;
  }

  /** A connection keeps its identity. */
  lemma {:induction false} RunNames(h: Hub, steps: seq<Step>, last: Hub)
    requires Isolated(h) && IsRun(h, steps, last)
    ensures |h.peers| <= |last.peers|
    ensures forall p :: 0 <= p < |h.peers| ==>
        last.peers[p].id == h.peers[p].id && last.peers[p].room == h.peers[p].room
    decreases |steps|
  {
    if steps != [] {
      StepNames(h, steps[0]);
      StepKeeps(h, steps[0]);
      hide Isolated, CanStep, Next;
      RunNames(Next(h, steps[0]), steps[1..], last);
    }
  }

  lemma StepNames(h: Hub, s: Step)
    requires CanStep(h, s)
    ensures |h.peers| <= |Next(h, s).peers|
    ensures forall p :: 0 <= p < |h.peers| ==>
        Next(h, s).peers[p].id == h.peers[p].id && Next(h, s).peers[p].room == h.peers[p].room
  {
    if s.Exec? {
      ExecNames(h, s.p, s.pick);
      hide DoExec, CanExec;
    }
  }

  lemma ExecNames(h: Hub, p: nat, pick: Pick)
    requires CanExec(h, p, pick)
    ensures |DoExec(h, p, pick).peers| == |h.peers|
    ensures forall q :: 0 <= q < |h.peers| ==>
        DoExec(h, p, pick).peers[q].id == h.peers[q].id && DoExec(h, p, pick).peers[q].room == h.peers[q].room
  {
    var op := h.peers[p].ops[0];
    TellIs(h, p, pick);
    if op.Enqueue? {
      EnqueueIs(h, p, op.to, op.f);
    } else if op.Kill? {
      KillIs(h, p, op.victim);
    } else {
      ExecPeers(h, p, pick);
    }
    hide DoExec, CanExec, DoEnqueue, DoKill;
  }

  /**
   * For every two connections of every run: each signal that one has from the other, on its way
   * or arrived, answers one that the other's client sent to this one's identity, with the same
   * body and the sender's own identity, in the order sent.
   */
  lemma SignalsAreSent(steps: seq<Step>, last: Hub, p: nat, q: nat)
    requires IsRun(EMPTY, steps, last) && p < |last.peers| && q < |last.peers|
    ensures IsSubseq(Signals(From(p, Box(last.peers[q]))),
                     Asked(last.peers[p].id, last.peers[p].took, last.peers[q].id))
  {
    EmptyIsolated();
    assert Signals([]) == [];
    hide Isolated, IsRun, Owed, Executed, Box, From, Signals, Asked, IsSubseq, Kind, Requests, AsUps;
    var owed, done := Owed(EMPTY, steps, p, q), Executed(EMPTY, steps, p);
    var me, to, sent := last.peers[p].id, last.peers[q].id, From(p, Box(last.peers[q]));
    assert [] + owed == owed && [] + done == done;
    assert IsSubseq([], Asked(me, [], to)) by { NothingIsSubseq(Asked(me, [], to)); }
    RunSignals(EMPTY, steps, last, p, q, me, to, [], []);
    EveryRequestIsActedOn(steps, last, p);
    EveryAnswerIsDue(steps, last, p, q, false);
    SignalsLead(sent, owed);
    var all, rest := Asked(me, done, to), Asked(me, AsUps(last.peers[p].ops), to);
    SubseqPrefix(Signals(owed), all, |Signals(sent)|);
    AskedConcat(me, done, AsUps(last.peers[p].ops), to);
    SubseqMore(Signals(sent), all, rest);
    AskedRequests(me, last.peers[p].took, to);
  }

  lemma NothingIsSubseq<T>(b: seq<T>)
    ensures IsSubseq([], b)
  {
  }

  lemma SignalsLead(sent: seq<Down>, owed: seq<Down>)
    requires Leads(Kind(false, sent), Kind(false, owed))
    ensures Leads(Signals(sent), Signals(owed))
  {
    KindSignals(sent);
    KindSignals(owed);
    var k, o := Kind(false, sent), Kind(false, owed);
    assert o == k + o[|k|..];
    SignalsConcat(k, o[|k|..]);
    hide Signals, Kind;
  }

  lemma {:induction false} KindSignals(fs: seq<Down>)
    ensures Signals(Kind(false, fs)) == Signals(fs)
  {
    if fs != [] {
      var f, rest := fs[0], fs[1..];
      KindSignals(rest);
      var first := Only(f.CloseTo? == false, f);
      SignalsConcat(first, Kind(false, rest));
      SignalsConcat([f], rest);
      assert fs == [f] + rest;
      assert [f][..0] == [] && Signals([]) == [];
      assert Signals([f]) == [] + Signalling(f);
      assert Signals(first) == Signalling(f);
    }
  }

  lemma {:induction false} AskedRequests(me: string, ups: seq<Up>, to: string)
    ensures Asked(me, Requests(ups), to) == Asked(me, ups, to)
  {
    if ups != [] {
      var init, u := ups[..|ups| - 1], ups[|ups| - 1];
      AskedRequests(me, init, to);
      AskedConcat(me, Requests(init), Request(u), to);
      assert Asked(me, [], to) == [];
      if Request(u) != [] { assert Request(u)[..0] == []; }
    }
  }
}
