/**
 * Every relay session of every run, end to end: what each client receives about a session
 * is its announcement, then the other client's frames and acknowledgements in order and
 * without gaps, then at most one close, whatever else shares the queues and sockets.
 */
module HubTraffic {
  import opened Basics
  import opened HubSystem
  import opened HubSafety
  import opened HubSessions
  import opened SessionView

  /** The mail about one session, in order. */
  function About(sid: nat, box: seq<Mail>): seq<Down> {
    if box == [] then []
    else About(sid, box[..|box| - 1]) + Ours(sid, box[|box| - 1].f)
  }

  function Ours(sid: nat, f: Down): seq<Down> { if SidOf(f) == Some(sid) then [f] else [] }

  /** What a goroutine has still to queue for q about one session. */
  function PendTo(sid: nat, q: nat, ops: seq<Op>): seq<Down> {
    if ops == [] then []
    else (if ops[0].Enqueue? && ops[0].to == q then Ours(sid, ops[0].f) else []) + PendTo(sid, q, ops[1..])
  }

  /** A client message as the traffic it asks to have forwarded. */
  function Item(sid: nat, u: Up): seq<Down> {
    match u
    case Binary(data) => Ours(sid, Payload(data))
    case AckFrom(i, bytes) => Ours(sid, AckTo(i, bytes))
    case _ => []
  }

  /** All traffic about one session taken from a client, in order. */
  function Said(sid: nat, took: seq<Up>): seq<Down> {
    if took == [] then [] else Said(sid, took[..|took| - 1]) + Item(sid, took[|took| - 1])
  }

  /** Traffic taken but not yet looked up. */
  function Held(sid: nat, ops: seq<Op>): seq<Down> {
    if ops == [] then []
    else
      match ops[0]
      case Route(data) => Ours(sid, Payload(data))
      case RouteAck(i, bytes) => Ours(sid, AckTo(i, bytes))
      case _ => []
  }

  /** One connection as far as one session is concerned. */
  datatype Aspect = Aspect(closed: bool, box: seq<Down>, toOpener: seq<Down>, toTarget: seq<Down>, held: seq<Down>,
                           said: seq<Down>)

  function AspectOf(sid: nat, s: Sess, x: Peer): Aspect {
    Aspect(x.closed, About(sid, Box(x)), PendTo(sid, s.from, x.ops), PendTo(sid, s.to, x.ops), Held(sid, x.ops),
           Said(sid, x.took))
  }

  /**
   * Whether a session is in the table, and whether its close was queued for the opener while
   * the opener's announcement was still to be queued.
   */
  datatype Fate = Fate(live: bool, raced: bool)

  function FateOf(h: Hub, sid: nat): Fate { Fate(sid in h.sessions, sid in h.raced) }

  function LookAt(fate: Fate, a: Aspect, b: Aspect): View {
    View(fate.live, fate.raced, a.closed, b.closed, a.box, b.box, a.toOpener, a.toTarget, b.toOpener, a.held, b.held,
         a.said, b.said)
  }

  ghost predicate SessionOk(fate: Fate, sid: nat, s: Sess, peers: seq<Peer>) {
    && s.from < |peers| && s.to < |peers| && s.from != s.to
    && ViewInv(LookAt(fate, AspectOf(sid, s, peers[s.from]), AspectOf(sid, s, peers[s.to])))
  }

  /** Whoever leaves a room or tears sessions down is a connection on its way out. */
  ghost predicate Parting(h: Hub) {
    forall p ::
      && 0 <= p < |h.peers| && h.peers[p].ops != []
      && (h.peers[p].ops[0].Leave? || h.peers[p].ops[0].DropSessions?) ==>
        h.peers[p].left
  }

  /** The target's goroutine is about to queue the close for the opener. */
  ghost predicate Closing(peers: seq<Peer>, s: Sess) {
    s.to < |peers| && Enqueue(s.from, CloseTo(s.id)) in peers[s.to].ops
  }

  /** The session's close was queued for its opener too early, or may yet be. */
  ghost predicate AtRisk(h: Hub, sid: nat) {
    sid in h.born && (sid in h.raced || (Telling(h.peers, h.born[sid]) && Closing(h.peers, h.born[sid])))
  }

  /** Only a departing target ends a session before its opener is told, unless an end is rude. */
  ghost predicate RacedOk(h: Hub) {
    && (forall sid :: sid in h.raced ==> sid in h.born)
    && (forall sid :: AtRisk(h, sid) && Polite(h, sid) ==>
        h.born[sid].to < |h.peers| && h.peers[h.born[sid].to].left)
  }

  ghost predicate Flowing(h: Hub) {
    Traceable(h) && Parting(h) && RacedOk(h) && forall sid :: sid in h.born && Polite(h, sid) ==>
      SessionOk(FateOf(h, sid), sid, h.born[sid], h.peers)
  }

  // ----------------------------------------------------------------- filters

  lemma {:induction false} AboutPush(sid: nat, box: seq<Mail>, m: Mail)
    ensures About(sid, box + [m]) == About(sid, box) + Ours(sid, m.f)
  {
    assert (box + [m])[..|box + [m]| - 1] == box;
  }

  lemma {:induction false} PendConcat(sid: nat, q: nat, a: seq<Op>, b: seq<Op>)
    ensures PendTo(sid, q, a + b) == PendTo(sid, q, a) + PendTo(sid, q, b)
  {
    if a == [] {
      assert a + b == b;
    } else {
      assert (a + b)[1..] == a[1..] + b;
      PendConcat(sid, q, a[1..], b);
    }
  }

  /** Operations that neither queue nor hold anything about the session. */
  ghost predicate Mute(sid: nat, ops: seq<Op>) {
    forall k :: 0 <= k < |ops| ==>
      match ops[k]
      case Enqueue(_, f) => SidOf(f) != Some(sid)
      case Route(data) => HeaderOf(data) != Some(sid)
      case RouteAck(i, _) => i != sid
      case _ => true
  }

  lemma {:induction false} MutePends(sid: nat, q: nat, ops: seq<Op>)
    requires Mute(sid, ops)
    ensures PendTo(sid, q, ops) == [] && Held(sid, ops) == []
  {
    if ops != [] {
      MutePends(sid, q, ops[1..]);
    }
  }

  lemma {:induction false} MuteAbout(sid: nat, box: seq<Mail>)
    requires forall k :: 0 <= k < |box| ==> SidOf(box[k].f) != Some(sid)
    ensures About(sid, box) == []
  {
    if box != [] {
      MuteAbout(sid, box[..|box| - 1]);
    }
  }

  lemma {:induction false} MuteSaid(sid: nat, took: seq<Up>)
    requires forall k :: 0 <= k < |took| ==> UpSid(took[k]) != Some(sid)
    ensures Said(sid, took) == []
  {
    if took != [] {
      MuteSaid(sid, took[..|took| - 1]);
    }
  }

  /** After the first operation nothing is held back. */
  lemma TellsHold(sid: nat, ops: seq<Op>)
    requires OpsShape(ops)
    ensures ops != [] ==> Held(sid, ops[1..]) == []
    ensures forall a: seq<Op> :: ops != [] && a != [] ==> Held(sid, a + ops[1..]) == Held(sid, a)
  {
  }

  // --------------------------------------------------- frames for one session

  /** Operations silent about the session may come and go. */
  lemma SilentOps(sid: nat, s: Sess, x: Peer, add: seq<Op>)
    requires OpsShape(x.ops) && x.ops != [] && Mute(sid, [x.ops[0]]) && Mute(sid, add)
    ensures AspectOf(sid, s, x.(ops := add + x.ops[1..])) == AspectOf(sid, s, x)
  {
    forall q: nat ensures PendTo(sid, q, add + x.ops[1..]) == PendTo(sid, q, x.ops) {
      PendConcat(sid, q, add, x.ops[1..]);
      PendConcat(sid, q, [x.ops[0]], x.ops[1..]);
      assert x.ops == [x.ops[0]] + x.ops[1..];
      MutePends(sid, q, add);
      MutePends(sid, q, [x.ops[0]]);
    }
    TellsHold(sid, x.ops);
    MutePends(sid, 0, add);
    assert Mute(sid, [x.ops[0]]);
    MutePends(sid, 0, [x.ops[0]]);
    assert add == [] ==> add + x.ops[1..] == x.ops[1..];
    BoxSame(x, add + x.ops[1..]);
    hide Mute, PendTo, Box, About, Said, OpsShape;
  }

  /** A step of one connection that a session does not notice. */
  lemma Unnoticed(fate: Fate, sid: nat, s: Sess, peers: seq<Peer>, p: nat, x: Peer)
    requires SessionOk(fate, sid, s, peers) && p < |peers|
    requires p == s.from || p == s.to ==> AspectOf(sid, s, x) == AspectOf(sid, s, peers[p])
    ensures SessionOk(fate, sid, s, peers[p := x])
  {
    hide AspectOf, ViewInv;
  }

  /** One end of a session changes, and the session is still as it should be. */
  lemma Noticed(fate: Fate, sid: nat, s: Sess, peers: seq<Peer>, p: nat, x: Peer)
    requires s.from < |peers| && s.to < |peers| && s.from != s.to && (p == s.from || p == s.to)
    requires p == s.from ==> ViewInv(LookAt(fate, AspectOf(sid, s, x), AspectOf(sid, s, peers[s.to])))
    requires p == s.to ==> ViewInv(LookAt(fate, AspectOf(sid, s, peers[s.from]), AspectOf(sid, s, x)))
    ensures SessionOk(fate, sid, s, peers[p := x])
  {
    hide AspectOf, ViewInv;
  }

  /** Whatever a connection does, sessions it does not take part in are unaffected. */
  lemma Elsewhere(fate: Fate, sid: nat, s: Sess, peers: seq<Peer>, p: nat, x: Peer)
    requires SessionOk(fate, sid, s, peers) && p < |peers| && p != s.from && p != s.to
    ensures SessionOk(fate, sid, s, peers[p := x])
  {
    hide AspectOf, ViewInv;
  }

  // --------------------------------------------------------- taking a message

  lemma DecodeAspect(sid: nat, s: Sess, p: nat, x: Peer, x': Peer)
    requires x.ops == [] && x.up != []
    requires x' == x.(up := x.up[1..], took := x.took + [x.up[0]], ops := Decode(p, x.up[0]))
    ensures var a, i := AspectOf(sid, s, x), Item(sid, x.up[0]);
      a.toOpener == [] && a.toTarget == [] && a.held == [] && AspectOf(sid, s, x') == a.(held := i, said := a.said + i)
  {
    var u := x.up[0];
    assert (x.took + [u])[..|x.took + [u]| - 1] == x.took;
    assert Box(x') == Box(x);
    hide Box, About, Said;
    assert forall q: nat :: PendTo(sid, q, Decode(p, u)) == [];
    assert Held(sid, Decode(p, u)) == Item(sid, u);
  }

  lemma ItemIsData(sid: nat, u: Up)
    ensures Item(sid, u) != [] ==> Item(sid, u) == [Item(sid, u)[0]] && IsData(Item(sid, u)[0]) && UpSid(u) == Some(sid)
  {
  }

  /** Whoever has read the announcement has it in the mail. */
  lemma AnnouncedIsMail(sid: nat, x: Peer)
    requires Announced(x.seen, sid)
    ensures About(sid, Box(x)) != []
  {
    var m :| m in x.seen && (m.f.Ready? || m.f.Incoming?) && m.f.sid == sid;
    var k :| 0 <= k < |x.seen| && x.seen[k] == m;
    assert Box(x)[k] == m;
    hide Box;
    MailShows(sid, Box(x), k);
  }

  lemma {:induction false} MailShows(sid: nat, box: seq<Mail>, k: nat)
    requires k < |box| && SidOf(box[k].f) == Some(sid)
    ensures About(sid, box) != []
  {
    if k < |box| - 1 { MailShows(sid, box[..|box| - 1], k); }
  }

  lemma FlowTake(h: Hub, sid: nat, p: nat, x': Peer)
    requires Flowing(h) && sid in h.born && Polite(h, sid) && p < |h.peers|
    requires h.peers[p].ops == [] && h.peers[p].up != []
    requires x' ==
        h.peers[p].(up := h.peers[p].up[1..], took := h.peers[p].took + [h.peers[p].up[0]],
                    ops := Decode(p, h.peers[p].up[0]))
    ensures SessionOk(FateOf(h, sid), sid, h.born[sid], h.peers[p := x'])
  {
    hide Flowing, AspectOf, SessionOk, KnownPeer, Item;
    var x, s := h.peers[p], h.born[sid];
    FlowingAt(h, sid);
    assert End(h.born, sid, p) ==> sid !in x.rude;
    hide Polite;
    DecodeAspect(sid, s, p, x, x');
    ItemIsData(sid, x.up[0]);
    if Item(sid, x.up[0]) == [] {
      assert AspectOf(sid, s, x').said == AspectOf(sid, s, x).said;
      Unnoticed(FateOf(h, sid), sid, s, h.peers, p, x');
    } else if p != s.from && p != s.to {
      Elsewhere(FateOf(h, sid), sid, s, h.peers, p, x');
    } else {
      assert KnownPeer(h.born, p, x) by { FlowingKnown(h, p); }
      TakeNoticed(FateOf(h, sid), h.born, sid, s, h.peers, p, x', Item(sid, x.up[0])[0]);
    }
  }

  lemma FlowingKnown(h: Hub, p: nat)
    requires Flowing(h) && p < |h.peers|
    ensures KnownPeer(h.born, p, h.peers[p])
  {
    KnownParts(h, p);
  }

  lemma TakeNoticed(fate: Fate, born: map<nat, Sess>, sid: nat, s: Sess, peers: seq<Peer>, p: nat, x': Peer, d: Down)
    requires SessionOk(fate, sid, s, peers) && (p == s.from || p == s.to) && KnownPeer(born, p, peers[p]) && IsData(d)
    requires peers[p].up != [] && UpSid(peers[p].up[0]) == Some(sid) && sid !in peers[p].rude
    requires var a := AspectOf(sid, s, peers[p]);
            a.toOpener == [] && a.toTarget == [] && a.held == []
              && AspectOf(sid, s, x') == a.(held := [d], said := a.said + [d])
    ensures SessionOk(fate, sid, s, peers[p := x'])
  {
    var x := peers[p];
    assert Told(x.seen, x.rude, sid);
    AnnouncedIsMail(sid, x);
    BoxIs(sid, s, x);
    hide AspectOf, ViewInv, KnownPeer, Announced;
    TakeView(LookAt(fate, AspectOf(sid, s, peers[s.from]), AspectOf(sid, s, peers[s.to])), p == s.from, d);
    Noticed(fate, sid, s, peers, p, x');
  }

  lemma TakeView(v: View, opener: bool, d: Down)
    requires ViewInv(v) && IsData(d)
    requires opener ==> v.poo == [] && v.poc == [] && v.ro == []
    requires !opener ==> v.pco == [] && v.rc == [] && v.bc != []
    ensures ViewInv(if opener then v.(to := v.to + [d], ro := [d]) else v.(tc := v.tc + [d], rc := [d]))
  {
    assert !opener ==> v.poo == [];
    hide ViewInv;
    if opener { OpenerTakes(v, d); } else { TargetTakes(v, d); }
  }

  // ----------------------------------------------------- looking a session up

  ghost predicate Running(h: Hub, sid: nat, p: nat) {
    Flowing(h) && sid in h.born && Polite(h, sid) && p < |h.peers| && h.peers[p].ops != []
  }

  lemma RunningParts(h: Hub, sid: nat, p: nat)
    requires Running(h, sid, p)
    ensures SessionOk(FateOf(h, sid), sid, h.born[sid], h.peers) && Traceable(h)
    ensures OpsShape(h.peers[p].ops) && Counted(h.sessions, h.born, h.nextSess)
    ensures OpKnown(h.born, p, h.peers[p].seen, h.peers[p].rude, h.peers[p].ops[0])
    ensures KnownPeer(h.born, p, h.peers[p])
  {
    KnownParts(h, p);
    Parts(h, p);
    hide Isolated, SessionOk, OpKnown, Counted, MailKnown, SaidKnown, Traceable;
  }

  /** An operation silent about the session gives way to others silent about it. */
  lemma FlowSilent(h: Hub, sid: nat, p: nat, add: seq<Op>)
    requires Running(h, sid, p) && Mute(sid, [h.peers[p].ops[0]]) && Mute(sid, add)
    ensures SessionOk(FateOf(h, sid), sid, h.born[sid], h.peers[p := h.peers[p].(ops := add + h.peers[p].ops[1..])])
  {
    RunningParts(h, sid, p);
    hide Flowing, SessionOk, AspectOf, OpsShape, Mute;
    SilentOps(sid, h.born[sid], h.peers[p], add);
    Unnoticed(FateOf(h, sid), sid, h.born[sid], h.peers, p, h.peers[p].(ops := add + h.peers[p].ops[1..]));
  }

  /** The only operation pending, at one end, gives way to at most one frame for the other end. */
  lemma AnswerAspect(sid: nat, s: Sess, p: nat, x: Peer, add: seq<Op>, f: seq<Down>)
    requires s.from != s.to && (p == s.from || p == s.to) && x.ops != [] && x.ops[1..] == [] && !x.ops[0].Enqueue?
    requires (add == [] && f == [])
        || (|f| == 1 && SidOf(f[0]) == Some(sid) && add == [Enqueue(Other(s, p).value, f[0])])
    ensures AspectOf(sid, s, x.(ops := add + x.ops[1..])) ==
            AspectOf(sid, s, x).(toOpener := if p == s.to then f else [], toTarget := if p == s.from then f else [],
                                 held := [])
    ensures AspectOf(sid, s, x).toOpener == [] && AspectOf(sid, s, x).toTarget == []
  {
    assert add + x.ops[1..] == add;
    BoxSame(x, add);
    hide Box, About, Said;
    forall q: nat ensures PendTo(sid, q, add) == if add != [] && q == add[0].to then f else [] {
      if add != [] { assert add[1..] == [] && f == [f[0]] && [f[0]] + [] == [f[0]]; }
    }
    forall q: nat ensures PendTo(sid, q, x.ops) == [] {
      assert PendTo(sid, q, x.ops[1..]) == [];
    }
    hide PendTo;
  }

  lemma FlowRelay(h: Hub, sid: nat, p: nat, i: Option<nat>, f: Down)
    requires Running(h, sid, p) && (h.peers[p].ops[0].Route? || h.peers[p].ops[0].RouteAck?)
    requires IsData(f) && SidOf(f) == i
    requires h.peers[p].ops[0].Route? ==> f == Payload(h.peers[p].ops[0].data)
    requires h.peers[p].ops[0].RouteAck? ==> f == AckTo(h.peers[p].ops[0].sid, h.peers[p].ops[0].bytes)
    ensures SessionOk(FateOf(h, sid), sid, h.born[sid], DoRelay(h, p, i, f).peers)
  {
    hide Running, Flowing, SessionOk, KnownPeer, OpKnown, OpsShape, Mute, ForwardIfKnown, Traceable, Counted,
         Announced, End, Held;
    RunningParts(h, sid, p);
    InBounds(h, sid, p);
    if i != Some(sid) {
      ForwardMute(h.sessions, sid, p, i, f, h.peers[p].ops[0]);
      FlowSilent(h, sid, p, ForwardIfKnown(h.sessions, p, i, f));
    } else if p != h.born[sid].from && p != h.born[sid].to {
      Elsewhere(FateOf(h, sid), sid, h.born[sid], h.peers, p, DoRelay(h, p, i, f).peers[p]);
    } else {
      RelayFacts(h.born, p, h.peers[p], sid, f);
      EndIs(h.born, sid, p);
      Forwarded(h.sessions, h.born, h.nextSess, p, sid, f);
      RelayAnswers(FateOf(h, sid), sid, h.born[sid], h.peers, p, f);
    }
  }

  lemma RelayFacts(born: map<nat, Sess>, p: nat, x: Peer, sid: nat, f: Down)
    requires KnownPeer(born, p, x) && OpsShape(x.ops) && x.ops != [] && SidOf(f) == Some(sid)
    requires (x.ops[0].Route? && f == Payload(x.ops[0].data))
        || (x.ops[0].RouteAck? && f == AckTo(x.ops[0].sid, x.ops[0].bytes))
    ensures x.ops[1..] == [] && Held(sid, x.ops) == [f]
  {
    NothingElse(x.ops);
  }

  lemma ForwardMute(sessions: map<nat, Sess>, sid: nat, p: nat, i: Option<nat>, f: Down, op: Op)
    requires SidOf(f) == i != Some(sid)
    requires (op.Route? && f == Payload(op.data)) || (op.RouteAck? && f == AckTo(op.sid, op.bytes))
        || (op.CloseSession? && f.CloseTo?)
    ensures Mute(sid, ForwardIfKnown(sessions, p, i, f)) && Mute(sid, [op])
  {
  }

  lemma Forwarded(sessions: map<nat, Sess>, born: map<nat, Sess>, next: nat, p: nat, sid: nat, f: Down)
    requires Counted(sessions, born, next) && End(born, sid, p)
    ensures ForwardIfKnown(sessions, p, Some(sid), f) == if sid in sessions then [Enqueue(Other(born[sid], p).value, f)]
        else []
  {
  }

  lemma RelayAnswers(fate: Fate, sid: nat, s: Sess, peers: seq<Peer>, p: nat, f: Down)
    requires SessionOk(fate, sid, s, peers) && (p == s.from || p == s.to) && IsData(f) && SidOf(f) == Some(sid)
    requires peers[p].ops != [] && peers[p].ops[1..] == [] && Held(sid, peers[p].ops) == [f]
    ensures var add := if fate.live then [Enqueue(Other(s, p).value, f)] else [];
            SessionOk(fate, sid, s, peers[p := peers[p].(ops := add + peers[p].ops[1..])])
  {
    var x, live := peers[p], fate.live;
    var add := if live then [Enqueue(Other(s, p).value, f)] else [];
    AnswerAspect(sid, s, p, x, add, if live then [f] else []);
    RouteView(LookAt(fate, AspectOf(sid, s, peers[s.from]), AspectOf(sid, s, peers[s.to])), p == s.from, f);
    assert AspectOf(sid, s, x).held == [f];
    hide AspectOf, ViewInv, Held;
    Noticed(fate, sid, s, peers, p, x.(ops := add + x.ops[1..]));
  }

  lemma RouteView(v: View, opener: bool, f: Down)
    requires ViewInv(v) && (if opener then v.ro else v.rc) == [f]
    ensures var g := if v.live then [f] else [];
            ViewInv(if opener then v.(ro := [], poc := g) else v.(rc := [], pco := g))
  {
    hide ViewInv;
    if opener { OpenerRoutes(v); } else { TargetRoutes(v); }
  }

  // ------------------------------------------------------- ending a session

  /** Operations about other things give way to a notice for the far end, and more. */
  lemma NoticeAspect(sid: nat, s: Sess, p: nat, x: Peer, add: seq<Op>, rest: seq<Op>, f: Down)
    requires s.from != s.to && (p == s.from || p == s.to) && Mute(sid, x.ops) && Mute(sid, rest)
    requires Held(sid, add + rest) == []
    requires PendTo(sid, s.from, add) == if p == s.to then [f] else []
    requires PendTo(sid, s.to, add) == if p == s.from then [f] else []
    ensures AspectOf(sid, s, x.(ops := add + rest)) ==
            AspectOf(sid, s, x).(toOpener := if p == s.to then [f] else [], toTarget := if p == s.from then [f] else [],
                                 held := [])
    ensures var a := AspectOf(sid, s, x); a.toOpener == [] && a.toTarget == [] && a.held == []
  {
    hide Box, About, Said, PendTo, Held, Mute;
    BoxSame(x, add + rest);
    NoticePends(sid, s.from, add, rest, x.ops);
    NoticePends(sid, s.to, add, rest, x.ops);
  }

  lemma NoticePends(sid: nat, q: nat, add: seq<Op>, rest: seq<Op>, ops: seq<Op>)
    requires Mute(sid, ops) && Mute(sid, rest)
    ensures PendTo(sid, q, add + rest) == PendTo(sid, q, add) && PendTo(sid, q, ops) == [] && Held(sid, ops) == []
  {
    PendConcat(sid, q, add, rest);
    MutePends(sid, q, rest);
    MutePends(sid, q, ops);
    hide PendTo, Held, Mute;
    assert PendTo(sid, q, add) + [] == PendTo(sid, q, add);
  }

  lemma DeleteView(v: View, opener: bool, f: Down)
    requires ViewInv(v) && v.live && f.CloseTo?
    requires opener ==> v.poo == [] && v.poc == [] && v.ro == []
    requires !opener ==> v.pco == [] && v.rc == []
    ensures ViewInv(if opener then v.(live := false, poc := [f]) else v.(live := false, pco := [f]))
  {
    hide ViewInv;
    if opener { OpenerDeletes(v, f); } else { TargetDeletes(v, f); }
  }

  lemma Deleted(fate: Fate, sid: nat, s: Sess, peers: seq<Peer>, p: nat, add: seq<Op>, rest: seq<Op>, f: Down)
    requires SessionOk(fate, sid, s, peers) && (p == s.from || p == s.to) && fate.live && f.CloseTo?
    requires Mute(sid, peers[p].ops) && Mute(sid, rest) && Held(sid, add + rest) == []
    requires forall q: nat :: PendTo(sid, q, add) == if Other(s, p) == Some(q) then [f] else []
    ensures SessionOk(fate.(live := false), sid, s, peers[p := peers[p].(ops := add + rest)])
  {
    NoticeAspect(sid, s, p, peers[p], add, rest, f);
    DeleteView(LookAt(fate, AspectOf(sid, s, peers[s.from]), AspectOf(sid, s, peers[s.to])), p == s.from, f);
    hide AspectOf, ViewInv, Held, PendTo, Mute;
    Noticed(fate.(live := false), sid, s, peers, p, peers[p].(ops := add + rest));
  }

  /** Someone who is no end of the session has it deleted, and nobody is told. */
  lemma Vanished(fate: Fate, sid: nat, s: Sess, peers: seq<Peer>, p: nat, x: Peer)
    requires SessionOk(fate, sid, s, peers) && p < |peers| && p != s.from && p != s.to
    ensures SessionOk(fate.(live := false), sid, s, peers[p := x])
  {
    hide AspectOf, ViewInv;
    Vanishes(LookAt(fate, AspectOf(sid, s, peers[s.from]), AspectOf(sid, s, peers[s.to])));
  }

  lemma FlowClose(h: Hub, sid: nat, p: nat, i: nat)
    requires Running(h, sid, p) && h.peers[p].ops[0] == CloseSession(i)
    ensures SessionOk(FateOf(DoClose(h, p, i), sid), sid, h.born[sid], DoClose(h, p, i).peers)
  {
    hide Running, SessionOk, KnownPeer, OpKnown, OpsShape, Mute, Flowing, Traceable, Counted, Announced,
         ForwardIfKnown, PendTo, Held, End;
    RunningParts(h, sid, p);
    InBounds(h, sid, p);
    var x := h.peers[p];
    var add := ForwardIfKnown(h.sessions, p, Some(i), CloseTo(i));
    if i != sid {
      ForwardMute(h.sessions, sid, p, Some(i), CloseTo(i), x.ops[0]);
      FlowSilent(h, sid, p, add);
    } else if p != h.born[sid].from && p != h.born[sid].to {
      Vanished(FateOf(h, sid), sid, h.born[sid], h.peers, p, DoClose(h, p, i).peers[p]);
    } else {
      CloseFacts(h.born, p, x, sid);
      EndIs(h.born, sid, p);
      Forwarded(h.sessions, h.born, h.nextSess, p, sid, CloseTo(sid));
      if sid !in h.sessions {
        FlowSilent(h, sid, p, add);
      } else {
        OneNotice(sid, Other(h.born[sid], p).value, CloseTo(sid), x.ops[1..]);
        TableIs(h, sid);
        Deleted(FateOf(h, sid), sid, h.born[sid], h.peers, p, add, x.ops[1..], CloseTo(sid));
      }
    }
  }

  /** The opener's goroutine has an announcement to queue for its own client exactly while it is telling it. */
  lemma TellingPends(h: Hub, sid: nat, p: nat)
    requires Running(h, sid, p)
    ensures var s := h.born[sid];
            s.from < |h.peers| && s.id == sid
              && (Telling(h.peers, s) <==> AspectOf(sid, s, h.peers[s.from]).toOpener != [])
    ensures sid in h.sessions ==> sid !in h.raced
  {
    hide Flowing, SessionOk, AspectOf, Telling, KnownPeer, Traceable;
    var s := h.born[sid];
    FlowingAt(h, sid);
    FlowingTraceable(h);
    KnownParts(h, s.from);
    EndsDiffer(h, sid);
    EndsIn(FateOf(h, sid), sid, s, h.peers);
    PooAlone(FateOf(h, sid), AspectOf(sid, s, h.peers[s.from]), AspectOf(sid, s, h.peers[s.to]));
    PendsToOpener(h.born, h.peers, sid, s);
  }

  lemma EndsIn(fate: Fate, sid: nat, s: Sess, peers: seq<Peer>)
    requires SessionOk(fate, sid, s, peers)
    ensures s.from < |peers| && s.to < |peers| && s.from != s.to
    ensures ViewInv(LookAt(fate, AspectOf(sid, s, peers[s.from]), AspectOf(sid, s, peers[s.to])))
  {
    hide ViewInv, AspectOf;
  }

  lemma FirstPends(sid: nat, q: nat, ops: seq<Op>)
    requires ops != [] && ops[0].Enqueue? && ops[0].to == q && SidOf(ops[0].f) == Some(sid)
    ensures PendTo(sid, q, ops) != []
  {
  }

  lemma PendsToOpener(born: map<nat, Sess>, peers: seq<Peer>, sid: nat, s: Sess)
    requires s.from < |peers| && KnownPeer(born, s.from, peers[s.from]) && s.id == sid
    requires var a := AspectOf(sid, s, peers[s.from]); a.toOpener != [] ==> a.toOpener[0].Ready?
    ensures Telling(peers, s) <==> AspectOf(sid, s, peers[s.from]).toOpener != []
  {
    var x := peers[s.from];
    LaterNotReady(born, s.from, x);
    assert AspectOf(sid, s, x).toOpener == PendTo(sid, s.from, x.ops);
    hide KnownPeer, PendTo, AspectOf;
    if Telling(peers, s) { FirstPends(sid, s.from, x.ops); } else { NoReadyPends(sid, s.from, x.ops); }
  }

  lemma LaterNotReady(born: map<nat, Sess>, p: nat, x: Peer)
    requires KnownPeer(born, p, x)
    ensures forall k :: 1 <= k < |x.ops| ==> !(x.ops[k].Enqueue? && x.ops[k].f.Ready?)
  {
  }

  lemma InBounds(h: Hub, sid: nat, p: nat)
    requires Running(h, sid, p)
    ensures p < |h.peers| && sid in h.born && h.peers[p].ops != []
  {
  }

  lemma EndIs(born: map<nat, Sess>, sid: nat, p: nat)
    ensures End(born, sid, p) <==> sid in born && (p == born[sid].from || p == born[sid].to)
  {
  }

  lemma CloseFacts(born: map<nat, Sess>, p: nat, x: Peer, sid: nat)
    requires KnownPeer(born, p, x) && OpsShape(x.ops) && x.ops != [] && x.ops[0] == CloseSession(sid)
    ensures Mute(sid, x.ops) && Mute(sid, x.ops[1..]) && Mute(sid, [x.ops[0]]) && Mute(sid, [])
  {
    NothingElse(x.ops);
  }

  lemma OneNotice(sid: nat, to: nat, f: Down, rest: seq<Op>)
    requires SidOf(f) == Some(sid)
    ensures forall q: nat :: PendTo(sid, q, [Enqueue(to, f)]) == if to == q then [f] else []
    ensures Held(sid, [Enqueue(to, f)] + rest) == []
  {
    forall q: nat ensures PendTo(sid, q, [Enqueue(to, f)]) == if to == q then [f] else [] {
      assert [Enqueue(to, f)][1..] == [] && [f] + [] == [f];
    }
  }

  lemma {:induction false} NoticesPend(sessions: map<nat, Sess>, p: nat, order: seq<nat>, sid: nat, q: nat)
    requires (forall x :: x in order ==> x in SessionsOf(sessions, p)) && NoDup(order)
    ensures PendTo(sid, q, CloseNotices(sessions, p, order)) ==
            if sid in order && Other(sessions[sid], p) == Some(q) then [CloseTo(sid)] else []
  {
    hide PendTo, SessionsOf, CloseNotices;
    if order == [] {
      NoNotices(sessions, p, sid, q);
    } else {
      var i := order[0];
      assert i in order;
      var rest := CloseNotices(sessions, p, order[1..]);
      NoticesPend(sessions, p, order[1..], sid, q);
      var e := FirstNotice(sessions, p, order);
      PendConcat(sid, q, [e], rest);
      if i == sid { OneNotice(sid, e.to, CloseTo(sid), []); } else { MutePends(sid, q, [e]); }
      assert sid in order <==> sid == i || sid in order[1..];
      assert sid == i ==> sid !in order[1..];
    }
  }

  lemma NoNotices(sessions: map<nat, Sess>, p: nat, sid: nat, q: nat)
    ensures PendTo(sid, q, CloseNotices(sessions, p, [])) == []
  {
  }

  lemma FirstNotice(sessions: map<nat, Sess>, p: nat, order: seq<nat>) returns (e: Op)
    requires order != [] && forall x :: x in order ==> x in SessionsOf(sessions, p)
    ensures order[0] in sessions && Other(sessions[order[0]], p).Some?
    ensures e == Enqueue(Other(sessions[order[0]], p).value, CloseTo(order[0]))
    ensures forall x :: x in order[1..] ==> x in SessionsOf(sessions, p)
    ensures CloseNotices(sessions, p, order) == [e] + CloseNotices(sessions, p, order[1..])
  {
    assert order[0] in order;
    e := Enqueue(Other(sessions[order[0]], p).value, CloseTo(order[0]));
  }

  lemma NoticesMute(sessions: map<nat, Sess>, p: nat, order: seq<nat>, sid: nat)
    requires (forall x :: x in order ==> x in SessionsOf(sessions, p)) && sid !in order
    ensures Mute(sid, CloseNotices(sessions, p, order))
  {
    if order != [] {
      assert order[0] in order && order[0] in SessionsOf(sessions, p);
      NoticesMute(sessions, p, order[1..], sid);
    }
  }

  lemma FlowDrop(h: Hub, sid: nat, p: nat, order: seq<nat>)
    requires Running(h, sid, p) && h.peers[p].ops[0].DropSessions? && Lists(order, SessionsOf(h.sessions, p))
    ensures SessionOk(FateOf(DoDrop(h, p, order), sid), sid, h.born[sid], DoDrop(h, p, order).peers)
  {
    hide Running, SessionOk, KnownPeer, OpKnown, OpsShape, Mute, Flowing, Traceable, Counted, CloseNotices, PendTo,
         Held, NoDup;
    RunningParts(h, sid, p);
    InBounds(h, sid, p);
    var x := h.peers[p];
    var add := CloseNotices(h.sessions, p, order);
    DropMute(sid, x.ops);
    if sid !in order {
      NoticesMute(h.sessions, p, order, sid);
      FlowSilent(h, sid, p, add);
    } else {
      NoticesPlain(h.sessions, p, order);
      forall q: nat ensures PendTo(sid, q, add) == if Other(h.sessions[sid], p) == Some(q) then [CloseTo(sid)] else [] {
        NoticesPend(h.sessions, p, order, sid, q);
      }
      TableIs(h, sid);
      NoticesHold(sid, add, x.ops);
      Deleted(FateOf(h, sid), sid, h.born[sid], h.peers, p, add, x.ops[1..], CloseTo(sid));
    }
  }

  lemma TableIs(h: Hub, sid: nat)
    requires Counted(h.sessions, h.born, h.nextSess) && sid in h.sessions
    ensures sid in h.born && h.sessions[sid] == h.born[sid]
  {
  }

  lemma DropMute(sid: nat, ops: seq<Op>)
    requires OpsShape(ops) && ops != [] && ops[0].DropSessions?
    ensures Mute(sid, ops) && Mute(sid, ops[1..]) && Mute(sid, [ops[0]])
  {
  }

  lemma NoticesHold(sid: nat, add: seq<Op>, ops: seq<Op>)
    requires (forall k :: 0 <= k < |add| ==> add[k].Enqueue?) && OpsShape(ops) && ops != []
    ensures Held(sid, add + ops[1..]) == []
  {
    TellsHold(sid, ops);
    assert add == [] ==> add + ops[1..] == ops[1..];
  }

  // --------------------------------------------------------- a session is born

  /** Nobody has anything to do with a session that does not exist yet. */
  lemma Unborn(born: map<nat, Sess>, sid: nat, s: Sess, p: nat, x: Peer)
    requires KnownPeer(born, p, x) && sid !in born && sid !in x.rude
    ensures AspectOf(sid, s, x) == Aspect(x.closed, [], [], [], [], [])
    ensures Mute(sid, x.ops)
  {
    if Announced(x.seen, sid) { AnnouncedToEnd(born, p, x, sid); }
    assert !Told(x.seen, x.rude, sid);
    hide Told, Box;
    forall k | 0 <= k < |Box(x)| ensures SidOf(Box(x)[k].f) != Some(sid) { }
    MuteAbout(sid, Box(x));
    forall k | 0 <= k < |x.took| ensures UpSid(x.took[k]) != Some(sid) { }
    MuteSaid(sid, x.took);
    OpsMute(born, sid, p, x.seen, x.rude, x.ops);
    MutePends(sid, s.from, x.ops);
    MutePends(sid, s.to, x.ops);
  }

  lemma OpsMute(born: map<nat, Sess>, sid: nat, p: nat, seen: seq<Mail>, rude: set<nat>, ops: seq<Op>)
    requires OpsKnown(born, p, seen, rude, ops) && sid !in born && !Told(seen, rude, sid)
    ensures Mute(sid, ops)
  {
    hide Told;
    forall k | 0 <= k < |ops| ensures Mute(sid, [ops[k]]) {
      assert OpKnown(born, p, seen, rude, ops[k]);
    }
    forall k | 0 <= k < |ops| ensures ops[k] == [ops[k]][0] { }
  }

  lemma FlowBirth(h: Hub, p: nat, t: nat, sid: nat)
    requires Flowing(h) && p < |h.peers| && t < |h.peers| && t != p && h.peers[p].ops != [] && Rest(h, p) == []
    requires sid !in h.born && sid !in h.peers[p].rude && sid !in h.peers[t].rude
    ensures SessionOk(Fate(true, false), sid, Sess(sid, p, t), DoAlloc(h, p, t, sid).peers)
  {
    KnownParts(h, p);
    KnownParts(h, t);
    var s, x, y := Sess(sid, p, t), h.peers[p], h.peers[t];
    hide Flowing, Traceable, KnownPeer, OpKnown, Mute, Isolated, Counted;
    Unborn(h.born, sid, s, p, x);
    Unborn(h.born, sid, s, t, y);
    var f, g := Ready(sid, y.id), Incoming(sid, x.id);
    var x' := x.(ops := [Enqueue(p, f), Enqueue(t, g)] + Rest(h, p));
    BirthAspect(sid, s, x, f, g);
    var v := LookAt(Fate(true, false), AspectOf(sid, s, x'), AspectOf(sid, s, y));
    assert ViewInv(v) by { hide AspectOf, ViewInv; Born(v); }
    hide AspectOf, ViewInv;
    Noticed(Fate(true, false), sid, s, h.peers, p, x');
  }

  lemma BirthAspect(sid: nat, s: Sess, x: Peer, f: Down, g: Down)
    requires s.from != s.to && SidOf(f) == SidOf(g) == Some(sid)
    ensures AspectOf(sid, s, x.(ops := [Enqueue(s.from, f), Enqueue(s.to, g)] + [])) ==
            AspectOf(sid, s, x).(toOpener := [f], toTarget := [g], held := [])
  {
    var ops := [Enqueue(s.from, f), Enqueue(s.to, g)];
    assert ops + [] == ops && ops == [ops[0]] + [ops[1]];
    BoxSame(x, ops);
    OneNotice(sid, s.from, f, [ops[1]]);
    OneNotice(sid, s.to, g, []);
    PendConcat(sid, s.from, [ops[0]], [ops[1]]);
    PendConcat(sid, s.to, [ops[0]], [ops[1]]);
    hide Box, About, Said, PendTo;
  }

  // ------------------------------------------------------------ queueing mail

  lemma MailAspect(sid: nat, s: Sess, x: Peer, m: Mail)
    ensures AspectOf(sid, s, x.(queue := x.queue + [m])) ==
        AspectOf(sid, s, x).(box := About(sid, Box(x)) + Ours(sid, m.f))
  {
    assert Box(x.(queue := x.queue + [m])) == Box(x) + [m];
    AboutPush(sid, Box(x), m);
    hide Box, About;
  }

  function Popped(a: Aspect, s: Sess, to: nat): Aspect {
    a.(toOpener := if to == s.from && a.toOpener != [] then a.toOpener[1..] else a.toOpener,
       toTarget := if to == s.to && a.toTarget != [] then a.toTarget[1..] else a.toTarget)
  }

  lemma PopAspect(sid: nat, s: Sess, x: Peer, to: nat, f: Down)
    requires OpsShape(x.ops) && x.ops != [] && x.ops[0] == Enqueue(to, f) && SidOf(f) == Some(sid) && s.from != s.to
    ensures AspectOf(sid, s, x).held == []
    ensures to == s.from ==> AspectOf(sid, s, x).toOpener != [] && AspectOf(sid, s, x).toOpener[0] == f
    ensures to == s.to ==> AspectOf(sid, s, x).toTarget != [] && AspectOf(sid, s, x).toTarget[0] == f
    ensures AspectOf(sid, s, x.(ops := x.ops[1..])) == Popped(AspectOf(sid, s, x), s, to)
  {
    BoxSame(x, x.ops[1..]);
    TellsHold(sid, x.ops);
    hide Box, About, Said, OpsShape;
    assert ([f] + PendTo(sid, to, x.ops[1..]))[1..] == PendTo(sid, to, x.ops[1..]);
    assert forall q: nat :: q != to ==>
           PendTo(sid, q, x.ops) == [] + PendTo(sid, q, x.ops[1..]) == PendTo(sid, q, x.ops[1..]);
  }

  /** No announcement to the opener is pending if no operation queues one. */
  lemma {:induction false} NoReadyPends(sid: nat, q: nat, ops: seq<Op>)
    requires forall k :: 0 <= k < |ops| ==>
        !(ops[k].Enqueue? && ops[k].to == q && ops[k].f.Ready? && ops[k].f.sid == sid)
    ensures forall k :: 0 <= k < |PendTo(sid, q, ops)| ==> !PendTo(sid, q, ops)[k].Ready?
  {
    if ops != [] { NoReadyPends(sid, q, ops[1..]); }
  }

  function Mailed(a: Aspect, f: Down): Aspect { if a.closed then a else a.(box := a.box + [f]) }

  /** The opener's goroutine queues for the target, for itself, or the target's for the opener. */
  lemma QueueView(fate: Fate, s: Sess, a: Aspect, b: Aspect, p: nat, to: nat, f: Down)
    requires ViewInv(LookAt(fate, a, b)) && s.from != s.to
    requires p == s.from || (p == s.to && to == s.from)
    requires p == s.from && to == s.to ==> a.toOpener == [] && a.toTarget != [] && a.toTarget[0] == f
    requires p == s.from == to ==> a.toOpener != [] && a.toOpener[0] == f
    requires p == s.to ==> b.toOpener != [] && b.toOpener[0] == f
    requires to == s.from || to == s.to
    ensures p == s.from && to == s.to ==> ViewInv(LookAt(fate, Popped(a, s, to), Mailed(b, f)))
    ensures p == s.from == to ==> ViewInv(LookAt(fate, Mailed(Popped(a, s, to), f), b))
    ensures p == s.to ==>
        ViewInv(LookAt(fate.(raced := fate.raced || (a.toOpener != [] && f.CloseTo?)), Mailed(a, f), Popped(b, s, to)))
  {
    var v := LookAt(fate, a, b);
    if p == s.to { hide ViewInv; QueueForOpener(v); }
    else if to == s.to { hide ViewInv; QueueForTarget(v); }
    else {
      PooReady(v);
      assert a.toOpener[1..] == [];
      hide ViewInv;
      QueueReady(v);
    }
  }

  lemma PooAlone(fate: Fate, a: Aspect, b: Aspect)
    requires ViewInv(LookAt(fate, a, b))
    ensures fate.live ==> !fate.raced
    ensures a.toOpener != [] ==> a.toOpener[0].Ready?
  {
  }

  /** The effect on both ends of one frame about the session being queued. */
  lemma FlowMail(h: Hub, sid: nat, p: nat, to: nat, f: Down)
    requires Running(h, sid, p) && to < |h.peers| && h.peers[p].ops[0] == Enqueue(to, f) && SidOf(f) == Some(sid)
    ensures SessionOk(FateOf(DoEnqueue(h, p, to, f), sid), sid, h.born[sid], DoEnqueue(h, p, to, f).peers)
  {
    hide Running, Flowing, Traceable, KnownPeer, OpsShape, AspectOf, ViewInv, Counted, Mailed, Popped, SidOf, PendTo;
    RunningParts(h, sid, p);
    InBounds(h, sid, p);
    var s, x := h.born[sid], h.peers[p];
    assert FrameKnown(h.born, p, to, f);
    var a, b := AspectOf(sid, s, h.peers[s.from]), AspectOf(sid, s, h.peers[s.to]);
    PopAspect(sid, s, x, to, f);
    OvertakingIs(h, sid, p, to, f);
    TellingPends(h, sid, p);
    PooAlone(FateOf(h, sid), a, b);
    hide Telling;
    if p == s.from && to == s.to { OpenerAnnounced(h.born, FateOf(h, sid), sid, s, x, a, b, f); }
    QueueView(FateOf(h, sid), s, a, b, p, to, f);
    MailedTo(sid, s, h.peers[to], Mail(p, f));
    MailedTo(sid, s, x.(ops := Rest(h, p)), Mail(p, f));
  }

  lemma OvertakingIs(h: Hub, sid: nat, p: nat, to: nat, f: Down)
    requires Running(h, sid, p) && to < |h.peers|
    ensures DoEnqueue(h, p, to, f).sessions == h.sessions
    ensures (sid in DoEnqueue(h, p, to, f).raced <==>
             sid in h.raced || (f == CloseTo(sid) && to == h.born[sid].from && Telling(h.peers, h.born[sid])))
    ensures SidOf(f) == Some(sid) && f.CloseTo? ==> f == CloseTo(sid)
  {
    hide Flowing, Telling;
  }

  lemma MailedTo(sid: nat, s: Sess, x: Peer, m: Mail)
    requires SidOf(m.f) == Some(sid)
    ensures AspectOf(sid, s, if x.closed then x else x.(queue := x.queue + [m])) == Mailed(AspectOf(sid, s, x), m.f)
  {
    MailAspect(sid, s, x, m);
    hide Box, About, PendTo, Held, Said;
  }

  lemma OpenerAnnounced(born: map<nat, Sess>, fate: Fate, sid: nat, s: Sess, x: Peer, a: Aspect, b: Aspect, f: Down)
    requires KnownPeer(born, s.from, x) && x.ops != [] && x.ops[0] == Enqueue(s.to, f) && s.from != s.to
    requires a == AspectOf(sid, s, x) && ViewInv(LookAt(fate, a, b))
    ensures a.toOpener == []
  {
    hide ViewInv, PendTo, Box, About, Said, Held, KnownPeer, Reading, Data;
    PooAlone(fate, a, b);
    NoReadyFirst(born, s.from, x, s.to, f);
    NoReadyPends(sid, s.from, x.ops);
    assert a.toOpener == PendTo(sid, s.from, x.ops);
  }

  lemma NoReadyFirst(born: map<nat, Sess>, p: nat, x: Peer, to: nat, f: Down)
    requires KnownPeer(born, p, x) && x.ops != [] && x.ops[0] == Enqueue(to, f) && to != p
    ensures forall k :: 0 <= k < |x.ops| ==> !(x.ops[k].Enqueue? && x.ops[k].to == p && x.ops[k].f.Ready?)
  {
    hide OpKnown, MailKnown, SaidKnown, Box;
  }

  lemma FlowEnqueue(h: Hub, sid: nat, p: nat, to: nat, f: Down)
    requires Running(h, sid, p) && to < |h.peers| && h.peers[p].ops[0] == Enqueue(to, f)
    ensures SessionOk(FateOf(DoEnqueue(h, p, to, f), sid), sid, h.born[sid], DoEnqueue(h, p, to, f).peers)
  {
    hide Running, Flowing, Traceable, KnownPeer, AspectOf, SessionOk;
    OvertakingIs(h, sid, p, to, f);
    hide Telling;
    if SidOf(f) == Some(sid) {
      FlowMail(h, sid, p, to, f);
    } else {
      FlowPop(h, sid, p);
      InBounds(h, sid, p);
      var h1 := WithOps(h, p, Rest(h, p));
      if !h1.peers[to].closed {
        var x := h1.peers[to];
        MailAspect(sid, h.born[sid], x, Mail(p, f));
        BoxIs(sid, h.born[sid], x);
        assert About(sid, Box(x)) + [] == About(sid, Box(x));
        Unnoticed(FateOf(h, sid), sid, h.born[sid], h1.peers, to, x.(queue := x.queue + [Mail(p, f)]));
      }
    }
  }

  lemma BoxIs(sid: nat, s: Sess, x: Peer)
    ensures AspectOf(sid, s, x).box == About(sid, Box(x))
  {
  }

  lemma MuteNone(sid: nat)
    ensures Mute(sid, [])
  {
  }

  lemma FlowPop(h: Hub, sid: nat, p: nat)
    requires Running(h, sid, p) && Mute(sid, [h.peers[p].ops[0]])
    ensures SessionOk(FateOf(h, sid), sid, h.born[sid], WithOps(h, p, Rest(h, p)).peers)
  {
    hide Running, SessionOk, Mute, AspectOf, ViewInv, Flowing;
    InBounds(h, sid, p);
    MuteNone(sid);
    var x := h.peers[p];
    FlowSilent(h, sid, p, []);
    assert [] + x.ops[1..] == x.ops[1..];
    assert WithOps(h, p, Rest(h, p)).peers == h.peers[p := x.(ops := [] + x.ops[1..])];
  }

  // -------------------------------------------------------- closing, and moves

  lemma FlowCloses(fate: Fate, sid: nat, s: Sess, peers: seq<Peer>, v: nat)
    requires SessionOk(fate, sid, s, peers) && v < |peers|
    ensures SessionOk(fate, sid, s, peers[v := peers[v].(closed := true)])
  {
    var x := peers[v].(closed := true);
    var a, b := AspectOf(sid, s, peers[s.from]), AspectOf(sid, s, peers[s.to]);
    assert Box(x) == Box(peers[v]);
    assert AspectOf(sid, s, x) == AspectOf(sid, s, peers[v]).(closed := true);
    hide AspectOf, ViewInv;
    if v == s.from { OpenerCloses(LookAt(fate, a, b)); Noticed(fate, sid, s, peers, v, x); }
    else if v == s.to { TargetCloses(LookAt(fate, a, b)); Noticed(fate, sid, s, peers, v, x); }
    else { Elsewhere(fate, sid, s, peers, v, x); }
  }

  lemma FlowKill(h: Hub, sid: nat, p: nat, v: nat)
    requires Running(h, sid, p) && v < |h.peers| && h.peers[p].ops[0].Kill?
    ensures SessionOk(FateOf(h, sid), sid, h.born[sid], DoKill(h, p, v).peers)
  {
    hide Running, SessionOk, Mute;
    InBounds(h, sid, p);
    StructureMute(sid, h.peers[p].ops[0]);
    FlowPop(h, sid, p);
    FlowCloses(FateOf(h, sid), sid, h.born[sid], WithOps(h, p, Rest(h, p)).peers, v);
  }

  /** Steps that move mail or messages along, or that begin a departure. */
  lemma FlowMoves(h: Hub, sid: nat, s: Step)
    requires Flowing(h) && CanStep(h, s) && sid in h.born && Polite(h, sid)
    requires s.ClientSends? || s.ClientReads? || s.WriterTakes? || s.WriterWrites? || s.Depart?
    ensures SessionOk(FateOf(h, sid), sid, h.born[sid], Next(h, s).peers)
  {
    hide Flowing, Announced, CanExec, DoExec, SessionOk, AspectOf;
    assert SessionOk(FateOf(h, sid), sid, h.born[sid], h.peers) by { FlowingAt(h, sid); }
    var x, x' := h.peers[s.p], Next(h, s).peers[s.p];
    MovesBox(x, x');
    MovesAspect(sid, h.born[sid], x, x');
    Unnoticed(FateOf(h, sid), sid, h.born[sid], h.peers, s.p, x');
  }

  lemma FlowingAt(h: Hub, sid: nat)
    requires Flowing(h) && sid in h.born && Polite(h, sid)
    ensures SessionOk(FateOf(h, sid), sid, h.born[sid], h.peers)
  {
  }

  lemma MovesBox(x: Peer, x': Peer)
    requires || (x.down != [] && x' == x.(down := x.down[1..], seen := x.seen + [x.down[0]]))
             || (x.hand.None? && x.queue != [] && x' == x.(queue := x.queue[1..], hand := Some(x.queue[0])))
             || (x.hand.Some? && x' == x.(hand := None, down := x.down + [x.hand.value]))
             || x' == x.(up := x'.up, rude := x'.rude)
             || (x.ops == [] && x' == x.(ops := [Leave], left := true))
    ensures Box(x') == Box(x) && x'.closed == x.closed && x'.took == x.took
    ensures x'.ops == x.ops || (x.ops == [] && x'.ops == [Leave])
  {
  }

  lemma MovesAspect(sid: nat, s: Sess, x: Peer, x': Peer)
    requires Box(x') == Box(x) && x'.closed == x.closed && x'.took == x.took
    requires x'.ops == x.ops || (x.ops == [] && x'.ops == [Leave])
    ensures AspectOf(sid, s, x') == AspectOf(sid, s, x)
  {
    assert x'.ops != x.ops ==> Mute(sid, x.ops) && Mute(sid, x'.ops);
    hide Box, About, Said, Mute, PendTo, Held;
    if x'.ops != x.ops {
      MutePends(sid, s.from, x.ops);
      MutePends(sid, s.to, x.ops);
      MutePends(sid, s.from, x'.ops);
      MutePends(sid, s.to, x'.ops);
    }
  }

  lemma FlowConnect(h: Hub, sid: nat, s: Step)
    requires Flowing(h) && s.Connect? && sid in h.born && Polite(h, sid)
    ensures SessionOk(FateOf(h, sid), sid, h.born[sid], Next(h, s).peers)
  {
    assert SessionOk(FateOf(h, sid), sid, h.born[sid], h.peers);
    hide Flowing, AspectOf, ViewInv;
  }

  /** An operation that is about no session at all. */
  lemma FlowQuiet(h: Hub, sid: nat, p: nat, h': Hub, add: seq<Op>)
    requires Running(h, sid, p) && Quiet(add) && Mute(sid, [h.peers[p].ops[0]]) && h'.sessions == h.sessions
    requires h'.raced == h.raced
    requires h'.peers == h.peers[p := h.peers[p].(ops := add + h.peers[p].ops[1..])]
    ensures SessionOk(FateOf(h', sid), sid, h.born[sid], h'.peers)
  {
    assert Mute(sid, add);
    hide Running, Mute, Quiet, SessionOk;
    FlowSilent(h, sid, p, add);
  }

  lemma FlowRename(h: Hub, sid: nat, p: nat, name: string, order: seq<nat>)
    requires Running(h, sid, p) && h.peers[p].ops[0].Rename?
    ensures SessionOk(FateOf(h, sid), sid, h.born[sid], DoRename(h, p, name, order).peers)
  {
    hide Running, SessionOk, Tell, Quiet, Mute, AspectOf;
    InBounds(h, sid, p);
    var me := h.peers[p];
    var f := PeerJoin(Info(me.id, name));
    LeaveQuiet(order, f);
    StructureMute(sid, me.ops[0]);
    var h1 := WithOps(h, p, Tell(order, f) + Rest(h, p));
    FlowQuiet(h, sid, p, h1, Tell(order, f));
    var x := h1.peers[p].(name := name);
    RenameAspect(sid, h.born[sid], h1.peers[p], name);
    Unnoticed(FateOf(h, sid), sid, h.born[sid], h1.peers, p, x);
    assert h1.peers[p := x] == DoRename(h, p, name, order).peers;
  }

  lemma RenameAspect(sid: nat, s: Sess, x: Peer, name: string)
    ensures AspectOf(sid, s, x.(name := name)) == AspectOf(sid, s, x)
  {
    assert Box(x.(name := name)) == Box(x);
    hide Box, About, PendTo, Held, Said;
  }

  // ----------------------------------------------------------- the whole run

  lemma FlowAlloc(h: Hub, sid: nat, p: nat, t: nat, i: nat)
    requires Flowing(h) && p < |h.peers| && t < |h.peers| && t != p && h.peers[p].ops != []
    requires h.peers[p].ops[0] == Alloc(t)
    requires Rest(h, p) == [] && i !in h.born && (sid in h.born || sid == i) && Polite(DoAlloc(h, p, t, i), sid)
    ensures SessionOk(FateOf(DoAlloc(h, p, t, i), sid), sid, DoAlloc(h, p, t, i).born[sid], DoAlloc(h, p, t, i).peers)
  {
    hide Running, Mute, SessionOk;
    NotRaced(h, i);
    AllocPolite(h, p, t, i, sid);
    hide Polite;
    if sid == i {
      FlowBirth(h, p, t, i);
    } else {
      var add := [Enqueue(p, Ready(i, h.peers[t].id)), Enqueue(t, Incoming(i, h.peers[p].id))];
      OthersMute(sid, i, p, t, h.peers[t].id, h.peers[p].id);
      assert Running(h, sid, p) by { RunningIf(h, sid, p); }
      hide Flowing;
      FlowSilent(h, sid, p, add);
    }
  }

  lemma AllocPolite(h: Hub, p: nat, t: nat, i: nat, sid: nat)
    requires p < |h.peers| && t < |h.peers| && h.peers[p].ops != [] && i !in h.born && Polite(DoAlloc(h, p, t, i), sid)
    ensures sid == i ==> i !in h.peers[p].rude && i !in h.peers[t].rude
    ensures sid in h.born ==> Polite(h, sid)
  {
    var h' := DoAlloc(h, p, t, i);
    assert h'.peers[p].rude == h.peers[p].rude && h'.peers[t].rude == h.peers[t].rude;
    if sid == i {
      assert End(h'.born, i, p) && End(h'.born, i, t);
    } else {
      forall q | 0 <= q < |h.peers| && End(h.born, sid, q) ensures sid !in h.peers[q].rude {
        assert h'.peers[q].rude == h.peers[q].rude && End(h'.born, sid, q);
      }
    }
  }

  lemma NotRaced(h: Hub, sid: nat)
    requires Flowing(h) && sid !in h.born
    ensures sid !in h.raced
  {
    hide Traceable, SessionOk;
  }

  lemma RunningIf(h: Hub, sid: nat, p: nat)
    requires Flowing(h) && p < |h.peers| && h.peers[p].ops != []
    ensures sid in h.born && Polite(h, sid) ==> Running(h, sid, p)
  {
    hide Flowing;
  }

  lemma OthersMute(sid: nat, i: nat, p: nat, t: nat, a: string, b: string)
    requires sid != i
    ensures Mute(sid, [Enqueue(p, Ready(i, a)), Enqueue(t, Incoming(i, b))]) && Mute(sid, [Alloc(t)])
  {
  }

  lemma FlowJoin(h: Hub, sid: nat, p: nat, order: seq<nat>)
    requires Running(h, sid, p) && h.peers[p].ops[0].Join? && forall x :: x in order ==> x < |h.peers|
    ensures SessionOk(FateOf(h, sid), sid, h.born[sid], DoJoin(h, p, order).peers)
  {
    hide Running, SessionOk, Tell, Quiet, JoinOps, RoomMap, Mute;
    InBounds(h, sid, p);
    var me := h.peers[p];
    var w, f := Welcome(InfoOf(me), Infos(h.peers, order)), PeerJoin(InfoOf(me));
    var room := RoomMap(h, me.room);
    JoinQuiet(room, p, me.id, w, order, f);
    StructureMute(sid, me.ops[0]);
    FlowQuiet(h, sid, p, DoJoin(h, p, order), JoinOps(room, p, me.id, w, order, f));
  }

  lemma StructureMute(sid: nat, op: Op)
    requires op.Join? || op.Leave? || op.Rename? || op.Kill?
    ensures Mute(sid, [op])
  {
  }

  lemma FlowLeave(h: Hub, sid: nat, p: nat, order: seq<nat>)
    requires Running(h, sid, p) && h.peers[p].ops[0].Leave?
    ensures SessionOk(FateOf(h, sid), sid, h.born[sid], DoLeave(h, p, order).peers)
  {
    hide Running, SessionOk, Tell, Quiet, Mute, Find;
    InBounds(h, sid, p);
    var me := h.peers[p];
    LeaveQuiet(order, PeerLeave(me.id));
    StructureMute(sid, me.ops[0]);
    if Find(h.rooms, me.room, me.id) != Some(p) {
      FlowPop(h, sid, p);
    } else {
      assert me.room in h.rooms by { Found(h.rooms, me.room, me.id); }
      FlowQuiet(h, sid, p, DoLeave(h, p, order), [DropSessions] + Tell(order, PeerLeave(me.id)));
    }
  }

  lemma Found(rooms: map<string, map<string, nat>>, room: string, id: string)
    ensures Find(rooms, room, id).Some? ==> room in rooms && id in rooms[room]
  {
  }

  lemma FlowAnswers(h: Hub, sid: nat, p: nat, toId: string, body: string)
    requires Running(h, sid, p)
    ensures h.peers[p].ops[0].Open? ==> SessionOk(FateOf(h, sid), sid, h.born[sid], DoOpen(h, p, toId).peers)
    ensures h.peers[p].ops[0].Signal? ==> SessionOk(FateOf(h, sid), sid, h.born[sid], DoSignal(h, p, toId, body).peers)
  {
    hide Running, SessionOk, Find;
    InBounds(h, sid, p);
    var me := h.peers[p];
    var target := Find(h.rooms, me.room, toId);
    if me.ops[0].Open? {
      FlowQuiet(h, sid, p, DoOpen(h, p, toId),
                [if target.None? || target.value == p then Enqueue(p, Problem) else Alloc(target.value)]);
    } else if me.ops[0].Signal? {
      FlowQuiet(h, sid, p, DoSignal(h, p, toId, body),
                [if target.None? then Enqueue(p, Problem) else Enqueue(target.value, Signalled(me.id, body))]);
    }
  }

  /** Operations on the roster, and answers out of it. */
  lemma FlowRoster(h: Hub, sid: nat, p: nat, pick: Pick)
    requires Running(h, sid, p) && CanExec(h, p, pick) && Isolated(h)
    requires var op := h.peers[p].ops[0]; op.Join? || op.Leave? || op.Rename? || op.Open? || op.Signal?
    ensures SessionOk(FateOf(h, sid), sid, h.born[sid], DoExec(h, p, pick).peers)
  {
    hide Running, Isolated, CanExec, DoJoin, DoLeave, DoOpen, DoSignal, DoRename, SessionOk;
    OrdersInRange(h, p, pick);
    var op := h.peers[p].ops[0];
    if op.Join? { FlowJoin(h, sid, p, pick.order); }
    else if op.Leave? { FlowLeave(h, sid, p, pick.order); }
    else if op.Open? { FlowAnswers(h, sid, p, op.toId, ""); }
    else if op.Signal? { FlowAnswers(h, sid, p, op.toId, op.body); }
    else if op.Rename? { FlowRename(h, sid, p, op.name, pick.order); }
  }

  lemma OrdersInRange(h: Hub, p: nat, pick: Pick)
    requires CanExec(h, p, pick) && Isolated(h)
    ensures p < |h.peers| && h.peers[p].ops != []
    ensures var op := h.peers[p].ops[0];
            op.Join? || op.Leave? || op.Rename? ==> forall x :: x in pick.order ==> x < |h.peers|
    ensures forall x :: x in OthersIn(h, p) ==> x < |h.peers|
  {
    OthersTogether(h, p);
    hide Isolated, OthersIn, NoDup;
  }

  /** Traffic, mail and disconnections. */
  lemma FlowPasses(h: Hub, sid: nat, p: nat, pick: Pick)
    requires Running(h, sid, p) && CanExec(h, p, pick)
    requires var op := h.peers[p].ops[0]; op.Route? || op.RouteAck? || op.Enqueue? || op.Kill?
    ensures SessionOk(FateOf(DoExec(h, p, pick), sid), sid, h.born[sid], DoExec(h, p, pick).peers)
  {
    hide Running, DoRelay, DoEnqueue, DoKill, SessionOk;
    var op := h.peers[p].ops[0];
    if op.Route? { FlowRelay(h, sid, p, HeaderOf(op.data), Payload(op.data)); }
    else if op.RouteAck? { FlowRelay(h, sid, p, Some(op.sid), AckTo(op.sid, op.bytes)); }
    else if op.Enqueue? { FlowEnqueue(h, sid, p, op.to, op.f); }
    else { FlowKill(h, sid, p, op.victim); }
    RelaySame(h, p, pick);
    SameBirths(h, p, pick);
    SameRaces(h, p, pick);
  }

  lemma RelaySame(h: Hub, p: nat, pick: Pick)
    requires CanExec(h, p, pick)
    ensures var op := h.peers[p].ops[0];
      && (op.Route? ==> DoExec(h, p, pick) == DoRelay(h, p, HeaderOf(op.data), Payload(op.data)))
      && (op.RouteAck? ==> DoExec(h, p, pick) == DoRelay(h, p, Some(op.sid), AckTo(op.sid, op.bytes)))
  {
  }

  lemma ExecPolite(h: Hub, p: nat, pick: Pick, sid: nat)
    requires Flowing(h) && CanExec(h, p, pick) && NoWrap(h, Exec(p, pick)) && sid in h.born
    requires Polite(DoExec(h, p, pick), sid)
    ensures Polite(h, sid)
  {
    FlowingTraceable(h);
    BirthsStay(h, p, pick);
    ExecParts(h, p, pick);
    hide Flowing, Traceable, CanExec, DoExec, NoWrap;
    var h' := DoExec(h, p, pick);
    forall q | 0 <= q < |h.peers| && End(h.born, sid, q) ensures sid !in h.peers[q].rude {
      assert h'.peers[q].rude == h.peers[q].rude && End(h'.born, sid, q);
    }
  }

  /** Whoever is polite after a step was so before it. */
  lemma StepPolite(h: Hub, s: Step, sid: nat)
    requires Flowing(h) && CanStep(h, s) && NoWrap(h, s) && sid in h.born && Polite(Next(h, s), sid)
    ensures Polite(h, sid)
  {
    if s.Exec? {
      hide Flowing, CanExec, DoExec, NoWrap, Polite;
      ExecPolite(h, s.p, s.pick, sid);
    } else {
      hide Flowing, CanExec, DoExec, NoWrap, Unbidden;
      var h' := Next(h, s);
      forall q | 0 <= q < |h.peers| && End(h.born, sid, q) ensures sid !in h.peers[q].rude {
        assert h.peers[q].rude <= h'.peers[q].rude && End(h'.born, sid, q);
      }
    }
  }

  lemma FlowExec(h: Hub, sid: nat, p: nat, pick: Pick)
    requires Flowing(h) && CanExec(h, p, pick) && NoWrap(h, Exec(p, pick)) && sid in DoExec(h, p, pick).born
    requires Polite(DoExec(h, p, pick), sid)
    ensures SessionOk(FateOf(DoExec(h, p, pick), sid), sid, DoExec(h, p, pick).born[sid], DoExec(h, p, pick).peers)
  {
    hide Flowing, Running, Traceable, Isolated, SessionsOf, NoDup, FirstFree, KnownPeer, Counted, SessionOk, DoExec,
         CanExec;
    ExecBounds(h, p, pick);
    FlowingTraceable(h);
    KnownParts(h, p);
    if sid in h.born { ExecPolite(h, p, pick, sid); }
    hide Polite;
    RunningIf(h, sid, p);
    SameBirths(h, p, pick);
    SameRaces(h, p, pick);
    EndingIs(h, p, pick);
    var op := h.peers[p].ops[0];
    if op.DropSessions? {
      FlowDrop(h, sid, p, pick.order);
    } else if op.CloseSession? {
      FlowClose(h, sid, p, op.sid);
    } else if op.Alloc? {
      AllocAlone(h, p, op.target);
      NextIsFree(h.sessions, h.born, h.nextSess, pick.sid);
      FlowAlloc(h, sid, p, op.target, pick.sid);
    } else if op.Route? || op.RouteAck? || op.Enqueue? || op.Kill? {
      FlowPasses(h, sid, p, pick);
    } else {
      FlowRoster(h, sid, p, pick);
    }
  }

  lemma FlowingTraceable(h: Hub)
    requires Flowing(h)
    ensures Traceable(h)
  {
  }

  lemma ExecBounds(h: Hub, p: nat, pick: Pick)
    requires CanExec(h, p, pick)
    ensures p < |h.peers| && h.peers[p].ops != []
    ensures h.peers[p].ops[0].DropSessions? ==> Lists(pick.order, SessionsOf(h.sessions, p))
    ensures h.peers[p].ops[0].Alloc? ==>
        h.peers[p].ops[0].target < |h.peers| && FirstFree(h.nextSess, h.sessions.Keys, pick.sid)
  {
    hide Lists, SessionsOf, FirstFree;
  }

  lemma EndingIs(h: Hub, p: nat, pick: Pick)
    requires CanExec(h, p, pick)
    ensures h.peers[p].ops[0].DropSessions? ==> DoExec(h, p, pick) == DoDrop(h, p, pick.order)
    ensures h.peers[p].ops[0].CloseSession? ==> DoExec(h, p, pick) == DoClose(h, p, h.peers[p].ops[0].sid)
    ensures h.peers[p].ops[0].Alloc? ==> DoExec(h, p, pick) == DoAlloc(h, p, h.peers[p].ops[0].target, pick.sid)
  {
    hide DoDrop, DoClose, DoAlloc;
  }

  /** Only an allocation adds to the sessions ever born, and only endings take from the table. */
  lemma SameBirths(h: Hub, p: nat, pick: Pick)
    requires CanExec(h, p, pick)
    ensures var h', op := DoExec(h, p, pick), h.peers[p].ops[0];
      && (op.Alloc? ==> h'.born.Keys == h.born.Keys + {pick.sid})
      && (!op.Alloc? ==> h'.born == h.born)
      && (op.Alloc? ==> pick.sid in h'.sessions)
      && (!op.Alloc? && !op.DropSessions? && !op.CloseSession? ==> h'.sessions == h.sessions)
      && (op.CloseSession? ==> h'.sessions == h.sessions - {op.sid})
      && (op.DropSessions? ==> h'.sessions == h.sessions - SessionsOf(h.sessions, p))
  {
    hide Telling, FirstFree, Lists;
  }

  /** Only a frame being queued can be a close overtaking an announcement. */
  lemma SameRaces(h: Hub, p: nat, pick: Pick)
    requires CanExec(h, p, pick)
    ensures var op := h.peers[p].ops[0];
      DoExec(h, p, pick).raced == if op.Enqueue? && Overtakes(h, op.to, op.f) then h.raced + {op.f.sid} else h.raced
  {
    hide Telling, FirstFree, Lists;
  }

  lemma OvertakesOwn(h: Hub, to: nat, f: Down)
    requires Overtakes(h, to, f)
    ensures f.CloseTo? && f.sid in h.born && to == h.born[f.sid].from && Telling(h.peers, h.born[f.sid])
  {
  }

  /** A close is asked for only once its asker has been told, and then the opener has been too. */
  lemma CloseNotRaced(h: Hub, p: nat, sid: nat)
    requires Running(h, sid, p) && h.peers[p].ops[0] == CloseSession(sid)
    requires p == h.born[sid].from || p == h.born[sid].to
    ensures !Telling(h.peers, h.born[sid])
  {
    RunningParts(h, sid, p);
    TellingPends(h, sid, p);
    assert End(h.born, sid, p) && sid !in h.peers[p].rude;
    var s, x := h.born[sid], h.peers[p];
    hide Running, Flowing, Traceable, KnownPeer, Counted, Announced, OpsShape, AspectOf, ViewInv;
    CloseFacts(h.born, p, x, sid);
    if p == s.to {
      assert Told(x.seen, x.rude, sid) by { assert OpKnown(h.born, p, x.seen, x.rude, x.ops[0]); }
      AnnouncedIsMail(sid, x);
      BoxIs(sid, s, x);
      HeardByTarget(FateOf(h, sid), AspectOf(sid, s, h.peers[s.from]), AspectOf(sid, s, x));
    }
  }

  lemma HeardByTarget(fate: Fate, a: Aspect, b: Aspect)
    requires ViewInv(LookAt(fate, a, b)) && b.box != []
    ensures a.toOpener == []
  {
  }

  lemma TellingIs(peers: seq<Peer>, s: Sess)
    requires Telling(peers, s)
    ensures s.from < |peers| && peers[s.from].ops != [] && peers[s.from].ops[0].Enqueue?
    ensures peers[s.from].ops[0].f.Ready?
  {
  }

  lemma ToOpener(h: Hub, sid: nat, p: nat, to: nat)
    requires Running(h, sid, p) && h.peers[p].ops[0] == Enqueue(to, CloseTo(sid))
    ensures p == h.born[sid].from || p == h.born[sid].to
  {
    hide Running, Flowing, SessionOk, KnownPeer, OpsShape, Traceable, Counted;
    RunningParts(h, sid, p);
    assert FrameKnown(h.born, p, to, CloseTo(sid));
  }

  /** A step puts a session at risk only by its departing target's teardown. */
  lemma RiskGrows(h: Hub, p: nat, pick: Pick, sid: nat)
    requires Flowing(h) && CanExec(h, p, pick) && NoWrap(h, Exec(p, pick)) && Polite(DoExec(h, p, pick), sid)
    requires AtRisk(DoExec(h, p, pick), sid) && !AtRisk(h, sid)
    ensures sid in h.born && h.born[sid].to == p && h.peers[p].left
  {
    hide Traceable, SessionOk, Isolated, CanExec, DoExec, NoWrap, RacedOk, Telling, FirstFree, Polite, Stays, Closing;
    FlowingTraceable(h);
    ExecBounds(h, p, pick);
    ExecParts(h, p, pick);
    BirthsStay(h, p, pick);
    if sid !in h.born {
      BirthNoRisk(h, p, pick, sid);
    } else {
      EndsDiffer(h, sid);
      ExecPolite(h, p, pick, sid);
      RunningIf(h, sid, p);
      NewRisk(h, p, pick, sid);
      var op := h.peers[p].ops[0];
      if op.Enqueue? { ToOpener(h, sid, p, op.to); }
      TellingIs(h.peers, h.born[sid]);
      NotClosing(h.peers, h.born[sid], p);
      hide Flowing, Running;
      if op.CloseSession? { CloseNotRaced(h, p, sid); }
    }
  }

  lemma NotClosing(peers: seq<Peer>, s: Sess, p: nat)
    requires !Closing(peers, s) && p < |peers| && peers[p].ops != []
    ensures p == s.to ==> peers[p].ops[0] != Enqueue(s.from, CloseTo(s.id))
  {
  }

  /** A session just allocated is not at risk: nobody has a frame about it to queue. */
  lemma BirthNoRisk(h: Hub, p: nat, pick: Pick, sid: nat)
    requires Flowing(h) && CanExec(h, p, pick) && NoWrap(h, Exec(p, pick)) && sid !in h.born
    ensures !AtRisk(DoExec(h, p, pick), sid)
  {
    FlowingTraceable(h);
    NotRaced(h, sid);
    SameBirths(h, p, pick);
    SameRaces(h, p, pick);
    ExecBounds(h, p, pick);
    var h', op := DoExec(h, p, pick), h.peers[p].ops[0];
    EndingIs(h, p, pick);
    if sid in h'.born {
      var t := op.target;
      KnownParts(h, p);
      KnownParts(h, t);
      AllocAlone(h, p, t);
      hide Traceable, Flowing, CanExec, DoExec, Telling, FirstFree, Isolated, Counted, NoWrap;
      assert h'.born[sid] == Sess(sid, p, t) && h'.peers[t] == h.peers[t];
      NoneAbout(h.born, t, h.peers[t], p, sid);
    }
  }

  lemma NoneAbout(born: map<nat, Sess>, p: nat, x: Peer, to: nat, sid: nat)
    requires KnownPeer(born, p, x) && sid !in born
    ensures Enqueue(to, CloseTo(sid)) !in x.ops
  {
    forall k | 0 <= k < |x.ops| ensures x.ops[k] != Enqueue(to, CloseTo(sid)) {
      assert OpKnown(born, p, x.seen, x.rude, x.ops[k]);
    }
  }

  /** What a goroutine may come to do next. */
  ghost predicate Starts(h: Hub, p: nat, op: Op)
    requires p < |h.peers|
  {
    !op.Leave? && (op.DropSessions? ==> h.peers[p].left) && (op.Enqueue? && op.f.Ready? ==> op.f.sid !in h.born)
  }

  /** One goroutine moves on, without starting to leave; it tears sessions down only on its way out. */
  ghost predicate Stays(h: Hub, h': Hub, p: nat) {
    && p < |h.peers| == |h'.peers|
    && (forall q :: 0 <= q < |h.peers| ==>
        h'.peers[q].left == h.peers[q].left && h'.peers[q].rude == h.peers[q].rude)
    && (forall q :: 0 <= q < |h.peers| && q != p ==> h'.peers[q].ops == h.peers[q].ops)
    && (h'.peers[p].ops != [] ==> Starts(h, p, h'.peers[p].ops[0]))
    && (forall e :: e in h'.peers[p].ops && e !in h.peers[p].ops ==> Follows(h, p, e))
  }

  /** A close is queued only by who asks for it, or leaves. */
  ghost predicate Follows(h: Hub, p: nat, e: Op)
    requires p < |h.peers|
  {
    e.Enqueue? && e.f.CloseTo? && h.peers[p].ops != [] ==>
      h.peers[p].ops[0] == CloseSession(e.f.sid) || h.peers[p].ops[0].DropSessions?
  }

  ghost predicate Usual(ops: seq<Op>) {
    OpsShape(ops) && forall k :: 1 <= k < |ops| ==> !(ops[k].Enqueue? && ops[k].f.Ready?)
  }

  lemma OpsStay(h: Hub, h': Hub, p: nat, add: seq<Op>)
    requires p < |h.peers| && h.peers[p].ops != [] && Usual(h.peers[p].ops)
    requires h'.peers == h.peers[p := h.peers[p].(ops := add + h.peers[p].ops[1..])]
    requires add != [] ==> Starts(h, p, add[0])
    requires forall e :: e in add ==> Follows(h, p, e)
    ensures Stays(h, h', p)
  {
    var ops := add + h.peers[p].ops[1..];
    assert forall e :: e in ops && e !in h.peers[p].ops ==> e in add;
    assert add == [] && ops != [] ==> ops[0] == h.peers[p].ops[1];
  }

  lemma QuietFollows(h: Hub, p: nat, add: seq<Op>)
    requires p < |h.peers| && Quiet(add)
    ensures forall e :: e in add ==> Follows(h, p, e)
  {
  }

  lemma RosterStays(h: Hub, p: nat, pick: Pick)
    requires CanExec(h, p, pick) && Usual(h.peers[p].ops) && Parting(h)
    requires var op := h.peers[p].ops[0]; op.Join? || op.Leave? || op.Rename? || op.DropSessions?
    ensures Stays(h, DoExec(h, p, pick), p)
  {
    InRoom(h, p, pick);
    hide CanExec, Stays, Usual, FirstFree, NoDup, Infos, OthersIn, Lists, RoomMap;
    var me, order := h.peers[p], pick.order;
    match me.ops[0]
    case Join =>
      var room := RoomMap(h, me.room);
      var w, f := Welcome(InfoOf(me), Infos(h.peers, order)), PeerJoin(InfoOf(me));
      JoinQuiet(room, p, me.id, w, order, f);
      QuietFollows(h, p, JoinOps(room, p, me.id, w, order, f));
      OpsStay(h, DoJoin(h, p, order), p,
              JoinOps(room, p, me.id, Welcome(InfoOf(me), Infos(h.peers, order)), order, PeerJoin(InfoOf(me))));
    case Leave =>
      if Find(h.rooms, me.room, me.id) != Some(p) {
        assert [] + Rest(h, p) == Rest(h, p);
        OpsStay(h, DoLeave(h, p, order), p, []);
      } else {
        LeaveQuiet(order, PeerLeave(me.id));
        QuietFollows(h, p, [DropSessions] + Tell(order, PeerLeave(me.id)));
        OpsStay(h, DoLeave(h, p, order), p, [DropSessions] + Tell(order, PeerLeave(me.id)));
      }
    case Rename(name) =>
      var f := PeerJoin(Info(me.id, name));
      LeaveQuiet(order, f);
      QuietFollows(h, p, Tell(order, f));
      OpsStay(h, WithOps(h, p, Tell(order, f) + Rest(h, p)), p, Tell(order, f));
      NameStays(h, WithOps(h, p, Tell(order, f) + Rest(h, p)), DoRename(h, p, name, order), p);
    case DropSessions =>
      NoticesPlain(h.sessions, p, order);
      OpsStay(h, DoDrop(h, p, order), p, CloseNotices(h.sessions, p, order));
  }

  lemma InRoom(h: Hub, p: nat, pick: Pick)
    requires CanExec(h, p, pick)
    ensures p < |h.peers| && h.peers[p].ops != []
    ensures var op := h.peers[p].ops[0];
      && (op.Join? || op.Leave? || op.Rename? ==> forall x :: x in pick.order ==> x < |h.peers|)
      && (op.DropSessions? ==> forall x :: x in pick.order ==> x in SessionsOf(h.sessions, p))
  {
    hide FirstFree, NoDup;
  }

  lemma NameStays(h: Hub, h1: Hub, h2: Hub, p: nat)
    requires Stays(h, h1, p) && |h2.peers| == |h1.peers|
    requires forall q :: 0 <= q < |h1.peers| ==>
        h2.peers[q].ops == h1.peers[q].ops && h2.peers[q].left == h1.peers[q].left
          && h2.peers[q].rude == h1.peers[q].rude
    ensures Stays(h, h2, p)
  {
  }

  lemma AnswerStays(h: Hub, p: nat, pick: Pick)
    requires CanExec(h, p, pick) && Usual(h.peers[p].ops)
    requires h.peers[p].ops[0].Alloc? ==> pick.sid !in h.born
    requires var op := h.peers[p].ops[0];
            op.Open? || op.Alloc? || op.Route? || op.RouteAck? || op.CloseSession? || op.Signal?
    ensures Stays(h, DoExec(h, p, pick), p)
  {
    AllocIn(h, p, pick);
    hide CanExec, Stays, Usual, FirstFree, Find, HeaderOf;
    match h.peers[p].ops[0]
    case Open(toId) =>
      var target := Find(h.rooms, h.peers[p].room, toId);
      OpsStay(h, DoOpen(h, p, toId), p,
              [if target.None? || target.value == p then Enqueue(p, Problem) else Alloc(target.value)]);
    case Alloc(t) =>
      OpsStay(h, DoAlloc(h, p, t, pick.sid), p,
              [Enqueue(p, Ready(pick.sid, h.peers[t].id)), Enqueue(t, Incoming(pick.sid, h.peers[p].id))]);
    case Route(data) => OpsStay(h, DoExec(h, p, pick), p, ForwardIfKnown(h.sessions, p, HeaderOf(data), Payload(data)));
    case RouteAck(i, bytes) => OpsStay(h, DoExec(h, p, pick), p,
                                       ForwardIfKnown(h.sessions, p, Some(i), AckTo(i, bytes)));
    case CloseSession(i) => OpsStay(h, DoClose(h, p, i), p, ForwardIfKnown(h.sessions, p, Some(i), CloseTo(i)));
    case Signal(toId, body) =>
      var target := Find(h.rooms, h.peers[p].room, toId);
      OpsStay(h, DoSignal(h, p, toId, body), p,
              [if target.None? then Enqueue(p, Problem) else Enqueue(target.value, Signalled(h.peers[p].id, body))]);
  }

  lemma AllocIn(h: Hub, p: nat, pick: Pick)
    requires CanExec(h, p, pick)
    ensures p < |h.peers| && h.peers[p].ops != [] && (h.peers[p].ops[0].Alloc? ==> h.peers[p].ops[0].target < |h.peers|)
  {
    hide FirstFree, Lists;
  }

  lemma TellStays(h: Hub, p: nat, pick: Pick)
    requires CanExec(h, p, pick) && Usual(h.peers[p].ops)
    requires h.peers[p].ops[0].Enqueue? || h.peers[p].ops[0].Kill?
    ensures Stays(h, DoExec(h, p, pick), p)
  {
    hide FirstFree, Lists, SidOf;
    assert [] + Rest(h, p) == Rest(h, p);
    OpsStay(h, WithOps(h, p, Rest(h, p)), p, []);
    NameStays(h, WithOps(h, p, Rest(h, p)), DoExec(h, p, pick), p);
  }

  lemma ExecParts(h: Hub, p: nat, pick: Pick)
    requires Flowing(h) && CanExec(h, p, pick) && NoWrap(h, Exec(p, pick))
    ensures Parting(DoExec(h, p, pick)) && Stays(h, DoExec(h, p, pick), p)
  {
    FlowingTraceable(h);
    KnownParts(h, p);
    Parts(h, p);
    ExecBounds(h, p, pick);
    LaterNotReady(h.born, p, h.peers[p]);
    assert Usual(h.peers[p].ops);
    var op := h.peers[p].ops[0];
    if op.Alloc? { NextIsFree(h.sessions, h.born, h.nextSess, pick.sid); }
    hide Traceable, SessionOk, Isolated, CanExec, DoExec, RacedOk, OpsShape, KnownPeer, OpKnown, OpsOk, MailOk, Usual,
         NoWrap, FirstFree;
    if op.Join? || op.Leave? || op.Rename? || op.DropSessions? { RosterStays(h, p, pick); }
    else if op.Enqueue? || op.Kill? { TellStays(h, p, pick); }
    else { AnswerStays(h, p, pick); }
  }

  lemma NewRisk(h: Hub, p: nat, pick: Pick, sid: nat)
    requires CanExec(h, p, pick) && p < |h.peers| && h.peers[p].ops != [] && Stays(h, DoExec(h, p, pick), p)
    requires sid in h.born
    requires AtRisk(DoExec(h, p, pick), sid) && !AtRisk(h, sid)
    requires sid in DoExec(h, p, pick).born && DoExec(h, p, pick).born[sid] == h.born[sid] && h.born[sid].id == sid
    ensures Telling(h.peers, h.born[sid]) && !Closing(h.peers, h.born[sid])
    ensures var op := h.peers[p].ops[0];
      || op == Enqueue(h.born[sid].from, CloseTo(sid))
      || (p == h.born[sid].to && (op == CloseSession(sid) || op.DropSessions?))
  {
    SameRaces(h, p, pick);
    hide CanExec, DoExec, Telling, Overtakes;
    var h', op := DoExec(h, p, pick), h.peers[p].ops[0];
    if sid in h'.raced && sid !in h.raced {
      OvertakesOwn(h, op.to, op.f);
    } else {
      StillTelling(h, h', p, h.born[sid]);
      assert Follows(h, p, Enqueue(h.born[sid].from, CloseTo(sid)));
    }
  }

  lemma StillTelling(h: Hub, h': Hub, p: nat, s: Sess)
    requires Stays(h, h', p) && Telling(h'.peers, s) && s.id in h.born
    ensures Telling(h.peers, s)
  {
  }

  /** Ids are not reused, so what was born stays as it was. */
  lemma BirthsStay(h: Hub, p: nat, pick: Pick)
    requires Traceable(h) && CanExec(h, p, pick) && NoWrap(h, Exec(p, pick))
    ensures forall sid :: sid in h.born ==>
        sid in DoExec(h, p, pick).born && DoExec(h, p, pick).born[sid] == h.born[sid]
  {
    hide Isolated, KnownPeer, FirstFree, OthersIn, NoDup, SessionsOf;
    if h.peers[p].ops[0].Alloc? { NextIsFree(h.sessions, h.born, h.nextSess, pick.sid); }
  }

  /** A connection that carries on, takes up a client's message, or begins to leave. */
  ghost predicate Calm(x: Peer, x': Peer) {
    || (x'.left == x.left && x'.ops == x.ops)
    || ((x.left ==> x'.left)
        && (x'.ops != [] ==> !x'.ops[0].Enqueue? || !x'.ops[0].f.Ready?)
        && (x'.ops != [] ==> !x'.ops[0].DropSessions? && (x'.ops[0].Leave? ==> x'.left))
        && (forall e :: e in x'.ops && e.Enqueue? ==> !e.f.CloseTo?))
  }

  /** Steps other than a goroutine's leave the tables alone. */
  ghost predicate Aside(h: Hub, h': Hub) {
    && h'.sessions == h.sessions && h'.born == h.born && h'.raced == h.raced && |h.peers| <= |h'.peers|
    && (forall q :: 0 <= q < |h.peers| ==> Calm(h.peers[q], h'.peers[q]))
    && (forall q :: |h.peers| <= q < |h'.peers| ==> h'.peers[q].ops == [Join])
  }

  lemma OtherAside(h: Hub, s: Step)
    requires CanStep(h, s) && !s.Exec?
    ensures Aside(h, Next(h, s))
  {
    hide CanExec, DoExec;
  }

  lemma OtherParts(h: Hub, s: Step)
    requires Parting(h) && RacedOk(h) && CanStep(h, s) && !s.Exec?
    requires forall sid :: sid in h.born ==> h.born[sid].from < |h.peers| && h.born[sid].to < |h.peers|
    requires forall sid :: sid in h.born && Polite(Next(h, s), sid) ==> Polite(h, sid)
    ensures Parting(Next(h, s)) && RacedOk(Next(h, s))
  {
    OtherAside(h, s);
    hide CanStep, Next, Polite;
    var h' := Next(h, s);
    forall sid | sid in h.born && Telling(h'.peers, h.born[sid]) ensures Telling(h.peers, h.born[sid]) {
      assert Calm(h.peers[h.born[sid].from], h'.peers[h.born[sid].from]);
    }
    forall sid | sid in h.born && Closing(h'.peers, h.born[sid]) ensures Closing(h.peers, h.born[sid]) {
      assert Calm(h.peers[h.born[sid].to], h'.peers[h.born[sid].to]);
    }
    forall q | 0 <= q < |h.peers| ensures Calm(h.peers[q], h'.peers[q]) { }
    hide Telling, Closing;
  }

  lemma EndsThere(h: Hub)
    requires Traceable(h)
    ensures forall sid :: sid in h.born ==> h.born[sid].from < |h.peers| && h.born[sid].to < |h.peers|
  {
    assert Isolated(h);
    hide Traceable, Isolated;
    forall sid | sid in h.born ensures h.born[sid].from < |h.peers| && h.born[sid].to < |h.peers| {
      EndsDiffer(h, sid);
    }
  }

  lemma ExecRisks(h: Hub, p: nat, pick: Pick)
    requires Flowing(h) && CanExec(h, p, pick) && NoWrap(h, Exec(p, pick))
    ensures RacedOk(DoExec(h, p, pick))
  {
    assert RacedOk(h);
    ExecBounds(h, p, pick);
    ExecParts(h, p, pick);
    FlowingTraceable(h);
    BirthsStay(h, p, pick);
    SameRaces(h, p, pick);
    var h', op := DoExec(h, p, pick), h.peers[p].ops[0];
    hide Flowing, Traceable, CanExec, DoExec, NoWrap, AtRisk, Polite, Telling;
    if op.Enqueue? && Overtakes(h, op.to, op.f) { OvertakesOwn(h, op.to, op.f); }
    hide Overtakes;
    forall sid | AtRisk(h', sid) && Polite(h', sid)
      ensures sid in h'.born && h'.born[sid].to < |h'.peers| && h'.peers[h'.born[sid].to].left
    {
      if AtRisk(h, sid) {
        RiskIsBorn(h, sid);
        ExecPolite(h, p, pick, sid);
      } else {
        RiskGrows(h, p, pick, sid);
      }
    }
    assert forall sid :: AtRisk(h', sid) ==> sid in h'.born by {
      forall sid | AtRisk(h', sid) ensures sid in h'.born { RiskIsBorn(h', sid); }
    }
  }

  lemma RiskIsBorn(h: Hub, sid: nat)
    requires AtRisk(h, sid)
    ensures sid in h.born
  {
  }

  lemma StepParts(h: Hub, s: Step)
    requires Flowing(h) && CanStep(h, s) && NoWrap(h, s)
    ensures Parting(Next(h, s)) && RacedOk(Next(h, s))
  {
    hide Traceable, SessionOk, CanExec, DoExec, RacedOk, Polite;
    if s.Exec? {
      ExecBounds(h, s.p, s.pick);
      ExecParts(h, s.p, s.pick);
      ExecRisks(h, s.p, s.pick);
      hide Flowing;
    } else {
      FlowingTraceable(h);
      EndsThere(h);
      forall sid | sid in h.born && Polite(Next(h, s), sid) ensures Polite(h, sid) { StepPolite(h, s, sid); }
      OtherParts(h, s);
    }
  }

  lemma StepFlows(h: Hub, s: Step)
    requires Flowing(h) && CanStep(h, s) && NoWrap(h, s)
    ensures Flowing(Next(h, s))
  {
    assert Traceable(Next(h, s)) by {
      hide CanStep, Next, NoWrap, Traceable;
      StepTraceable(h, s);
    }
    forall sid | sid in Next(h, s).born && Polite(Next(h, s), sid)
      ensures SessionOk(FateOf(Next(h, s), sid), sid, Next(h, s).born[sid], Next(h, s).peers)
    {
      hide Flowing, CanExec, DoExec, Unbidden, SessionOk, NoWrap, Traceable, Polite;
      StepFlow(h, s, sid);
    }
    assert Parting(Next(h, s)) && RacedOk(Next(h, s)) by {
      hide Flowing, CanStep, Next, NoWrap, Parting, RacedOk;
      StepParts(h, s);
    }
    hide CanStep, Next, NoWrap, Traceable, SessionOk, Parting, RacedOk, Polite;
  }

  lemma StepFlow(h: Hub, s: Step, sid: nat)
    requires Flowing(h) && CanStep(h, s) && NoWrap(h, s) && sid in Next(h, s).born && Polite(Next(h, s), sid)
    ensures SessionOk(FateOf(Next(h, s), sid), sid, Next(h, s).born[sid], Next(h, s).peers)
  {
    FlowingTraceable(h);
    hide Flowing, CanExec, DoExec, Unbidden, SessionOk, NoWrap, Decode, Traceable, Polite;
    if sid in h.born { StepPolite(h, s, sid); }
    if s.Exec? { FlowExec(h, sid, s.p, s.pick); }
    else if s.Connect? { FlowConnect(h, sid, s); }
    else if s.Take? { FlowTake(h, sid, s.p, Next(h, s).peers[s.p]); }
    else if s.Die? { FlowingAt(h, sid); FlowCloses(FateOf(h, sid), sid, h.born[sid], h.peers, s.p); }
    else { FlowMoves(h, sid, s); }
  }

  /** A run in which the id counter does not come round. */
  ghost predicate IsUnwrapped(h: Hub, steps: seq<Step>)
    decreases |steps|
  {
    steps != [] ==> CanStep(h, steps[0]) && NoWrap(h, steps[0]) && IsUnwrapped(Next(h, steps[0]), steps[1..])
  }

  lemma {:induction false} RunFlows(h: Hub, steps: seq<Step>, last: Hub)
    requires Flowing(h) && IsRun(h, steps, last) && IsUnwrapped(h, steps)
    ensures Flowing(last)
    decreases |steps|
  {
    if steps != [] {
      StepFlows(h, steps[0]);
      hide Flowing, CanStep, Next, NoWrap;
      RunFlows(Next(h, steps[0]), steps[1..], last);
    }
  }

  lemma EmptyFlows()
    ensures Flowing(EMPTY)
  {
  }

  /** What connection p's client has been handed about a session. */
  function Heard(h: Hub, sid: nat, p: nat): seq<Down>
    requires p < |h.peers|
  {
    About(sid, h.peers[p].seen)
  }

  lemma {:induction false} AboutConcat(sid: nat, a: seq<Mail>, b: seq<Mail>)
    ensures About(sid, a + b) == About(sid, a) + About(sid, b)
  {
    if b == [] {
      assert a + b == a;
    } else {
      assert (a + b)[..|a + b| - 1] == a + b[..|b| - 1];
      AboutConcat(sid, a, b[..|b| - 1]);
    }
  }

  lemma SeenIsPrefix(sid: nat, x: Peer) returns (rest: seq<Down>)
    ensures About(sid, Box(x)) == About(sid, x.seen) + rest
  {
    var more := x.down + (if x.hand.Some? then [x.hand.value] else []) + x.queue;
    assert Box(x) == x.seen + more;
    AboutConcat(sid, x.seen, more);
    rest := About(sid, more);
  }

  /**
   * The relay is a FIFO channel per session and direction, and a session has a shape: in
   * every run, for every session ever opened whose own two ends have spoken of it only once
   * it was announced to them, whatever all others do, each client has been handed a prefix of the
   * frames and acknowledgements the server took from the other, in order; the target has
   * been handed nothing, or an announcement, then traffic, then at most one close and
   * nothing after it; the opener likewise, unless its close was queued for it before its
   * announcement, which only a departing target does: then it is handed nothing, or the close
   * and after it at most the announcement; and the two clients together are handed at most
   * one close.
   */
  lemma RelayIsFifo(steps: seq<Step>, last: Hub, sid: nat)
    requires IsRun(EMPTY, steps, last) && IsUnwrapped(EMPTY, steps) && sid in last.born && Polite(last, sid)
    ensures var s := last.born[sid];
      && s.from < |last.peers| && s.to < |last.peers|
      && Leads(Data(Heard(last, sid, s.to)), Said(sid, last.peers[s.from].took))
      && Leads(Data(Heard(last, sid, s.from)), Said(sid, last.peers[s.to].took))
      && Reading(Heard(last, sid, s.to)) != Wrong
      && (if sid in last.raced then Heard(last, sid, s.from) == [] || Overtaken(Heard(last, sid, s.from))
          else Reading(Heard(last, sid, s.from)) != Wrong)
      && (sid in last.raced ==> last.peers[s.to].left)
      && Closes(Heard(last, sid, s.from)) + Closes(Heard(last, sid, s.to)) <= 1
  {
    hide Flowing, SessionOk, IsRun, IsUnwrapped, Polite, Data, Reading, Closes, Leads, Overtaken, About, Said;
    EmptyFlows();
    RunFlows(EMPTY, steps, last);
    FlowingAt(last, sid);
    SessionKept(FateOf(last, sid), sid, last.born[sid], last.peers);
    assert RacedOk(last) by { RacedIsGone(last); }
  }

  lemma RacedIsGone(h: Hub)
    requires Flowing(h)
    ensures RacedOk(h)
  {
    hide Traceable, SessionOk, Parting;
  }

  lemma SessionKept(fate: Fate, sid: nat, s: Sess, peers: seq<Peer>)
    requires SessionOk(fate, sid, s, peers)
    ensures s.from < |peers| && s.to < |peers|
    ensures Leads(Data(About(sid, peers[s.to].seen)), Said(sid, peers[s.from].took))
    ensures Leads(Data(About(sid, peers[s.from].seen)), Said(sid, peers[s.to].took))
    ensures Reading(About(sid, peers[s.to].seen)) != Wrong
    ensures var w := About(sid, peers[s.from].seen); if fate.raced then w == [] || Overtaken(w) else Reading(w) != Wrong
    ensures Closes(About(sid, peers[s.from].seen)) + Closes(About(sid, peers[s.to].seen)) <= 1
  {
    var o, c := peers[s.from], peers[s.to];
    var a, b := AspectOf(sid, s, o), AspectOf(sid, s, c);
    assert a.box == About(sid, Box(o)) && b.box == About(sid, Box(c)) && a.said == Said(sid, o.took)
           && b.said == Said(sid, c.took);
    hide ViewInv, Box, About, Said, AspectOf, Data, Reading, Closes, Overtaken, Leads;
    Promised(LookAt(fate, a, b));
    EndKept(sid, o, b.said);
    EndKept(sid, c, a.said);
  }

  /** What holds of everything on its way to a client holds of what it has been handed. */
  lemma EndKept(sid: nat, x: Peer, said: seq<Down>)
    ensures Leads(Data(About(sid, Box(x))), said) ==> Leads(Data(About(sid, x.seen)), said)
    ensures Reading(About(sid, Box(x))) != Wrong ==> Reading(About(sid, x.seen)) != Wrong
    ensures Overtaken(About(sid, Box(x))) || About(sid, Box(x)) == [] ==>
        Overtaken(About(sid, x.seen)) || About(sid, x.seen) == []
    ensures Closes(About(sid, x.seen)) <= Closes(About(sid, Box(x)))
  {
    hide Box, About, Data, Reading, Closes;
    var rest := SeenIsPrefix(sid, x);
    PrefixReads(About(sid, x.seen), rest);
    OvertakenStart(About(sid, x.seen), rest);
    hide Overtaken;
  }

  /** All a client has passed to its socket, whether the server has read it or not. */
  function Sent(x: Peer): seq<Up> { x.took + x.up }

  lemma {:induction false} SaidConcat(sid: nat, a: seq<Up>, b: seq<Up>)
    ensures Leads(Said(sid, a), Said(sid, a + b))
  {
    if b == [] {
      assert a + b == a;
    } else {
      assert (a + b)[..|a + b| - 1] == a + b[..|b| - 1];
      SaidConcat(sid, a, b[..|b| - 1]);
    }
  }

  /** What is delivered about a session is a prefix of what was sent about it. */
  lemma DeliveredInOrder(steps: seq<Step>, last: Hub, sid: nat)
    requires IsRun(EMPTY, steps, last) && IsUnwrapped(EMPTY, steps) && sid in last.born && Polite(last, sid)
    ensures last.born[sid].from < |last.peers| && last.born[sid].to < |last.peers|
    ensures Leads(Data(Heard(last, sid, last.born[sid].to)), Said(sid, Sent(last.peers[last.born[sid].from])))
    ensures Leads(Data(Heard(last, sid, last.born[sid].from)), Said(sid, Sent(last.peers[last.born[sid].to])))
  {
    hide IsRun, IsUnwrapped, Polite, Data, Said, About;
    RelayIsFifo(steps, last, sid);
    var o, c := last.peers[last.born[sid].from], last.peers[last.born[sid].to];
    SaidConcat(sid, o.took, o.up);
    SaidConcat(sid, c.took, c.up);
  }

  lemma OvertakenStart(a: seq<Down>, b: seq<Down>)
    ensures Overtaken(a + b) || a + b == [] ==> Overtaken(a) || a == []
  {
    assert a == [] || a[0] == (a + b)[0];
    assert |a| == 2 ==> a[1] == (a + b)[1];
  }
}
