/**
 * The two ends of a relay session, with their counters, over a session of a running hub. What
 * an end is told comes from the frames its client has been handed. Every run of this whole is
 * a run of RelayCredit, so its bounds hold here, and a sender waiting for credit is never
 * waiting for nothing.
 */
module CreditOverRelay {
  import opened Basics
  import opened RelayCredit
  import opened RelayChannel
  import RelayProtocol
  import H = HubSystem
  import HubProgress
  import HubRace
  import HubSafety
  import HubSessions
  import HubTraffic
  import SessionView
  import TransferProtocol

  // ------------------------------------------------------------------- state

  /**
   * One end: its counters; the frames and acknowledgements it has made, with history's names
   * for them; and how many of those its client has been handed it has dealt with.
   */
  datatype Party = Party(side: Side, wrote: seq<Carried>, taken: nat)

  datatype World = World(a: Party, b: Party, lost: bool, hub: H.Hub)

  datatype Turn = Server(s: H.Step) | OfA(act: Action) | OfB(act: Action) | Lost

  /** The traffic connection p's client has been handed on the session. */
  function Handed(h: H.Hub, sid: nat, p: nat): seq<H.Down>
    requires p < |h.peers|
  {
    SessionView.Data(HubTraffic.Heard(h, sid, p))
  }

  /** The traffic connection p's client has put on its socket for the session. */
  function Socketed(h: H.Hub, sid: nat, p: nat): seq<H.Down>
    requires p < |h.peers|
  {
    HubTraffic.Said(sid, HubTraffic.Sent(h.peers[p]))
  }

  predicate Matches(f: H.Down, x: Carried) {
    match x
    case Data(item) =>
      f.Payload? && RelayProtocol.Parse(f.data).Some? && |RelayProtocol.Parse(f.data).value.body| == item.size
    case Ack(bytes) => f.AckTo? && f.bytes == bytes
  }

  /** A client puts on its socket what its end has made, in order. */
  predicate AllMatch(fs: seq<H.Down>, xs: seq<Carried>) {
    |fs| <= |xs| && forall k :: 0 <= k < |fs| ==> Matches(fs[k], xs[k])
  }

  predicate Honest(l: Line, h: H.Hub, wroteA: seq<Carried>, wroteB: seq<Carried>) {
    Joins(h, l) ==> AllMatch(Socketed(h, l.sid, l.a), wroteA) && AllMatch(Socketed(h, l.sid, l.b), wroteB)
  }

  /** What an end makes of a frame: its numbers are the frame's own, its name is history's. */
  function Read(f: H.Down, name: Carried): Carried {
    if f.AckTo? then Ack(f.bytes)
    else if f.Payload? && RelayProtocol.Parse(f.data).Some? && name.Data? then
      Data(name.item.(size := |RelayProtocol.Parse(f.data).value.body|))
    else name
  }

  /** What has been handed to the client and is still to be dealt with. */
  function Waiting(h: H.Hub, l: Line, toA: bool, taken: nat, wrote: seq<Carried>): seq<Carried> {
    if !Joins(h, l) then []
    else
      var fs := Handed(h, l.sid, if toA then l.a else l.b);
      if taken <= |fs| <= |wrote|
      then seq(|fs| - taken, k requires 0 <= k < |fs| - taken => Read(fs[taken + k], wrote[taken + k])) else []
  }

  function Inbox(l: Line, w: World, toA: bool): Pipe {
    var wait := if toA then Waiting(w.hub, l, true, w.a.taken, w.b.wrote)
      else Waiting(w.hub, l, false, w.b.taken, w.a.wrote);
    Pipe(if w.lost then [] else wait, w.lost)
  }

  /** Both clients speak for the session only once it has been announced to them. */
  ghost predicate Waited(l: Line, h: H.Hub) { Joins(h, l) ==> HubSessions.Polite(h, l.sid) }

  ghost predicate CanTurn(l: Line, w: World, turn: Turn) {
    match turn
    case Server(s) =>
      && H.CanStep(w.hub, s) && HubSessions.NoWrap(w.hub, s) && Waited(l, H.Next(w.hub, s))
      && Honest(l, H.Next(w.hub, s), w.a.wrote, w.b.wrote)
    case OfA(act) => CanAct(w.a.side, Inbox(l, w, true), act)
    case OfB(act) => CanAct(w.b.side, Inbox(l, w, false), act)
    case Lost => true
  }

  function Moves(e: Party, inbox: Pipe, act: Action): Party
    requires CanAct(e.side, inbox, act)
  {
    var m := Act(e.side, Pipe(e.wrote, inbox.cut), inbox, act);
    Party(m.me, m.out.flow, if act.Deliver? then e.taken + 1 else e.taken)
  }

  ghost function After(l: Line, w: World, turn: Turn): World
    requires CanTurn(l, w, turn)
  {
    match turn
    case Server(s) => w.(hub := H.Next(w.hub, s))
    case OfA(act) => w.(a := Moves(w.a, Inbox(l, w, true), act))
    case OfB(act) => w.(b := Moves(w.b, Inbox(l, w, false), act))
    case Lost => w.(lost := true)
  }

  const NEW_PARTY := Party(NEW, [], 0)
  const NEW_WORLD := World(NEW_PARTY, NEW_PARTY, false, H.EMPTY)

  ghost predicate IsCarried(l: Line, w: World, turns: seq<Turn>, last: World)
    decreases |turns|
  {
    if turns == [] then w == last
    else CanTurn(l, w, turns[0]) && IsCarried(l, After(l, w, turns[0]), turns[1..], last)
  }

  // ------------------------------------------------------------- simulation

  /** Made and not yet dealt with at the far end, unless the path is lost. */
  function UnderWay(wrote: seq<Carried>, taken: nat, lost: bool): Pipe {
    Pipe(if lost || taken > |wrote| then [] else wrote[taken..], lost)
  }

  predicate Alike(w: World, k: Link) {
    && k.a == w.a.side && k.b == w.b.side
    && k.ab == UnderWay(w.a.wrote, w.b.taken, w.lost) && k.ba == UnderWay(w.b.wrote, w.a.taken, w.lost)
  }

  ghost predicate Sound(l: Line, w: World) {
    && HubRace.Reached(H.EMPTY, w.hub) && Waited(l, w.hub) && Honest(l, w.hub, w.a.wrote, w.b.wrote)
    && w.a.taken <= |w.b.wrote| && w.b.taken <= |w.a.wrote|
  }

  /** An end does the same on any path that brings it the same and is as whole. */
  lemma ActAlike(me: Side, out: Pipe, inc: Pipe, out': Pipe, inc': Pipe, act: Action) returns (more: seq<Carried>)
    requires CanAct(me, inc, act) && out'.cut == out.cut
    requires act.Deliver? ==> inc'.flow != [] && inc'.flow[0] == inc.flow[0]
    ensures CanAct(me, inc', act)
    ensures var m, m' := Act(me, out, inc, act), Act(me, out', inc', act);
      && m'.me == m.me && m'.out.cut == out.cut && (out.cut ==> more == [])
      && m.out.flow == out.flow + more && m'.out.flow == out'.flow + more
      && m'.inc == (if act.Deliver? then inc'.(flow := inc'.flow[1..]) else inc')
  {
    var m := Act(me, out, inc, act);
    more := m.out.flow[|out.flow|..];
    hide RelayProtocol.Took, RelayProtocol.Flushed, Total;
  }

  lemma UnderWayMore(wrote: seq<Carried>, taken: nat, lost: bool, more: seq<Carried>)
    requires taken <= |wrote| && (lost ==> more == [])
    ensures UnderWay(wrote + more, taken, lost).flow == UnderWay(wrote, taken, lost).flow + more
  {
    if !lost { assert (wrote + more)[taken..] == wrote[taken..] + more; } else { assert wrote + more == wrote; }
  }

  lemma UnderWayLess(wrote: seq<Carried>, taken: nat)
    requires taken < |wrote|
    ensures var p := UnderWay(wrote, taken, false); p.flow != [] && p.flow[0] == wrote[taken]
    ensures UnderWay(wrote, taken + 1, false).flow == UnderWay(wrote, taken, false).flow[1..]
  {
    assert wrote[taken..][1..] == wrote[taken + 1..];
  }

  lemma ReadBack(f: H.Down, x: Carried)
    requires Matches(f, x)
    ensures Read(f, x) == x
  {
  }

  lemma HandedLeads(l: Line, w: World)
    requires Sound(l, w) && Joins(w.hub, l)
    ensures AllMatch(Handed(w.hub, l.sid, l.b), w.a.wrote) && AllMatch(Handed(w.hub, l.sid, l.a), w.b.wrote)
  {
    var h := w.hub;
    hide SessionView.Data, HubTraffic.Said, HubTraffic.Heard, HubTraffic.Sent, H.IsRun, HubTraffic.IsUnwrapped,
         HubSessions.Polite, Matches;
    var steps :| H.IsRun(H.EMPTY, steps, h) && HubTraffic.IsUnwrapped(H.EMPTY, steps);
    HubTraffic.DeliveredInOrder(steps, h, l.sid);
  }

  lemma FirstWaits(h: H.Hub, l: Line, toA: bool, taken: nat, wrote: seq<Carried>)
    requires Joins(h, l) ==> AllMatch(Handed(h, l.sid, if toA then l.a else l.b), wrote)
    requires Waiting(h, l, toA, taken, wrote) != []
    ensures taken < |wrote| && Waiting(h, l, toA, taken, wrote)[0] == wrote[taken]
  {
    var fs := Handed(h, l.sid, if toA then l.a else l.b);
    hide Handed, Matches, Read;
    ReadBack(fs[taken], wrote[taken]);
  }

  /** What an end deals with next is the next of what the other made. */
  lemma NextIsNext(l: Line, w: World, toA: bool)
    requires Sound(l, w) && Inbox(l, w, toA).flow != []
    ensures var taken, wrote := (if toA then w.a else w.b).taken, (if toA then w.b else w.a).wrote;
      !w.lost && taken < |wrote| && Inbox(l, w, toA).flow[0] == wrote[taken]
  {
    if Joins(w.hub, l) { HandedLeads(l, w); }
    hide Sound, Handed, AllMatch, Waiting, Joins;
    if toA {
      FirstWaits(w.hub, l, true, w.a.taken, w.b.wrote);
    } else {
      FirstWaits(w.hub, l, false, w.b.taken, w.a.wrote);
    }
  }

  /** One end's turn, and the far end's view of it. */
  lemma EndTurns(e: Party, far: Party, inbox: Pipe, act: Action, out: Pipe, inc: Pipe) returns (more: seq<Carried>)
    requires CanAct(e.side, inbox, act) && e.taken <= |far.wrote| && far.taken <= |e.wrote|
    requires out == UnderWay(e.wrote, far.taken, inbox.cut) && inc == UnderWay(far.wrote, e.taken, inbox.cut)
    requires act.Deliver? ==> !inbox.cut && e.taken < |far.wrote| && inbox.flow[0] == far.wrote[e.taken]
    ensures CanAct(e.side, inc, act)
    ensures var e', m := Moves(e, inbox, act), Act(e.side, out, inc, act);
      && e'.side == m.me && e'.wrote == e.wrote + more && e'.taken <= |far.wrote|
      && m.out == UnderWay(e'.wrote, far.taken, inbox.cut) && m.inc == UnderWay(far.wrote, e'.taken, inbox.cut)
  {
    if act.Deliver? { UnderWayLess(far.wrote, e.taken); }
    more := ActAlike(e.side, Pipe(e.wrote, inbox.cut), inbox, out, inc, act);
    UnderWayMore(e.wrote, far.taken, inbox.cut, more);
    hide Act, CanAct;
  }

  lemma HonestStays(l: Line, h: H.Hub, wroteA: seq<Carried>, wroteB: seq<Carried>, more: seq<Carried>)
    requires Honest(l, h, wroteA, wroteB)
    ensures Honest(l, h, wroteA + more, wroteB) && Honest(l, h, wroteA, wroteB + more)
  {
    hide Socketed, Matches;
  }

  function StepOf(turn: Turn): seq<Step> {
    match turn
    case Server(_) => []
    case OfA(act) => [ByA(act)]
    case OfB(act) => [ByB(act)]
    case Lost => [CutAB, CutBA]
  }

  function StepsOf(turns: seq<Turn>): seq<Step> {
    if turns == [] then [] else StepOf(turns[0]) + StepsOf(turns[1..])
  }

  lemma AStays(l: Line, w: World, act: Action, k: Link)
    requires Sound(l, w) && Alike(w, k) && CanTurn(l, w, OfA(act))
    ensures CanStep(k, ByA(act))
    ensures var w' := After(l, w, OfA(act)); Sound(l, w') && Alike(w', Next(k, ByA(act)))
  {
    if act.Deliver? { NextIsNext(l, w, true); }
    hide Act, CanAct, Moves, Waiting, HubRace.Reached, Waited, Honest, UnderWay;
    var more := EndTurns(w.a, w.b, Inbox(l, w, true), act, k.ab, k.ba);
    HonestStays(l, w.hub, w.a.wrote, w.b.wrote, more);
  }

  lemma BStays(l: Line, w: World, act: Action, k: Link)
    requires Sound(l, w) && Alike(w, k) && CanTurn(l, w, OfB(act))
    ensures CanStep(k, ByB(act))
    ensures var w' := After(l, w, OfB(act)); Sound(l, w') && Alike(w', Next(k, ByB(act)))
  {
    if act.Deliver? { NextIsNext(l, w, false); }
    hide Act, CanAct, Moves, Waiting, HubRace.Reached, Waited, Honest, UnderWay;
    var more := EndTurns(w.b, w.a, Inbox(l, w, false), act, k.ba, k.ab);
    HonestStays(l, w.hub, w.a.wrote, w.b.wrote, more);
  }

  lemma ServerStays(l: Line, w: World, s: H.Step, k: Link)
    requires Sound(l, w) && Alike(w, k) && CanTurn(l, w, Server(s))
    ensures var w' := After(l, w, Server(s)); Sound(l, w') && Alike(w', k)
  {
    hide H.CanStep, H.Next, HubRace.Reached, HubSessions.NoWrap, Honest, Waited, UnderWay;
    HubRace.Go(H.EMPTY, w.hub, s);
  }

  /** Each turn here is one step there, or none, or two. */
  lemma TurnStays(l: Line, w: World, turn: Turn, k: Link) returns (k': Link)
    requires Sound(l, w) && Alike(w, k) && CanTurn(l, w, turn)
    ensures IsRun(k, StepOf(turn), k') && Sound(l, After(l, w, turn)) && Alike(After(l, w, turn), k')
  {
    match turn
    case Server(s) => ServerStays(l, w, s, k); k' := k;
    case OfA(act) =>
      AStays(l, w, act, k);
      k' := Next(k, ByA(act));
      OneStep(k, ByA(act));
    case OfB(act) =>
      BStays(l, w, act, k);
      k' := Next(k, ByB(act));
      OneStep(k, ByB(act));
    case Lost =>
      hide HubRace.Reached, Honest, Waited;
      k' := Next(Next(k, CutAB), CutBA);
      OneStep(Next(k, CutAB), CutBA);
      assert [CutAB, CutBA][1..] == [CutBA];
  }

  lemma OneStep(k: Link, step: Step)
    requires CanStep(k, step)
    ensures IsRun(k, [step], Next(k, step))
  {
    assert [step][1..] == [];
    hide CanStep, Next;
  }

  lemma {:induction false} RunStays(l: Line, w: World, turns: seq<Turn>, last: World, k: Link) returns (k': Link)
    requires Sound(l, w) && Alike(w, k) && IsCarried(l, w, turns, last)
    ensures IsRun(k, StepsOf(turns), k') && Sound(l, last) && Alike(last, k')
    decreases |turns|
  {
    if turns == [] {
      k' := k;
    } else {
      var mid := TurnStays(l, w, turns[0], k);
      hide Sound, Alike, CanTurn, After, IsRun;
      k' := RunStays(l, After(l, w, turns[0]), turns[1..], last, mid);
      RunsJoin(k, StepOf(turns[0]), mid, StepsOf(turns[1..]), k');
    }
  }

  lemma NewIsSound(l: Line)
    ensures Sound(l, NEW_WORLD) && Alike(NEW_WORLD, INIT)
  {
    assert H.IsRun(H.EMPTY, [], H.EMPTY) && HubTraffic.IsUnwrapped(H.EMPTY, []);
  }

  // -------------------------------------------------------------- the results

  /** Whatever the server does, the two ends do, turn by turn, only what RelayCredit lets them. */
  lemma RelayRunIsCreditRun(l: Line, turns: seq<Turn>, last: World) returns (k: Link)
    requires IsCarried(l, NEW_WORLD, turns, last)
    ensures IsRun(INIT, StepsOf(turns), k) && Alike(last, k) && Sound(l, last)
  {
    hide Sound, Alike, IsCarried, IsRun;
    NewIsSound(l);
    k := RunStays(l, NEW_WORLD, turns, last, INIT);
  }

  /** So over a hub session too unacknowledged file bytes exceed the window by at most a chunk. */
  lemma WindowOverRelay(l: Line, turns: seq<Turn>, last: World)
    requires IsCarried(l, NEW_WORLD, turns, last)
    ensures FileBeyond(last.a.side.log, last.a.side.n.acked) <= RelayProtocol.CREDIT_WINDOW
        + TransferProtocol.CHUNK_SIZE
    ensures FileBeyond(last.b.side.log, last.b.side.n.acked) <= RelayProtocol.CREDIT_WINDOW
        + TransferProtocol.CHUNK_SIZE
    ensures last.a.side.n.acked <= last.b.side.n.ackedUpTo <= last.b.side.n.received <= last.a.side.n.sent
    ensures last.b.side.n.acked <= last.a.side.n.ackedUpTo <= last.a.side.n.received <= last.b.side.n.sent
  {
    var k := RelayRunIsCreditRun(l, turns, last);
    hide Sound, IsCarried, IsRun, FileBeyond, UnderWay;
    CreditHolds(StepsOf(turns), k);
    CountersNest(StepsOf(turns), k);
  }

  lemma IdleAspect(sid: nat, s: H.Sess, x: H.Peer)
    requires HubProgress.Settled(x) && !x.closed
    ensures var a := HubTraffic.AspectOf(sid, s, x);
      && a.box == HubTraffic.About(sid, x.seen) && a.said == HubTraffic.Said(sid, HubTraffic.Sent(x))
      && a.toOpener == [] && a.toTarget == [] && a.held == [] && !a.closed
  {
    assert HubSafety.Box(x) == x.seen && HubTraffic.Sent(x) == x.took;
    hide HubTraffic.About, HubTraffic.Said, HubSafety.Box;
  }

  /** When the hub has dealt with everything, all traffic of a session that lives has been handed over. */
  lemma IdleMeansHanded(h: H.Hub, l: Line)
    requires HubRace.Reached(H.EMPTY, h) && Waited(l, h) && Joins(h, l) && l.sid in h.sessions && HubProgress.Idle(h)
    requires !h.peers[l.a].closed && !h.peers[l.b].closed
    ensures Handed(h, l.sid, l.b) == Socketed(h, l.sid, l.a) && Handed(h, l.sid, l.a) == Socketed(h, l.sid, l.b)
  {
    var s := h.born[l.sid];
    IdleAspect(l.sid, s, h.peers[l.a]);
    IdleAspect(l.sid, s, h.peers[l.b]);
    hide H.IsRun, HubTraffic.IsUnwrapped, HubTraffic.Flowing, HubTraffic.SessionOk, HubTraffic.AspectOf,
         HubTraffic.About, HubTraffic.Said, HubTraffic.Sent, SessionView.Data, SessionView.ViewInv, HubSessions.Polite;
    var steps :| H.IsRun(H.EMPTY, steps, h) && HubTraffic.IsUnwrapped(H.EMPTY, steps);
    HubTraffic.EmptyFlows();
    HubTraffic.RunFlows(H.EMPTY, steps, h);
    HubTraffic.FlowingAt(h, l.sid);
    var fate := HubTraffic.FateOf(h, l.sid);
    HubTraffic.EndsIn(fate, l.sid, s, h.peers);
    var a, b := HubTraffic.AspectOf(l.sid, s, h.peers[s.from]), HubTraffic.AspectOf(l.sid, s, h.peers[s.to]);
    SessionView.AllQueued(HubTraffic.LookAt(fate, a, b));
  }

  lemma HubIsSane(h: H.Hub)
    requires HubRace.Reached(H.EMPTY, h)
    ensures HubSafety.Isolated(h) && h.nextSess <= H.MAX_SESSION
  {
    hide H.IsRun, HubTraffic.IsUnwrapped;
    var steps :| H.IsRun(H.EMPTY, steps, h) && HubTraffic.IsUnwrapped(H.EMPTY, steps);
    assert HubSafety.Isolated(H.EMPTY);
    hide HubSafety.Isolated;
    HubSafety.RunKeeps(H.EMPTY, steps, h);
    HubProgress.RunInRange(H.EMPTY, steps, h);
  }

  /** All that one end made has been dealt with at the other. */
  lemma NoneUnderWay(l: Line, w: World, toA: bool)
    requires Sound(l, w) && Joins(w.hub, l) && !w.lost && Inbox(l, w, toA).flow == []
    requires var p, q, wrote := if toA then l.a else l.b, if toA then l.b else l.a, (if toA then w.b else w.a).wrote;
             Handed(w.hub, l.sid, p) == Socketed(w.hub, l.sid, q) && |Socketed(w.hub, l.sid, q)| == |wrote|
    ensures UnderWay((if toA then w.b else w.a).wrote, (if toA then w.a else w.b).taken, w.lost).flow == []
  {
    hide Handed, Socketed, Honest, HubRace.Reached, Waited;
  }

  lemma SocketedFits(l: Line, w: World)
    requires Sound(l, w) && Joins(w.hub, l)
    ensures |Socketed(w.hub, l.sid, l.a)| <= |w.a.wrote| && |Socketed(w.hub, l.sid, l.b)| <= |w.b.wrote|
  {
    hide HubRace.Reached, Waited, Socketed, Matches;
  }

  /** Something of the session is still to be put on a socket, or to be dealt with. */
  predicate Busy(l: Line, w: World)
    requires Joins(w.hub, l)
  {
    || |Socketed(w.hub, l.sid, l.a)| < |w.a.wrote| || |Socketed(w.hub, l.sid, l.b)| < |w.b.wrote|
    || Inbox(l, w, true).flow != [] || Inbox(l, w, false).flow != []
  }

  lemma QuietMeansEmpty(l: Line, w: World)
    requires Sound(l, w) && Joins(w.hub, l) && !w.lost && l.sid in w.hub.sessions && !Busy(l, w)
    requires !w.hub.peers[l.a].closed && !w.hub.peers[l.b].closed && HubProgress.Idle(w.hub)
    ensures UnderWay(w.a.wrote, w.b.taken, w.lost) == UnderWay(w.b.wrote, w.a.taken, w.lost) == Pipe([], false)
  {
    SocketedFits(l, w);
    IdleMeansHanded(w.hub, l);
    hide Handed, Socketed, HubProgress.Idle, HubRace.Reached, Waited, Inbox, Honest;
    NoneUnderWay(l, w, true);
    NoneUnderWay(l, w, false);
  }

  /**
   * A sender out of credit over a session that lives is waiting for something that can happen:
   * the server or a client reading can move, a frame can go on a socket, or one of the ends
   * has been handed something to deal with.
   */
  lemma NoStallOverRelay(l: Line, turns: seq<Turn>, last: World, cap: nat)
    requires IsCarried(l, NEW_WORLD, turns, last) && !last.lost && Joins(last.hub, l) && l.sid in last.hub.sessions
    requires !last.hub.peers[l.a].closed && !last.hub.peers[l.b].closed
    requires cap >= 1 && |last.hub.sessions| < H.MAX_SESSION
    ensures !RelayProtocol.Credit(last.a.side.n) || !RelayProtocol.Credit(last.b.side.n) ==>
      (exists s :: HubProgress.CanWork(last.hub, s, cap)) || Busy(l, last)
  {
    var k := RelayRunIsCreditRun(l, turns, last);
    hide IsCarried, IsRun, Handed, Socketed, Busy, UnderWay, HubProgress.CanWork, HubProgress.Idle, HubSafety.Isolated,
         RelayProtocol.Credit, Joins;
    assert HubRace.Reached(H.EMPTY, last.hub);
    hide Sound, HubRace.Reached;
    HubIsSane(last.hub);
    if HubProgress.Stuck(last.hub, cap) && !Busy(l, last) {
      HubProgress.StuckMeansIdle(last.hub, cap);
      QuietMeansEmpty(l, last);
      NoStall(StepsOf(turns), k);
    }
  }
}
