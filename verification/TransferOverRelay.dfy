/**
 * Two Conversations whose transports are sessions of a running hub. Nothing here assumes
 * ordered transports: what reaches a Conversation is what its client has been handed by the
 * server. Every run of this whole is a run of TransferSystem, so its promises hold.
 */
module TransferOverRelay {
  import opened Basics
  import opened TransferProtocol
  import opened TransferSystem
  import SessionView
  import H = HubSystem
  import HubSessions
  import HubTraffic
  import HubRace
  import RelayProtocol
  import RelayChannel
  import TransferOrder
  import TransferRuns

  // ----------------------------------------------------------- what is carried

  type Carried = RelayChannel.Message

  /** One transport. */
  type Line = RelayChannel.Line

  /** JSON.stringify and JSON.parse with the encoding of text as bytes. */
  datatype Codec = Codec(json: Msg -> Bytes, parse: Bytes -> Msg)

  /** The only numbers of any size in a message of ours are whole. */
  predicate Plain(m: Msg) { m.DStart? && m.docSize.Some? ==> m.docSize.value == m.docSize.value.Floor as real }

  ghost predicate Legible(codec: Codec) { forall m: Msg :: Plain(m) && !m.Chunk? ==> codec.parse(codec.json(m)) == m }

  /** Chunks travel as they are, everything else as text. */
  function Pack(codec: Codec, m: Msg): Carried {
    if m.Chunk? then RelayChannel.Message(RelayProtocol.KIND_BINARY, m.data)
    else RelayChannel.Message(RelayProtocol.KIND_TEXT, codec.json(m))
  }

  function Unpack(codec: Codec, x: Carried): Msg {
    if x.kind == RelayProtocol.KIND_TEXT then codec.parse(x.body) else Chunk(x.body)
  }

  function PackAll(codec: Codec, ms: seq<Msg>): seq<Carried> {
    seq(|ms|, k requires 0 <= k < |ms| => Pack(codec, ms[k]))
  }

  function UnpackAll(codec: Codec, xs: seq<Carried>): seq<Msg> {
    seq(|xs|, k requires 0 <= k < |xs| => Unpack(codec, xs[k]))
  }

  lemma PackBack(codec: Codec, m: Msg)
    requires Legible(codec) && Plain(m)
    ensures Unpack(codec, Pack(codec, m)) == m
  {
  }

  // ------------------------------------------------------------------- state

  /**
   * One end: its conversation; all it has passed to send, transport by transport; and how
   * many of the messages that have reached its client the conversation has been given.
   */
  datatype End = End(conv: Conv, sent: seq<seq<Msg>>, taken: seq<nat>)

  datatype World = World(a: End, b: End, dead: set<nat>, hub: H.Hub)

  datatype Turn = Server(s: H.Step) | OfA(act: Action) | OfB(act: Action) | Lost(t: nat)

  /** The messages of a session that have reached connection p's client. */
  function Reached(h: H.Hub, sid: nat, p: nat): seq<Carried>
    requires p < |h.peers|
  {
    RelayChannel.Arrived(HubTraffic.Heard(h, sid, p))
  }

  /** The messages of a session that connection p's client has put on its socket. */
  function Written(h: H.Hub, sid: nat, p: nat): seq<Carried>
    requires p < |h.peers|
  {
    RelayChannel.Passed(sid, HubTraffic.Sent(h.peers[p]))
  }

  /** What has reached the client and is still to be given to the conversation. */
  function Waiting(codec: Codec, h: H.Hub, l: Line, toA: bool, taken: nat): seq<Msg> {
    if !RelayChannel.Joins(h, l) then []
    else
      var all := Reached(h, l.sid, if toA then l.a else l.b);
      if taken <= |all| then UnpackAll(codec, all[taken..]) else []
  }

  function Inbox(codec: Codec, lines: seq<Line>, h: H.Hub, toA: bool, taken: seq<nat>): seq<seq<Msg>>
    requires |taken| == |lines|
  {
    seq(|lines|, t requires 0 <= t < |lines| => Waiting(codec, h, lines[t], toA, taken[t]))
  }

  /** Messages by transport, as TransferSystem's functions take them; the history is not used. */
  function Log(wires: seq<seq<Msg>>): Dir { Dir(wires, [], 0, 0, map[], {}) }

  predicate Shaped(lines: seq<Line>, e: End) { |e.sent| == |e.taken| == |lines| }

  /** A client puts on its socket what was passed to send, in order. */
  predicate Honest(codec: Codec, lines: seq<Line>, h: H.Hub, sentA: seq<seq<Msg>>, sentB: seq<seq<Msg>>)
    requires |sentA| == |sentB| == |lines|
  {
    forall t :: 0 <= t < |lines| && RelayChannel.Joins(h, lines[t]) ==>
      && SessionView.Leads(Written(h, lines[t].sid, lines[t].a), PackAll(codec, sentA[t]))
      && SessionView.Leads(Written(h, lines[t].sid, lines[t].b), PackAll(codec, sentB[t]))
  }

  /** The two clients speak for a session only once it has been announced to them. */
  ghost predicate Waited(lines: seq<Line>, h: H.Hub) {
    forall t :: 0 <= t < |lines| && RelayChannel.Joins(h, lines[t]) ==> HubSessions.Polite(h, lines[t].sid)
  }

  ghost predicate CanTurn(codec: Codec, lines: seq<Line>, w: World, turn: Turn)
    requires Shaped(lines, w.a) && Shaped(lines, w.b)
  {
    match turn
    case Server(s) =>
      && H.CanStep(w.hub, s) && HubSessions.NoWrap(w.hub, s) && Waited(lines, H.Next(w.hub, s))
      && Honest(codec, lines, H.Next(w.hub, s), w.a.sent, w.b.sent)
    case OfA(act) => CanAct(w.a.conv, Log(w.a.sent), Log(Inbox(codec, lines, w.hub, true, w.a.taken)), w.dead, act)
    case OfB(act) => CanAct(w.b.conv, Log(w.b.sent), Log(Inbox(codec, lines, w.hub, false, w.b.taken)), w.dead, act)
    case Lost(_) => true
  }

  /** One stretch of a conversation, with what its client has for it. */
  function Moved(e: End, inbox: seq<seq<Msg>>, dead: set<nat>, act: Action): End
    requires |e.taken| == |inbox| && CanAct(e.conv, Log(e.sent), Log(inbox), dead, act)
  {
    var l := Act(e.conv, Log(e.sent), Log(inbox), dead, act);
    End(l.me, l.out.wires, if act.Deliver? then e.taken[act.t := e.taken[act.t] + 1] else e.taken)
  }

  ghost function After(codec: Codec, lines: seq<Line>, w: World, turn: Turn): World
    requires Shaped(lines, w.a) && Shaped(lines, w.b) && CanTurn(codec, lines, w, turn)
  {
    match turn
    case Server(s) => w.(hub := H.Next(w.hub, s))
    case OfA(act) => w.(a := Moved(w.a, Inbox(codec, lines, w.hub, true, w.a.taken), w.dead, act))
    case OfB(act) => w.(b := Moved(w.b, Inbox(codec, lines, w.hub, false, w.b.taken), w.dead, act))
    case Lost(t) => w.(dead := w.dead + {t})
  }

  /** Passed to send and not yet given to the far conversation, unless the transport is lost. */
  function UnderWay(sent: seq<Msg>, taken: nat, lost: bool): seq<Msg> {
    if lost || taken > |sent| then [] else sent[taken..]
  }

  function Wires(sent: seq<seq<Msg>>, taken: seq<nat>, dead: set<nat>): seq<seq<Msg>>
    requires |sent| == |taken|
  {
    seq(|sent|, t requires 0 <= t < |sent| => UnderWay(sent[t], taken[t], t in dead))
  }

  predicate CarefulTurn(care: Care, lines: seq<Line>, w: World, turn: Turn)
    requires Shaped(lines, w.a) && Shaped(lines, w.b)
  {
    match turn
    case OfA(act) => Careful(care, w.a.conv, w.b.conv, Log(Wires(w.a.sent, w.b.taken, w.dead)), act)
    case OfB(act) => Careful(care, w.b.conv, w.a.conv, Log(Wires(w.b.sent, w.a.taken, w.dead)), act)
    case _ => true
  }

  const NEW_HUB := H.EMPTY

  function NewEnd(n: nat): End { End(FRESH, Quiet(n), seq(n, _ => 0)) }

  function NewWorld(n: nat): World { World(NewEnd(n), NewEnd(n), {}, NEW_HUB) }

  ghost predicate IsCarried(care: Care, codec: Codec, lines: seq<Line>, w: World, turns: seq<Turn>, last: World)
    decreases |turns|
  {
    if turns == [] then w == last
    else
      && Shaped(lines, w.a) && Shaped(lines, w.b)
      && CanTurn(codec, lines, w, turns[0]) && CarefulTurn(care, lines, w, turns[0])
      && IsCarried(care, codec, lines, After(codec, lines, w, turns[0]), turns[1..], last)
  }

  // --------------------------------------------------------------- invariant

  predicate Behind(e: End, far: End) {
    |e.taken| == |far.sent| && forall t :: 0 <= t < |e.taken| ==> e.taken[t] <= |far.sent[t]|
  }

  predicate AllPlain(sent: seq<seq<Msg>>) { forall t :: 0 <= t < |sent| ==> forall m :: m in sent[t] ==> Plain(m) }

  ghost predicate Sound(codec: Codec, lines: seq<Line>, w: World) {
    && Shaped(lines, w.a) && Shaped(lines, w.b) && AllPlain(w.a.sent) && AllPlain(w.b.sent)
    && HubRace.Reached(H.EMPTY, w.hub) && Waited(lines, w.hub)
    && Honest(codec, lines, w.hub, w.a.sent, w.b.sent)
    && Behind(w.a, w.b) && Behind(w.b, w.a)
  }

  /** The transfer system with the same ends has in flight what is under way here. */
  ghost predicate Alike(w: World, n: Net) {
    && |w.a.sent| == |w.b.taken| && |w.b.sent| == |w.a.taken|
    && n.a == w.a.conv && n.b == w.b.conv && n.dead == w.dead
    && n.ab.wires == Wires(w.a.sent, w.b.taken, w.dead)
    && n.ba.wires == Wires(w.b.sent, w.a.taken, w.dead)
  }

  // ------------------------------------------- one stretch, here and over there

  function Plus(wires: seq<seq<Msg>>, t: nat, sends: seq<Msg>, dead: set<nat>): seq<seq<Msg>> {
    if t < |wires| && t !in dead then wires[t := wires[t] + sends] else wires
  }

  lemma SendsPlain(c: Conv)
    ensures ValidTask(c.task) ==> forall m :: m in Advance(c).sends ==> Plain(m)
    ensures c.task.Acquiring? ==> forall t: nat, m :: m in Acquired(c, t).sends ==> Plain(m)
    ensures forall n: nat, yes: bool, m :: n < |c.dialogs| && m in AnswerDialog(c, n, yes).sends ==> Plain(m)
  {
  }

  lemma RepliesPlain(c: Conv, m: Msg, t: nat)
    ensures forall x :: x in OnMessage(c, m, t).sends ==> Plain(x)
  {
    hide Flatten;
  }

  lemma PlainPlus(sent: seq<seq<Msg>>, t: nat, sends: seq<Msg>, dead: set<nat>)
    requires AllPlain(sent) && forall m :: m in sends ==> Plain(m)
    ensures AllPlain(Plus(sent, t, sends, dead))
  {
    hide Plain;
  }

  /** An end does the same with any wires on which the message it takes is next. */
  lemma ActAlike(me: Conv, out: Dir, inc: Dir, out': Dir, inc': Dir, dead: set<nat>, act: Action)
    returns (t: nat, sends: seq<Msg>)
    requires |out.wires| == |out'.wires| && CanAct(me, out, inc, dead, act)
    requires act.Deliver? ==>
        act.t < |inc'.wires| && inc'.wires[act.t] != [] && inc'.wires[act.t][0] == inc.wires[act.t][0]
    ensures CanAct(me, out', inc', dead, act)
    ensures var l, l' := Act(me, out, inc, dead, act), Act(me, out', inc', dead, act);
      && l'.me == l.me
      && l.out.wires == Plus(out.wires, t, sends, dead) && l'.out.wires == Plus(out'.wires, t, sends, dead)
      && l'.inc.wires == (if act.Deliver? then inc'.wires[act.t := inc'.wires[act.t][1..]] else inc'.wires)
    ensures forall m :: m in sends ==> Plain(m)
  {
    SendsPlain(me);
    if act.Deliver? { RepliesPlain(me, inc.wires[act.t][0], act.t); }
    hide Plain, OnMessage, Advance, AnswerDialog, Acquired, Fail, Begin, CancelJob, Stream, Contents;
    match act
    case SendText(u, body) => t, sends := u, [Text(body)];
    case Acquire(u) => t, sends := u, Acquired(me, u).sends;
    case Resume => t, sends := TaskTransport(me.task), Advance(me).sends;
    case Deliver(u) => t, sends := u, OnMessage(me, inc.wires[u][0], u).sends;
    case Answer(n, accepted) => t, sends := me.dialogs[n].on, AnswerDialog(me, n, accepted).sends;
    case Start(_) => t, sends := |out.wires|, [];
    case Fault => t, sends := |out.wires|, [];
    case CancelBy(_) => t, sends := |out.wires|, [];
  }

  lemma WiresPlus(sent: seq<seq<Msg>>, taken: seq<nat>, dead: set<nat>, t: nat, sends: seq<Msg>)
    requires |sent| == |taken| && forall u :: 0 <= u < |sent| ==> taken[u] <= |sent[u]|
    ensures Wires(Plus(sent, t, sends, dead), taken, dead) == Plus(Wires(sent, taken, dead), t, sends, dead)
  {
    if t < |sent| && t !in dead {
      assert (sent[t] + sends)[taken[t]..] == sent[t][taken[t]..] + sends;
    }
  }

  lemma WiresTaken(sent: seq<seq<Msg>>, taken: seq<nat>, dead: set<nat>, t: nat)
    requires |sent| == |taken| && t < |sent| && t !in dead && taken[t] < |sent[t]|
    ensures var w := Wires(sent, taken, dead);
      w[t] != [] && Wires(sent, taken[t := taken[t] + 1], dead) == w[t := w[t][1..]]
  {
    assert sent[t][taken[t]..][1..] == sent[t][taken[t] + 1..];
  }

  lemma WiresLost(sent: seq<seq<Msg>>, taken: seq<nat>, dead: set<nat>, t: nat, d: Dir)
    requires |sent| == |taken| && d.wires == Wires(sent, taken, dead)
    ensures Lose(d, t).wires == Wires(sent, taken, dead + {t})
  {
    hide Stream;
  }

  // ------------------------------------------------------ what the relay brings

  lemma LeadsOn<T>(a: seq<T>, b: seq<T>, c: seq<T>)
    requires SessionView.Leads(a, b) && SessionView.Leads(b, c)
    ensures SessionView.Leads(a, c)
  {
    assert a == c[..|b|][..|a|];
  }

  /** In a hub run, what has reached one end of a line is the first of what the other was told to send. */
  lemma ReachedLeads(codec: Codec, lines: seq<Line>, w: World, t: nat)
    requires Sound(codec, lines, w) && t < |lines| && RelayChannel.Joins(w.hub, lines[t])
    ensures SessionView.Leads(Reached(w.hub, lines[t].sid, lines[t].b), PackAll(codec, w.a.sent[t]))
    ensures SessionView.Leads(Reached(w.hub, lines[t].sid, lines[t].a), PackAll(codec, w.b.sent[t]))
  {
    var l, h := lines[t], w.hub;
    hide RelayChannel.Arrived, RelayChannel.Passed, PackAll, HubTraffic.Heard, H.IsRun, HubTraffic.IsUnwrapped,
         SessionView.Leads, HubSessions.Polite;
    var steps :| H.IsRun(H.EMPTY, steps, h) && HubTraffic.IsUnwrapped(H.EMPTY, steps);
    RelayChannel.MessagesArriveInOrder(steps, h, l.sid);
    LeadsOn(Reached(h, l.sid, l.b), Written(h, l.sid, l.a), PackAll(codec, w.a.sent[t]));
    LeadsOn(Reached(h, l.sid, l.a), Written(h, l.sid, l.b), PackAll(codec, w.b.sent[t]));
  }

  /** The message a conversation is given is the next of those the other passed to send. */
  lemma NextIsNext(codec: Codec, lines: seq<Line>, w: World, t: nat, toA: bool)
    requires Legible(codec) && Sound(codec, lines, w) && t < |lines|
    requires Waiting(codec, w.hub, lines[t], toA, (if toA then w.a else w.b).taken[t]) != []
    ensures var taken, sent := (if toA then w.a else w.b).taken[t], (if toA then w.b else w.a).sent[t];
      taken < |sent| && Waiting(codec, w.hub, lines[t], toA, taken)[0] == sent[taken]
  {
    ReachedLeads(codec, lines, w, t);
    var taken, sent := (if toA then w.a else w.b).taken[t], (if toA then w.b else w.a).sent[t];
    var all := Reached(w.hub, lines[t].sid, if toA then lines[t].a else lines[t].b);
    assert Plain(sent[taken]) by { assert sent[taken] in sent; }
    hide Sound, Legible, RelayChannel.Joins, Reached, Pack, Unpack;
    assert all[taken] == PackAll(codec, sent)[..|all|][taken] == Pack(codec, sent[taken]);
    PackBack(codec, sent[taken]);
  }

  // --------------------------------------------------------------- each turn

  lemma PackGrows(codec: Codec, x: seq<Carried>, sent: seq<Msg>, more: seq<Msg>)
    requires SessionView.Leads(x, PackAll(codec, sent))
    ensures SessionView.Leads(x, PackAll(codec, sent + more))
  {
    hide Pack;
  }

  lemma HonestStays(codec: Codec, lines: seq<Line>, h: H.Hub, sentA: seq<seq<Msg>>, sentB: seq<seq<Msg>>, t: nat,
                    sends: seq<Msg>, dead: set<nat>)
    requires |sentA| == |sentB| == |lines| && Honest(codec, lines, h, sentA, sentB)
    ensures Honest(codec, lines, h, Plus(sentA, t, sends, dead), sentB)
    ensures Honest(codec, lines, h, sentA, Plus(sentB, t, sends, dead))
  {
    hide Written, PackAll, SessionView.Leads;
    if t < |lines| && RelayChannel.Joins(h, lines[t]) {
      PackGrows(codec, Written(h, lines[t].sid, lines[t].a), sentA[t], sends);
      PackGrows(codec, Written(h, lines[t].sid, lines[t].b), sentB[t], sends);
    }
  }

  lemma CarefulAlike(care: Care, me: Conv, other: Conv, d: Dir, act: Action)
    requires Careful(care, me, other, Log(d.wires), act)
    ensures Careful(care, me, other, d, act)
  {
    hide Stream, Timely;
  }

  lemma TakesOne(e: End, inbox: seq<seq<Msg>>, dead: set<nat>, act: Action)
    requires CanAct(e.conv, Log(e.sent), Log(inbox), dead, act)
    ensures act.Deliver? ==> act.t < |inbox| && act.t !in dead && inbox[act.t] != []
  {
  }

  lemma BehindPlus(e: End, far: End, t: nat, sends: seq<Msg>, dead: set<nat>, taken: seq<nat>, e': End)
    requires Behind(e, far) && Behind(far, e) && |taken| == |far.sent|
    requires forall u :: 0 <= u < |taken| ==> taken[u] <= |far.sent[u]|
    requires e'.sent == Plus(e.sent, t, sends, dead) && e'.taken == taken
    ensures Behind(e', far) && Behind(far, e')
  {
  }

  /** What one end's turn is in the transfer system. */
  lemma EndTurns(e: End, far: End, inbox: seq<seq<Msg>>, dead: set<nat>, act: Action, out: Dir, inc: Dir)
    returns (t: nat, sends: seq<Msg>)
    requires |e.sent| == |e.taken| == |far.sent| == |far.taken| == |inbox| && Behind(e, far) && Behind(far, e)
    requires CanAct(e.conv, Log(e.sent), Log(inbox), dead, act)
    requires out.wires == Wires(e.sent, far.taken, dead) && inc.wires == Wires(far.sent, e.taken, dead)
    requires act.Deliver? ==> e.taken[act.t] < |far.sent[act.t]| && inbox[act.t][0] == far.sent[act.t][e.taken[act.t]]
    ensures CanAct(e.conv, out, inc, dead, act)
    ensures var e', l := Moved(e, inbox, dead, act), Act(e.conv, out, inc, dead, act);
      && e'.conv == l.me && e'.sent == Plus(e.sent, t, sends, dead) && |e'.taken| == |e.taken|
      && l.out.wires == Wires(e'.sent, far.taken, dead) && l.inc.wires == Wires(far.sent, e'.taken, dead)
      && Behind(e', far) && Behind(far, e')
    ensures forall m :: m in sends ==> Plain(m)
  {
    TakesOne(e, inbox, dead, act);
    hide Plain, Act, CanAct;
    if act.Deliver? { WiresTaken(far.sent, e.taken, dead, act.t); }
    hide Wires;
    t, sends := ActAlike(e.conv, Log(e.sent), Log(inbox), out, inc, dead, act);
    WiresPlus(e.sent, far.taken, dead, t, sends);
    hide Plus;
    var e' := Moved(e, inbox, dead, act);
    assert e'.taken == if act.Deliver? then e.taken[act.t := e.taken[act.t] + 1] else e.taken;
    assert e'.conv == Act(e.conv, Log(e.sent), Log(inbox), dead, act).me && e'.sent == Plus(e.sent, t, sends, dead);
    hide Moved;
    BehindPlus(e, far, t, sends, dead, e'.taken, e');
    hide Behind;
  }

  function StepOf(turn: Turn): seq<Step> {
    match turn
    case Server(_) => []
    case OfA(act) => [ByA(act)]
    case OfB(act) => [ByB(act)]
    case Lost(t) => [Close(t)]
  }

  /** The turns of the two ends, in order. */
  function StepsOf(turns: seq<Turn>): seq<Step> {
    if turns == [] then [] else StepOf(turns[0]) + StepsOf(turns[1..])
  }

  /** An action of A here is the same action of A there. */
  lemma AStays(care: Care, codec: Codec, lines: seq<Line>, w: World, act: Action, n: Net)
    requires Legible(codec) && Sound(codec, lines, w) && Alike(w, n)
    requires CanTurn(codec, lines, w, OfA(act)) && CarefulTurn(care, lines, w, OfA(act))
    ensures CanStep(n, ByA(act)) && CleanSwitch(care, n, ByA(act))
    ensures var w' := After(codec, lines, w, OfA(act)); Sound(codec, lines, w') && Alike(w', Next(n, ByA(act)))
  {
    var inbox := Inbox(codec, lines, w.hub, true, w.a.taken);
    TakesOne(w.a, inbox, w.dead, act);
    if act.Deliver? { NextIsNext(codec, lines, w, act.t, true); }
    hide Legible, CanAct, Act, Moved, Careful, Wires, Waiting, HubRace.Reached, Waited, Honest, Behind, AllPlain, Plain;
    var t, sends := EndTurns(w.a, w.b, inbox, w.dead, act, n.ab, n.ba);
    CarefulAlike(care, w.a.conv, w.b.conv, n.ab, act);
    PlainPlus(w.a.sent, t, sends, w.dead);
    HonestStays(codec, lines, w.hub, w.a.sent, w.b.sent, t, sends, w.dead);
  }

  lemma BStays(care: Care, codec: Codec, lines: seq<Line>, w: World, act: Action, n: Net)
    requires Legible(codec) && Sound(codec, lines, w) && Alike(w, n)
    requires CanTurn(codec, lines, w, OfB(act)) && CarefulTurn(care, lines, w, OfB(act))
    ensures CanStep(n, ByB(act)) && CleanSwitch(care, n, ByB(act))
    ensures var w' := After(codec, lines, w, OfB(act)); Sound(codec, lines, w') && Alike(w', Next(n, ByB(act)))
  {
    var inbox := Inbox(codec, lines, w.hub, false, w.b.taken);
    TakesOne(w.b, inbox, w.dead, act);
    if act.Deliver? { NextIsNext(codec, lines, w, act.t, false); }
    hide Legible, CanAct, Act, Moved, Careful, Wires, Waiting, HubRace.Reached, Waited, Honest, Behind, AllPlain, Plain;
    var t, sends := EndTurns(w.b, w.a, inbox, w.dead, act, n.ba, n.ab);
    CarefulAlike(care, w.b.conv, w.a.conv, n.ba, act);
    PlainPlus(w.b.sent, t, sends, w.dead);
    HonestStays(codec, lines, w.hub, w.a.sent, w.b.sent, t, sends, w.dead);
  }

  lemma ServerStays(codec: Codec, lines: seq<Line>, w: World, s: H.Step, n: Net)
    requires Sound(codec, lines, w) && Alike(w, n) && CanTurn(codec, lines, w, Server(s))
    ensures var w' := After(codec, lines, w, Server(s)); Sound(codec, lines, w') && Alike(w', n)
  {
    hide H.CanStep, H.Next, HubRace.Reached, HubSessions.NoWrap, Honest, Behind, Wires;
    HubRace.Go(H.EMPTY, w.hub, s);
  }

  lemma LossStays(codec: Codec, lines: seq<Line>, w: World, t: nat, n: Net)
    requires Sound(codec, lines, w) && Alike(w, n)
    ensures var w' := After(codec, lines, w, Lost(t)); Sound(codec, lines, w') && Alike(w', Next(n, Close(t)))
  {
    WiresLost(w.a.sent, w.b.taken, w.dead, t, n.ab);
    WiresLost(w.b.sent, w.a.taken, w.dead, t, n.ba);
    hide HubRace.Reached, Waited, Honest, Wires, Behind, AllPlain, Lose;
  }

  /** Each turn here is one step there, or, when only the server moves, none. */
  lemma TurnStays(care: Care, codec: Codec, lines: seq<Line>, w: World, turn: Turn, n: Net) returns (n': Net)
    requires Legible(codec) && Sound(codec, lines, w) && Alike(w, n)
    requires CanTurn(codec, lines, w, turn) && CarefulTurn(care, lines, w, turn)
    ensures IsRun(care, n, StepOf(turn), n') && Sound(codec, lines, After(codec, lines, w, turn))
    ensures Alike(After(codec, lines, w, turn), n')
  {
    match turn
    case Server(s) => ServerStays(codec, lines, w, s, n); n' := n;
    case OfA(act) =>
      AStays(care, codec, lines, w, act, n);
      n' := Next(n, ByA(act));
      OneStep(care, n, ByA(act));
    case OfB(act) =>
      BStays(care, codec, lines, w, act, n);
      n' := Next(n, ByB(act));
      OneStep(care, n, ByB(act));
    case Lost(t) =>
      LossStays(codec, lines, w, t, n);
      n' := Next(n, Close(t));
      OneStep(care, n, Close(t));
  }

  lemma OneStep(care: Care, n: Net, step: Step)
    requires CanStep(n, step) && CleanSwitch(care, n, step)
    ensures IsRun(care, n, [step], Next(n, step))
  {
    assert [step][1..] == [];
    hide CanStep, CleanSwitch, Next;
  }

  lemma {:induction false} RunsOn(care: Care, n: Net, first: seq<Step>, mid: Net, more: seq<Step>, last: Net)
    requires IsRun(care, n, first, mid) && IsRun(care, mid, more, last)
    ensures IsRun(care, n, first + more, last)
    decreases |first|
  {
    hide CanStep, CleanSwitch, Next;
    if first == [] {
      assert first + more == more;
    } else {
      assert (first + more)[1..] == first[1..] + more;
      RunsOn(care, Next(n, first[0]), first[1..], mid, more, last);
    }
  }

  lemma {:induction false} RunStays(care: Care, codec: Codec, lines: seq<Line>, w: World, turns: seq<Turn>, last: World,
                                    n: Net)
    returns (n': Net)
    requires Legible(codec) && Sound(codec, lines, w) && Alike(w, n) && IsCarried(care, codec, lines, w, turns, last)
    ensures IsRun(care, n, StepsOf(turns), n') && Sound(codec, lines, last) && Alike(last, n')
    decreases |turns|
  {
    if turns == [] {
      n' := n;
    } else {
      var mid := TurnStays(care, codec, lines, w, turns[0], n);
      hide Legible, Sound, Alike, CanTurn, CarefulTurn, After, IsRun;
      n' := RunStays(care, codec, lines, After(codec, lines, w, turns[0]), turns[1..], last, mid);
      RunsOn(care, n, StepOf(turns[0]), mid, StepsOf(turns[1..]), n');
    }
  }

  // ------------------------------------------- the clients' rule can be followed

  lemma SendWrites(h: H.Hub, h': H.Hub, p: nat, u: H.Up, sid: nat, x: Carried, other: nat, q: nat)
    requires p < |h.peers| == |h'.peers| && q < |h.peers| && sid <= H.MAX_SESSION
    requires u == H.Binary(RelayProtocol.Frame(sid, x.kind, x.body))
    requires HubTraffic.Sent(h'.peers[p]) == HubTraffic.Sent(h.peers[p]) + [u] && (q != p ==> h'.peers[q] == h.peers[q])
    ensures Written(h', other, q) == Written(h, other, q) + if q == p && other == sid then [x] else []
  {
    RelayChannel.SendPasses(sid, HubTraffic.Sent(h.peers[p]), other, x);
    hide RelayChannel.Passed, RelayProtocol.Frame;
    assert Written(h, other, q) + [] == Written(h, other, q);
  }

  lemma OneMoreLeads(written: seq<Carried>, more: seq<Carried>, all: seq<Carried>)
    requires SessionView.Leads(written, all) && (more == [] || (|written| < |all| && more == [all[|written|]]))
    ensures SessionView.Leads(written + more, all)
  {
  }

  function Near(l: Line, ofA: bool): nat { if ofA then l.a else l.b }

  /** The frame of the next message on one end's socket. */
  function NextFrame(codec: Codec, h: H.Hub, l: Line, ofA: bool, sent: seq<Msg>): H.Up
    requires Near(l, ofA) < |h.peers| && |Written(h, l.sid, Near(l, ofA))| < |sent|
  {
    var x := Pack(codec, sent[|Written(h, l.sid, Near(l, ofA))|]);
    H.Binary(RelayProtocol.Frame(l.sid, x.kind, x.body))
  }

  /** Its own end of the line is one message further on; all else is as it was. */
  lemma LineKeeps(codec: Codec, h: H.Hub, h': H.Hub, l: Line, ofA: bool, m: Line, x: Carried, sentA: seq<Msg>,
                  sentB: seq<Msg>)
    requires RelayChannel.Joins(h, l) && RelayChannel.Joins(h, m) && l.sid <= H.MAX_SESSION
    requires (m.sid == l.sid ==> m == l) && l.a != l.b
    requires |h'.peers| == |h.peers| && HubTraffic.Sent(h'.peers[Near(l, ofA)]) ==
             HubTraffic.Sent(h.peers[Near(l, ofA)]) + [H.Binary(RelayProtocol.Frame(l.sid, x.kind, x.body))]
    requires forall q :: 0 <= q < |h.peers| && q != Near(l, ofA) ==> h'.peers[q] == h.peers[q]
    requires SessionView.Leads(Written(h, m.sid, m.a), PackAll(codec, sentA))
    requires SessionView.Leads(Written(h, m.sid, m.b), PackAll(codec, sentB))
    requires var sent, k := if ofA then sentA else sentB, |Written(h, l.sid, Near(l, ofA))|;
             m == l ==> k < |sent| && x == Pack(codec, sent[k])
    ensures SessionView.Leads(Written(h', m.sid, m.a), PackAll(codec, sentA))
    ensures SessionView.Leads(Written(h', m.sid, m.b), PackAll(codec, sentB))
  {
    var u, p := H.Binary(RelayProtocol.Frame(l.sid, x.kind, x.body)), Near(l, ofA);
    SendWrites(h, h', p, u, l.sid, x, m.sid, m.a);
    SendWrites(h, h', p, u, l.sid, x, m.sid, m.b);
    hide Written, RelayProtocol.Frame, Pack, SessionView.Leads;
    OneMoreLeads(Written(h, m.sid, m.a), if m == l && ofA then [x] else [], PackAll(codec, sentA));
    OneMoreLeads(Written(h, m.sid, m.b), if m == l && !ofA then [x] else [], PackAll(codec, sentB));
  }

  lemma SendIs(h: H.Hub, p: nat, sid: nat, u: H.Up)
    requires p < |h.peers| && H.UpSid(u) == Some(sid) && H.Announced(h.peers[p].seen, sid)
    ensures var h' := H.Next(h, H.ClientSends(p, u));
      && |h'.peers| == |h.peers| && h'.born == h.born
      && HubTraffic.Sent(h'.peers[p]) == HubTraffic.Sent(h.peers[p]) + [u] && h'.peers[p].rude == h.peers[p].rude
      && forall q :: 0 <= q < |h.peers| && q != p ==> h'.peers[q] == h.peers[q]
  {
    var x := h.peers[p];
    assert x.took + (x.up + [u]) == (x.took + x.up) + [u];
    assert x.rude + {} == x.rude;
    hide H.Announced;
  }

  lemma StillWaited(lines: seq<Line>, h: H.Hub, h': H.Hub)
    requires Waited(lines, h) && |h'.peers| == |h.peers| && h'.born == h.born
    requires forall q :: 0 <= q < |h.peers| ==> h'.peers[q].rude == h.peers[q].rude
    ensures Waited(lines, h')
  {
    forall t | 0 <= t < |lines| && RelayChannel.Joins(h', lines[t]) ensures HubSessions.Polite(h', lines[t].sid) {
      assert RelayChannel.Joins(h, lines[t]);
    }
  }

  /** Whatever either end is to send next may go on its socket once the session is announced to it. */
  lemma NextFrameMayGo(codec: Codec, lines: seq<Line>, w: World, t: nat, ofA: bool)
    requires Sound(codec, lines, w) && t < |lines| && RelayChannel.Joins(w.hub, lines[t])
    requires lines[t].sid <= H.MAX_SESSION
    requires lines[t].a != lines[t].b
    requires forall u :: 0 <= u < |lines| && u != t ==> lines[u].sid != lines[t].sid
    requires H.Announced(w.hub.peers[Near(lines[t], ofA)].seen, lines[t].sid)
    requires var sent := (if ofA then w.a else w.b).sent[t];
             |Written(w.hub, lines[t].sid, Near(lines[t], ofA))| < |sent|
    ensures var l, sent := lines[t], (if ofA then w.a else w.b).sent[t];
            CanTurn(codec, lines, w, Server(H.ClientSends(Near(l, ofA), NextFrame(codec, w.hub, l, ofA, sent))))
  {
    var l, h, sent := lines[t], w.hub, (if ofA then w.a else w.b).sent[t];
    var p := Near(l, ofA);
    var x := Pack(codec, sent[|Written(h, l.sid, p)|]);
    var u := NextFrame(codec, h, l, ofA, sent);
    RelayProtocol.FrameRoundTrip(l.sid, x.kind, x.body);
    hide RelayProtocol.Frame, H.HeaderOf, Written, Pack, PackAll, SessionView.Leads, Behind, AllPlain,
         HubRace.Reached, Waited;
    SendIs(h, p, l.sid, u);
    hide H.Announced;
    var h' := H.Next(h, H.ClientSends(p, u));
    hide H.Next;
    StillWaited(lines, h, h');
    forall v | 0 <= v < |lines| && RelayChannel.Joins(h', lines[v])
      ensures SessionView.Leads(Written(h', lines[v].sid, lines[v].a), PackAll(codec, w.a.sent[v]))
      ensures SessionView.Leads(Written(h', lines[v].sid, lines[v].b), PackAll(codec, w.b.sent[v]))
    {
      assert RelayChannel.Joins(h, lines[v]);
      LineKeeps(codec, h, h', l, ofA, lines[v], x, w.a.sent[v], w.b.sent[v]);
    }
  }

  // -------------------------------------------------------------- the results

  lemma NewIsSound(codec: Codec, lines: seq<Line>)
    ensures Sound(codec, lines, NewWorld(|lines|)) && Alike(NewWorld(|lines|), InitNet(|lines|))
  {
    assert H.IsRun(H.EMPTY, [], H.EMPTY) && HubTraffic.IsUnwrapped(H.EMPTY, []);
    var w := NewWorld(|lines|);
    assert Wires(w.a.sent, w.b.taken, {}) == Quiet(|lines|);
  }

  /**
   * Relay sessions make good transports: whatever the server, its queues and every other
   * client do, what two conversations do over sessions of one hub is, turn by turn, what they
   * can do in TransferSystem.
   */
  lemma RelayRunIsTransferRun(care: Care, codec: Codec, lines: seq<Line>, turns: seq<Turn>, last: World)
    requires Legible(codec) && IsCarried(care, codec, lines, NewWorld(|lines|), turns, last)
    ensures exists n :: IsRun(care, InitNet(|lines|), StepsOf(turns), n) && Alike(last, n)
  {
    hide Legible, Sound, Alike, IsCarried, IsRun, StepsOf;
    NewIsSound(codec, lines);
    var n := RunStays(care, codec, lines, NewWorld(|lines|), turns, last, InitNet(|lines|));
  }

  /** What the users gave to send. */
  function GivenTo(turns: seq<Turn>, a: bool): set<Bytes> {
    if turns == [] then {}
    else
      GivenTo(turns[1..], a) +
      match turns[0]
      case OfA(act) => if a && act.Start? then TransferRuns.Blobs(act.work) else {}
      case OfB(act) => if !a && act.Start? then TransferRuns.Blobs(act.work) else {}
      case _ => {}
  }

  lemma {:induction false} GivenAlike(turns: seq<Turn>, a: bool)
    ensures TransferRuns.Given(StepsOf(turns), a) == GivenTo(turns, a)
  {
    if turns != [] {
      GivenAlike(turns[1..], a);
      var first, rest := StepOf(turns[0]), StepsOf(turns[1..]);
      if first == [] {
        assert first + rest == rest;
      } else {
        assert (first + rest)[0] == first[0] && (first + rest)[1..] == rest;
      }
      hide TransferRuns.Blobs;
    }
  }

  /**
   * So what the transfer engine promises holds over the relay. The run of TransferSystem that
   * the turns are fixes what every name stands for: transfers reported done are among those
   * saved, in order and once, and what is saved under a name is what was registered under it;
   * in attended use what is open holds the leading bytes of what its name stands for, and the
   * next chunk carries it on.
   */
  lemma DeliveredOverRelay(care: Care, codec: Codec, lines: seq<Line>, turns: seq<Turn>, last: World)
    requires Legible(codec) && !care.Reckless? && IsCarried(care, codec, lines, NewWorld(|lines|), turns, last)
    ensures exists n ::
      && IsRun(care, InitNet(|lines|), StepsOf(turns), n) && Alike(last, n)
      && TransferRuns.Delivered(last.a.conv, last.b.conv, n.ab)
      && TransferRuns.Delivered(last.b.conv, last.a.conv, n.ba)
      && (care.Attended? ==>
          && TransferOrder.Whole(last.b.conv.inbound, n.ab.catalog) && TransferRuns.Continues(last.b.conv, n.ab)
          && TransferOrder.Whole(last.a.conv.inbound, n.ba.catalog) && TransferRuns.Continues(last.a.conv, n.ba))
  {
    hide Legible, IsCarried, IsRun, StepsOf, TransferRuns.Delivered, TransferRuns.Continues, TransferOrder.Whole;
    RelayRunIsTransferRun(care, codec, lines, turns, last);
    var n :| IsRun(care, InitNet(|lines|), StepsOf(turns), n) && Alike(last, n);
    TransferRuns.DoneMeansDelivered(care, |lines|, StepsOf(turns), n);
    if care.Attended? { TransferRuns.EveryByteInItsPlace(|lines|, StepsOf(turns), n); }
    hide Wires;
  }

  /** And without a word about names: whatever is saved at one end was given to send at the other. */
  lemma SavedOverRelay(care: Care, codec: Codec, lines: seq<Line>, turns: seq<Turn>, last: World)
    requires Legible(codec) && !care.Reckless? && IsCarried(care, codec, lines, NewWorld(|lines|), turns, last)
    ensures forall id, data :: Saved(id, data) in last.b.conv.log ==> data in GivenTo(turns, true)
    ensures forall id, data :: Saved(id, data) in last.a.conv.log ==> data in GivenTo(turns, false)
  {
    hide Legible, IsCarried, IsRun, StepsOf, GivenTo, TransferRuns.Given;
    RelayRunIsTransferRun(care, codec, lines, turns, last);
    var n :| IsRun(care, InitNet(|lines|), StepsOf(turns), n) && Alike(last, n);
    TransferRuns.SavedWasGiven(care, |lines|, StepsOf(turns), n);
    GivenAlike(turns, true);
    GivenAlike(turns, false);
    hide Wires;
  }
}
