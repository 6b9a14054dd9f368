/**
 * Offer collisions on the direct path. Two ends exchange offers and answers over in-order
 * signaling; each runs the operations of its peer connection one at a time (the signaling
 * states of section 3.2 of RFC 8829, with rollback per its section 4.1.10.2), and either
 * may start, or decide to make an offer, at any moment.
 */
module DirectLink {
  import opened Basics

  datatype Side = Polite | Impolite

  datatype Desc = Offer(from: Side, n: nat) | Answer(from: Side, re: Desc)

  /** A queued operation: setLocalDescription, for onnegotiationneeded or an answer, or setRemoteDescription. */
  datatype Op = Local(need: bool) | Remote(d: Desc)

  datatype Sig = Stable | HaveLocalOffer | HaveRemoteOffer

  datatype Pair = Pair(offer: Desc, answer: Desc)

  /** `made` counts the offers made, and `dropped` lists those refused; both are history. */
  datatype End = End(started: bool, sig: Sig, making: bool, ignoring: bool, chain: seq<Op>,
                     pendingLocal: Option<Desc>, pendingRemote: Option<Desc>, current: Option<Pair>,
                     made: nat, dropped: seq<Desc>)

  const FRESH := End(false, Stable, false, false, [], None, None, None, 0, [])

  datatype Done = Done(end: End, sends: seq<Desc>)

  // ------------------------------------------------------------ who is polite

  /** String comparison, by code unit. */
  predicate Less(a: string, b: string) {
    if b == "" then false
    else if a == "" then true
    else if a[0] != b[0] then a[0] < b[0]
    else Less(a[1..], b[1..])
  }

  /** Of two different identities exactly one is polite towards the other. */
  lemma {:induction false} OneIsPolite(a: string, b: string)
    ensures a != b <==> Less(a, b) != Less(b, a)
    decreases |a|
  {
    if a != "" && b != "" && a[0] == b[0] {
      OneIsPolite(a[1..], b[1..]);
      assert a == [a[0]] + a[1..] && b == [b[0]] + b[1..];
    }
  }

  /** The strings agree up to k, and there the first ends or has the lower character. */
  predicate LessAt(a: string, b: string, k: nat) {
    k <= |a| && k < |b| && a[..k] == b[..k] && (k == |a| || a[k] < b[k])
  }

  lemma {:induction false} LessIs(a: string, b: string)
    ensures Less(a, b) <==> exists k: nat :: LessAt(a, b, k)
    decreases |a|
  {
    if b != "" && a != "" && a[0] == b[0] {
      LessIs(a[1..], b[1..]);
      if k: nat :| LessAt(a[1..], b[1..], k) {
        assert a[..k + 1] == [a[0]] + a[1..][..k] && b[..k + 1] == [b[0]] + b[1..][..k];
        assert LessAt(a, b, k + 1);
      }
      if k: nat :| LessAt(a, b, k) {
        assert k > 0;
        assert a[1..][..k - 1] == a[..k][1..] && b[1..][..k - 1] == b[..k][1..];
        assert LessAt(a[1..], b[1..], k - 1);
      }
    } else if b != "" {
      if a == "" || a[0] < b[0] { assert LessAt(a, b, 0); }
      if k: nat :| LessAt(a, b, k) {
        if k > 0 { assert a[..k][0] == b[..k][0]; }
      }
    }
  }

  // ----------------------------------------------------------------- one end

  function Started(e: End): End { e.(started := true) }

  /** A negotiation is called for: the data channel is not yet part of a settled pair. */
  predicate Needs(e: End) {
    e.started && e.chain == [] && e.sig == Stable && e.current.None? && !e.making
  }

  function BeginOffer(e: End): End { e.(making := true, chain := e.chain + [Local(true)]) }

  /** A description has arrived. */
  function Receive(e: End, polite: bool, d: Desc): End {
    var e := Started(e);
    var collision := d.Offer? && (e.making || e.sig != Stable);
    if !polite && collision then e.(ignoring := true, dropped := e.dropped + [d])
    else e.(ignoring := false, chain := e.chain + [Remote(d)])
  }

  /** The operation at the head of the chain completes, and whoever awaited it goes on. */
  function RunOp(e: End, me: Side): Done
    requires e.chain != []
  {
    var rest := e.(chain := e.chain[1..]);
    match e.chain[0]
    case Local(need) =>
      var e1 := if need then rest.(making := false) else rest;
      if e.sig == HaveRemoteOffer && e.pendingRemote.Some? then
        var answer := Answer(me, e.pendingRemote.value);
        Done(e1.(sig := Stable, current := Some(Pair(e.pendingRemote.value, answer)), pendingLocal := None,
                 pendingRemote := None), [answer])
      else
        var offer := Offer(me, e.made);
        Done(e1.(sig := HaveLocalOffer, pendingLocal := Some(offer), made := e.made + 1), [offer])
    case Remote(d) =>
      if d.Offer? then
        // An offer of our own is rolled back; ours to answer next.
        Done(rest.(sig := HaveRemoteOffer, pendingLocal := None, pendingRemote := Some(d),
                   chain := rest.chain + [Local(false)]), [])
      else if e.sig == HaveLocalOffer && e.pendingLocal.Some? then
        Done(rest.(sig := Stable, current := Some(Pair(e.pendingLocal.value, d)), pendingLocal := None), [])
      else Done(rest, [])
  }

  // ---------------------------------------------------------------- two ends

  datatype State = State(p: End, i: End, pi: seq<Desc>, ip: seq<Desc>)

  const INIT := State(FRESH, FRESH, [], [])

  datatype Step = Start(s: Side) | Need(s: Side) | Run(s: Side) | Deliver(s: Side)

  function EndOf(st: State, s: Side): End { if s == Polite then st.p else st.i }

  predicate CanStep(st: State, step: Step) {
    match step
    case Start(_) => true
    case Need(s) => Needs(EndOf(st, s))
    case Run(s) => EndOf(st, s).chain != []
    case Deliver(s) => (if s == Polite then st.ip else st.pi) != []
  }

  function Next(st: State, step: Step): State
    requires CanStep(st, step)
  {
    match step
    case Start(s) => if s == Polite then st.(p := Started(st.p)) else st.(i := Started(st.i))
    case Need(s) => if s == Polite then st.(p := BeginOffer(st.p)) else st.(i := BeginOffer(st.i))
    case Run(s) =>
      if s == Polite then var d := RunOp(st.p, s); st.(p := d.end, pi := st.pi + d.sends)
      else var d := RunOp(st.i, s); st.(i := d.end, ip := st.ip + d.sends)
    case Deliver(s) =>
      if s == Polite then st.(p := Receive(st.p, true, st.ip[0]), ip := st.ip[1..])
      else st.(i := Receive(st.i, false, st.pi[0]), pi := st.pi[1..])
  }

  predicate IsRun(st: State, steps: seq<Step>, last: State)
    decreases |steps|
  {
    if steps == [] then st == last
    else CanStep(st, steps[0]) && IsRun(Next(st, steps[0]), steps[1..], last)
  }

  // --------------------------------------------------------------- invariant

  const OP := Offer(Polite, 0)
  const OI := Offer(Impolite, 0)
  const AP := Answer(Polite, OI)
  const AI := Answer(Impolite, OP)

  /** How far an end has got: Settled on its own offer, or Agreed on the other's. */
  datatype Phase = Idle | Making | Offered | Hearing | Settled | Accepting | Answering | Agreed

  /** The impolite end in each phase. */
  predicate ImpoliteIs(e: End, ph: Phase) {
    && (ph != Idle ==> e.started)
    && match ph
       case Idle => e.sig == Stable && !e.making && e.chain == [] && e.pendingLocal.None? && e.current.None?
         && e.made == 0
       case Making => e.sig == Stable && e.making && e.chain == [Local(true)] && e.pendingLocal.None? && e.current.None?
         && e.made == 0
       case Offered => e.sig == HaveLocalOffer && !e.making && e.chain == [] && e.pendingLocal == Some(OI)
         && e.current.None? && e.made == 1
       case Hearing => e.sig == HaveLocalOffer && !e.making && e.chain == [Remote(AP)] && e.pendingLocal == Some(OI)
         && e.current.None? && e.made == 1
       case Settled => e.sig == Stable && !e.making && e.chain == [] && e.current == Some(Pair(OI, AP)) && e.made == 1
       case Accepting => e.sig == Stable && !e.making && e.chain == [Remote(OP)] && e.pendingLocal.None?
         && e.current.None? && e.made == 0
       case Answering => e.sig == HaveRemoteOffer && !e.making && e.chain == [Local(false)]
         && e.pendingRemote == Some(OP) && e.current.None? && e.made == 0
       case Agreed => e.sig == Stable && !e.making && e.chain == [] && e.current == Some(Pair(OP, AI)) && e.made == 0
  }

  /** The polite end in each phase; it may take up the other's offer at any point before it is answered. */
  predicate PoliteIs(e: End, ph: Phase) {
    && (ph != Idle ==> e.started) && e.made <= 1 && e.dropped == []
    && match ph
       case Idle => e.sig == Stable && !e.making && e.chain == [] && e.pendingLocal.None? && e.current.None?
         && e.made == 0
       case Making => e.sig == Stable && e.making && e.chain == [Local(true)] && e.pendingLocal.None? && e.current.None?
         && e.made == 0
       case Offered => e.sig == HaveLocalOffer && !e.making && e.chain == [] && e.pendingLocal == Some(OP)
         && e.current.None? && e.made == 1
       case Hearing => e.sig == HaveLocalOffer && !e.making && e.chain == [Remote(AI)] && e.pendingLocal == Some(OP)
         && e.current.None? && e.made == 1
       case Settled => e.sig == Stable && !e.making && e.chain == [] && e.current == Some(Pair(OP, AI)) && e.made == 1
       case Accepting =>
         && e.current.None?
         && ((e.sig == Stable && e.making && e.chain == [Local(true), Remote(OI)] && e.made == 0)
             || (!e.making && e.chain == [Remote(OI)]
                 && ((e.sig == Stable && e.made == 0) || (e.sig == HaveLocalOffer && e.made == 1))))
       case Answering => e.sig == HaveRemoteOffer && !e.making && e.chain == [Local(false)]
         && e.pendingRemote == Some(OI) && e.current.None?
       case Agreed => e.sig == Stable && !e.making && e.chain == [] && e.current == Some(Pair(OI, AP))
  }

  /** The polite end's offer, if made, is under way, dropped or taken up. */
  predicate OfferAway(p: End, i: End, pi: seq<Desc>) {
    if p.made == 0 then pi == [] && i.dropped == []
    else (pi == [OP] && i.dropped == []) || (pi == [] && i.dropped == [OP])
  }

  /** Where the two ends can be relative to each other, and what is then on the way. */
  ghost predicate Joint(st: State, pp: Phase, ip: Phase) {
    && PoliteIs(st.p, pp) && ImpoliteIs(st.i, ip)
    && match ip
       case Idle => (pp == Idle || pp == Making || pp == Offered) && st.ip == [] && OfferAway(st.p, st.i, st.pi)
         && st.i.dropped == []
       case Making => (pp == Idle || pp == Making || pp == Offered) && st.ip == [] && OfferAway(st.p, st.i, st.pi)
       case Offered =>
         || ((pp == Idle || pp == Making || pp == Offered) && st.ip == [OI] && OfferAway(st.p, st.i, st.pi))
         || ((pp == Accepting || pp == Answering) && st.ip == [] && OfferAway(st.p, st.i, st.pi))
         || (pp == Agreed && st.ip == [] && ((st.p.made == 1 && st.pi == [OP, AP] && st.i.dropped == [])
                                             || (st.pi == [AP] && st.i.dropped == if st.p.made == 1 then [OP] else [])))
       case Hearing => pp == Agreed && st.ip == [] && st.pi == [] && st.i.dropped == if st.p.made == 1 then [OP] else []
       case Settled => pp == Agreed && st.ip == [] && st.pi == [] && st.i.dropped == if st.p.made == 1 then [OP] else []
       case Accepting => pp == Offered && st.ip == [] && st.pi == [] && st.i.dropped == []
       case Answering => pp == Offered && st.ip == [] && st.pi == [] && st.i.dropped == []
       case Agreed =>
         && st.pi == [] && st.i.dropped == []
         && ((pp == Offered && st.ip == [AI]) || (pp == Hearing && st.ip == []) || (pp == Settled && st.ip == []))
  }

  ghost predicate Inv(st: State) { exists pp, ip :: Joint(st, pp, ip) }

  lemma StepKeeps(st: State, step: Step)
    requires Inv(st) && CanStep(st, step)
    ensures Inv(Next(st, step))
  {
    var pp, ip :| Joint(st, pp, ip);
    hide Inv, Next, Joint;
    match step
    case Start(s) => StartKeeps(st, s, pp, ip);
    case Need(s) => NeedKeeps(st, s, pp, ip);
    case Run(s) => if s == Polite { RunPolite(st, pp, ip); } else { RunImpolite(st, pp, ip); }
    case Deliver(s) => if s == Polite { HearPolite(st, pp, ip); } else { HearImpolite(st, pp, ip); }
  }

  lemma StartKeeps(st: State, s: Side, pp: Phase, ip: Phase)
    requires Joint(st, pp, ip)
    ensures Inv(Next(st, Start(s)))
  {
    assert Joint(Next(st, Start(s)), pp, ip);
  }

  lemma NeedKeeps(st: State, s: Side, pp: Phase, ip: Phase)
    requires Joint(st, pp, ip) && Needs(EndOf(st, s))
    ensures Inv(Next(st, Need(s)))
  {
    assert EndOf(st, s).chain + [Local(true)] == [Local(true)];
    if s == Polite {
      assert Joint(Next(st, Need(s)), Making, ip);
    } else {
      assert Joint(Next(st, Need(s)), pp, Making);
    }
  }

  lemma RunPolite(st: State, pp: Phase, ip: Phase)
    requires Joint(st, pp, ip) && st.p.chain != []
    ensures Inv(Next(st, Run(Polite)))
  {
    var st' := Next(st, Run(Polite));
    var pp' := match pp
      case Making => Offered
      case Hearing => Settled
      case Accepting => if st.p.making then Accepting else Answering
      case _ => Agreed;
    assert Joint(st', pp', ip);
  }

  lemma RunImpolite(st: State, pp: Phase, ip: Phase)
    requires Joint(st, pp, ip) && st.i.chain != []
    ensures Inv(Next(st, Run(Impolite)))
  {
    var st' := Next(st, Run(Impolite));
    var ip' := match ip
      case Making => Offered
      case Hearing => Settled
      case Accepting => Answering
      case _ => Agreed;
    assert Joint(st', pp, ip');
  }

  lemma HearPolite(st: State, pp: Phase, ip: Phase)
    requires Joint(st, pp, ip) && st.ip != []
    ensures Inv(Next(st, Deliver(Polite)))
  {
    var st' := Next(st, Deliver(Polite));
    assert Joint(st', if ip == Agreed then Hearing else Accepting, ip);
  }

  lemma HearImpolite(st: State, pp: Phase, ip: Phase)
    requires Joint(st, pp, ip) && st.pi != []
    ensures Inv(Next(st, Deliver(Impolite)))
  {
    var st' := Next(st, Deliver(Impolite));
    assert Joint(st', pp, if st.pi[0] == AP then Hearing else if ip == Idle then Accepting else ip);
  }

  lemma {:induction false} RunKeeps(st: State, steps: seq<Step>, last: State)
    requires Inv(st) && IsRun(st, steps, last)
    ensures Inv(last)
    decreases |steps|
  {
    if steps != [] {
      StepKeeps(st, steps[0]);
      hide Inv, CanStep, Next;
      RunKeeps(Next(st, steps[0]), steps[1..], last);
    }
  }

  lemma Reached(steps: seq<Step>, st: State)
    requires IsRun(INIT, steps, st)
    ensures Inv(st)
  {
    assert Joint(INIT, Idle, Idle);
    hide Joint;
    RunKeeps(INIT, steps, st);
  }

  // ------------------------------------------------------------------ results

  /** Nothing on the way, nothing queued, and no offer called for. */
  predicate Quiet(st: State) {
    st.pi == [] && st.ip == [] && st.p.chain == [] && st.i.chain == [] && !Needs(st.p) && !Needs(st.i)
  }

  /**
   * However the two ends start and collide, when everything has come to rest after a start
   * both are stable and settled on the same offer and answer. The polite end never drops an
   * offer; if the impolite end has dropped one, what they settled on is its own offer,
   * which the sender of the dropped one has answered.
   */
  lemma NegotiationSettles(steps: seq<Step>, st: State)
    requires IsRun(INIT, steps, st) && Quiet(st) && (st.p.started || st.i.started)
    ensures st.p.sig == st.i.sig == Stable && st.p.current.Some? && st.p.current == st.i.current
    ensures st.p.current == Some(Pair(OI, AP)) || st.p.current == Some(Pair(OP, AI))
    ensures st.p.dropped == []
    ensures st.i.dropped != [] ==> st.i.dropped == [OP] && st.p.current == Some(Pair(OI, AP))
  {
    hide IsRun;
    Reached(steps, st);
    var pp, ip :| Joint(st, pp, ip);
  }

  /** Only the impolite end drops an offer, at any point, and then it has one of its own outstanding or answered. */
  lemma OnlyImpoliteDrops(steps: seq<Step>, st: State)
    requires IsRun(INIT, steps, st)
    ensures st.p.dropped == []
    ensures st.i.dropped != [] ==> st.i.making || st.i.pendingLocal == Some(OI) || st.i.current == Some(Pair(OI, AP))
  {
    hide IsRun;
    Reached(steps, st);
    var pp, ip :| Joint(st, pp, ip);
  }

  function OpWeight(op: Op): nat {
    match op
    case Local(need) => if need then 6 else 3
    case Remote(d) => if d.Offer? then 4 else 1
  }

  function ChainWeight(chain: seq<Op>): nat { if chain == [] then 0 else OpWeight(chain[0]) + ChainWeight(chain[1..]) }

  function WireWeight(wire: seq<Desc>): nat {
    if wire == [] then 0 else (if wire[0].Offer? then 5 else 2) + WireWeight(wire[1..])
  }

  /** What is still to come: an offer not yet begun costs seven steps to be answered. */
  function Weight(st: State): nat {
    ChainWeight(st.p.chain) + ChainWeight(st.i.chain) + WireWeight(st.pi) + WireWeight(st.ip)
    + (if st.p.made == 0 && !st.p.making then 7 else 0) + (if st.i.made == 0 && !st.i.making then 7 else 0)
  }

  lemma {:induction false} ChainPush(chain: seq<Op>, op: Op)
    ensures ChainWeight(chain + [op]) == ChainWeight(chain) + OpWeight(op)
  {
    if chain == [] {
      assert chain + [op] == [op] && [op][1..] == [];
    } else {
      assert (chain + [op])[1..] == chain[1..] + [op];
      ChainPush(chain[1..], op);
    }
  }

  lemma {:induction false} WirePush(wire: seq<Desc>, d: Desc)
    ensures WireWeight(wire + [d]) == WireWeight(wire) + if d.Offer? then 5 else 2
  {
    if wire == [] {
      assert wire + [d] == [d] && [d][1..] == [];
    } else {
      assert (wire + [d])[1..] == wire[1..] + [d];
      WirePush(wire[1..], d);
    }
  }

  lemma RunLightens(e: End, me: Side)
    requires e.chain != [] && HeadFits(e)
    ensures var d := RunOp(e, me);
            ChainWeight(d.end.chain) + WireWeight(d.sends) + (if d.end.made == 0 && !d.end.making then 7 else 0)
            < ChainWeight(e.chain) + (if e.made == 0 && !e.making then 7 else 0)
  {
    ChainPush(e.chain[1..], Local(false));
    var d := RunOp(e, me);
    assert WireWeight([]) == 0;
    if d.sends != [] {
      WirePush([], d.sends[0]);
      assert [] + d.sends == d.sends && d.sends == [d.sends[0]] && [] + [d.sends[0]] == [d.sends[0]];
    }
  }

  predicate HeadFits(e: End) {
    e.chain != [] ==>
      match e.chain[0]
      case Local(need) =>
        if need then e.sig == Stable && e.making && e.made == 0
        else e.sig == HaveRemoteOffer && e.pendingRemote.Some? && !e.making
      case Remote(_) => true
  }

  lemma HeadsFit(st: State)
    requires Inv(st)
    ensures HeadFits(st.p) && HeadFits(st.i)
    ensures (Needs(st.p) ==> st.p.made == 0) && (Needs(st.i) ==> st.i.made == 0)
  {
    var pp, ip :| Joint(st, pp, ip);
  }

  lemma NeedLightens(st: State, s: Side)
    requires Needs(EndOf(st, s)) && EndOf(st, s).made == 0
    ensures Weight(Next(st, Need(s))) < Weight(st)
  {
    ChainPush(EndOf(st, s).chain, Local(true));
  }

  lemma RunStepLightens(st: State, s: Side)
    requires EndOf(st, s).chain != [] && HeadFits(EndOf(st, s))
    ensures Weight(Next(st, Run(s))) < Weight(st)
  {
    var e := EndOf(st, s);
    RunLightens(e, s);
    var d := RunOp(e, s);
    WireConcat(if s == Polite then st.pi else st.ip, d.sends);
    hide RunOp, ChainWeight, WireWeight, HeadFits;
  }

  lemma {:induction false} WireConcat(a: seq<Desc>, b: seq<Desc>)
    ensures WireWeight(a + b) == WireWeight(a) + WireWeight(b)
  {
    if a == [] {
      assert a + b == b;
    } else {
      assert (a + b)[1..] == a[1..] + b;
      WireConcat(a[1..], b);
    }
  }

  lemma DeliverLightens(st: State, s: Side)
    requires CanStep(st, Deliver(s))
    ensures Weight(Next(st, Deliver(s))) < Weight(st)
  {
    var e := EndOf(st, s);
    var d := if s == Polite then st.ip[0] else st.pi[0];
    ChainPush(e.chain, Remote(d));
    hide ChainWeight;
  }

  lemma StepLightens(st: State, step: Step)
    requires Inv(st) && CanStep(st, step) && !step.Start?
    ensures Weight(Next(st, step)) < Weight(st)
  {
    HeadsFit(st);
    hide Inv, Next, Weight, HeadFits;
    match step
    case Need(s) => NeedLightens(st, s);
    case Run(s) => RunStepLightens(st, s);
    case Deliver(s) => DeliverLightens(st, s);
  }

  function Moves(steps: seq<Step>): nat {
    if steps == [] then 0 else (if steps[0].Start? then 0 else 1) + Moves(steps[1..])
  }

  lemma {:induction false} MovesBounded(st: State, steps: seq<Step>, last: State)
    requires Inv(st) && IsRun(st, steps, last)
    ensures Moves(steps) + Weight(last) <= Weight(st)
    decreases |steps|
  {
    if steps != [] {
      StepKeeps(st, steps[0]);
      if steps[0].Start? { assert Weight(Next(st, steps[0])) == Weight(st); } else { StepLightens(st, steps[0]); }
      hide Inv, CanStep, Next, Weight;
      MovesBounded(Next(st, steps[0]), steps[1..], last);
    }
  }

  /** Rest is always reached: no run takes more than fourteen steps besides repeated starts. */
  lemma NegotiationEnds(steps: seq<Step>, st: State)
    requires IsRun(INIT, steps, st)
    ensures Moves(steps) <= 14
  {
    assert Joint(INIT, Idle, Idle);
    assert Weight(INIT) == 14;
    hide Joint, IsRun, Weight;
    MovesBounded(INIT, steps, st);
  }

  // ------------------------------------------------------- all of it can happen

  ghost predicate Leads(st: State) { exists steps :: IsRun(INIT, steps, st) }

  lemma {:induction false} RunSnoc(st: State, steps: seq<Step>, mid: State, step: Step)
    requires IsRun(st, steps, mid) && CanStep(mid, step)
    ensures IsRun(st, steps + [step], Next(mid, step))
    decreases |steps|
  {
    if steps == [] {
      assert [step][1..] == [];
    } else {
      assert (steps + [step])[1..] == steps[1..] + [step];
      RunSnoc(Next(st, steps[0]), steps[1..], mid, step);
    }
  }

  lemma Go(st: State, step: Step) returns (next: State)
    requires Leads(st) && CanStep(st, step)
    ensures Leads(next) && next == Next(st, step)
  {
    var steps :| IsRun(INIT, steps, st);
    hide CanStep, Next, IsRun;
    RunSnoc(INIT, steps, st, step);
    next := Next(st, step);
  }

  lemma Beginning()
    ensures Leads(INIT)
  {
    assert IsRun(INIT, [], INIT);
  }

  /** Whichever end starts alone, its offer is answered and both settle on it. */
  lemma EitherMayStart(s: Side)
    ensures exists st ::
      && Leads(st) && Quiet(st) && st.p.dropped == [] && st.i.dropped == []
      && st.p.current == st.i.current == Some(if s == Polite then Pair(OP, AI) else Pair(OI, AP))
  {
    Beginning();
    hide Leads;
    var o := if s == Polite then Impolite else Polite;
    var s1 := Go(INIT, Start(s));
    var s2 := Go(s1, Need(s));
    var s3 := Go(s2, Run(s));
    var s4 := Go(s3, Deliver(o));
    var s5 := Go(s4, Run(o));
    var s6 := Go(s5, Run(o));
    var s7 := Go(s6, Deliver(s));
    var s8 := Go(s7, Run(s));
    assert Quiet(s8);
  }

  /** If both start at once, the offers can cross: the impolite one drops the other's and both settle on its own. */
  lemma OffersMayCross()
    ensures exists st ::
      && Leads(st) && Quiet(st) && st.i.dropped == [OP] && st.p.current == st.i.current == Some(Pair(OI, AP))
  {
    Beginning();
    hide Leads;
    var s1 := Go(INIT, Start(Polite));
    var s2 := Go(s1, Start(Impolite));
    var s3 := Go(s2, Need(Polite));
    var s4 := Go(s3, Need(Impolite));
    var s5 := Go(s4, Run(Polite));
    var s6 := Go(s5, Run(Impolite));
    var s7 := Go(s6, Deliver(Impolite));
    var s8 := Go(s7, Deliver(Polite));
    var s9 := Go(s8, Run(Polite));
    var s10 := Go(s9, Run(Polite));
    var s11 := Go(s10, Deliver(Impolite));
    var s12 := Go(s11, Run(Impolite));
    assert Quiet(s12);
  }
}
