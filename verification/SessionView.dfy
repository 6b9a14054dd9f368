/**
 * One relay session as its two ends experience it: what has been queued for each end,
 * what each end's goroutine still has to queue, and what each client has asked for.
 */
module SessionView {
  import opened Basics
  import opened HubSystem

  function SidOf(f: Down): Option<nat> {
    match f
    case Ready(sid, _) => Some(sid)
    case Incoming(sid, _) => Some(sid)
    case AckTo(sid, _) => Some(sid)
    case CloseTo(sid) => Some(sid)
    case Payload(data) => HeaderOf(data)
    case _ => None
  }

  predicate IsData(f: Down) { f.Payload? || f.AckTo? }

  /** The frames and acks among `w`, in order. */
  function Data(w: seq<Down>): seq<Down> {
    if w == [] then []
    else Data(w[..|w| - 1]) + if IsData(w[|w| - 1]) then [w[|w| - 1]] else []
  }

  function Closes(w: seq<Down>): nat {
    if w == [] then 0 else Closes(w[..|w| - 1]) + if w[|w| - 1].CloseTo? then 1 else 0
  }

  /** How far a well-behaved session has got: announced, then traffic, then closed. */
  datatype Phase = Unknown | Live | Shut | Wrong

  function After(ph: Phase, f: Down): Phase {
    match ph
    case Unknown => if f.Ready? || f.Incoming? then Live else Wrong
    case Live => if IsData(f) then Live else if f.CloseTo? then Shut else Wrong
    case Shut => Wrong
    case Wrong => Wrong
  }

  function Reading(w: seq<Down>): Phase {
    if w == [] then Unknown else After(Reading(w[..|w| - 1]), w[|w| - 1])
  }

  /** `a` is a prefix of `b`. */
  predicate Leads<T(==)>(a: seq<T>, b: seq<T>) { |a| <= |b| && a == b[..|a|] }

  /**
   * The opener's client and the target's client, their mailboxes (`bo`, `bc`), what the
   * opener's goroutine has still to queue for itself and for the target (`poo`, `poc`),
   * the target's for the opener (`pco`), traffic taken but not yet looked up (`ro`,
   * `rc`), and all traffic taken from each client (`to`, `tc`). `raced`: the close
   * was queued for the opener before its announcement.
   */
  datatype View = View(live: bool, raced: bool, oClosed: bool, cClosed: bool,
                       bo: seq<Down>, bc: seq<Down>, poo: seq<Down>, poc: seq<Down>, pco: seq<Down>,
                       ro: seq<Down>, rc: seq<Down>, to: seq<Down>, tc: seq<Down>)

  /** The opener is told of the close before it is told that the session is ready. */
  predicate Overtaken(w: seq<Down>) {
    (|w| == 1 && w[0].CloseTo?) || (|w| == 2 && w[0].CloseTo? && w[1].Ready?)
  }

  /**
   * One direction, after its announcement: `box` has been queued for the receiver and
   * `pend` is about to be, `held` has been taken from the sender but not looked up,
   * `taken` is everything taken. A closed receiver's box is as it is for good.
   */
  ghost predicate Stream(live: bool, closed: bool, box: seq<Down>, pend: seq<Down>, held: seq<Down>, taken: seq<Down>) {
    if closed then Reading(box) != Wrong && Leads(Data(box), taken)
    else
      && (Reading(box + pend) == Live || (Reading(box + pend) == Shut && !live))
      && Leads(Data(box + pend), taken)
      && (live ==> Data(box + pend) + held == taken)
  }

  /** The opener has not been told of its session, but may be told that it is over. */
  ghost predicate Early(live: bool, raced: bool, closed: bool, box: seq<Down>, pend: seq<Down>) {
    if raced then
      && !live && pend == []
      && ((closed && box == []) || (|box| == 1 && box[0].CloseTo?))
    else
      && box == []
      && (pend != [] ==> !live && |pend| == 1 && pend[0].CloseTo?)
  }

  /** The close has overtaken the announcement: the opener hears nothing else. */
  ghost predicate Late(closed: bool, box: seq<Down>) {
    if closed then box == [] || Overtaken(box) else |box| == 2 && Overtaken(box)
  }

  ghost predicate OpenerInv(live: bool, raced: bool, closed: bool, bo: seq<Down>, pco: seq<Down>, poo: seq<Down>,
                            rc: seq<Down>, tc: seq<Down>)
  {
    && (raced ==> !live && pco == [])
    && if poo != [] then |poo| == 1 && poo[0].Ready? && Early(live, raced, closed, bo, pco)
       else if raced then Late(closed, bo)
       else Stream(live, closed, bo, pco, rc, tc)
  }

  /** While the opener's own announcement is under way nothing else has happened. */
  ghost predicate FreshInv(v: View) {
    v.poo != [] ==> v.bc == [] && |v.poc| == 1 && v.poc[0].Incoming? && v.to == [] == v.ro && v.tc == [] == v.rc
  }

  ghost predicate PendingInv(v: View) {
    && (v.ro != [] ==> |v.ro| == 1 && IsData(v.ro[0]) && v.poc == [])
    && (v.rc != [] ==> |v.rc| == 1 && IsData(v.rc[0]) && v.pco == [])
  }

  /** At most one close is ever sent about the session, and none while it lives. */
  ghost predicate CloseInv(live: bool, bo: seq<Down>, pco: seq<Down>, bc: seq<Down>, poc: seq<Down>) {
    Closes(bo) + Closes(pco) + Closes(bc) + Closes(poc) <= if live then 0 else 1
  }

  ghost predicate ViewInv(v: View) {
    && Stream(v.live, v.cClosed, v.bc, v.poc, v.ro, v.to)
    && OpenerInv(v.live, v.raced, v.oClosed, v.bo, v.pco, v.poo, v.rc, v.tc)
    && FreshInv(v) && PendingInv(v)
    && CloseInv(v.live, v.bo, v.pco, v.bc, v.poc)
  }

  // --------------------------------------------------------------- readings

  lemma Push(w: seq<Down>, f: Down)
    ensures Data(w + [f]) == if IsData(f) then Data(w) + [f] else Data(w)
    ensures Reading(w + [f]) == After(Reading(w), f)
    ensures Closes(w + [f]) == Closes(w) + if f.CloseTo? then 1 else 0
  {
    assert (w + [f])[..|w + [f]| - 1] == w;
    assert Data(w) + [] == Data(w);
  }

  lemma One(f: Down)
    ensures Data([f]) == if IsData(f) then [f] else []
    ensures Reading([f]) == After(Unknown, f)
    ensures Closes([f]) == if f.CloseTo? then 1 else 0
  {
    Push([], f);
    assert [] + [f] == [f] && Data([]) == [];
  }

  lemma {:induction false} PrefixReads(w: seq<Down>, more: seq<Down>)
    ensures Reading(w + more) != Wrong ==> Reading(w) != Wrong
    ensures Leads(Data(w), Data(w + more))
    ensures Closes(w + more) == Closes(w) + Closes(more)
  {
    if more == [] {
      assert w + more == w;
    } else {
      var n := |more| - 1;
      assert (w + more)[..|w + more| - 1] == w + more[..n];
      PrefixReads(w, more[..n]);
    }
  }

  lemma LeadsMore<T>(a: seq<T>, b: seq<T>, x: seq<T>)
    ensures Leads(a, b) ==> Leads(a, b + x)
  {
  }

  // ---------------------------------------------- what can happen to a direction

  lemma StreamTakes(live: bool, closed: bool, box: seq<Down>, pend: seq<Down>, taken: seq<Down>, x: Down)
    ensures Stream(live, closed, box, pend, [], taken) ==> Stream(live, closed, box, pend, [x], taken + [x])
  {
    LeadsMore(Data(box), taken, [x]);
    LeadsMore(Data(box + pend), taken, [x]);
    assert Data(box + pend) + [] == Data(box + pend);
  }

  lemma StreamRoutes(live: bool, closed: bool, box: seq<Down>, f: Down, taken: seq<Down>)
    requires IsData(f)
    ensures Stream(live, closed, box, [], [f], taken) ==> Stream(live, closed, box, if live then [f] else [], [], taken)
  {
    Push(box, f);
    assert box + [] == box;
    assert Data(box + [f]) + [] == Data(box + [f]);
  }

  lemma StreamQueues(live: bool, closed: bool, box: seq<Down>, pend: seq<Down>, held: seq<Down>, taken: seq<Down>)
    requires pend != []
    ensures Stream(live, closed, box, pend, held, taken)
        ==> Stream(live, closed, if closed then box else box + [pend[0]], pend[1..], held, taken)
  {
    assert box + pend == (box + [pend[0]]) + pend[1..];
  }

  /** The session goes: the sending side has a notice to queue if `gone` is one. */
  lemma StreamDies(closed: bool, box: seq<Down>, pend: seq<Down>, held: seq<Down>, taken: seq<Down>, f: Down)
    requires f.CloseTo?
    ensures Stream(true, closed, box, pend, held, taken) ==> Stream(false, closed, box, pend, held, taken)
    ensures Stream(true, closed, box, [], held, taken) ==> Stream(false, closed, box, [f], held, taken)
  {
    Push(box, f);
    assert box + [] == box;
  }

  /** While it lives and nothing is held back, all that was taken has been queued. */
  lemma AllQueued(v: View)
    requires ViewInv(v) && v.live && !v.oClosed && !v.cClosed
    requires v.poo == [] && v.poc == [] && v.pco == [] && v.ro == [] && v.rc == []
    ensures Data(v.bo) == v.tc && Data(v.bc) == v.to
  {
    assert v.bo + [] == v.bo && v.bc + [] == v.bc;
    assert Data(v.bo) + [] == Data(v.bo) && Data(v.bc) + [] == Data(v.bc);
    hide Data, Reading, Closes;
  }

  /** The session goes and nobody is told: who asked for it was no end of it. */
  lemma Vanishes(v: View)
    requires ViewInv(v)
    ensures ViewInv(v.(live := false))
  {
    hide Data, Reading;
  }

  lemma StreamCloses(live: bool, closed: bool, box: seq<Down>, pend: seq<Down>, held: seq<Down>, taken: seq<Down>)
    ensures Stream(live, closed, box, pend, held, taken) ==> Stream(live, true, box, pend, held, taken)
  {
    PrefixReads(box, pend);
  }

  lemma CloseMoves(box: seq<Down>, pend: seq<Down>, closed: bool)
    requires pend != []
    ensures Closes(if closed then box else box + [pend[0]]) + Closes(pend[1..]) <= Closes(box) + Closes(pend)
  {
    assert pend == [pend[0]] + pend[1..];
    PrefixReads([pend[0]], pend[1..]);
    PrefixReads(box, [pend[0]]);
  }

  // ---------------------------------------------------- what can happen to it

  /** The session has just been allocated. */
  lemma Born(v: View)
    requires v.live && !v.raced && v.bo == [] == v.bc && v.pco == [] && v.ro == [] == v.rc && v.to == [] == v.tc
    requires |v.poo| == 1 && v.poo[0].Ready? && |v.poc| == 1 && v.poc[0].Incoming?
    ensures ViewInv(v)
  {
    One(v.poc[0]);
    assert v.poc == [v.poc[0]] && v.bc + v.poc == v.poc;
    assert Data([]) == [] && Closes([]) == 0;
  }

  /** The opener's goroutine takes a frame or ack from its client. */
  lemma OpenerTakes(v: View, x: Down)
    requires ViewInv(v) && IsData(x) && v.poo == [] && v.poc == [] && v.ro == []
    ensures ViewInv(v.(to := v.to + [x], ro := [x]))
  {
    StreamTakes(v.live, v.cClosed, v.bc, v.poc, v.to, x);
    hide Stream, OpenerInv, CloseInv;
  }

  lemma TargetTakes(v: View, x: Down)
    requires ViewInv(v) && IsData(x) && v.poo == [] && v.pco == [] && v.rc == []
    ensures ViewInv(v.(tc := v.tc + [x], rc := [x]))
  {
    StreamTakes(v.live, v.oClosed, v.bo, v.pco, v.tc, x);
    hide Stream, Late, CloseInv;
  }

  /** The traffic is looked up: forwarded while the session lives, dropped after. */
  lemma OpenerRoutes(v: View)
    requires ViewInv(v) && v.ro != []
    ensures ViewInv(v.(ro := [], poc := if v.live then v.ro else []))
  {
    assert v.ro == [v.ro[0]];
    StreamRoutes(v.live, v.cClosed, v.bc, v.ro[0], v.to);
    One(v.ro[0]);
    hide Stream, OpenerInv, Closes;
  }

  lemma TargetRoutes(v: View)
    requires ViewInv(v) && v.rc != []
    ensures ViewInv(v.(rc := [], pco := if v.live then v.rc else []))
  {
    assert v.rc == [v.rc[0]];
    StreamRoutes(v.live, v.oClosed, v.bo, v.rc[0], v.tc);
    One(v.rc[0]);
    hide Stream, Closes;
  }

  /** The opener's goroutine queues its next frame for the target. */
  lemma QueueForTarget(v: View)
    requires ViewInv(v) && v.poc != [] && v.poo == []
    ensures ViewInv(v.(bc := if v.cClosed then v.bc else v.bc + [v.poc[0]], poc := v.poc[1..]))
  {
    StreamQueues(v.live, v.cClosed, v.bc, v.poc, v.ro, v.to);
    CloseMoves(v.bc, v.poc, v.cClosed);
    hide Stream, OpenerInv, Closes;
  }

  lemma OpenerQueued(live: bool, raced: bool, closed: bool, bo: seq<Down>, pco: seq<Down>, poo: seq<Down>,
                     rc: seq<Down>, tc: seq<Down>)
    requires OpenerInv(live, raced, closed, bo, pco, poo, rc, tc) && pco != []
    ensures OpenerInv(live, raced || (poo != [] && pco[0].CloseTo?), closed, if closed then bo else bo + [pco[0]],
                      pco[1..], poo, rc, tc)
  {
    hide Stream, Early, Late;
    if poo != [] { EarlyQueues(live, raced, closed, bo, pco); }
    else { StreamQueues(live, closed, bo, pco, rc, tc); }
  }

  lemma EarlyQueues(live: bool, raced: bool, closed: bool, bo: seq<Down>, pco: seq<Down>)
    requires Early(live, raced, closed, bo, pco) && pco != []
    ensures !live && pco[0].CloseTo? && Early(live, true, closed, if closed then bo else bo + [pco[0]], pco[1..])
  {
  }

  lemma QueueForOpener(v: View)
    requires ViewInv(v) && v.pco != []
    ensures ViewInv(v.(bo := if v.oClosed then v.bo else v.bo + [v.pco[0]], pco := v.pco[1..],
                       raced := v.raced || (v.poo != [] && v.pco[0].CloseTo?)))
  {
    OpenerQueued(v.live, v.raced, v.oClosed, v.bo, v.pco, v.poo, v.rc, v.tc);
    CloseMoves(v.bo, v.pco, v.oClosed);
    hide Stream, OpenerInv, Closes;
  }

  lemma ReadyQueued(live: bool, raced: bool, closed: bool, bo: seq<Down>, pco: seq<Down>, f: Down)
    requires Early(live, raced, closed, bo, pco) && f.Ready?
    ensures OpenerInv(live, raced, closed, if closed then bo else bo + [f], pco, [], [], [])
  {
    One(f);
    assert Data([]) == [];
    if bo == [] {
      assert [] + [f] == [f] && [f] + [] == [f];
      if pco != [] && !closed {
        assert bo + pco == pco && pco == [pco[0]];
        Push([f], pco[0]);
      }
    } else if !closed {
      assert bo == [bo[0]] && pco == [];
      assert (bo + [f]) + pco == [bo[0], f];
    }
  }

  /** The opener's announcement is queued for the opener itself. */
  lemma QueueReady(v: View)
    requires ViewInv(v) && v.poo != []
    ensures ViewInv(v.(bo := if v.oClosed then v.bo else v.bo + [v.poo[0]], poo := []))
  {
    ReadyQueued(v.live, v.raced, v.oClosed, v.bo, v.pco, v.poo[0]);
    Push(v.bo, v.poo[0]);
    hide Stream, OpenerInv, Closes;
    assert OpenerInv(v.live, v.raced, v.oClosed, v.bo, v.pco, v.poo, v.rc, v.tc);
    PooReady(v);
  }

  lemma PooReady(v: View)
    requires OpenerInv(v.live, v.raced, v.oClosed, v.bo, v.pco, v.poo, v.rc, v.tc)
    ensures v.poo != [] ==> |v.poo| == 1 && v.poo[0].Ready?
  {
  }

  /** An end deletes the session; its goroutine will tell the other end. */
  lemma OpenerDeletes(v: View, f: Down)
    requires ViewInv(v) && v.live && f.CloseTo? && v.poo == [] && v.poc == [] && v.ro == []
    ensures ViewInv(v.(live := false, poc := [f]))
  {
    StreamDies(v.cClosed, v.bc, v.poc, v.ro, v.to, f);
    StreamDies(v.oClosed, v.bo, v.pco, v.rc, v.tc, f);
    One(f);
    hide Stream, Late, Closes;
  }

  lemma TargetDeletes(v: View, f: Down)
    requires ViewInv(v) && v.live && f.CloseTo? && v.pco == [] && v.rc == []
    ensures ViewInv(v.(live := false, pco := [f]))
  {
    hide Stream, OpenerInv, Closes, Data, Reading;
    StreamDies(v.cClosed, v.bc, v.poc, v.ro, v.to, f);
    OpenerDies(v.raced, v.oClosed, v.bo, v.poo, v.rc, v.tc, f);
    One(f);
    NoCloses();
  }

  lemma NoCloses()
    ensures Closes([]) == 0
  {
  }

  lemma OpenerDies(raced: bool, closed: bool, bo: seq<Down>, poo: seq<Down>, rc: seq<Down>, tc: seq<Down>, f: Down)
    requires OpenerInv(true, raced, closed, bo, [], poo, rc, tc) && f.CloseTo?
    ensures OpenerInv(false, raced, closed, bo, [f], poo, rc, tc)
  {
    hide Stream, Data, Reading;
    StreamDies(closed, bo, [], rc, tc, f);
    assert bo == [] ==> bo + [f] == [f];
  }

  /** A connection closes: its mailbox is as it is for good. */
  lemma OpenerCloses(v: View)
    requires ViewInv(v)
    ensures ViewInv(v.(oClosed := true))
  {
    StreamCloses(v.live, v.oClosed, v.bo, v.pco, v.rc, v.tc);
    hide Stream, Overtaken, Closes;
  }

  lemma TargetCloses(v: View)
    requires ViewInv(v)
    ensures ViewInv(v.(cClosed := true))
  {
    StreamCloses(v.live, v.cClosed, v.bc, v.poc, v.ro, v.to);
    hide Stream, OpenerInv, Closes;
  }

  // ------------------------------------------------------------ what follows

  lemma OvertakenReads(w: seq<Down>)
    requires Overtaken(w) || (|w| == 1 && w[0].CloseTo?) || w == []
    ensures Data(w) == []
  {
    hide Data, Reading, Closes;
    if w == [] {
      NoData();
    } else {
      One(w[0]);
      if |w| == 2 {
        Push([w[0]], w[1]);
        assert w == [w[0]] + [w[1]];
      } else {
        assert w == [w[0]];
      }
    }
  }

  lemma NoData()
    ensures Data([]) == []
  {
  }

  /**
   * Each client is handed the other's traffic in order and without gaps. What the target
   * hears is an announcement, traffic, at most one close and nothing after it; what the
   * opener hears is that too, unless the close overtook the announcement: then it hears
   * the close, if it hears anything, and after it at most the announcement.
   */
  lemma Promised(v: View)
    requires ViewInv(v)
    ensures Leads(Data(v.bc), v.to) && Leads(Data(v.bo), v.tc)
    ensures Reading(v.bc) != Wrong
    ensures if v.raced then v.bo == [] || Overtaken(v.bo) else Reading(v.bo) != Wrong
    ensures Closes(v.bo) + Closes(v.bc) <= 1
  {
    StreamCloses(v.live, v.cClosed, v.bc, v.poc, v.ro, v.to);
    StreamCloses(v.live, v.oClosed, v.bo, v.pco, v.rc, v.tc);
    if v.poo != [] || v.raced {
      OvertakenReads(v.bo);
    }
  }
}
