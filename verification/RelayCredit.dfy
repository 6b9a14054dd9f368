/**
 * The two ends of a relay session over a path that delivers each direction in order until
 * it is cut: credit, acknowledgements and progress, with files, texts and documents in
 * both directions sharing the path with the acknowledgements.
 */
module RelayCredit {
  import opened Basics
  import opened HubSystem
  import opened RelayProtocol
  import opened TransferProtocol

  // ------------------------------------------------------------------- state

  /** A message by its size. `through`, in a confirmation, is history: see Confirm. */
  datatype Item =
    | Piece(file: nat, size: nat)
    | End(file: nat, size: nat)
    | Confirmed(file: nat, size: nat, through: nat)
    | Other(size: nat)

  datatype Carried = Data(item: Item) | Ack(bytes: nat)

  /**
   * One end. `cleared` says that the sending loop has passed waitUntilWritable and holds
   * its next chunk. `log` and `got`, all it has sent and received, are history.
   */
  datatype Side = Side(n: Counters, cleared: bool, log: seq<Item>, got: seq<Item>)

  /** One direction of the path. Once cut it carries nothing more. */
  datatype Pipe = Pipe(flow: seq<Carried>, cut: bool)

  datatype Link = Link(a: Side, b: Side, ab: Pipe, ba: Pipe)

  datatype Action =
    | Clear
    | SendPiece(file: nat, size: nat)
    | SendEnd(file: nat, size: nat)
    | SendOther(size: nat)
    | Confirm(i: nat, size: nat)
    | Deliver

  datatype Step = ByA(act: Action) | ByB(act: Action) | CutAB | CutBA

  function Push(p: Pipe, x: Carried): Pipe { if p.cut then p else p.(flow := p.flow + [x]) }

  function PushAck(p: Pipe, ack: Option<nat>): Pipe { if ack.None? then p else Push(p, Ack(ack.value)) }

  function Total(s: seq<Item>): nat { if s == [] then 0 else Total(s[..|s| - 1]) + s[|s| - 1].size }

  predicate CanAct(me: Side, inc: Pipe, act: Action) {
    match act
    case Clear => Credit(me.n)
    case SendPiece(_, size) => me.cleared && size <= CHUNK_SIZE
    case SendEnd(_, _) => true
    case SendOther(_) => true
    case Confirm(i, _) => i < |me.got| && me.got[i].End?
    case Deliver => inc.flow != []
  }

  datatype Moved = Moved(me: Side, out: Pipe, inc: Pipe)

  function SendItem(me: Side, out: Pipe, inc: Pipe, x: Item): Moved {
    Moved(me.(n := Wrote(me.n, x.size), log := me.log + [x]), Push(out, Data(x)), inc)
  }

  /** What one end does between two suspensions: its counters, and what it puts on the path. */
  function Act(me: Side, out: Pipe, inc: Pipe, act: Action): Moved
    requires CanAct(me, inc, act)
  {
    match act
    case Clear => Moved(me.(cleared := true), out, inc)
    case SendPiece(file, size) => SendItem(me.(cleared := false), out, inc, Piece(file, size))
    case SendEnd(file, size) => SendItem(me, out, inc, End(file, size))
    case SendOther(size) => SendItem(me, out, inc, Other(size))
    case Confirm(i, size) =>
      // The file is saved: flush the acknowledgement, then confirm.
      var n := Flushed(me.n);
      SendItem(me.(n := n), PushAck(out, AckSent(me.n, n)), inc,
               Confirmed(me.got[i].file, size, Total(me.got[..i + 1])))
    case Deliver =>
      var rest := inc.(flow := inc.flow[1..]);
      match inc.flow[0]
      case Ack(bytes) => Moved(me.(n := Heard(me.n, bytes)), out, rest)
      case Data(x) =>
        var n := Took(me.n, x.size);
        Moved(me.(n := n, got := me.got + [x]), PushAck(out, AckSent(me.n, n)), rest)
  }

  predicate CanStep(l: Link, s: Step) {
    match s
    case ByA(act) => CanAct(l.a, l.ba, act)
    case ByB(act) => CanAct(l.b, l.ab, act)
    case CutAB => true
    case CutBA => true
  }

  function Next(l: Link, s: Step): Link
    requires CanStep(l, s)
  {
    match s
    case ByA(act) => var m := Act(l.a, l.ab, l.ba, act); l.(a := m.me, ab := m.out, ba := m.inc)
    case ByB(act) => var m := Act(l.b, l.ba, l.ab, act); l.(b := m.me, ba := m.out, ab := m.inc)
    case CutAB => l.(ab := Pipe([], true))
    case CutBA => l.(ba := Pipe([], true))
  }

  const NEW := Side(Counters(0, 0, 0, 0), false, [], [])
  const INIT := Link(NEW, NEW, Pipe([], false), Pipe([], false))

  predicate IsRun(l: Link, steps: seq<Step>, last: Link)
    decreases |steps|
  {
    if steps == [] then l == last
    else CanStep(l, steps[0]) && IsRun(Next(l, steps[0]), steps[1..], last)
  }

  // --------------------------------------------------------------- invariant

  /** The messages on their way. */
  function Items(flow: seq<Carried>): seq<Item> {
    if flow == [] then [] else Carries(flow[0]) + Items(flow[1..])
  }

  /** Acknowledgements on their way only ever grow, from `low` up to the result. */
  predicate Rising(low: nat, flow: seq<Carried>)
    decreases |flow|
  {
    flow == [] ||
    (if flow[0].Ack? then low <= flow[0].bytes && Rising(flow[0].bytes, flow[1..]) else Rising(low, flow[1..]))
  }

  function Top(low: nat, flow: seq<Carried>): nat
    decreases |flow|
  {
    if flow == [] then low else Top(if flow[0].Ack? then flow[0].bytes else low, flow[1..])
  }

  /** By the time a confirmation arrives, what it speaks for has been acknowledged. */
  predicate Covered(low: nat, flow: seq<Carried>)
    decreases |flow|
  {
    flow == [] ||
    (if flow[0].Ack? then Covered(flow[0].bytes, flow[1..])
     else (flow[0].item.Confirmed? ==> flow[0].item.through <= low) && Covered(low, flow[1..]))
  }

  /** Bytes of file messages that lie beyond position `from` of the stream. */
  function FileBeyond(log: seq<Item>, from: nat): nat {
    if log == [] then 0
    else
      var x := log[|log| - 1];
      FileBeyond(log[..|log| - 1], from) + if x.Piece? then Within(x.size, Total(log), from) else 0
  }

  /** How much of a message of this size ending at `end` lies beyond `from`. */
  function Within(size: nat, end: nat, from: nat): nat {
    if end <= from then 0 else Min(size, end - from)
  }

  predicate Prefix<T(==)>(a: seq<T>, b: seq<T>) { |a| <= |b| && a == b[..|a|] }

  /** What crosses from s to r: nothing is lost, reordered or made up unless the path is cut. */
  predicate Crossing(log: seq<Item>, got: seq<Item>, out: Pipe) {
    Prefix(got + Items(out.flow), log) && (!out.cut ==> got + Items(out.flow) == log)
  }

  /** Counters agree with what has been sent and received. */
  predicate Counting(s: Side) {
    s.n.sent == Total(s.log) && s.n.received == Total(s.got)
    && s.n.ackedUpTo <= s.n.received < s.n.ackedUpTo + ACK_INTERVAL
  }

  /** Acknowledgements from r to s. */
  predicate Acking(acked: nat, upTo: nat, back: Pipe) {
    && Rising(acked, back.flow) && Covered(acked, back.flow)
    && Top(acked, back.flow) <= upTo
    && (!back.cut ==> Top(acked, back.flow) == upTo)
  }

  /** Every confirmation received speaks for no more than has been acknowledged. */
  predicate Settled(got: seq<Item>, acked: nat) {
    forall k :: 0 <= k < |got| && got[k].Confirmed? ==> got[k].through <= acked
  }

  /** Position `i` of the stream ends this file, `through` bytes in. */
  predicate EndsAt(got: seq<Item>, i: nat, file: nat, through: nat) {
    i < |got| && got[i].End? && got[i].file == file && Total(got[..i + 1]) == through
  }

  /** Every confirmation sent speaks for a file whose end has been received. */
  ghost predicate Vouched(log: seq<Item>, got: seq<Item>) {
    forall k :: 0 <= k < |log| && log[k].Confirmed? ==> exists i: nat :: EndsAt(got, i, log[k].file, log[k].through)
  }

  predicate Bounded(s: Side) {
    FileBeyond(s.log, s.n.acked) <= CREDIT_WINDOW + if s.cleared then 0 else CHUNK_SIZE
  }

  ghost predicate SideInv(s: Side) {
    Counting(s) && Bounded(s) && Settled(s.got, s.n.acked) && Vouched(s.log, s.got)
  }

  /** One direction: s sends, r receives, and acknowledgements come back. */
  predicate Between(s: Side, r: Side, out: Pipe, back: Pipe) {
    Crossing(s.log, r.got, out) && Acking(s.n.acked, r.n.ackedUpTo, back)
  }

  ghost predicate LinkInv(l: Link) {
    SideInv(l.a) && SideInv(l.b) && Between(l.a, l.b, l.ab, l.ba) && Between(l.b, l.a, l.ba, l.ab)
  }

  // ------------------------------------------------------------ small lemmas

  lemma TotalPush(s: seq<Item>, x: Item)
    ensures Total(s + [x]) == Total(s) + x.size
  {
    assert (s + [x])[..|s + [x]| - 1] == s;
  }

  lemma {:induction false} TotalPrefix(s: seq<Item>, i: nat)
    requires i <= |s|
    ensures Total(s[..i]) <= Total(s)
  {
    if i < |s| {
      assert s[..|s| - 1][..i] == s[..i];
      TotalPrefix(s[..|s| - 1], i);
    } else {
      assert s[..i] == s;
    }
  }

  lemma BeyondPush(log: seq<Item>, x: Item, from: nat)
    ensures FileBeyond(log + [x], from) == FileBeyond(log, from)
        + if x.Piece? then Within(x.size, Total(log) + x.size, from) else 0
  {
    assert (log + [x])[..|log + [x]| - 1] == log;
    TotalPush(log, x);
  }

  /** File bytes beyond a point are no more than all bytes beyond it, and fewer further on. */
  lemma {:induction false} BeyondFits(log: seq<Item>, from: nat)
    ensures FileBeyond(log, from) <= if Total(log) <= from then 0 else Total(log) - from
  {
    if log != [] { BeyondFits(log[..|log| - 1], from); }
  }

  lemma {:induction false} BeyondFalls(log: seq<Item>, from: nat, to: nat)
    requires from <= to
    ensures FileBeyond(log, to) <= FileBeyond(log, from)
  {
    if log != [] { BeyondFalls(log[..|log| - 1], from, to); }
  }

  function Carries(x: Carried): seq<Item> { if x.Data? then [x.item] else [] }

  lemma {:induction false} ItemsPush(flow: seq<Carried>, x: Carried)
    ensures Items(flow + [x]) == Items(flow) + Carries(x)
  {
    if flow == [] {
      assert flow + [x] == [x] && [x][1..] == [];
      assert Items([x]) == Carries(x) + Items([]);
    } else {
      assert (flow + [x])[1..] == flow[1..] + [x] && (flow + [x])[0] == flow[0];
      ItemsPush(flow[1..], x);
      var more := flow + [x];
      assert Items(more) == Carries(flow[0]) + Items(flow[1..] + [x]);
      assert Items(flow) == Carries(flow[0]) + Items(flow[1..]);
      hide Items, Carries;
      assert Carries(flow[0]) + (Items(flow[1..]) + Carries(x)) == (Carries(flow[0]) + Items(flow[1..])) + Carries(x);
    }
  }

  lemma {:induction false} AcksPush(low: nat, flow: seq<Carried>, x: Carried)
    ensures Top(low, flow + [x]) == if x.Ack? then x.bytes else Top(low, flow)
    ensures Rising(low, flow) && (x.Ack? ==> Top(low, flow) <= x.bytes) ==> Rising(low, flow + [x])
    ensures Covered(low, flow) && (x.Data? && x.item.Confirmed? ==> x.item.through <= Top(low, flow)) ==>
        Covered(low, flow + [x])
    decreases |flow|
  {
    if flow == [] {
      assert flow + [x] == [x] && [x][1..] == [];
    } else {
      assert (flow + [x])[1..] == flow[1..] + [x];
      AcksPush(if flow[0].Ack? then flow[0].bytes else low, flow[1..], x);
    }
  }

  lemma {:induction false} RisingTop(low: nat, flow: seq<Carried>)
    requires Rising(low, flow)
    ensures low <= Top(low, flow)
    decreases |flow|
  {
    if flow != [] { RisingTop(if flow[0].Ack? then flow[0].bytes else low, flow[1..]); }
  }

  // ------------------------------------------------- the pieces of a step

  /** A message of ours joins the path. */
  lemma CrossSends(log: seq<Item>, got: seq<Item>, out: Pipe, x: Item)
    requires Crossing(log, got, out)
    ensures Crossing(log + [x], got, Push(out, Data(x)))
  {
    ItemsPush(out.flow, Data(x));
    assert got + (Items(out.flow) + [x]) == (got + Items(out.flow)) + [x];
    hide Items;
  }

  lemma CrossAcks(log: seq<Item>, got: seq<Item>, out: Pipe, ack: Option<nat>)
    requires Crossing(log, got, out)
    ensures Crossing(log, got, PushAck(out, ack))
  {
    if ack.Some? { ItemsPush(out.flow, Ack(ack.value)); assert Items(out.flow) + [] == Items(out.flow); }
    hide Items;
  }

  /** What arrives leaves the path and joins what was received. */
  lemma CrossArrives(log: seq<Item>, got: seq<Item>, p: Pipe)
    requires Crossing(log, got, p) && p.flow != []
    ensures p.flow[0].Data? ==> Crossing(log, got + [p.flow[0].item], p.(flow := p.flow[1..]))
    ensures p.flow[0].Ack? ==> Crossing(log, got, p.(flow := p.flow[1..]))
  {
    assert Items(p.flow) == Carries(p.flow[0]) + Items(p.flow[1..]);
    hide Items;
    if p.flow[0].Data? {
      assert got + ([p.flow[0].item] + Items(p.flow[1..])) == (got + [p.flow[0].item]) + Items(p.flow[1..]);
    } else {
      assert [] + Items(p.flow[1..]) == Items(p.flow[1..]);
    }
  }

  /** An acknowledgement of everything received so far joins the path, or was already on it. */
  lemma AcksSend(acked: nat, before: Counters, after: Counters, back: Pipe)
    requires Acking(acked, before.ackedUpTo, back)
    requires before.ackedUpTo <= after.ackedUpTo
    requires (after.ackedUpTo == before.ackedUpTo || after.ackedUpTo == after.received)
    ensures Acking(acked, after.ackedUpTo, PushAck(back, AckSent(before, after)))
  {
    if AckSent(before, after).Some? { AcksPush(acked, back.flow, Ack(after.received)); }
    hide Rising, Covered, Top;
  }

  lemma AcksPass(acked: nat, upTo: nat, back: Pipe, x: Item)
    requires Acking(acked, upTo, back) && (x.Confirmed? && !back.cut ==> x.through <= upTo)
    ensures Acking(acked, upTo, Push(back, Data(x)))
  {
    AcksPush(acked, back.flow, Data(x));
    hide Rising, Covered, Top;
  }

  lemma AckArrives(acked: nat, upTo: nat, back: Pipe)
    requires Acking(acked, upTo, back) && back.flow != []
    ensures var acked' := if back.flow[0].Ack? then Max(acked, back.flow[0].bytes) else acked;
            Acking(acked', upTo, back.(flow := back.flow[1..])) && acked <= acked'
    ensures back.flow[0].Data? && back.flow[0].item.Confirmed? ==> back.flow[0].item.through <= acked
  {
  }

  lemma {:induction false} EndsStays(got: seq<Item>, x: Item, i: nat, file: nat, through: nat)
    requires EndsAt(got, i, file, through)
    ensures EndsAt(got + [x], i, file, through)
  {
    assert (got + [x])[..i + 1] == got[..i + 1];
  }

  // ---------------------------------------------------- each action keeps it

  /** What one end's action does to its own side, and to the two directions. */
  ghost predicate Kept(l: Moved, r: Side) {
    SideInv(l.me) && Between(l.me, r, l.out, l.inc) && Between(r, l.me, l.inc, l.out)
  }

  lemma SideSends(s: Side, x: Item)
    requires SideInv(s) && (x.Piece? ==> s.cleared && x.size <= CHUNK_SIZE)
    requires x.Confirmed? ==> exists i: nat :: EndsAt(s.got, i, x.file, x.through)
    ensures SideInv(s.(n := Wrote(s.n, x.size), log := s.log + [x], cleared := if x.Piece? then false else s.cleared))
  {
    TotalPush(s.log, x);
    BeyondPush(s.log, x, s.n.acked);
    hide EndsAt, FileBeyond, Total;
  }

  lemma ActSends(me: Side, out: Pipe, inc: Pipe, r: Side, x: Item)
    requires SideInv(me) && Between(me, r, out, inc) && Between(r, me, inc, out)
    requires x.Piece? ==> me.cleared && x.size <= CHUNK_SIZE
    requires x.Confirmed? ==> (exists i: nat :: EndsAt(me.got, i, x.file, x.through)) && x.through <= me.n.ackedUpTo
    ensures Kept(SendItem(me.(cleared := if x.Piece? then false else me.cleared), out, inc, x), r)
  {
    hide SideInv, Crossing, Acking, EndsAt, Push;
    SideSends(me, x);
    CrossSends(me.log, r.got, out, x);
    AcksPass(r.n.acked, me.n.ackedUpTo, out, x);
    SidesSame(me, x);
  }

  lemma SidesSame(me: Side, x: Item)
    ensures Wrote(me.n, x.size).ackedUpTo == me.n.ackedUpTo && Wrote(me.n, x.size).acked == me.n.acked
  {
  }

  lemma ActFlushes(me: Side, out: Pipe, inc: Pipe, r: Side)
    requires SideInv(me) && Between(me, r, out, inc) && Between(r, me, inc, out)
    ensures var n := Flushed(me.n); Kept(Moved(me.(n := n), PushAck(out, AckSent(me.n, n)), inc), r)
  {
    var n := Flushed(me.n);
    CrossAcks(me.log, r.got, out, AckSent(me.n, n));
    AcksSend(r.n.acked, me.n, n, out);
    hide Crossing, Acking, FileBeyond, Total, EndsAt, PushAck, Vouched, Settled;
  }

  lemma ActConfirms(me: Side, out: Pipe, inc: Pipe, r: Side, i: nat, size: nat)
    requires SideInv(me) && Between(me, r, out, inc) && Between(r, me, inc, out)
    requires i < |me.got| && me.got[i].End?
    ensures Kept(Act(me, out, inc, Confirm(i, size)), r)
  {
    hide SideInv, Between, EndsAt, Total, Kept, PushAck;
    ActFlushes(me, out, inc, r);
    var n := Flushed(me.n);
    var x := Confirmed(me.got[i].file, size, Total(me.got[..i + 1]));
    assert EndsAt(me.got, i, x.file, x.through) by { EndHere(me.got, i); }
    assert x.through <= me.n.received by { TotalPrefix(me.got, i + 1); SideCounts(me); }
    KeptParts(Moved(me.(n := n), PushAck(out, AckSent(me.n, n)), inc), r);
    ActSends(me.(n := n), PushAck(out, AckSent(me.n, n)), inc, r, x);
  }

  lemma EndHere(got: seq<Item>, i: nat)
    requires i < |got| && got[i].End?
    ensures EndsAt(got, i, got[i].file, Total(got[..i + 1]))
  {
  }

  lemma KeptParts(m: Moved, r: Side)
    requires Kept(m, r)
    ensures SideInv(m.me) && Between(m.me, r, m.out, m.inc) && Between(r, m.me, m.inc, m.out)
  {
  }

  lemma SideHears(s: Side, bytes: nat)
    requires SideInv(s)
    ensures SideInv(s.(n := Heard(s.n, bytes)))
  {
    BeyondFalls(s.log, s.n.acked, Max(s.n.acked, bytes));
    hide FileBeyond, Total, Vouched;
  }

  lemma ActHears(me: Side, out: Pipe, inc: Pipe, r: Side)
    requires SideInv(me) && Between(me, r, out, inc) && Between(r, me, inc, out)
    requires inc.flow != [] && inc.flow[0].Ack?
    ensures Kept(Act(me, out, inc, Deliver), r)
  {
    CrossArrives(r.log, me.got, inc);
    AckArrives(me.n.acked, r.n.ackedUpTo, inc);
    SideHears(me, inc.flow[0].bytes);
    hide SideInv, Crossing, Acking;
  }

  lemma SideTakes(s: Side, x: Item)
    requires SideInv(s) && (x.Confirmed? ==> x.through <= s.n.acked)
    ensures SideInv(s.(n := Took(s.n, x.size), got := s.got + [x]))
  {
    TotalPush(s.got, x);
    var got := s.got + [x];
    assert Vouched(s.log, got) by {
      forall k | 0 <= k < |s.log| && s.log[k].Confirmed?
        ensures exists i: nat :: EndsAt(got, i, s.log[k].file, s.log[k].through)
      {
        var i: nat :| EndsAt(s.got, i, s.log[k].file, s.log[k].through);
        EndsStays(s.got, x, i, s.log[k].file, s.log[k].through);
      }
    }
    hide FileBeyond, Total, Vouched;
  }

  lemma ActTakes(me: Side, out: Pipe, inc: Pipe, r: Side)
    requires SideInv(me) && Between(me, r, out, inc) && Between(r, me, inc, out)
    requires inc.flow != [] && inc.flow[0].Data?
    ensures Kept(Act(me, out, inc, Deliver), r)
  {
    var x := inc.flow[0].item;
    var n := Took(me.n, x.size);
    CrossArrives(r.log, me.got, inc);
    AckArrives(me.n.acked, r.n.ackedUpTo, inc);
    SideTakes(me, x);
    CrossAcks(me.log, r.got, out, AckSent(me.n, n));
    assert me.n.ackedUpTo <= n.ackedUpTo by { assert Counting(me); }
    AcksSend(r.n.acked, me.n, n, out);
    hide SideInv, Crossing, Acking, PushAck;
  }

  lemma SideClears(s: Side)
    requires SideInv(s) && Credit(s.n)
    ensures SideInv(s.(cleared := true))
  {
    BeyondFits(s.log, s.n.acked);
    hide FileBeyond, Total, Vouched;
  }

  lemma ActKeeps(me: Side, out: Pipe, inc: Pipe, r: Side, act: Action)
    requires SideInv(me) && Between(me, r, out, inc) && Between(r, me, inc, out)
    requires CanAct(me, inc, act)
    ensures Kept(Act(me, out, inc, act), r)
  {
    if act.Clear? { SideClears(me); }
    hide SideInv, Crossing, Acking;
    match act
    case Clear =>
    case SendPiece(file, size) => ActSends(me, out, inc, r, Piece(file, size));
    case SendEnd(file, size) => ActSends(me, out, inc, r, End(file, size));
    case SendOther(size) => ActSends(me, out, inc, r, Other(size));
    case Confirm(i, size) => ActConfirms(me, out, inc, r, i, size);
    case Deliver => if inc.flow[0].Ack? { ActHears(me, out, inc, r); } else { ActTakes(me, out, inc, r); }
  }

  lemma CutKeeps(s: Side, r: Side, out: Pipe, back: Pipe)
    requires Between(s, r, out, back)
    ensures Between(s, r, Pipe([], true), back)
    ensures SideInv(s) && SideInv(r) ==> Between(s, r, out, Pipe([], true))
  {
    RisingTop(s.n.acked, back.flow);
    assert r.got + [] == r.got;
    hide SideInv;
  }

  lemma StepKeeps(l: Link, s: Step)
    requires LinkInv(l) && CanStep(l, s)
    ensures LinkInv(Next(l, s))
  {
    hide SideInv, Between, Act, CanAct;
    match s
    case ByA(act) => ActKeeps(l.a, l.ab, l.ba, l.b, act);
    case ByB(act) => ActKeeps(l.b, l.ba, l.ab, l.a, act);
    case CutAB => CutKeeps(l.a, l.b, l.ab, l.ba); CutKeeps(l.b, l.a, l.ba, l.ab);
    case CutBA => CutKeeps(l.a, l.b, l.ab, l.ba); CutKeeps(l.b, l.a, l.ba, l.ab);
  }

  lemma InitKeeps()
    ensures LinkInv(INIT)
  {
  }

  lemma {:induction false} RunKeeps(l: Link, steps: seq<Step>, last: Link)
    requires LinkInv(l) && IsRun(l, steps, last)
    ensures LinkInv(last)
    decreases |steps|
  {
    if steps != [] {
      StepKeeps(l, steps[0]);
      hide LinkInv, CanStep, Next;
      RunKeeps(Next(l, steps[0]), steps[1..], last);
    }
  }

  // -------------------------------------------------------------- the results

  lemma {:induction false} TotalConcat(a: seq<Item>, b: seq<Item>)
    ensures Total(a + b) == Total(a) + Total(b)
  {
    if b == [] {
      assert a + b == a;
    } else {
      assert (a + b)[..|a + b| - 1] == a + b[..|b| - 1];
      TotalConcat(a, b[..|b| - 1]);
    }
  }

  /** Bytes of one file among these messages. */
  function FileBytes(s: seq<Item>, file: nat): nat {
    if s == [] then 0
    else
      var x := s[|s| - 1];
      FileBytes(s[..|s| - 1], file) + if x.Piece? && x.file == file then x.size else 0
  }

  lemma {:induction false} FileBytesConcat(a: seq<Item>, b: seq<Item>, file: nat)
    ensures FileBytes(a, file) <= FileBytes(a + b, file) <= FileBytes(a, file) + Total(b)
  {
    if b == [] {
      assert a + b == a;
    } else {
      assert (a + b)[..|a + b| - 1] == a + b[..|b| - 1];
      FileBytesConcat(a, b[..|b| - 1], file);
    }
  }

  /** What is received is a prefix of what is sent, and the rest is still to come or lost. */
  lemma Split(s: Side, r: Side, out: Pipe, back: Pipe) returns (rest: seq<Item>)
    requires Between(s, r, out, back)
    ensures s.log == r.got + rest && Total(s.log) == Total(r.got) + Total(rest)
    ensures !out.cut && out.flow == [] ==> rest == []
  {
    rest := s.log[|r.got|..];
    assert s.log == r.got + rest;
    TotalConcat(r.got, rest);
  }

  /** acked <= ackedUpTo <= received <= sent, whatever has been sent, delivered or cut. */
  lemma DirectionNests(s: Side, r: Side, out: Pipe, back: Pipe)
    requires SideInv(s) && SideInv(r) && Between(s, r, out, back)
    ensures s.n.acked <= r.n.ackedUpTo <= r.n.received <= s.n.sent
  {
    var rest := Split(s, r, out, back);
    RisingTop(s.n.acked, back.flow);
    assert Counting(s) && Counting(r);
    hide Bounded, Settled, Vouched, Crossing;
  }

  lemma CountersNest(steps: seq<Step>, l: Link)
    requires IsRun(INIT, steps, l)
    ensures l.a.n.acked <= l.b.n.ackedUpTo <= l.b.n.received <= l.a.n.sent
    ensures l.b.n.acked <= l.a.n.ackedUpTo <= l.a.n.received <= l.b.n.sent
  {
    hide IsRun, SideInv, Between;
    InitKeeps();
    RunKeeps(INIT, steps, l);
    DirectionNests(l.a, l.b, l.ab, l.ba);
    DirectionNests(l.b, l.a, l.ba, l.ab);
  }

  /** However texts interleave, unacknowledged file bytes exceed the window by at most a chunk. */
  lemma CreditHolds(steps: seq<Step>, l: Link)
    requires IsRun(INIT, steps, l)
    ensures FileBeyond(l.a.log, l.a.n.acked) <= CREDIT_WINDOW + CHUNK_SIZE
    ensures FileBeyond(l.b.log, l.b.n.acked) <= CREDIT_WINDOW + CHUNK_SIZE
  {
    hide IsRun, FileBeyond;
    InitKeeps();
    RunKeeps(INIT, steps, l);
  }

  /** A sends k chunks before anything is acknowledged. */
  lemma {:induction false} Fills(k: nat) returns (steps: seq<Step>, l: Link)
    requires k <= 65
    ensures IsRun(INIT, steps, l) && !l.a.cleared && l.a.n.acked == 0
    ensures l.a.n.sent == Total(l.a.log) == FileBeyond(l.a.log, 0) == k * 65536
  {
    if k == 0 {
      steps, l := [], INIT;
    } else {
      var before, mid := Fills(k - 1);
      var clear, send := ByA(Clear), ByA(SendPiece(0, 65536));
      var l1 := Next(mid, clear);
      l := Next(l1, send);
      var two := [clear, send];
      assert two[1..] == [send] && [send][1..] == [];
      assert IsRun(l1, [send], l) && IsRun(mid, two, l);
      BeyondPush(mid.a.log, Piece(0, 65536), 0);
      TotalPush(mid.a.log, Piece(0, 65536));
      RunsJoin(INIT, before, mid, two, l);
      steps := before + two;
    }
  }

  /** The window is used in full: the bound of CreditHolds, 4 MB and a chunk, is reached. */
  lemma WindowIsReached()
    ensures exists steps, l :: IsRun(INIT, steps, l) && FileBeyond(l.a.log, l.a.n.acked) == 4259840
  {
    var steps, l := Fills(65);
    assert IsRun(INIT, steps, l);
  }

  /** A sender out of credit on a whole path has something of its own, or an ack for it, under way. */
  lemma NoStall(steps: seq<Step>, l: Link)
    requires IsRun(INIT, steps, l) && !l.ab.cut && !l.ba.cut
    ensures l.ab.flow == [] && l.ba.flow == [] ==>
        l.a.n.sent - l.a.n.acked < ACK_INTERVAL && l.b.n.sent - l.b.n.acked < ACK_INTERVAL
    ensures !Credit(l.a.n) || !Credit(l.b.n) ==> l.ab.flow != [] || l.ba.flow != []
  {
    hide IsRun;
    InitKeeps();
    RunKeeps(INIT, steps, l);
    var ra := Split(l.a, l.b, l.ab, l.ba);
    var rb := Split(l.b, l.a, l.ba, l.ab);
    hide Bounded, Settled, Vouched, Crossing;
  }

  /** What is under way, and the acknowledgements it can still cause. */
  function Pending(l: Link): nat { 2 * |Items(l.ab.flow)| + |l.ab.flow| + 2 * |Items(l.ba.flow)| + |l.ba.flow| }

  predicate IsDelivery(s: Step) { (s.ByA? || s.ByB?) && s.act.Deliver? }

  lemma DeliveryLightens(l: Link, s: Step)
    requires CanStep(l, s) && IsDelivery(s)
    ensures Pending(Next(l, s)) < Pending(l)
    ensures Next(l, s).ab.cut == l.ab.cut && Next(l, s).ba.cut == l.ba.cut
  {
    var m := if s.ByA? then Act(l.a, l.ab, l.ba, Deliver) else Act(l.b, l.ba, l.ab, Deliver);
    var out, inc := if s.ByA? then l.ab else l.ba, if s.ByA? then l.ba else l.ab;
    assert Items(inc.flow) == Carries(inc.flow[0]) + Items(inc.flow[1..]);
    if |m.out.flow| > |out.flow| {
      ItemsPush(out.flow, m.out.flow[|out.flow|]);
      assert m.out.flow == out.flow + [m.out.flow[|out.flow|]];
    }
    hide Items;
  }

  ghost predicate AllDeliveries(steps: seq<Step>) { forall k :: 0 <= k < |steps| ==> IsDelivery(steps[k]) }

  lemma {:induction false} DeliveriesEnd(l: Link, steps: seq<Step>, last: Link)
    requires IsRun(l, steps, last) && AllDeliveries(steps)
    ensures |steps| + Pending(last) <= Pending(l)
    ensures last.ab.cut == l.ab.cut && last.ba.cut == l.ba.cut
    decreases |steps|
  {
    if steps != [] {
      assert IsDelivery(steps[0]);
      DeliveryLightens(l, steps[0]);
      hide CanStep, Next, Pending, IsDelivery;
      DeliveriesEnd(Next(l, steps[0]), steps[1..], last);
    }
  }

  lemma {:induction false} RunsJoin(l: Link, first: seq<Step>, mid: Link, more: seq<Step>, last: Link)
    requires IsRun(l, first, mid) && IsRun(mid, more, last)
    ensures IsRun(l, first + more, last)
    decreases |first|
  {
    if first == [] {
      assert first + more == more;
    } else {
      assert (first + more)[1..] == first[1..] + more;
      hide CanStep, Next;
      RunsJoin(Next(l, first[0]), first[1..], mid, more, last);
    }
  }

  /**
   * Delivering what is under way, acknowledgements it causes included, takes a bounded
   * number of steps, and when nothing is left to deliver both ends have credit again.
   */
  lemma CreditComesBack(before: seq<Step>, l: Link, steps: seq<Step>, last: Link)
    requires IsRun(INIT, before, l) && !l.ab.cut && !l.ba.cut
    requires IsRun(l, steps, last) && AllDeliveries(steps)
    ensures |steps| <= Pending(l)
    ensures !CanStep(last, ByA(Deliver)) && !CanStep(last, ByB(Deliver)) ==> Credit(last.a.n) && Credit(last.b.n)
  {
    hide IsRun, AllDeliveries, Pending;
    DeliveriesEnd(l, steps, last);
    RunsJoin(INIT, before, l, steps, last);
    NoStall(before + steps, last);
  }

  /**
   * Progress is never overstated: the value reported for a file, its bytes sent less the
   * bytes still unacknowledged, is at most what the receiver has taken in of that file.
   */
  lemma ProgressIsHonest(steps: seq<Step>, l: Link, file: nat)
    requires IsRun(INIT, steps, l)
    ensures FileBytes(l.a.log, file) - (l.a.n.sent - l.a.n.acked) <= FileBytes(l.b.got, file)
    ensures FileBytes(l.b.log, file) - (l.b.n.sent - l.b.n.acked) <= FileBytes(l.a.got, file)
  {
    hide IsRun, SideInv, Between;
    CountersNest(steps, l);
    InitKeeps();
    RunKeeps(INIT, steps, l);
    var ra := Split(l.a, l.b, l.ab, l.ba);
    FileBytesConcat(l.b.got, ra, file);
    var rb := Split(l.b, l.a, l.ba, l.ab);
    FileBytesConcat(l.a.got, rb, file);
    assert Counting(l.a) && Counting(l.b) by { SideCounts(l.a); SideCounts(l.b); }
  }

  lemma SideCounts(s: Side)
    requires SideInv(s)
    ensures Counting(s)
  {
  }

  /** The end of this file is in the stream, and everything through it is acknowledged. */
  predicate ThroughEnd(log: seq<Item>, i: nat, file: nat, acked: nat) {
    i < |log| && log[i].End? && log[i].file == file && Total(log[..i + 1]) <= acked
  }

  lemma EndInLog(log: seq<Item>, got: seq<Item>, i: nat, file: nat, through: nat, acked: nat)
    requires Prefix(got, log) && EndsAt(got, i, file, through) && through <= acked
    ensures ThroughEnd(log, i, file, acked)
  {
    assert log[..i + 1] == got[..i + 1];
    assert log[i] == got[i];
    hide Total;
  }

  lemma GotIsPrefix(s: Side, r: Side, out: Pipe, back: Pipe)
    requires Between(s, r, out, back)
    ensures Prefix(r.got, s.log)
  {
    hide Items, Acking;
  }

  lemma DirectionSettles(s: Side, r: Side, out: Pipe, back: Pipe, k: nat)
    requires SideInv(s) && SideInv(r) && Between(s, r, out, back) && Between(r, s, back, out)
    requires k < |s.got| && s.got[k].Confirmed?
    ensures exists i: nat :: ThroughEnd(s.log, i, s.got[k].file, s.n.acked)
  {
    GotIsPrefix(s, r, out, back);
    GotIsPrefix(r, s, back, out);
    var x := s.got[k];
    assert r.log[k] == x;
    hide Total, FileBeyond, EndsAt, ThroughEnd, Counting, Bounded, Between;
    assert exists i: nat :: EndsAt(r.got, i, x.file, x.through);
    var i: nat :| EndsAt(r.got, i, x.file, x.through);
    EndInLog(s.log, r.got, i, x.file, x.through, s.n.acked);
  }

  /** When a confirmation has arrived, everything through the end of its file is acknowledged. */
  lemma ConfirmedMeansAcknowledged(steps: seq<Step>, l: Link, s: Side, k: nat)
    requires IsRun(INIT, steps, l) && (s == l.a || s == l.b) && k < |s.got| && s.got[k].Confirmed?
    ensures exists i: nat :: ThroughEnd(s.log, i, s.got[k].file, s.n.acked)
  {
    hide IsRun, SideInv, Between, ThroughEnd;
    InitKeeps();
    RunKeeps(INIT, steps, l);
    if s == l.a { DirectionSettles(l.a, l.b, l.ab, l.ba, k); } else { DirectionSettles(l.b, l.a, l.ba, l.ab, k); }
  }

  // ------------------------------------------------ a pump is always carried to its end

  function Of(l: Link, first: bool): Side { if first then l.a else l.b }

  function By(first: bool, act: Action): Step { if first then ByA(act) else ByB(act) }

  /** How many chunks are cut from this many bytes. */
  function PiecesOf(left: nat): nat { (left + CHUNK_SIZE - 1) / CHUNK_SIZE }

  /** What may happen while one end pumps a file of which `left` bytes remain: its own turns, and deliveries. */
  predicate IsTurn(l: Link, first: bool, file: nat, left: nat, s: Step) {
    CanStep(l, s)
    && (|| IsDelivery(s)
        || (left > 0 && !Of(l, first).cleared && s == By(first, Clear))
        || (left > 0 && s == By(first, SendPiece(file, Min(left, CHUNK_SIZE)))))
  }

  function Remaining(left: nat, s: Step): nat {
    if (s.ByA? || s.ByB?) && s.act.SendPiece? then left - Min(left, CHUNK_SIZE) else left
  }

  /** A file being pumped, in any order of turns and deliveries, until `rest` bytes remain. */
  predicate IsPump(l: Link, first: bool, file: nat, left: nat, steps: seq<Step>, last: Link, rest: nat)
    decreases |steps|
  {
    if steps == [] then l == last && left == rest
    else IsTurn(l, first, file, left, steps[0])
         && IsPump(Next(l, steps[0]), first, file, Remaining(left, steps[0]), steps[1..], last, rest)
  }

  /** A chunk costs a wait, a turn, its delivery and that of the acknowledgement it may cause. */
  function Effort(l: Link, first: bool, left: nat): nat {
    5 * PiecesOf(left) + (if Of(l, first).cleared then 0 else 1) + Pending(l)
  }

  lemma PieceCut(left: nat)
    requires left > 0
    ensures PiecesOf(left - Min(left, CHUNK_SIZE)) == PiecesOf(left) - 1
  {
  }

  lemma PieceAdds(l: Link, first: bool, file: nat, size: nat)
    requires CanStep(l, By(first, SendPiece(file, size))) && !l.ab.cut && !l.ba.cut
    ensures var z := Next(l, By(first, SendPiece(file, size)));
      Pending(z) == Pending(l) + 3 && !Of(z, first).cleared
        && FileBytes(Of(z, first).log, file) == FileBytes(Of(l, first).log, file) + size
  {
    var x := Piece(file, size);
    ItemsPush(if first then l.ab.flow else l.ba.flow, Data(x));
    var log := Of(l, first).log;
    assert (log + [x])[..|log + [x]| - 1] == log;
    hide Items;
  }

  lemma DeliveryKeepsLogs(l: Link, s: Step)
    requires CanStep(l, s) && IsDelivery(s)
    ensures Next(l, s).a.log == l.a.log && Next(l, s).b.log == l.b.log
    ensures Next(l, s).a.cleared == l.a.cleared && Next(l, s).b.cleared == l.b.cleared
  {
  }

  lemma TurnLightens(l: Link, first: bool, file: nat, left: nat, s: Step)
    requires IsTurn(l, first, file, left, s) && !l.ab.cut && !l.ba.cut
    ensures var z := Next(l, s);
      && Effort(z, first, Remaining(left, s)) < Effort(l, first, left) && !z.ab.cut && !z.ba.cut
      && FileBytes(Of(z, first).log, file) + Remaining(left, s) == FileBytes(Of(l, first).log, file) + left
  {
    if IsDelivery(s) {
      DeliveryLightens(l, s);
      DeliveryKeepsLogs(l, s);
      hide CanStep, Next, Pending;
    } else if s == By(first, Clear) {
    } else {
      PieceCut(left);
      PieceAdds(l, first, file, Min(left, CHUNK_SIZE));
      assert !Next(l, s).ab.cut && !Next(l, s).ba.cut;
      hide CanStep, Next, Pending, FileBytes, PiecesOf;
    }
  }

  lemma {:induction false} PumpLightens(l: Link, first: bool, file: nat, left: nat, steps: seq<Step>, last: Link,
                                        rest: nat)
    requires IsPump(l, first, file, left, steps, last, rest) && !l.ab.cut && !l.ba.cut
    ensures IsRun(l, steps, last) && !last.ab.cut && !last.ba.cut
    ensures |steps| + Effort(last, first, rest) <= Effort(l, first, left)
    ensures FileBytes(Of(last, first).log, file) + rest == FileBytes(Of(l, first).log, file) + left
    decreases |steps|
  {
    if steps != [] {
      TurnLightens(l, first, file, left, steps[0]);
      assert CanStep(l, steps[0]);
      hide CanStep, Next, IsTurn, Remaining, Effort, FileBytes, Of;
      PumpLightens(Next(l, steps[0]), first, file, Remaining(left, steps[0]), steps[1..], last, rest);
    }
  }

  /** While bytes remain, the pump or the path has a turn. */
  lemma NextTurn(l: Link, first: bool, file: nat, left: nat) returns (s: Step)
    requires left > 0 && (Of(l, first).cleared || Credit(Of(l, first).n) || l.ab.flow != [] || l.ba.flow != [])
    ensures IsTurn(l, first, file, left, s)
  {
    if Of(l, first).cleared {
      s := By(first, SendPiece(file, Min(left, CHUNK_SIZE)));
    } else if Credit(Of(l, first).n) {
      s := By(first, Clear);
    } else if l.ab.flow != [] {
      s := ByB(Deliver);
    } else {
      s := ByA(Deliver);
    }
  }

  /**
   * A pump of any number of bytes, begun in any state of a whole path, is carried to its
   * end: however its turns and the deliveries are ordered, the steps are bounded, what has
   * been sent and what remains add up, and while anything remains some turn is possible.
   */
  lemma PumpFinishes(before: seq<Step>, l: Link, first: bool, file: nat, size: nat, steps: seq<Step>, last: Link,
                     rest: nat)
    requires IsRun(INIT, before, l) && !l.ab.cut && !l.ba.cut && IsPump(l, first, file, size, steps, last, rest)
    ensures |steps| <= Effort(l, first, size)
    ensures FileBytes(Of(last, first).log, file) + rest == FileBytes(Of(l, first).log, file) + size
    ensures rest > 0 ==> exists s :: IsTurn(last, first, file, rest, s)
  {
    hide IsRun, IsPump, Effort, FileBytes, IsTurn;
    PumpLightens(l, first, file, size, steps, last, rest);
    RunsJoin(INIT, before, l, steps, last);
    NoStall(before + steps, last);
    if rest > 0 { var s := NextTurn(last, first, file, rest); }
  }
}
