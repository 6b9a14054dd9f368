/**
 * The close of a session can overtake its announcement: when the target departs between
 * the moment its session is put in the table and the moment the opener is told. Who wins
 * is decided, not when the session leaves the table, but when the target's goroutine queues
 * the close for the opener; runs show that either can.
 */
module HubRace {
  import opened Basics
  import opened HubSystem
  import opened SessionView
  import opened HubTraffic
  import opened HubSafety
  import opened HubSessions

  /** A run can be extended by a step, and by a run. */
  lemma {:induction false} Then(h0: Hub, steps: seq<Step>, h: Hub, s: Step)
    requires IsRun(h0, steps, h) && IsUnwrapped(h0, steps) && CanStep(h, s)
    requires NoWrap(h, s)
    ensures IsRun(h0, steps + [s], Next(h, s)) && IsUnwrapped(h0, steps + [s])
    decreases |steps|
  {
    hide CanStep, Next, NoWrap;
    if steps == [] {
      assert steps + [s] == [s] && [s][1..] == [];
    } else {
      assert (steps + [s])[1..] == steps[1..] + [s];
      Then(Next(h0, steps[0]), steps[1..], h, s);
    }
  }

  ghost predicate Reached(h0: Hub, h: Hub) {
    exists steps :: IsRun(h0, steps, h) && IsUnwrapped(h0, steps)
  }

  lemma Go(h0: Hub, h: Hub, s: Step)
    requires Reached(h0, h) && CanStep(h, s) && NoWrap(h, s)
    ensures Reached(h0, Next(h, s))
  {
    var steps :| IsRun(h0, steps, h) && IsUnwrapped(h0, steps);
    hide IsRun, IsUnwrapped, CanStep, Next, NoWrap;
    Then(h0, steps, h, s);
  }

  const A := Info("a", "")
  const B := Info("b", "")
  const ROSTER := map["r" := map["a" := 0, "b" := 1]]
  const TO_A := [Mail(0, Welcome(A, [])), Mail(1, PeerJoin(B))]
  const NOTHING := Pick([], 0)

  function Two(a: Peer, b: Peer, rooms: map<string, map<string, nat>>, joins: seq<nat>): Hub {
    Hub([a, b], rooms, map[], 0, map[], joins, {})
  }

  function Browser(id: string, ops: seq<Op>, queue: seq<Mail>): Peer {
    Peer("r", id, "", false, false, [], [], ops, queue, None, [], [], {})
  }

  lemma BothConnect()
    ensures Reached(EMPTY, Two(Browser("a", [Join], []), Browser("b", [Join], []), map[], []))
  {
    assert IsRun(EMPTY, [], EMPTY) && IsUnwrapped(EMPTY, []);
    assert Reached(EMPTY, EMPTY);
    Go(EMPTY, EMPTY, Connect("r", "a", ""));
    var h := Next(EMPTY, Connect("r", "a", ""));
    assert h.peers == [Browser("a", [Join], [])];
    hide Reached;
    Go(EMPTY, h, Connect("r", "b", ""));
    assert Next(h, Connect("r", "b", "")).peers == [Browser("a", [Join], []), Browser("b", [Join], [])];
  }

  /** The first pending operation of goroutine p, a frame to queue, is carried out. */
  lemma Queue(h0: Hub, h: Hub, p: nat, to: nat, f: Down, a: Peer, b: Peer)
    requires Reached(h0, h) && |h.peers| == 2 && p < 2 && to < 2 && h.peers[p].ops != []
    requires h.peers[p].ops[0] == Enqueue(to, f)
    requires forall r, i :: r in h.rooms && i in h.rooms[r] ==> h.rooms[r][i] < 2
    requires !h.peers[to].closed && |h.peers[to].queue| < OUTBOUND_QUEUE
    requires a == Queued(h.peers[0], 0, p, to, f) && b == Queued(h.peers[1], 1, p, to, f)
    ensures Reached(h0, h.(peers := [a, b], raced := if Overtakes(h, to, f) then h.raced + {f.sid} else h.raced))
  {
    hide Reached;
    Go(h0, h, Exec(p, NOTHING));
    assert DoEnqueue(h, p, to, f).peers == [a, b];
    hide Overtakes;
    assert Next(h, Exec(p, NOTHING)) ==
           h.(peers := [a, b], raced := if Overtakes(h, to, f) then h.raced + {f.sid} else h.raced);
  }

  function Queued(x: Peer, i: nat, p: nat, to: nat, f: Down): Peer {
    var y := if i == p && x.ops != [] then x.(ops := x.ops[1..]) else x;
    if i == to then y.(queue := y.queue + [Mail(p, f)]) else y
  }

  const ALONE := map["r" := map["a" := 0]]

  lemma FirstJoins()
    ensures Reached(EMPTY, Two(Browser("a", [], [Mail(0, Welcome(A, []))]), Browser("b", [Join], []), ALONE, [0]))
  {
    BothConnect();
    hide Reached;
    var b := Browser("b", [Join], []);
    var h := Two(Browser("a", [Join], []), b, map[], []);
    Go(EMPTY, h, Exec(0, NOTHING));
    var a1 := Browser("a", [Enqueue(0, Welcome(A, []))], []);
    var h1 := Two(a1, b, ALONE, [0]);
    var h2 := DoJoin(h, 0, []);
    assert Tell([], PeerJoin(A)) == [] && Infos(h.peers, []) == [] && Rest(h, 0) == [];
    assert JoinOps(map[], 0, "a", Welcome(A, []), [], PeerJoin(A)) == a1.ops;
    assert h2.peers[0].ops == a1.ops;
    assert h2.peers == [a1, b];
    assert h2.rooms == ALONE by { assert RoomMap(h, "r")["a" := 0] == map["a" := 0]; }
    assert h2.joins == [0];
    assert Next(h, Exec(0, NOTHING)) == h1;
    var a2 := Browser("a", [], [Mail(0, Welcome(A, []))]);
    assert a2 == Queued(a1, 0, 0, 0, Welcome(A, []));
    Queue(EMPTY, h1, 0, 0, Welcome(A, []), a2, b);
  }

  lemma SecondJoins()
    ensures Reached(EMPTY, Two(Browser("a", [], TO_A), Browser("b", [], [Mail(1, Welcome(B, [A]))]), ROSTER, [0, 1]))
  {
    FirstJoins();
    hide Reached;
    var a := Browser("a", [], [Mail(0, Welcome(A, []))]);
    var ops := [Enqueue(1, Welcome(B, [A])), Enqueue(0, PeerJoin(B))];
    SecondIsIn(a, ops);
    var b1, b2 := Browser("b", ops, []), Browser("b", [ops[1]], [Mail(1, Welcome(B, [A]))]);
    assert b2 == Queued(b1, 1, 1, 1, ops[0].f);
    Queue(EMPTY, Two(a, b1, ROSTER, [0, 1]), 1, 1, ops[0].f, a, b2);
    var a3, b3 := Browser("a", [], TO_A), Browser("b", [], [Mail(1, Welcome(B, [A]))]);
    Queue(EMPTY, Two(a, b2, ROSTER, [0, 1]), 1, 0, PeerJoin(B), a3, b3);
  }

  lemma SecondIsIn(a: Peer, ops: seq<Op>)
    requires a == Browser("a", [], [Mail(0, Welcome(A, []))])
    requires ops == [Enqueue(1, Welcome(B, [A])), Enqueue(0, PeerJoin(B))]
    requires Reached(EMPTY, Two(a, Browser("b", [Join], []), ALONE, [0]))
    ensures Reached(EMPTY, Two(a, Browser("b", ops, []), ROSTER, [0, 1]))
  {
    hide Reached;
    var h := Two(a, Browser("b", [Join], []), ALONE, [0]);
    assert OthersIn(h, 1) == {0} by {
      var m: map<string, nat> := map["a" := 0];
      assert ALONE["r"] - {"b"} == m;
      assert m["a"] == 0 && "a" in m;
      assert m.Values == {0};
    }
    assert Lists([0], OthersIn(h, 1));
    Go(EMPTY, h, Exec(1, Pick([0], 0)));
    hide Lists, OthersIn;
    var b1 := Browser("b", ops, []);
    var h2 := DoJoin(h, 1, [0]);
    assert Infos(h.peers, [0]) == [A];
    assert h2.peers[1].ops == ops;
    assert h2.peers == [a, b1];
    assert h2.rooms == ROSTER by { assert RoomMap(h, "r")["b" := 1] == map["a" := 0, "b" := 1]; }
    assert Next(h, Exec(1, Pick([0], 0))) == Two(a, b1, ROSTER, [0, 1]);
  }

  const OPEN := OpenTo("b")
  const S := Sess(1, 0, 1)
  const ANNOUNCE := [Enqueue(0, Ready(1, "b")), Enqueue(1, Incoming(1, "a"))]

  function Opener(up: seq<Up>, took: seq<Up>, ops: seq<Op>, queue: seq<Mail>): Peer {
    Peer("r", "a", "", false, false, up, took, ops, queue, None, [], [], {})
  }

  /** The session is in the table, and neither client has been told. */
  lemma Opens()
    ensures Reached(EMPTY, Hub([Opener([], [OPEN], ANNOUNCE, TO_A), Browser("b", [], [Mail(1, Welcome(B, [A]))])],
                        ROSTER, map[1 := S], 1, map[1 := S], [0, 1], {}))
  {
    SecondJoins();
    hide Reached;
    var b := Browser("b", [], [Mail(1, Welcome(B, [A]))]);
    var h := Two(Opener([], [], [], TO_A), b, ROSTER, [0, 1]);
    Go(EMPTY, h, ClientSends(0, OPEN));
    var h1 := Two(Opener([OPEN], [], [], TO_A), b, ROSTER, [0, 1]);
    assert [] + [OPEN] == [OPEN] && Unbidden([], OPEN) == {};
    assert Next(h, ClientSends(0, OPEN)).peers[0] == h1.peers[0];
    assert Next(h, ClientSends(0, OPEN)).peers == h1.peers;
    Go(EMPTY, h1, Take(0));
    var h2 := Two(Opener([], [OPEN], [Open("b")], TO_A), b, ROSTER, [0, 1]);
    assert [OPEN][1..] == [] && h1.peers[0].up[0] == OPEN;
    assert Next(h1, Take(0)).peers[0] == h2.peers[0];
    assert Next(h1, Take(0)).peers == h2.peers;
    Go(EMPTY, h2, Exec(0, NOTHING));
    var h3 := Two(Opener([], [OPEN], [Alloc(1)], TO_A), b, ROSTER, [0, 1]);
    assert DoOpen(h2, 0, "b").peers[0].ops == [Alloc(1)];
    assert DoOpen(h2, 0, "b").peers == h3.peers;
    Allocates(h3, b);
  }

  lemma Allocates(h3: Hub, b: Peer)
    requires b == Browser("b", [], [Mail(1, Welcome(B, [A]))])
    requires h3 == Two(Opener([], [OPEN], [Alloc(1)], TO_A), b, ROSTER, [0, 1]) && Reached(EMPTY, h3)
    ensures Reached(EMPTY,
                    Hub([Opener([], [OPEN], ANNOUNCE, TO_A), b], ROSTER, map[1 := S], 1, map[1 := S], [0, 1], {}))
  {
    hide Reached;
    assert FirstFree(0, h3.sessions.Keys, 1);
    hide FirstFree;
    Go(EMPTY, h3, Exec(0, Pick([], 1)));
    assert DoAlloc(h3, 0, 1, 1).peers[0].ops == ANNOUNCE;
    assert DoAlloc(h3, 0, 1, 1).peers == [Opener([], [OPEN], ANNOUNCE, TO_A), b];
    assert DoAlloc(h3, 0, 1, 1) ==
           Hub([Opener([], [OPEN], ANNOUNCE, TO_A), b], ROSTER, map[1 := S], 1, map[1 := S], [0, 1], {});
  }

  function Departed(ops: seq<Op>): Peer {
    Peer("r", "b", "", true, true, [], [], ops, [Mail(1, Welcome(B, [A]))], None, [], [], {})
  }

  /** The target's connection ends, and its goroutine tears its session down. */
  lemma TargetGoes()
    ensures Reached(EMPTY,
                    Hub([Opener([], [OPEN], ANNOUNCE, TO_A),
                         Departed([Enqueue(0, CloseTo(1)), Enqueue(0, PeerLeave("b"))])],
                        ALONE, map[], 1, map[1 := S], [0, 1], {}))
  {
    Opens();
    hide Reached;
    var a := Opener([], [OPEN], ANNOUNCE, TO_A);
    var b := Browser("b", [], [Mail(1, Welcome(B, [A]))]);
    var h := Hub([a, b], ROSTER, map[1 := S], 1, map[1 := S], [0, 1], {});
    Go(EMPTY, h, Die(1));
    var h1 := h.(peers := [a, b.(closed := true)]);
    assert Next(h, Die(1)).peers == h1.peers;
    Go(EMPTY, h1, Depart(1));
    var h2 := h.(peers := [a, Departed([Leave])]);
    assert Next(h1, Depart(1)).peers == h2.peers;
    TargetLeaves(h2, a);
    var h3 :=
      Hub([a, Departed([DropSessions, Enqueue(0, PeerLeave("b"))])], ALONE, map[1 := S], 1, map[1 := S], [0, 1], {});
    TargetDrops(h3, a);
  }

  lemma TargetLeaves(h: Hub, a: Peer)
    requires a == Opener([], [OPEN], ANNOUNCE, TO_A)
    requires h == Hub([a, Departed([Leave])], ROSTER, map[1 := S], 1, map[1 := S], [0, 1], {}) && Reached(EMPTY, h)
    ensures Reached(EMPTY,
                    Hub([a, Departed([DropSessions, Enqueue(0, PeerLeave("b"))])], ALONE, map[1 := S], 1, map[1 := S],
                        [0, 1], {}))
  {
    hide Reached;
    assert ROSTER["r"] - {"b"} == map["a" := 0];
    assert OthersIn(h, 1) == {0} by {
      var m: map<string, nat> := map["a" := 0];
      assert m["a"] == 0 && "a" in m;
      assert m.Values == {0};
    }
    assert Lists([0], OthersIn(h, 1));
    Go(EMPTY, h, Exec(1, Pick([0], 0)));
    var h' := DoLeave(h, 1, [0]);
    assert h'.rooms == ALONE;
    assert h'.peers[1].ops == [DropSessions, Enqueue(0, PeerLeave("b"))];
    assert h'.peers == [a, Departed([DropSessions, Enqueue(0, PeerLeave("b"))])];
  }

  lemma TargetDrops(h: Hub, a: Peer)
    requires a == Opener([], [OPEN], ANNOUNCE, TO_A)
    requires h ==
        Hub([a, Departed([DropSessions, Enqueue(0, PeerLeave("b"))])], ALONE, map[1 := S], 1, map[1 := S], [0, 1], {})
    requires Reached(EMPTY, h)
    ensures Reached(EMPTY,
                    Hub([a, Departed([Enqueue(0, CloseTo(1)), Enqueue(0, PeerLeave("b"))])], ALONE, map[], 1,
                        map[1 := S], [0, 1], {}))
  {
    hide Reached;
    assert SessionsOf(h.sessions, 1) == {1};
    assert Lists([1], SessionsOf(h.sessions, 1));
    Go(EMPTY, h, Exec(1, Pick([1], 0)));
    var h' := DoDrop(h, 1, [1]);
    assert CloseNotices(h.sessions, 1, [1]) == [Enqueue(0, CloseTo(1))] + CloseNotices(h.sessions, 1, []);
    assert h'.sessions == map[];
    assert h'.peers[1].ops == [Enqueue(0, CloseTo(1)), Enqueue(0, PeerLeave("b"))];
    assert h'.peers == [a, Departed([Enqueue(0, CloseTo(1)), Enqueue(0, PeerLeave("b"))])];
  }

  const TORN :=
    Hub([Opener([], [OPEN], ANNOUNCE, TO_A), Departed([Enqueue(0, CloseTo(1)), Enqueue(0, PeerLeave("b"))])],
                    ALONE, map[], 1, map[1 := S], [0, 1], {})
  const CLOSE_FIRST := TO_A + [Mail(1, CloseTo(1)), Mail(0, Ready(1, "b"))]
  const READY_FIRST := TO_A + [Mail(0, Ready(1, "b")), Mail(1, CloseTo(1))]

  /** What is left once both goroutines have queued their frame for the opener. */
  function Both(queue: seq<Mail>, raced: set<nat>): Hub {
    Hub([Opener([], [OPEN], [ANNOUNCE[1]], queue), Departed([Enqueue(0, PeerLeave("b"))])],
        ALONE, map[], 1, map[1 := S], [0, 1], raced)
  }

  /** The close is queued for the opener first, then its announcement. */
  lemma CloseFirst(h0: Hub)
    requires Reached(h0, TORN)
    ensures Reached(h0, Both(CLOSE_FIRST, {1}))
  {
    hide Reached;
    var b := TORN.peers[1];
    var a1 := Opener([], [OPEN], ANNOUNCE, TO_A + [Mail(1, CloseTo(1))]);
    var b1 := Departed([Enqueue(0, PeerLeave("b"))]);
    assert b.ops[1..] == b1.ops;
    assert Overtakes(TORN, 0, CloseTo(1));
    Queue(h0, TORN, 1, 0, CloseTo(1), a1, b1);
    assert TORN.raced + {1} == {1};
    var a2 := Opener([], [OPEN], [ANNOUNCE[1]], CLOSE_FIRST);
    assert ANNOUNCE[1..] == [ANNOUNCE[1]];
    assert (TO_A + [Mail(1, CloseTo(1))]) + [Mail(0, Ready(1, "b"))] == CLOSE_FIRST;
    Queue(h0, TORN.(peers := [a1, b1], raced := {1}), 0, 0, Ready(1, "b"), a2, b1);
  }

  /** The announcement is queued first, although the session is gone already. */
  lemma ReadyFirst(h0: Hub)
    requires Reached(h0, TORN)
    ensures Reached(h0, Both(READY_FIRST, {}))
  {
    hide Reached;
    var b := TORN.peers[1];
    var a1 := Opener([], [OPEN], [ANNOUNCE[1]], TO_A + [Mail(0, Ready(1, "b"))]);
    assert ANNOUNCE[1..] == [ANNOUNCE[1]];
    Queue(h0, TORN, 0, 0, Ready(1, "b"), a1, b);
    var a2 := Opener([], [OPEN], [ANNOUNCE[1]], READY_FIRST);
    var b1 := Departed([Enqueue(0, PeerLeave("b"))]);
    assert b.ops[1..] == b1.ops;
    assert (TO_A + [Mail(0, Ready(1, "b"))]) + [Mail(1, CloseTo(1))] == READY_FIRST;
    assert !Overtakes(TORN.(peers := [a1, b]), 0, CloseTo(1));
    Queue(h0, TORN.(peers := [a1, b]), 1, 0, CloseTo(1), a2, b1);
  }

  /** Whatever is queued for an open connection can be delivered, without anything else happening. */
  lemma {:induction false} Delivers(h0: Hub, h: Hub, p: nat)
    requires Reached(h0, h) && p < |h.peers| && !h.peers[p].closed && h.peers[p].hand.None? && h.peers[p].down == []
    ensures Reached(h0, WithPeer(h, p, h.peers[p].(queue := [], seen := h.peers[p].seen + h.peers[p].queue)))
    decreases |h.peers[p].queue|
  {
    hide Reached;
    var x := h.peers[p];
    if x.queue == [] {
      assert x.seen + [] == x.seen;
      assert h.peers[p := x] == h.peers;
    } else {
      var m := x.queue[0];
      Go(h0, h, WriterTakes(p));
      var x1 := x.(queue := x.queue[1..], hand := Some(m));
      assert Next(h, WriterTakes(p)) == WithPeer(h, p, x1);
      var x2 := x1.(hand := None, down := [m]);
      Go(h0, WithPeer(h, p, x1), WriterWrites(p));
      assert [] + [m] == [m] && [m][1..] == [];
      assert h.peers[p := x1][p := x2] == h.peers[p := x2];
      assert Next(WithPeer(h, p, x1), WriterWrites(p)) == WithPeer(h, p, x2);
      var x3 := x2.(down := [], seen := x.seen + [m]);
      Go(h0, WithPeer(h, p, x2), ClientReads(p));
      assert h.peers[p := x2][p := x3] == h.peers[p := x3];
      assert Next(WithPeer(h, p, x2), ClientReads(p)) == WithPeer(h, p, x3);
      Delivers(h0, WithPeer(h, p, x3), p);
      assert (x.seen + [m]) + x.queue[1..] == x.seen + x.queue;
      var y := x.(queue := [], seen := x.seen + x.queue);
      assert h.peers[p := x3][p := y] == h.peers[p := y];
    }
  }

  // ------------------------------------------------ who wins, decided at once

  /** Once a session's opener is no longer about to be told, and once its close has been queued, that is settled. */
  ghost predicate Settled(h: Hub, sid: nat) {
    sid in h.born && (sid in h.raced || !Telling(h.peers, h.born[sid]))
  }

  lemma ExecSettled(h: Hub, p: nat, pick: Pick, sid: nat)
    requires Flowing(h) && CanExec(h, p, pick) && NoWrap(h, Exec(p, pick)) && Settled(h, sid)
    ensures var h' := DoExec(h, p, pick);
            Settled(h', sid) && h'.born[sid] == h.born[sid] && (sid in h'.raced <==> sid in h.raced)
  {
    FlowingTraceable(h);
    hide Flowing, Traceable, CanExec, DoExec, NoWrap, Telling;
    BirthsStay(h, p, pick);
    RacedStays(h, p, pick, sid);
    TellsLater(h, p, pick, sid);
  }

  lemma RacedStays(h: Hub, p: nat, pick: Pick, sid: nat)
    requires CanExec(h, p, pick) && Settled(h, sid)
    ensures sid in DoExec(h, p, pick).raced <==> sid in h.raced
  {
    ExecBounds(h, p, pick);
    SameRaces(h, p, pick);
    hide CanExec, DoExec, Telling, Overtakes;
    var op := h.peers[p].ops[0];
    if op.Enqueue? && Overtakes(h, op.to, op.f) { OvertakesOwn(h, op.to, op.f); }
  }

  lemma TellsLater(h: Hub, p: nat, pick: Pick, sid: nat)
    requires Flowing(h) && CanExec(h, p, pick) && NoWrap(h, Exec(p, pick)) && sid in h.born
    ensures Telling(DoExec(h, p, pick).peers, h.born[sid]) ==> Telling(h.peers, h.born[sid])
  {
    FlowingTraceable(h);
    BornAs(h, sid);
    hide Flowing, Traceable, CanExec, DoExec, NoWrap, Telling, Stays;
    ExecParts(h, p, pick);
    var h' := DoExec(h, p, pick);
    if Telling(h'.peers, h.born[sid]) { StillTelling(h, h', p, h.born[sid]); }
  }

  lemma BornAs(h: Hub, sid: nat)
    requires Traceable(h) && sid in h.born
    ensures h.born[sid].id == sid
  {
    hide KnownPeer, Counted;
    EndsDiffer(h, sid);
  }

  lemma StepSettled(h: Hub, s: Step, sid: nat)
    requires Flowing(h) && CanStep(h, s) && NoWrap(h, s) && Settled(h, sid)
    ensures var h' := Next(h, s);
            Settled(h', sid) && h'.born[sid] == h.born[sid] && (sid in h'.raced <==> sid in h.raced)
  {
    hide Flowing, CanExec, DoExec, NoWrap, Settled;
    if s.Exec? { ExecSettled(h, s.p, s.pick, sid); } else { OtherSettled(h, s, sid); }
  }

  lemma OtherSettled(h: Hub, s: Step, sid: nat)
    requires CanStep(h, s) && !s.Exec? && Settled(h, sid) 
    ensures var h' := Next(h, s);
            Settled(h', sid) && h'.born[sid] == h.born[sid] && (sid in h'.raced <==> sid in h.raced)
  {
    hide CanExec, DoExec;
  }

  lemma {:induction false} RunSettled(h: Hub, steps: seq<Step>, last: Hub, sid: nat)
    requires Flowing(h) && IsRun(h, steps, last) && IsUnwrapped(h, steps) && Settled(h, sid)
    ensures Flowing(last) && sid in last.born && last.born[sid] == h.born[sid]
    ensures (sid in last.raced <==> sid in h.raced) && (Polite(last, sid) ==> Polite(h, sid))
    decreases |steps|
  {
    if steps != [] {
      StepFlows(h, steps[0]);
      StepSettled(h, steps[0], sid);
      hide Flowing, CanStep, Next, NoWrap, Polite;
      RunSettled(Next(h, steps[0]), steps[1..], last, sid);
      if Polite(last, sid) { StepPolite(h, steps[0], sid); }
    }
  }

  /**
   * The race is decided the moment the target's goroutine queues the close for the opener.
   * If the opener's own announcement is still to be queued then, the opener is never handed
   * it before the close, however the run goes on; if it is not, what the opener is handed
   * always begins with the announcement and keeps its shape.
   */
  lemma CloseDecides(before: seq<Step>, h: Hub, pick: Pick, after: seq<Step>, last: Hub, sid: nat)
    requires IsRun(EMPTY, before, h) && IsUnwrapped(EMPTY, before) && sid in h.born
    requires var p := h.born[sid].to;
            CanExec(h, p, pick) && h.peers[p].ops[0] == Enqueue(h.born[sid].from, CloseTo(sid))
    requires var h' := DoExec(h, h.born[sid].to, pick); IsRun(h', after, last) && IsUnwrapped(h', after)
    requires Polite(last, sid)
    ensures sid in last.born && last.born[sid] == h.born[sid] && h.born[sid].from < |last.peers|
    ensures var heard := Heard(last, sid, h.born[sid].from);
            if Telling(h.peers, h.born[sid]) then heard == [] || Overtaken(heard) else Reading(heard) != Wrong
  {
    hide Flowing, SessionOk, IsRun, IsUnwrapped, Telling, CanExec, DoExec, About, Reading, Overtaken, Settled, Polite;
    EmptyFlows();
    RunFlows(EMPTY, before, h);
    var s := h.born[sid];
    var step := Exec(s.to, pick);
    assert Flowing(Next(h, step)) by {
      hide CanStep, Next, NoWrap;
      CloseSteps(h, s.to, pick);
      StepFlows(h, step);
    }
    CloseSettles(h, s.to, pick, sid);
    RunSettled(DoExec(h, s.to, pick), after, last, sid);
    CloseSteps(h, s.to, pick);
    ExecPolite(h, s.to, pick, sid);
    CloseIsFirst(h, s.to, pick, sid);
    FlowingAt(last, sid);
    SessionKept(FateOf(last, sid), sid, s, last.peers);
  }

  lemma CloseSteps(h: Hub, p: nat, pick: Pick)
    requires CanExec(h, p, pick) && h.peers[p].ops[0].Enqueue?
    ensures CanStep(h, Exec(p, pick)) && NoWrap(h, Exec(p, pick))
  {
  }

  lemma CloseSettles(h: Hub, p: nat, pick: Pick, sid: nat)
    requires Flowing(h) && CanExec(h, p, pick) && sid in h.born && h.born[sid].to == p
    requires h.peers[p].ops[0] == Enqueue(h.born[sid].from, CloseTo(sid))
    ensures var h' := DoExec(h, p, pick);
            Settled(h', sid) && h'.born == h.born
  {
    hide Flowing, Telling, CanExec, DoExec, Overtakes;
    ExecBounds(h, p, pick);
    CloseSteps(h, p, pick);
    TellsLater(h, p, pick, sid);
    CloseRaces(h, p, pick, sid);
  }

  lemma CloseIsFirst(h: Hub, p: nat, pick: Pick, sid: nat)
    requires Flowing(h) && CanExec(h, p, pick) && sid in h.born && h.born[sid].to == p && Polite(h, sid)
    requires h.peers[p].ops[0] == Enqueue(h.born[sid].from, CloseTo(sid))
    ensures sid in DoExec(h, p, pick).raced <==> Telling(h.peers, h.born[sid])
  {
    hide Flowing, Telling, CanExec, DoExec, Overtakes, Polite;
    ExecBounds(h, p, pick);
    NotYetRaced(h, sid, p);
    CloseRaces(h, p, pick, sid);
  }

  lemma CloseRaces(h: Hub, p: nat, pick: Pick, sid: nat)
    requires CanExec(h, p, pick) && sid in h.born && h.peers[p].ops[0] == Enqueue(h.born[sid].from, CloseTo(sid))
    ensures DoExec(h, p, pick).born == h.born
    ensures sid in DoExec(h, p, pick).raced <==> sid in h.raced || Telling(h.peers, h.born[sid])
  {
    hide Telling;
  }

  /** While a close is still to be queued, none has been. */
  lemma NotYetRaced(h: Hub, sid: nat, p: nat)
    requires Flowing(h) && sid in h.born && p == h.born[sid].to < |h.peers| && h.peers[p].ops != [] && Polite(h, sid)
    requires h.peers[p].ops[0] == Enqueue(h.born[sid].from, CloseTo(sid))
    ensures sid !in h.raced
  {
    var s := h.born[sid];
    RunningIf(h, sid, p);
    hide Polite, Flowing, Running, SessionOk, AspectOf, ViewInv, KnownPeer, OpsShape, Traceable, Counted, OpKnown,
         Popped;
    RunningParts(h, sid, p);
    EndsIn(FateOf(h, sid), sid, s, h.peers);
    PopAspect(sid, s, h.peers[p], s.from, CloseTo(sid));
    PendingNotRaced(FateOf(h, sid), AspectOf(sid, s, h.peers[s.from]), AspectOf(sid, s, h.peers[p]));
  }

  lemma PendingNotRaced(fate: Fate, a: Aspect, b: Aspect)
    requires ViewInv(LookAt(fate, a, b)) && b.toOpener != []
    ensures !fate.raced
  {
  }

  /** Nobody has spoken of a session before it was announced. */
  predicate AllPolite(h: Hub) { forall p :: 0 <= p < |h.peers| ==> h.peers[p].rude == {} }

  /** The opener is handed all that is queued for it. */
  lemma HandsOver(h0: Hub, queue: seq<Mail>, raced: set<nat>) returns (last: Hub)
    requires Reached(h0, Both(queue, raced))
    ensures Reached(h0, last) && |last.peers| == 2 && last.born == map[1 := S] && Heard(last, 1, 0) == About(1, queue)
    ensures AllPolite(last)
  {
    hide Reached, About;
    var h := Both(queue, raced);
    Delivers(h0, h, 0);
    last := WithPeer(h, 0, h.peers[0].(queue := [], seen := [] + queue));
    assert [] + queue == queue;
  }

  /**
   * The exception is real, and not decided earlier: from one reachable state, in which the
   * target has torn the session down and the opener has not been told, one run hands the
   * opener the close before the announcement, and another hands it both in order.
   */
  lemma EitherCanWin()
    ensures Reached(EMPTY, TORN) && 1 !in TORN.sessions && Telling(TORN.peers, TORN.born[1])
    ensures exists last ::
      && Reached(TORN, last) && AllPolite(last) && last.born == TORN.born && |last.peers| == 2
      && Heard(last, 1, 0) == [CloseTo(1), Ready(1, "b")] && Reading(Heard(last, 1, 0)) == Wrong
    ensures exists last ::
      && Reached(TORN, last) && AllPolite(last) && last.born == TORN.born && |last.peers| == 2
      && Heard(last, 1, 0) == [Ready(1, "b"), CloseTo(1)] && Reading(Heard(last, 1, 0)) == Shut
  {
    assert Telling(TORN.peers, TORN.born[1]);
    assert IsRun(TORN, [], TORN) && IsUnwrapped(TORN, []);
    assert Reached(TORN, TORN);
    hide Reached, About, Reading;
    TargetGoes();
    CloseFirst(TORN);
    var l1 := HandsOver(TORN, CLOSE_FIRST, {1});
    CloseFirstHeard();
    ReadyFirst(TORN);
    var l2 := HandsOver(TORN, READY_FIRST, {});
    ReadyFirstHeard();
  }

  /** So some run hands the opener the close before the announcement. */
  lemma CloseCanOvertake()
    ensures exists steps, last ::
      && IsRun(EMPTY, steps, last) && IsUnwrapped(EMPTY, steps) && AllPolite(last)
      && 1 in last.born && last.born[1].from < |last.peers|
      && Reading(Heard(last, 1, last.born[1].from)) == Wrong && Overtaken(Heard(last, 1, last.born[1].from))
  {
    hide IsRun, IsUnwrapped, About, Reading;
    TargetGoes();
    CloseFirst(EMPTY);
    var last := HandsOver(EMPTY, CLOSE_FIRST, {1});
    CloseFirstHeard();
    var steps :| IsRun(EMPTY, steps, last) && IsUnwrapped(EMPTY, steps);
  }

  lemma RosterSilent()
    ensures About(1, TO_A) == []
  {
    assert About(1, []) == [];
    hide About;
    AboutPush(1, [], TO_A[0]);
    AboutPush(1, [TO_A[0]], TO_A[1]);
    assert [] + [TO_A[0]] == [TO_A[0]] && [TO_A[0]] + [TO_A[1]] == TO_A;
  }

  lemma CloseFirstHeard()
    ensures About(1, CLOSE_FIRST) == [CloseTo(1), Ready(1, "b")] && Reading(About(1, CLOSE_FIRST)) == Wrong
  {
    RosterSilent();
    hide About, Data, Closes;
    var w := TO_A + [Mail(1, CloseTo(1))];
    AboutPush(1, TO_A, Mail(1, CloseTo(1)));
    AboutPush(1, w, Mail(0, Ready(1, "b")));
    assert CLOSE_FIRST == w + [Mail(0, Ready(1, "b"))];
    assert About(1, w) == [CloseTo(1)];
    One(CloseTo(1));
    Push([CloseTo(1)], Ready(1, "b"));
    assert [CloseTo(1)] + [Ready(1, "b")] == [CloseTo(1), Ready(1, "b")];
  }

  lemma ReadyFirstHeard()
    ensures About(1, READY_FIRST) == [Ready(1, "b"), CloseTo(1)] && Reading(About(1, READY_FIRST)) == Shut
  {
    RosterSilent();
    hide About, Data, Closes;
    var w := TO_A + [Mail(0, Ready(1, "b"))];
    AboutPush(1, TO_A, Mail(0, Ready(1, "b")));
    AboutPush(1, w, Mail(1, CloseTo(1)));
    assert READY_FIRST == w + [Mail(1, CloseTo(1))];
    assert About(1, w) == [Ready(1, "b")];
    One(Ready(1, "b"));
    Push([Ready(1, "b")], CloseTo(1));
    assert [Ready(1, "b")] + [CloseTo(1)] == [Ready(1, "b"), CloseTo(1)];
  }
}
