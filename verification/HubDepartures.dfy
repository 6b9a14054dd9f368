/**
 * What becomes of connections: the name they go by, that a newer connection under the same
 * identity turns the older one out, and that a departure ends the sessions it leaves behind.
 */
module HubDepartures {
  import opened Basics
  import opened HubSystem
  import opened HubSafety
  import opened HubSessions
  import opened HubRoster
  import opened HubAnswers
  import HubTraffic

  // -------------------------------------------------------------------- names

  /** The name of the last greeting, if there was one. */
  function Named(name: string, ups: seq<Up>): string {
    if ups == [] then name
    else if ups[|ups| - 1].Hello? then ups[|ups| - 1].name
    else Named(name, ups[..|ups| - 1])
  }

  lemma {:induction false} NamedConcat(name: string, a: seq<Up>, b: seq<Up>)
    ensures Named(name, a + b) == Named(Named(name, a), b)
  {
    if b == [] {
      assert a + b == a;
    } else {
      assert (a + b)[..|a + b| - 1] == a + b[..|b| - 1];
      NamedConcat(name, a, b[..|b| - 1]);
    }
  }

  lemma ExecNamed(h: Hub, p: nat, pick: Pick)
    requires CanExec(h, p, pick)
    ensures |DoExec(h, p, pick).peers| == |h.peers|
    ensures forall q :: 0 <= q < |h.peers| ==>
      DoExec(h, p, pick).peers[q].name == if q == p && h.peers[p].ops[0].Rename? then h.peers[p].ops[0].name
        else h.peers[q].name
  {
    var op := h.peers[p].ops[0];
    TellIs(h, p, pick);
    if op.Enqueue? {
      EnqueueIs(h, p, op.to, op.f);
      hide DoExec, CanExec, DoEnqueue;
    } else if op.Kill? {
      KillIs(h, p, op.victim);
      hide DoExec, CanExec, DoKill;
    } else {
      ExecPeers(h, p, pick);
      hide DoExec, CanExec;
    }
  }

  lemma StepNamed(h: Hub, s: Step, p: nat)
    requires CanStep(h, s) && p < |h.peers|
    ensures p < |Next(h, s).peers| && Next(h, s).peers[p].name == Named(h.peers[p].name, Carried(h, s, p))
  {
    if s.Exec? {
      ExecNamed(h, s.p, s.pick);
      hide DoExec, CanExec;
      if p == s.p { assert AsUp(h.peers[p].ops[0])[..0] == []; }
    }
  }

  /** A connection goes by the name its client last gave, from the moment the goroutine acts on it. */
  lemma {:induction false} NameIs(h: Hub, steps: seq<Step>, last: Hub, p: nat)
    requires IsRun(h, steps, last) && p < |h.peers|
    ensures p < |last.peers| && last.peers[p].name == Named(h.peers[p].name, Executed(h, steps, p))
    decreases |steps|
  {
    if steps != [] {
      StepNamed(h, steps[0], p);
      NamedConcat(h.peers[p].name, Carried(h, steps[0], p), Executed(Next(h, steps[0]), steps[1..], p));
      hide CanStep, Next, Carried, Named;
      NameIs(Next(h, steps[0]), steps[1..], last, p);
    }
  }

  // ------------------------------------------------------- one at a time

  /** Some goroutine is about to close the connection. */
  ghost predicate Doomed(peers: seq<Peer>, q: nat) {
    exists p :: 0 <= p < |peers| && Kill(q) in peers[p].ops
  }

  ghost predicate InPlace(h: Hub, q: nat) {
    q in h.joins && q < |h.peers| && !h.peers[q].closed ==>
      Holds(h, h.peers[q].room, h.peers[q].id, q) || Doomed(h.peers, q)
  }

  ghost predicate Current(h: Hub) {
    && Isolated(h) && Roster(h)
    && (forall p :: 0 <= p < |h.peers| && h.peers[p].left ==> h.peers[p].closed)
    && forall q :: InPlace(h, q)
  }

  /** A pending kill is still pending, or carried out. */
  lemma DoomStays(h: Hub, p: nat, pick: Pick, q: nat)
    requires Isolated(h) && CanExec(h, p, pick) && Standing(h, p) && Doomed(h.peers, q) && q < |h.peers|
    ensures var h' := DoExec(h, p, pick); |h'.peers| == |h.peers| && (Doomed(h'.peers, q) || h'.peers[q].closed)
  {
    var h', ops := DoExec(h, p, pick), h.peers[p].ops;
    var x :| 0 <= x < |h.peers| && Kill(q) in h.peers[x].ops;
    ExecOnlyOps(h, p, pick);
    InReach(h, p, pick);
    Parts(h, p);
    hide Isolated, Who, MailOk, OpsOk, RoomsOk, TableOk, DoExec, CanExec;
    if x != p {
      assert Kill(q) in h'.peers[x].ops;
    } else if ops[0] == Kill(q) {
      TellRests(h, p, pick, q);
    } else {
      var k :| 0 <= k < |ops| && ops[k] == Kill(q);
      assert k > 0 && ops[1..][k - 1] == Kill(q);
      assert IsTell(ops[0]);
      TellPops(h, p, pick);
      assert Kill(q) in h'.peers[x].ops;
    }
  }

  lemma TellPops(h: Hub, p: nat, pick: Pick)
    requires CanExec(h, p, pick) && IsTell(h.peers[p].ops[0])
    ensures |DoExec(h, p, pick).peers| == |h.peers| && DoExec(h, p, pick).peers[p].ops == h.peers[p].ops[1..]
  {
    TellRests(h, p, pick, p);
    hide DoExec, CanExec;
  }

  /** Queueing and closing change no table. */
  lemma TellRests(h: Hub, x: nat, pick: Pick, p: nat)
    requires CanExec(h, x, pick) && IsTell(h.peers[x].ops[0]) && p < |h.peers|
    ensures var h' := DoExec(h, x, pick);
      && |h'.peers| == |h.peers| && SameTables(h, h')
      && h'.peers[p].left == h.peers[p].left && (h.peers[p].closed ==> h'.peers[p].closed)
      && (h.peers[x].ops[0] == Kill(p) ==> h'.peers[p].closed)
      && h'.peers[p].ops == if p == x then h.peers[p].ops[1..] else h.peers[p].ops
  {
    var op := h.peers[x].ops[0];
    TellIs(h, x, pick);
    if op.Enqueue? { EnqueueIs(h, x, op.to, op.f); } else { KillIs(h, x, op.victim); }
    hide DoExec, CanExec, DoEnqueue, DoKill;
  }

  /** An entry goes only by its own connection's leave, or to a newer one that is to turn it out. */
  lemma EntryStays(h: Hub, p: nat, pick: Pick, q: nat)
    requires Isolated(h) && CanExec(h, p, pick) && Standing(h, p) && q < |h.peers|
    requires h.peers[p].left ==> h.peers[p].closed
    requires Holds(h, h.peers[q].room, h.peers[q].id, q)
    ensures var h' := DoExec(h, p, pick);
      |h'.peers| == |h.peers|
        && (Holds(h', h.peers[q].room, h.peers[q].id, q) || Doomed(h'.peers, q) || h.peers[q].closed)
  {
    ExecOnlyOps(h, p, pick);
    OthersBound(h, p, pick);
    if h.peers[p].ops[0].Join? {
      JoinTurnsOut(h, p, pick.order, q);
    } else if h.peers[p].ops[0].Leave? {
      if q != p { LeaveSpares(h, p, pick.order, q); }
      hide CanExec, DoLeave;
    } else {
      ExecSameRooms(h, p, pick);
      hide DoExec, CanExec;
    }
  }

  lemma JoinTurnsOut(h: Hub, p: nat, order: seq<nat>, q: nat)
    requires p < |h.peers| && q < |h.peers| && h.peers[p].ops != [] && forall x :: x in order ==> x < |h.peers|
    requires Holds(h, h.peers[q].room, h.peers[q].id, q)
    ensures var h' := DoJoin(h, p, order);
            Holds(h', h.peers[q].room, h.peers[q].id, q) || Doomed(h'.peers, q)
  {
    var h', me := DoJoin(h, p, order), h.peers[p];
    hide Tell, Infos;
    if me.room == h.peers[q].room && me.id == h.peers[q].id {
      assert h'.peers[p].ops[1] == Kill(q);
      assert Kill(q) in h'.peers[p].ops;
    }
  }

  lemma LeaveSpares(h: Hub, p: nat, order: seq<nat>, q: nat)
    requires p < |h.peers| && q < |h.peers| && q != p && h.peers[p].ops != []
    requires Holds(h, h.peers[q].room, h.peers[q].id, q)
    ensures Holds(DoLeave(h, p, order), h.peers[q].room, h.peers[q].id, q)
  {
    var me, k := h.peers[p], Key(h.peers[q].room, h.peers[q].id);
    hide Tell;
    if k != Key(me.room, me.id) {
      LeaveFindsSame(h, p, order, k);
      hide DoLeave;
    }
  }

  lemma ExecInPlace(h: Hub, p: nat, pick: Pick, q: nat)
    requires Current(h) && CanExec(h, p, pick)
    ensures InPlace(DoExec(h, p, pick), q)
  {
    var h' := DoExec(h, p, pick);
    assert Standing(h, p) && InPlace(h, q);
    ExecOnlyOps(h, p, pick);
    JoinsAre(h, p, pick);
    ClosedStays(h, p, pick);
    ExecNames(h, p, pick);
    hide Isolated, Roster, Current, CanExec, DoExec, Standing, Holds, Doomed;
    if q in h'.joins && q < |h'.peers| && !h'.peers[q].closed {
      if q !in h.joins {
        assert q == p;
      } else if Doomed(h.peers, q) {
        DoomStays(h, p, pick, q);
      } else {
        EntryStays(h, p, pick, q);
      }
    }
  }

  lemma ClosedStays(h: Hub, p: nat, pick: Pick)
    requires CanExec(h, p, pick)
    ensures |DoExec(h, p, pick).peers| == |h.peers|
    ensures forall q :: 0 <= q < |h.peers| && h.peers[q].closed ==> DoExec(h, p, pick).peers[q].closed
  {
    if IsTell(h.peers[p].ops[0]) {
      TellRests(h, p, pick, p);
      forall q | 0 <= q < |h.peers| && h.peers[q].closed ensures DoExec(h, p, pick).peers[q].closed {
        TellRests(h, p, pick, q);
        hide CanExec, DoExec;
      }
    } else {
      ExecQuiet(h, p, pick);
    }
    hide CanExec, DoExec;
  }

  /** Who joins holds the entry. */
  lemma JoinsAre(h: Hub, p: nat, pick: Pick)
    requires CanExec(h, p, pick)
    ensures var h' := DoExec(h, p, pick);
      forall q :: q in h'.joins && q !in h.joins ==>
        q == p && Holds(h', h.peers[p].room, h.peers[p].id, p)
  {
    OthersBound(h, p, pick);
    hide OthersIn, NoDup, FirstFree, Overtakes, CloseNotices, ForwardIfKnown, HeaderOf, Infos, Tell, JoinOps;
  }

  lemma MovesInPlace(h: Hub, s: Step, q: nat)
    requires Current(h) && CanStep(h, s) && !s.Exec?
    ensures InPlace(Next(h, s), q)
  {
    var h' := Next(h, s);
    assert InPlace(h, q) && (q in h.joins ==> q < |h.peers|);
    hide Current;
    MovesKeep(h, s);
    hide Next, CanStep;
    if q in h.joins && Doomed(h.peers, q) {
      var x :| 0 <= x < |h.peers| && Kill(q) in h.peers[x].ops;
      assert Kill(q) in h'.peers[x].ops;
    }
  }

  /** Mail and messages on the move change no table, and no pending kill. */
  lemma MovesKeep(h: Hub, s: Step)
    requires CanStep(h, s) && !s.Exec?
    ensures var h' := Next(h, s);
      && SameTables(h, h') && |h.peers| <= |h'.peers|
      && (forall q :: 0 <= q < |h.peers| ==> h'.peers[q].room == h.peers[q].room && h'.peers[q].id == h.peers[q].id)
      && (forall q :: 0 <= q < |h.peers| && h.peers[q].closed ==> h'.peers[q].closed)
      && (forall q :: 0 <= q < |h.peers| && h.peers[q].ops != [] ==> h'.peers[q].ops == h.peers[q].ops)
  {
    hide CanExec, DoExec, Decode, Unbidden;
  }

  lemma StepCurrent(h: Hub, s: Step)
    requires Current(h) && CanStep(h, s)
    ensures Current(Next(h, s))
  {
    StepKeeps(h, s);
    StepKeepsRoster(h, s);
    var h' := Next(h, s);
    assert forall p :: 0 <= p < |h'.peers| && h'.peers[p].left ==> h'.peers[p].closed by { LeftIsClosed(h, s); }
    hide Isolated, Roster, CanStep, Next, InPlace;
    forall q: nat ensures InPlace(h', q) {
      if s.Exec? { ExecPlace(h, s, q); } else { MovesInPlace(h, s, q); }
    }
  }

  lemma ExecPlace(h: Hub, s: Step, q: nat)
    requires Current(h) && CanStep(h, s) && s.Exec?
    ensures InPlace(Next(h, s), q)
  {
    hide Current, InPlace, CanExec, DoExec;
    ExecInPlace(h, s.p, s.pick, q);
  }

  lemma LeftIsClosed(h: Hub, s: Step)
    requires Current(h) && CanStep(h, s)
    ensures forall p :: 0 <= p < |Next(h, s).peers| && Next(h, s).peers[p].left ==> Next(h, s).peers[p].closed
  {
    hide Isolated, Holds, Doomed, InPlace;
    if s.Exec? {
      ClosedStays(h, s.p, s.pick);
      assert Standing(h, s.p);
      ExecOnlyOps(h, s.p, s.pick);
      hide CanExec, DoExec, Standing, Roster;
    }
  }

  lemma {:induction false} RunCurrent(h: Hub, steps: seq<Step>, last: Hub)
    requires Current(h) && IsRun(h, steps, last)
    ensures Current(last)
    decreases |steps|
  {
    if steps != [] {
      StepCurrent(h, steps[0]);
      hide Current, CanStep, Next;
      RunCurrent(Next(h, steps[0]), steps[1..], last);
    }
  }

  /**
   * In every run: a connection that has joined and is still open stands in its room under its
   * identity, or some goroutine is about to close it because a newer one has taken its place.
   */
  lemma NewerTurnsOut(steps: seq<Step>, last: Hub, q: nat)
    requires IsRun(EMPTY, steps, last) && q in last.joins
    ensures q < |last.peers|
    ensures !last.peers[q].closed ==>
      Holds(last, last.peers[q].room, last.peers[q].id, q) || Doomed(last.peers, q)
  {
    assert Current(EMPTY) by { EmptyIsFine(); EmptyIsolated(); hide Isolated, Roster; }
    hide IsRun;
    RunCurrent(EMPTY, steps, last);
    assert InPlace(last, q);
    hide Isolated;
  }

  // -------------------------------------------------------------- departures

  /**
   * A connection on its way out, whose sessions are still to be dropped, or after that: then
   * whatever names it is a session opened to it since.
   */
  ghost predicate Departing(h: Hub, p: nat, since: nat) {
    && p < |h.peers| && h.peers[p].left && h.peers[p].closed && since <= h.nextSess
    && (forall k :: 0 <= k < |h.peers[p].ops| ==>
        IsTell(h.peers[p].ops[k]) || (k == 0 && h.peers[p].ops[0].DropSessions?))
    && (h.peers[p].ops == [] || IsTell(h.peers[p].ops[0]) ==> LeftAlone(h.sessions, p, since))
  }

  predicate LeftAlone(sessions: map<nat, Sess>, p: nat, since: nat) {
    forall sid :: sid in sessions ==> sessions[sid].from != p && (sessions[sid].to == p ==> sid > since)
  }

  /** What the connection itself still does. */
  lemma OwnDeparture(h: Hub, p: nat, pick: Pick, since: nat)
    requires Isolated(h) && Departing(h, p, since) && CanExec(h, p, pick)
    ensures Departing(DoExec(h, p, pick), p, since)
  {
    Parts(h, p);
    var ops := h.peers[p].ops;
    hide Isolated, Who, MailOk, OpsOk, RoomsOk, TableOk, OthersIn, NoDup, FirstFree, Overtakes, OpsShape;
    if IsTell(ops[0]) {
      TellPops(h, p, pick);
      TellRests(h, p, pick, p);
      hide DoExec, CanExec, LeftAlone;
    } else {
      NoticesTell(h.sessions, p, pick.order);
      Dropped(h.sessions, p, since);
      hide CloseNotices, SessionsOf, LeftAlone;
    }
  }

  lemma Dropped(sessions: map<nat, Sess>, p: nat, since: nat)
    ensures LeftAlone(sessions - SessionsOf(sessions, p), p, since)
  {
  }

  lemma {:induction false} NoticesTell(sessions: map<nat, Sess>, p: nat, order: seq<nat>)
    requires forall x :: x in order ==> x in SessionsOf(sessions, p)
    ensures AllTells(CloseNotices(sessions, p, order))
  {
    if order != [] {
      assert order[0] in order && order[0] in SessionsOf(sessions, p);
      NoticesTell(sessions, p, order[1..]);
    }
  }

  /** What others do meanwhile. */
  lemma OthersMeanwhile(h: Hub, x: nat, pick: Pick, p: nat, since: nat)
    requires Traceable(h) && Departing(h, p, since) && CanExec(h, x, pick) && x != p
    requires NoWrap(h, Exec(x, pick))
    ensures Departing(DoExec(h, x, pick), p, since)
  {
    if IsTell(h.peers[x].ops[0]) {
      TellRests(h, x, pick, p);
      hide DoExec, CanExec, Traceable, LeftAlone;
    } else {
      ExecPeers(h, x, pick);
      TablesMeanwhile(h, x, pick, p, since);
      hide DoExec, CanExec, Traceable, LeftAlone;
    }
  }

  lemma TablesMeanwhile(h: Hub, x: nat, pick: Pick, p: nat, since: nat)
    requires Traceable(h) && CanExec(h, x, pick) && x != p && NoWrap(h, Exec(x, pick)) && since <= h.nextSess
    requires !IsTell(h.peers[x].ops[0])
    ensures var h' := DoExec(h, x, pick);
            since <= h'.nextSess && (LeftAlone(h.sessions, p, since) ==> LeftAlone(h'.sessions, p, since))
  {
    if h.peers[x].ops[0].Alloc? {
      NextIsFree(h.sessions, h.born, h.nextSess, pick.sid);
      hide Traceable, NoDup, FirstFree;
    } else {
      TablesShrink(h, x, pick);
      hide Traceable, DoExec, CanExec;
    }
  }

  lemma TablesShrink(h: Hub, x: nat, pick: Pick)
    requires CanExec(h, x, pick) && !IsTell(h.peers[x].ops[0]) && !h.peers[x].ops[0].Alloc?
    ensures var h' := DoExec(h, x, pick);
      && h'.nextSess == h.nextSess
      && forall sid :: sid in h'.sessions ==> sid in h.sessions && h'.sessions[sid] == h.sessions[sid]
  {
    OthersBound(h, x, pick);
    hide OthersIn, NoDup, FirstFree, JoinOps, Tell, CloseNotices, ForwardIfKnown, Infos, HeaderOf, Find;
  }

  lemma StepDeparts(h: Hub, s: Step, p: nat, since: nat)
    requires Traceable(h) && Departing(h, p, since) && CanStep(h, s) && NoWrap(h, s)
    ensures Departing(Next(h, s), p, since)
  {
    if s.Exec? {
      hide DoExec, CanExec, Departing, Isolated, LeftAlone, Counted, KnownPeer;
      assert Isolated(h);
      hide Traceable;
      if s.p == p { OwnDeparture(h, p, s.pick, since); } else { OthersMeanwhile(h, s.p, s.pick, p, since); }
    } else {
      hide LeftAlone, Traceable;
    }
  }

  lemma {:induction false} RunDeparts(h: Hub, steps: seq<Step>, last: Hub, p: nat, since: nat)
    requires Traceable(h) && Departing(h, p, since) && IsRun(h, steps, last) && HubTraffic.IsUnwrapped(h, steps)
    ensures Departing(last, p, since)
    decreases |steps|
  {
    if steps != [] {
      StepDeparts(h, steps[0], p, since);
      StepTraceable(h, steps[0]);
      hide Traceable, Departing, CanStep, Next, NoWrap;
      RunDeparts(Next(h, steps[0]), steps[1..], last, p, since);
    }
  }

  /**
   * In every run: once a connection that still held its entry has left, and its goroutine has
   * nothing more to do, no session it opened is in the table, and none that was there when it
   * left; all that can name it is a session that was then being opened to it.
   */
  lemma DepartureEndsSessions(before: seq<Step>, h: Hub, p: nat, pick: Pick, steps: seq<Step>, last: Hub, sid: nat)
    requires IsRun(EMPTY, before, h) && HubTraffic.IsUnwrapped(EMPTY, before)
    requires CanStep(h, Exec(p, pick)) && h.peers[p].ops[0].Leave? && Holds(h, h.peers[p].room, h.peers[p].id, p)
    requires IsRun(Next(h, Exec(p, pick)), steps, last) && HubTraffic.IsUnwrapped(Next(h, Exec(p, pick)), steps)
    requires p < |last.peers| && last.peers[p].ops == [] && sid in last.sessions
    ensures last.sessions[sid].from != p
    ensures last.sessions[sid].to == p ==> sid !in h.sessions
  {
    hide Traceable, Departing, IsRun, Current, DoExec, Holds, HubTraffic.IsUnwrapped;
    InReach(h, p, pick);
    hide CanExec;
    var h' := Next(h, Exec(p, pick));
    Before(before, h);
    AboutToLeave(h, p);
    LeaveDeparts(h, p, pick);
    StepTraceable(h, Exec(p, pick));
    RunDeparts(h', steps, last, p, h.nextSess);
    DepartedAlone(last, p, h.nextSess);
  }

  lemma Before(before: seq<Step>, h: Hub)
    requires IsRun(EMPTY, before, h) && HubTraffic.IsUnwrapped(EMPTY, before)
    ensures Traceable(h) && Current(h) && forall sid :: sid in h.sessions ==> sid <= h.nextSess
  {
    HubTraffic.EmptyFlows();
    assert Current(EMPTY) by { EmptyIsFine(); EmptyIsolated(); hide Isolated, Roster; }
    hide HubTraffic.RacedOk, HubTraffic.SessionOk, IsRun, Isolated, KnownPeer, Current;
    HubTraffic.RunFlows(EMPTY, before, h);
    RunCurrent(EMPTY, before, h);
  }

  lemma DepartedAlone(h: Hub, p: nat, since: nat)
    requires Departing(h, p, since) && h.peers[p].ops == []
    ensures LeftAlone(h.sessions, p, since)
  {
  }

  lemma AboutToLeave(h: Hub, p: nat)
    requires Current(h) && p < |h.peers| && h.peers[p].ops != [] && h.peers[p].ops[0].Leave?
    ensures h.peers[p].left && h.peers[p].closed && h.peers[p].ops == [Leave]
  {
    assert Standing(h, p);
    assert Leave in h.peers[p].ops;
    hide Isolated, InPlace, EntryIs;
  }

  lemma LeaveDeparts(h: Hub, p: nat, pick: Pick)
    requires CanExec(h, p, pick) && h.peers[p].left && h.peers[p].closed && h.peers[p].ops == [Leave]
    requires Holds(h, h.peers[p].room, h.peers[p].id, p)
    ensures Departing(DoExec(h, p, pick), p, h.nextSess)
  {
    hide OthersIn, NoDup;
  }
}
