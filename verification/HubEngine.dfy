/**
 * The hub's tables as they are changed in place: rooms of rooms, the session table and its
 * id counter, with the loops that gather whom to tell. Each method is one critical section.
 */
module HubEngine {
  import opened Basics
  import opened HubSystem
  import opened HubSafety
  import opened HubProgress

  /** Different identities stand for different connections. */
  ghost predicate Injective(m: map<string, nat>) { forall i, j :: i in m && j in m && m[i] == m[j] ==> i == j }

  /** The targets gathered when the identities in `left` are still to be visited. */
  ghost predicate Gathered(m: map<string, nat>, left: set<string>, targets: seq<nat>) {
    NoDup(targets) && forall x :: x in targets <==> exists i :: i in m && i !in left && m[i] == x
  }

  lemma GatherStart(m: map<string, nat>)
    ensures Gathered(m, m.Keys, [])
  {
  }

  lemma GatherStep(m: map<string, nat>, left: set<string>, targets: seq<nat>, i: string)
    requires Gathered(m, left, targets) && Injective(m) && i in left && i in m
    ensures Gathered(m, left - {i}, targets + [m[i]])
  {
    assert m[i] !in targets;
    var t := targets + [m[i]];
    forall x ensures x in t <==> exists j :: j in m && j !in left - {i} && m[j] == x {
      if x in t && x != m[i] {
        assert x in targets;
        var j :| j in m && j !in left && m[j] == x;
      }
    }
    assert NoDup(t);
  }

  lemma GatherEnd(m: map<string, nat>, targets: seq<nat>)
    requires Gathered(m, {}, targets)
    ensures Lists(targets, m.Values)
  {
    forall x ensures x in targets <==> x in m.Values {
      if x in m.Values { var i :| i in m && m[i] == x; }
    }
    hide NoDup;
  }

  /** These are the public identities of those connections. */
  ghost predicate Described(peers: seq<Peer>, targets: seq<nat>, infos: seq<Info>) {
    |infos| == |targets| && forall k :: 0 <= k < |targets| ==>
      targets[k] < |peers| && infos[k] == InfoOf(peers[targets[k]])
  }

  lemma DescribeStep(peers: seq<Peer>, targets: seq<nat>, infos: seq<Info>, x: nat)
    requires Described(peers, targets, infos) && x < |peers|
    ensures Described(peers, targets + [x], infos + [InfoOf(peers[x])])
  {
  }

  lemma DescribeEnd(peers: seq<Peer>, targets: seq<nat>, infos: seq<Info>)
    requires Described(peers, targets, infos)
    ensures |infos| == |targets| && forall k :: 0 <= k < |targets| ==>
        targets[k] < |peers| && infos[k] == InfoOf(peers[targets[k]])
  {
  }

  /** The sessions taken out when those in `left` are still to be looked at. */
  ghost predicate Swept(was: map<nat, Sess>, now: map<nat, Sess>, p: nat, left: set<nat>, orphaned: seq<nat>) {
    && left <= was.Keys && NoDup(orphaned)
    && (forall id :: id in orphaned <==> id in SessionsOf(was, p) && id !in left)
    && now == was - (SessionsOf(was, p) - left)
  }

  lemma SweepStep(was: map<nat, Sess>, now: map<nat, Sess>, p: nat, left: set<nat>, orphaned: seq<nat>, id: nat)
    requires Swept(was, now, p, left, orphaned) && id in left
    ensures id in now && now[id] == was[id]
    ensures id in SessionsOf(was, p) <==> was[id].from == p || was[id].to == p
    ensures id in SessionsOf(was, p) ==> Swept(was, now - {id}, p, left - {id}, orphaned + [id])
    ensures id !in SessionsOf(was, p) ==> Swept(was, now, p, left - {id}, orphaned)
  {
    assert id in SessionsOf(was, p) <==> was[id].from == p || was[id].to == p;
    assert id !in orphaned;
    var of := SessionsOf(was, p);
    hide SessionsOf;
    if id in of {
      assert of - (left - {id}) == (of - left) + {id};
    } else {
      assert of - (left - {id}) == of - left;
    }
  }

  lemma OthersAre(h: HubSystem.Hub, p: nat, room: map<string, nat>)
    requires p < |h.peers| && room == RoomMap(h, h.peers[p].room)
    ensures OthersIn(h, p) == (room - {h.peers[p].id}).Values
  {
    var none: map<string, nat> := map[];
    assert none - {h.peers[p].id} == none && none.Values == {};
  }

  /** The rosters agree but for one entry, which is now this. */
  ghost predicate Updated(was: map<string, map<string, nat>>, now: map<string, map<string, nat>>, room: string,
                          id: string, x: Option<nat>) {
    forall r, i :: Find(now, r, i) == if r == room && i == id then x else Find(was, r, i)
  }

  /** x stands in the room under another identity. */
  ghost predicate Beside(rooms: map<string, map<string, nat>>, room: string, id: string, x: nat) {
    exists i :: i != id && Find(rooms, room, i) == Some(x)
  }

  lemma JoinFinds(rooms: map<string, map<string, nat>>, p: nat, room: string, id: string)
    ensures Updated(rooms, rooms[room := (if room in rooms then rooms[room] else map[])[id := p]], room, id, Some(p))
  {
  }

  lemma OthersFound(h: HubSystem.Hub, p: nat)
    requires p < |h.peers|
    ensures forall x: nat :: x in OthersIn(h, p) <==> Beside(h.rooms, h.peers[p].room, h.peers[p].id, x)
  {
    var me := h.peers[p];
    forall x: nat
      ensures x in OthersIn(h, p) <==> Beside(h.rooms, me.room, me.id, x)
    {
      if me.room in h.rooms {
        var m := h.rooms[me.room] - {me.id};
        if x in m.Values {
          var i :| i in m && m[i] == x;
          assert i != me.id && Find(h.rooms, me.room, i) == Some(x);
        }
        if i :| i != me.id && Find(h.rooms, me.room, i) == Some(x) { assert i in m; }
      }
    }
  }

  lemma JoinRooms(h: HubSystem.Hub, p: nat, order: seq<nat>, room: map<string, nat>)
    requires p < |h.peers| && h.peers[p].ops != [] && (forall x :: x in order ==> x < |h.peers|)
    requires room == RoomMap(h, h.peers[p].room)
    ensures DoJoin(h, p, order).rooms == h.rooms[h.peers[p].room := room[h.peers[p].id := p]]
  {
    hide JoinOps, Infos, Tell;
  }

  class Hub {
    /** The connections, as the goroutines know them. */
    var peers: seq<Peer>
    var rooms: map<string, map<string, nat>>
    var sessions: map<nat, Sess>
    var nextSess: nat

    constructor ()
      ensures Valid() && peers == [] && rooms == map[] && sessions == map[] && nextSess == 0
    {
      peers, rooms, sessions, nextSess := [], map[], map[], 0;
    }

    /** Entries under their own room and identity, no empty room, sessions under their own ids. */
    ghost predicate Valid()
      reads this
    {
      && RoomsOk(Who(peers), rooms)
      && (forall id :: id in sessions ==> sessions[id].id == id && 1 <= id <= MAX_SESSION)
      && nextSess <= MAX_SESSION
    }

    /** These tables, in the step system's terms, with p's pending operations as given. */
    ghost function State(p: nat, op: Op): HubSystem.Hub
      reads this
      requires p < |peers|
    {
      HubSystem.Hub(peers[p := peers[p].(ops := [op])], rooms, sessions, nextSess, map[], [], {})
    }

    /** Everyone in a room but one identity, each once, in whatever order the map yields them. */
    method Others(room: map<string, nat>, id: string) returns (targets: seq<nat>, infos: seq<Info>)
      requires forall i :: i in room ==> room[i] < |peers| && peers[room[i]].id == i
      ensures Lists(targets, (room - {id}).Values)
      ensures |infos| == |targets| && forall k :: 0 <= k < |targets| ==>
          targets[k] < |peers| && infos[k] == InfoOf(peers[targets[k]])
    {
      ghost var m := room - {id};
      assert Injective(m) by { assert forall i :: i in m ==> i in room && m[i] == room[i]; }
      assert Described(peers, [], []);
      hide Gathered, Injective, Lists, Described;
      var left := (room - {id}).Keys;
      targets, infos := [], [];
      GatherStart(m);
      while left != {}
        invariant left <= m.Keys && m == room - {id} && Injective(m) && Gathered(m, left, targets)
        invariant Described(peers, targets, infos)
        decreases |left|
      {
        var i :| i in left;
        assert i in m && m[i] == room[i];
        GatherStep(m, left, targets, i);
        DescribeStep(peers, targets, infos, m[i]);
        targets, infos := targets + [room[i]], infos + [InfoOf(peers[room[i]])];
        left := left - {i};
      }
      GatherEnd(m, targets);
      DescribeEnd(peers, targets, infos);
    }

    /** join, up to where it releases the lock. */
    method Join(p: nat) returns (displaced: Option<nat>, targets: seq<nat>, others: seq<Info>)
      requires Valid() && p < |peers|
      modifies `rooms
      ensures Valid()
      ensures displaced == Find(old(rooms), peers[p].room, peers[p].id)
      ensures Lists(targets, OthersIn(old(State(p, HubSystem.Join)), p)) && forall x :: x in targets ==> x < |peers|
      ensures others == Infos(peers, targets)
      ensures rooms == DoJoin(old(State(p, HubSystem.Join)), p, targets).rooms
      ensures Updated(old(rooms), rooms, peers[p].room, peers[p].id, Some(p))
      ensures forall x: nat :: x in targets <==> Beside(old(rooms), peers[p].room, peers[p].id, x)
    {
      OthersFound(State(p, HubSystem.Join), p);
      JoinFinds(rooms, p, peers[p].room, peers[p].id);
      hide Updated, Beside;
      StateIs(p, HubSystem.Join);
      var me := peers[p];
      ghost var was := State(p, HubSystem.Join);
      hide Lists, NoDup, Who, RoomsOk, RoomOk, Infos, OthersIn, DoJoin, State;
      Members(me.room);
      var room := if me.room in rooms then rooms[me.room] else map[];
      OthersAre(was, p, room);
      displaced := if me.id in room then Some(room[me.id]) else None;
      JoinKeepsRooms(Who(peers), rooms, p, me.room, me.id);
      targets, others := Others(room, me.id);
      InTargets(targets, others);
      JoinRooms(was, p, targets, room);
      rooms := rooms[me.room := room[me.id := p]];
    }

    lemma InTargets(targets: seq<nat>, others: seq<Info>)
      requires |others| == |targets| && forall k :: 0 <= k < |targets| ==>
          targets[k] < |peers| && others[k] == InfoOf(peers[targets[k]])
      ensures (forall x :: x in targets ==> x < |peers|) && others == Infos(peers, targets)
    {
    }

    lemma StateIs(p: nat, op: Op)
      requires p < |peers|
      ensures var was := State(p, op);
        && was.rooms == rooms && |was.peers| == |peers| && was.peers[p].ops != []
        && was.peers[p].room == peers[p].room && was.peers[p].id == peers[p].id
      ensures p < |Who(peers)| && Who(peers)[p] == Key(peers[p].room, peers[p].id)
    {
    }

    /** What a room's map says of the connections in it. */
    lemma Members(r: string)
      requires Valid()
      ensures r in rooms ==> forall i :: i in rooms[r] ==>
          rooms[r][i] < |peers| && peers[rooms[r][i]].id == i && peers[rooms[r][i]].room == r
    {
      if r in rooms { assert RoomOk(Who(peers), r, rooms[r]); }
    }

    /** leave: only the connection that still holds the entry removes it. */
    method Leave(p: nat) returns (gone: bool, targets: seq<nat>)
      requires Valid() && p < |peers|
      modifies `rooms
      ensures Valid()
      ensures gone <==> Find(old(rooms), peers[p].room, peers[p].id) == Some(p)
      ensures gone ==> Lists(targets, OthersIn(old(State(p, HubSystem.Leave)), p))
      ensures rooms == DoLeave(old(State(p, HubSystem.Leave)), p, targets).rooms
    {
      hide Lists, NoDup, Who, RoomsOk, RoomOk, Tell;
      ghost var was := State(p, HubSystem.Leave);
      assert was.rooms == rooms && was.peers[p].room == peers[p].room && was.peers[p].id == peers[p].id;
      var me := peers[p];
      Members(me.room);
      if me.room !in rooms { return false, []; }
      var room := rooms[me.room];
      if me.id !in room || room[me.id] != p { return false, []; }
      LeaveKeepsRooms(Who(peers), rooms, me.room, me.id);
      room := room - {me.id};
      rooms := if room == map[] then rooms - {me.room} else rooms[me.room := room];
      gone := true;
      var others: seq<Info>;
      targets, others := Others(room, me.id);
      assert room - {me.id} == room;
    }

    method FindPeer(room: string, id: string) returns (p: Option<nat>)
      requires Valid()
      ensures p == Find(rooms, room, id)
      ensures p.Some? ==> p.value < |peers| && peers[p.value].room == room && peers[p.value].id == id
    {
      Members(room);
      p := if room in rooms && id in rooms[room] then Some(rooms[room][id]) else None;
    }

    /**
     * Takes the next free id after the counter, skipping zero. The loop ends whenever fewer
     * than 2^32 - 1 sessions are live, because the counter meets every id in turn.
     */
    method Allocate(from: nat, target: nat) returns (id: nat)
      requires Valid() && |sessions| < MAX_SESSION
      modifies `sessions, `nextSess
      ensures Valid()
      ensures FirstFree(old(nextSess), old(sessions).Keys, id) && id !in old(sessions) && id != 0
      ensures sessions == old(sessions)[id := Sess(id, from, target)] && nextSess == id
    {
      ghost var start := nextSess;
      ghost var goal := FreeIdExists(start, sessions.Keys);
      while true
        invariant nextSess <= MAX_SESSION && start <= MAX_SESSION && FirstFree(start, sessions.Keys, goal)
        invariant nextSess == start
            || (nextSess >= 1 && nextSess in sessions && Distance(start, nextSess) < Distance(start, goal))
        invariant sessions == old(sessions)
        decreases if nextSess == start then MAX_SESSION + 1 else Distance(start, goal) - Distance(start, nextSess)
      {
        nextSess := nextSess + 1;
        if nextSess > MAX_SESSION { nextSess := 1; }
        if nextSess !in sessions { break; }
      }
      id := nextSess;
      sessions := sessions[id := Sess(id, from, target)];
    }

    /** The far end a frame or acknowledgement goes to, if the session is known and p's own. */
    method Route(p: nat, id: nat) returns (target: Option<nat>)
      ensures target == if id in sessions then Other(sessions[id], p) else None
      ensures forall q: nat :: target == Some(q) && id in sessions && sessions[id].from != sessions[id].to ==>
          (sessions[id].from == p && sessions[id].to == q) || (sessions[id].to == p && sessions[id].from == q)
      ensures target.None? <==> id !in sessions || (sessions[id].from != p && sessions[id].to != p)
    {
      if id !in sessions { return None; }
      var s := sessions[id];
      target := if p == s.from then Some(s.to) else if p == s.to then Some(s.from) else None;
    }

    /** closeRelay: the session goes whoever asks; the result is whom to tell. */
    method CloseRelay(id: nat, p: nat) returns (target: Option<nat>)
      requires Valid()
      modifies `sessions
      ensures Valid() && sessions == old(sessions) - {id}
      ensures target == if id in old(sessions) then Other(old(sessions)[id], p) else None
    {
      target := Route(p, id);
      sessions := sessions - {id};
    }

    /** closePeerSessions: takes out every session p is part of, and lists them. */
    method ClosePeerSessions(p: nat) returns (orphaned: seq<nat>)
      requires Valid()
      modifies `sessions
      ensures Valid() && sessions == old(sessions) - SessionsOf(old(sessions), p)
      ensures Lists(orphaned, SessionsOf(old(sessions), p))
    {
      hide Swept, SessionsOf, Who, RoomsOk, NoDup;
      ghost var was := sessions;
      var left := sessions.Keys;
      orphaned := [];
      assert Swept(was, sessions, p, left, orphaned) by { SweepStart(was, p); }
      while left != {}
        invariant Swept(was, sessions, p, left, orphaned) && Valid()
        decreases |left|
      {
        var id :| id in left;
        SweepStep(was, sessions, p, left, orphaned, id);
        var s := sessions[id];
        left := left - {id};
        if s.from == p || s.to == p {
          sessions := sessions - {id};
          orphaned := orphaned + [id];
        }
      }
      SweepEnd(was, sessions, p, orphaned);
    }
  }

  lemma SweepStart(was: map<nat, Sess>, p: nat)
    ensures Swept(was, was, p, was.Keys, [])
  {
    assert SessionsOf(was, p) <= was.Keys;
    assert SessionsOf(was, p) - was.Keys == {};
  }

  lemma SweepEnd(was: map<nat, Sess>, now: map<nat, Sess>, p: nat, orphaned: seq<nat>)
    requires Swept(was, now, p, {}, orphaned)
    ensures now == was - SessionsOf(was, p) && Lists(orphaned, SessionsOf(was, p))
  {
    assert SessionsOf(was, p) - {} == SessionsOf(was, p);
  }
}
