/**
 * What browsers make of the roster messages. With each hub operation carried through at
 * once and closed connections silent, a client that replays its connection's messages
 * knows exactly the other members of its room and their names.
 */
module RosterReplay {
  import opened Basics
  import opened HubSystem

  /** `inbox` is the roster messages the connection has been sent, in order. */
  datatype Conn = Conn(room: string, id: string, name: string, open: bool, inbox: seq<Down>)

  datatype Floor = Floor(conns: seq<Conn>, rooms: map<string, map<string, nat>>)

  const EMPTY_FLOOR := Floor([], map[])

  type Roster = map<string, string>

  /** addPeer: insert or update by identity. */
  function Add(m: Roster, i: Info): Roster { m[i.id := i.name] }

  function AddAll(m: Roster, infos: seq<Info>): Roster
    decreases |infos|
  {
    if infos == [] then m else AddAll(Add(m, infos[0]), infos[1..])
  }

  function Hear(m: Roster, f: Down): Roster {
    match f
    case Welcome(_, others) => AddAll(m, others)
    case PeerJoin(info) => Add(m, info)
    case PeerLeave(id) => m - {id}
    case _ => m
  }

  /** The roster a client builds from its messages. */
  function Replay(inbox: seq<Down>): Roster {
    if inbox == [] then map[] else Hear(Replay(inbox[..|inbox| - 1]), inbox[|inbox| - 1])
  }

  function Room(s: Floor, room: string): map<string, nat> { if room in s.rooms then s.rooms[room] else map[] }

  /** The members of a room other than `id`, as connections. */
  function Others(s: Floor, room: string, id: string): set<nat> { (Room(s, room) - {id}).Values }

  /** The room as it is, minus `id` itself. */
  function Members(conns: seq<Conn>, room: map<string, nat>, id: string): Roster {
    map i | i in room && i != id && room[i] < |conns| :: conns[room[i]].name
  }

  function InfoAt(conns: seq<Conn>, c: nat): Info {
    if c < |conns| then Info(conns[c].id, conns[c].name) else Info("", "")
  }

  function InfosAt(conns: seq<Conn>, order: seq<nat>): seq<Info> {
    seq(|order|, k requires 0 <= k < |order| => InfoAt(conns, order[k]))
  }

  function TellAll(conns: seq<Conn>, to: seq<nat>, f: Down): (r: seq<Conn>)
    ensures |r| == |conns|
  {
    seq(|conns|, c requires 0 <= c < |conns| => if c in to then conns[c].(inbox := conns[c].inbox + [f]) else conns[c])
  }

  function SetRoom(s: Floor, room: string, m: map<string, nat>): map<string, map<string, nat>> {
    if m == map[] then s.rooms - {room} else s.rooms[room := m]
  }

  function Close(conns: seq<Conn>, c: nat): seq<Conn> {
    if c < |conns| then conns[c := conns[c].(open := false)] else conns
  }

  datatype Step =
    | Joins(room: string, id: string, name: string, order: seq<nat>)
    | Leaves(c: nat, order: seq<nat>)
    | Renames(c: nat, name: string, order: seq<nat>)
    | Dies(c: nat)

  ghost predicate CanStep(s: Floor, step: Step) {
    match step
    case Joins(room, id, _, order) => Lists(order, Others(s, room, id))
    case Leaves(c, order) => c < |s.conns| && Lists(order, Others(s, s.conns[c].room, s.conns[c].id))
    case Renames(c, _, order) => c < |s.conns| && s.conns[c].open
      && Lists(order, Others(s, s.conns[c].room, s.conns[c].id))
    case Dies(c) => c < |s.conns|
  }

  /** join: the newcomer takes over its identity, is told of the others, and they of it. */
  function AfterJoin(s: Floor, room: string, id: string, name: string, order: seq<nat>): Floor {
    var members := Room(s, room);
    var conns := if id in members then Close(s.conns, members[id]) else s.conns;
    var newcomer := Conn(room, id, name, true, [Welcome(Info(id, name), InfosAt(conns, order))]);
    Floor(TellAll(conns, order, PeerJoin(Info(id, name))) + [newcomer], s.rooms[room := members[id := |s.conns|]])
  }

  /** leave: a displaced connection changes nothing. */
  function AfterLeave(s: Floor, c: nat, order: seq<nat>): Floor
    requires c < |s.conns|
  {
    var me, conns := s.conns[c], Close(s.conns, c);
    var members := Room(s, me.room);
    if me.id !in members || members[me.id] != c then s.(conns := conns)
    else Floor(TellAll(conns, order, PeerLeave(me.id)), SetRoom(s, me.room, members - {me.id}))
  }

  function AfterRename(s: Floor, c: nat, name: string, order: seq<nat>): Floor
    requires c < |s.conns|
  {
    var me := s.conns[c];
    s.(conns := TellAll(s.conns[c := me.(name := name)], order, PeerJoin(Info(me.id, name))))
  }

  function Next(s: Floor, step: Step): Floor
    requires step.Leaves? || step.Renames? ==> step.c < |s.conns|
  {
    match step
    case Joins(room, id, name, order) => AfterJoin(s, room, id, name, order)
    case Leaves(c, order) => AfterLeave(s, c, order)
    case Renames(c, name, order) => AfterRename(s, c, name, order)
    case Dies(c) => s.(conns := Close(s.conns, c))
  }

  ghost predicate IsRun(s: Floor, steps: seq<Step>, last: Floor)
    decreases |steps|
  {
    if steps == [] then s == last
    else CanStep(s, steps[0]) && IsRun(Next(s, steps[0]), steps[1..], last)
  }

  // --------------------------------------------------------------- invariant

  /** A room lists connections under their own room and identity. */
  ghost predicate RoomFits(conns: seq<Conn>, r: string, m: map<string, nat>) {
    forall i :: i in m ==> m[i] < |conns| && conns[m[i]].room == r && conns[m[i]].id == i
  }

  ghost predicate Fits(s: Floor) { forall r :: r in s.rooms ==> RoomFits(s.conns, r, s.rooms[r]) }

  /** An open connection is the current one, and its client knows its room. */
  ghost predicate Knows(conns: seq<Conn>, m: map<string, nat>, c: nat) {
    c < |conns| && conns[c].open ==>
      conns[c].id in m && m[conns[c].id] == c && Replay(conns[c].inbox) == Members(conns, m, conns[c].id)
  }

  ghost predicate Informed(s: Floor) {
    Fits(s) && forall c :: 0 <= c < |s.conns| ==> Knows(s.conns, Room(s, s.conns[c].room), c)
  }

  lemma ReplayPush(inbox: seq<Down>, f: Down)
    ensures Replay(inbox + [f]) == Hear(Replay(inbox), f)
  {
    assert (inbox + [f])[..|inbox + [f]| - 1] == inbox;
  }

  /** Being told of every listed connection. */
  lemma {:induction false} AddAllHas(m: Roster, infos: seq<Info>)
    requires forall i, j :: 0 <= i < j < |infos| ==> infos[i].id != infos[j].id
    ensures forall x :: x in AddAll(m, infos) <==> x in m || exists k :: 0 <= k < |infos| && infos[k].id == x
    ensures forall k :: 0 <= k < |infos| ==> AddAll(m, infos)[infos[k].id] == infos[k].name
    ensures forall x :: x in m && (forall k :: 0 <= k < |infos| ==> infos[k].id != x) ==> AddAll(m, infos)[x] == m[x]
    decreases |infos|
  {
    if infos != [] {
      var m1, rest := Add(m, infos[0]), infos[1..];
      AddAllHas(m1, rest);
      assert forall k :: 0 <= k < |rest| ==> rest[k] == infos[k + 1];
      assert forall k :: 1 <= k < |infos| ==> infos[k] == rest[k - 1];
      assert forall k :: 0 <= k < |rest| ==> rest[k].id != infos[0].id;
    }
  }

  /** Messages and closings change neither names nor whereabouts. */
  ghost predicate Same(conns: seq<Conn>, conns': seq<Conn>) {
    |conns| <= |conns'| && forall c :: 0 <= c < |conns| ==>
      conns'[c].room == conns[c].room && conns'[c].id == conns[c].id && conns'[c].name == conns[c].name
  }

  lemma TellSame(conns: seq<Conn>, to: seq<nat>, f: Down, more: seq<Conn>)
    ensures Same(conns, TellAll(conns, to, f) + more)
    ensures forall c :: 0 <= c < |conns| ==> (TellAll(conns, to, f) + more)[c].open == conns[c].open
    ensures forall c :: 0 <= c < |conns| ==>
      Replay((TellAll(conns, to, f) + more)[c].inbox) == if c in to then Hear(Replay(conns[c].inbox), f)
        else Replay(conns[c].inbox)
  {
    forall c | 0 <= c < |conns|
      ensures Replay(TellAll(conns, to, f)[c].inbox) == if c in to then Hear(Replay(conns[c].inbox), f)
          else Replay(conns[c].inbox)
    {
      ReplayPush(conns[c].inbox, f);
    }
    hide Replay, Hear;
  }

  lemma CloseSame(conns: seq<Conn>, c: nat)
    ensures Same(conns, Close(conns, c)) && |Close(conns, c)| == |conns|
    ensures forall k :: 0 <= k < |conns| ==> Close(conns, c)[k].inbox == conns[k].inbox
    ensures forall k :: 0 <= k < |conns| ==> (Close(conns, c)[k].open <==> conns[k].open && k != c)
  {
  }

  lemma RoomSame(conns: seq<Conn>, conns': seq<Conn>, r: string, m: map<string, nat>, id: string)
    requires Same(conns, conns') && RoomFits(conns, r, m)
    ensures RoomFits(conns', r, m) && Members(conns', m, id) == Members(conns, m, id)
  {
  }

  lemma RoomOf(s: Floor, r: string)
    requires Fits(s)
    ensures RoomFits(s.conns, r, Room(s, r))
  {
  }

  /** A member other than `id` is among the others. */
  lemma IsOther(s: Floor, r: string, id: string, c: nat)
    requires Fits(s) && c < |s.conns| && s.conns[c].room == r
    ensures c in Others(s, r, id) <==>
        s.conns[c].id != id && s.conns[c].id in Room(s, r) && Room(s, r)[s.conns[c].id] == c
  {
    RoomOf(s, r);
    var m := Room(s, r) - {id};
    if c in m.Values {
      var i :| i in m && m[i] == c;
      assert s.conns[c].id == i;
    }
    if s.conns[c].id != id && s.conns[c].id in Room(s, r) && Room(s, r)[s.conns[c].id] == c {
      assert m[s.conns[c].id] == c;
    }
  }

  lemma OtherInRoom(s: Floor, r: string, id: string, c: nat)
    requires Fits(s) && c in Others(s, r, id)
    ensures c < |s.conns| && s.conns[c].room == r && s.conns[c].id != id && s.conns[c].id in Room(s, r)
    ensures Room(s, r)[s.conns[c].id] == c
  {
    RoomOf(s, r);
    var m := Room(s, r) - {id};
    var i :| i in m && m[i] == c;
  }

  /** The newcomer is told of everyone else. */
  lemma WelcomeKnows(s: Floor, conns: seq<Conn>, r: string, id: string, order: seq<nat>, self: Info)
    requires Fits(s) && Same(s.conns, conns) && |conns| == |s.conns| && Lists(order, Others(s, r, id))
    ensures Replay([Welcome(self, InfosAt(conns, order))]) == Members(s.conns, Room(s, r), id)
  {
    var infos, m := InfosAt(conns, order), Room(s, r);
    InfosFit(s, conns, r, id, order);
    hide Replay, Lists, Others, InfosAt;
    AddAllHas(map[], infos);
    var got := AddAll(map[], infos);
    hide AddAll;
    RoomOf(s, r);
    forall i | i in Members(s.conns, m, id) ensures i in got {
      IsOther(s, r, id, m[i]);
      OrderHas(s, r, id, order, m[i]);
      var k :| 0 <= k < |order| && order[k] == m[i];
      assert infos[k].id == i;
    }
    forall i | i in got ensures i in Members(s.conns, m, id) && got[i] == Members(s.conns, m, id)[i] {
      var k :| 0 <= k < |infos| && infos[k].id == i;
      assert got[infos[k].id] == infos[k].name;
    }
    WelcomeReplay(self, infos);
  }

  lemma OrderHas(s: Floor, r: string, id: string, order: seq<nat>, c: nat)
    requires Lists(order, Others(s, r, id)) && c in Others(s, r, id)
    ensures exists k :: 0 <= k < |order| && order[k] == c
  {
    assert c in order;
  }

  lemma WelcomeReplay(self: Info, infos: seq<Info>)
    ensures Replay([Welcome(self, infos)]) == AddAll(map[], infos)
  {
    assert [Welcome(self, infos)] == [] + [Welcome(self, infos)];
    ReplayPush([], Welcome(self, infos));
    assert Replay([]) == map[];
    hide Replay, AddAll;
  }

  /** The list handed over names each other member once, as the room has it. */
  lemma InfosFit(s: Floor, conns: seq<Conn>, r: string, id: string, order: seq<nat>)
    requires Fits(s) && Same(s.conns, conns) && |conns| == |s.conns| && Lists(order, Others(s, r, id))
    ensures var infos, m := InfosAt(conns, order), Room(s, r);
      && |infos| == |order|
      && (forall k :: 0 <= k < |order| ==>
          order[k] < |s.conns| && infos[k] == Info(s.conns[order[k]].id, s.conns[order[k]].name))
      && (forall k :: 0 <= k < |order| ==> infos[k].id in m && m[infos[k].id] == order[k] && infos[k].id != id)
      && (forall i, j :: 0 <= i < j < |infos| ==> infos[i].id != infos[j].id)
  {
    var infos, m := InfosAt(conns, order), Room(s, r);
    forall k | 0 <= k < |order|
      ensures order[k] < |s.conns| && infos[k] == Info(s.conns[order[k]].id, s.conns[order[k]].name)
      ensures infos[k].id in m && m[infos[k].id] == order[k] && infos[k].id != id
    {
      assert order[k] in order;
      OtherInRoom(s, r, id, order[k]);
      hide Fits, Room;
    }
    forall i, j | 0 <= i < j < |infos| ensures infos[i].id != infos[j].id {
      assert m[infos[i].id] == order[i] && m[infos[j].id] == order[j];
    }
  }

  // ------------------------------------------------------ each step keeps it

  /** What an unchanged connection knew of a room that kept its members. */
  lemma Untouched(conns: seq<Conn>, conns': seq<Conn>, r: string, m: map<string, nat>, c: nat)
    requires Same(conns, conns') && RoomFits(conns, r, m) && c < |conns| && Knows(conns, m, c)
    requires conns'[c].open ==> conns[c].open
    requires Replay(conns'[c].inbox) == Replay(conns[c].inbox)
    ensures Knows(conns', m, c)
  {
    RoomSame(conns, conns', r, m, conns[c].id);
    hide Replay, Members, RoomFits;
  }

  /** A connection that is told of a newcomer, or of a new name. */
  lemma Joined(conns: seq<Conn>, conns': seq<Conn>, r: string, m: map<string, nat>, id: string, name: string, n: nat,
               c: nat)
    requires RoomFits(conns, r, m) && c < |conns| && c < |conns'| && n < |conns'| && Knows(conns, m, c) && conns[c].open
    requires conns[c].id != id
    requires conns'[c].id == conns[c].id && conns'[n].name == name
    requires forall i :: i in m && i != id ==> m[i] < |conns'| && conns'[m[i]].name == conns[m[i]].name
    requires Replay(conns'[c].inbox) == Add(Replay(conns[c].inbox), Info(id, name))
    ensures Knows(conns', m[id := n], c)
  {
    var me := conns[c].id;
    assert Members(conns', m[id := n], me) == Members(conns, m, me)[id := name];
    hide Replay;
  }

  lemma Left(conns: seq<Conn>, conns': seq<Conn>, r: string, m: map<string, nat>, id: string, c: nat)
    requires Same(conns, conns') && RoomFits(conns, r, m) && c < |conns| && Knows(conns, m, c) && conns[c].open
    requires conns[c].id != id
    requires Replay(conns'[c].inbox) == Replay(conns[c].inbox) - {id}
    ensures Knows(conns', m - {id}, c)
  {
    var me := conns[c].id;
    assert Members(conns', m - {id}, me) == Members(conns, m, me) - {id};
    hide Replay;
  }

  lemma JoinInforms(s: Floor, room: string, id: string, name: string, order: seq<nat>)
    requires Informed(s) && Lists(order, Others(s, room, id))
    ensures Informed(AfterJoin(s, room, id, name, order))
  {
    hide Replay, AddAll, Others, Lists, RoomFits, Knows, Members;
    var s' := AfterJoin(s, room, id, name, order);
    AfterJoinIs(s, room, id, name, order);
    assert Fits(s') by {
      forall r | r in s'.rooms ensures RoomFits(s'.conns, r, s'.rooms[r]) {
        RoomOf(s, r);
        RoomSame(s.conns, s'.conns, r, Room(s, r), id);
        if r == room { RoomGains(s'.conns, room, Room(s, room), id, |s.conns|); }
      }
    }
    forall c | 0 <= c < |s'.conns| ensures Knows(s'.conns, Room(s', s'.conns[c].room), c) {
      if c == |s.conns| { NewcomerKnows(s, s'.conns, room, id, order, Info(id, name)); }
      else { OthersKnow(s, s', room, id, name, order, c); }
    }
  }

  lemma RoomGains(conns: seq<Conn>, r: string, m: map<string, nat>, id: string, n: nat)
    requires RoomFits(conns, r, m) && n < |conns| && conns[n].room == r && conns[n].id == id
    ensures RoomFits(conns, r, m[id := n])
  {
  }

  /** What a join leaves: names and whereabouts as they were, the others told, the displaced closed. */
  lemma AfterJoinIs(s: Floor, room: string, id: string, name: string, order: seq<nat>)
    ensures var s', m, n := AfterJoin(s, room, id, name, order), Room(s, room), |s.conns|;
      && |s'.conns| == n + 1 && Same(s.conns, s'.conns) && s'.rooms == s.rooms[room := m[id := n]]
      && s'.conns[n].room == room && s'.conns[n].id == id && s'.conns[n].name == name && s'.conns[n].open
      && (forall c :: 0 <= c < n ==>
          Replay(s'.conns[c].inbox) == if c in order then Add(Replay(s.conns[c].inbox), Info(id, name))
            else Replay(s.conns[c].inbox))
      && (forall c :: 0 <= c < n ==> (s'.conns[c].open <==> s.conns[c].open && !(id in m && m[id] == c)))
      && exists conns ::
           && Same(s.conns, conns) && |conns| == n
           && s'.conns[n].inbox == [Welcome(Info(id, name), InfosAt(conns, order))]
  {
    var s', m, f := AfterJoin(s, room, id, name, order), Room(s, room), PeerJoin(Info(id, name));
    var conns := if id in m then Close(s.conns, m[id]) else s.conns;
    if id in m { CloseSame(s.conns, m[id]); }
    hide Replay, InfosAt;
    TellSame(conns, order, f, [s'.conns[|s.conns|]]);
  }

  lemma NewcomerKnows(s: Floor, conns': seq<Conn>, room: string, id: string, order: seq<nat>, self: Info)
    requires Fits(s) && Lists(order, Others(s, room, id)) && |conns'| == |s.conns| + 1 && Same(s.conns, conns')
    requires conns'[|s.conns|].id == id
    requires exists conns ::
      && Same(s.conns, conns) && |conns| == |s.conns|
      && conns'[|s.conns|].inbox == [Welcome(self, InfosAt(conns, order))]
    ensures Knows(conns', Room(s, room)[id := |s.conns|], |s.conns|)
  {
    var conns :| Same(s.conns, conns) && |conns| == |s.conns|
      && conns'[|s.conns|].inbox == [Welcome(self, InfosAt(conns, order))];
    hide Replay, InfosAt, Others, Lists, Members, RoomFits, Fits;
    WelcomeKnows(s, conns, room, id, order, self);
    RoomOf(s, room);
    MembersGain(s.conns, conns', room, Room(s, room), id);
  }

  /** One's own entry does not count. */
  lemma MembersGain(conns: seq<Conn>, conns': seq<Conn>, r: string, m: map<string, nat>, id: string)
    requires Same(conns, conns') && RoomFits(conns, r, m)
    ensures Members(conns', m[id := |conns|], id) == Members(conns, m, id)
  {
  }

  lemma OthersKnow(s: Floor, s': Floor, room: string, id: string, name: string, order: seq<nat>, c: nat)
    requires Informed(s) && Lists(order, Others(s, room, id)) && c < |s.conns| && |s'.conns| == |s.conns| + 1
    requires Same(s.conns, s'.conns) && s'.rooms == s.rooms[room := Room(s, room)[id := |s.conns|]]
    requires s'.conns[|s.conns|].name == name
    requires Replay(s'.conns[c].inbox) == if c in order then Add(Replay(s.conns[c].inbox), Info(id, name))
        else Replay(s.conns[c].inbox)
    requires s'.conns[c].open <==> s.conns[c].open && !(id in Room(s, room) && Room(s, room)[id] == c)
    ensures Knows(s'.conns, Room(s', s'.conns[c].room), c)
  {
    if s'.conns[c].open {
      var r := s.conns[c].room;
      assert Knows(s.conns, Room(s, r), c);
      RoomOf(s, r);
      hide Replay, Others, Members, Fits;
      if r == room {
        IsOther(s, room, id, c);
        assert c in order;
        Joined(s.conns, s'.conns, r, Room(s, room), id, name, |s.conns|, c);
      } else {
        OthersElsewhere(s, room, id, order, c);
        Untouched(s.conns, s'.conns, r, Room(s, r), c);
      }
    }
  }

  lemma OthersElsewhere(s: Floor, room: string, id: string, order: seq<nat>, c: nat)
    requires Fits(s) && Lists(order, Others(s, room, id)) && c < |s.conns| && s.conns[c].room != room
    ensures c !in order
  {
    if c in order { OtherInRoom(s, room, id, c); assert false; }
  }

  lemma DiesInforms(s: Floor, c: nat)
    requires Informed(s) && c < |s.conns|
    ensures Informed(s.(conns := Close(s.conns, c)))
  {
    var s' := s.(conns := Close(s.conns, c));
    CloseSame(s.conns, c);
    forall r | r in s'.rooms
      ensures RoomFits(s'.conns, r, s'.rooms[r])
    {
      RoomSame(s.conns, s'.conns, r, s.rooms[r], "");
    }
    forall k | 0 <= k < |s'.conns| ensures Knows(s'.conns, Room(s', s'.conns[k].room), k) {
      RoomOf(s, s.conns[k].room);
      Untouched(s.conns, s'.conns, s.conns[k].room, Room(s, s.conns[k].room), k);
    }
    hide Knows;
  }

  lemma LeaveInforms(s: Floor, c: nat, order: seq<nat>)
    requires Informed(s) && c < |s.conns| && Lists(order, Others(s, s.conns[c].room, s.conns[c].id))
    ensures Informed(AfterLeave(s, c, order))
  {
    hide Replay, Others, Lists, RoomFits, Knows, Members, TellAll;
    var me := s.conns[c];
    var t, m := s.(conns := Close(s.conns, c)), Room(s, me.room);
    DiesInforms(s, c);
    CloseSame(s.conns, c);
    if me.id in m && m[me.id] == c {
      var s', f := AfterLeave(s, c, order), PeerLeave(me.id);
      TellSame(t.conns, order, f, []);
      assert TellAll(t.conns, order, f) + [] == TellAll(t.conns, order, f);
      RoomIs(s, s', me.room, me.id);
      SameLists(s, t, me.room, me.id, order);
      forall r | r in s'.rooms ensures RoomFits(s'.conns, r, s'.rooms[r]) {
        RoomOf(t, r);
        RoomSame(t.conns, s'.conns, r, Room(t, r), "");
        RoomLoses(s'.conns, r, Room(t, r), me.id);
      }
      forall k | 0 <= k < |s'.conns| ensures Knows(s'.conns, Room(s', s'.conns[k].room), k) {
        LeaveKnows(t, s', me.room, me.id, c, order, k);
      }
    }
  }

  lemma RoomLoses(conns: seq<Conn>, r: string, m: map<string, nat>, id: string)
    requires RoomFits(conns, r, m)
    ensures RoomFits(conns, r, m - {id})
  {
  }

  lemma RoomIs(s: Floor, s': Floor, room: string, id: string)
    requires s'.rooms == SetRoom(s, room, Room(s, room) - {id}) && room in s.rooms
    ensures Room(s', room) == Room(s, room) - {id} && (forall r :: r != room ==> Room(s', r) == Room(s, r))
    ensures forall r :: r in s'.rooms ==> s'.rooms[r] == if r == room then Room(s, r) - {id} else Room(s, r)
  {
  }

  lemma SameLists(s: Floor, t: Floor, room: string, id: string, order: seq<nat>)
    requires s.rooms == t.rooms && Lists(order, Others(s, room, id))
    ensures Lists(order, Others(t, room, id))
  {
    hide Lists;
  }

  lemma LeaveKnows(t: Floor, s': Floor, room: string, id: string, c: nat, order: seq<nat>, k: nat)
    requires Informed(t) && Lists(order, Others(t, room, id)) && k < |t.conns| && Same(t.conns, s'.conns)
    requires Room(s', room) == Room(t, room) - {id} && (forall r :: r != room ==> Room(s', r) == Room(t, r))
    requires id in Room(t, room) && Room(t, room)[id] == c && c < |t.conns| && !t.conns[c].open
    requires s'.conns[k].open == t.conns[k].open
    requires Replay(s'.conns[k].inbox) == if k in order then Hear(Replay(t.conns[k].inbox), PeerLeave(id))
        else Replay(t.conns[k].inbox)
    ensures Knows(s'.conns, Room(s', s'.conns[k].room), k)
  {
    var r := t.conns[k].room;
    if s'.conns[k].open {
      assert Knows(t.conns, Room(t, r), k);
      RoomOf(t, r);
      hide Replay, Others, Members, Fits, RoomFits;
      if r == room {
        IsOther(t, room, id, k);
        assert k in order;
        Left(t.conns, s'.conns, r, Room(t, r), id, k);
      } else {
        OthersElsewhere(t, room, id, order, k);
        Untouched(t.conns, s'.conns, r, Room(t, r), k);
      }
    }
  }

  /** What c's renaming tells its room is true of the room, or nobody listens. */
  ghost predicate Harmless(s: Floor, c: nat, name: string, order: seq<nat>) {
    c < |s.conns| &&
    var id, m := s.conns[c].id, Room(s, s.conns[c].room);
    || (id in m && (m[id] == c || (m[id] < |s.conns| && s.conns[m[id]].name == name)))
    || (forall k :: k in order && k < |s.conns| ==> !s.conns[k].open)
  }

  lemma RenameInforms(s: Floor, c: nat, name: string, order: seq<nat>)
    requires Informed(s) && c < |s.conns| && Harmless(s, c, name, order)
    requires Lists(order, Others(s, s.conns[c].room, s.conns[c].id))
    ensures Informed(AfterRename(s, c, name, order))
  {
    hide Replay, Others, Lists, RoomFits, Knows, Members, TellAll, Harmless;
    var me, s' := s.conns[c], AfterRename(s, c, name, order);
    var conns, f := s.conns[c := me.(name := name)], PeerJoin(Info(me.id, name));
    TellSame(conns, order, f, []);
    assert TellAll(conns, order, f) + [] == TellAll(conns, order, f);
    forall r | r in s'.rooms
      ensures RoomFits(s'.conns, r, s'.rooms[r])
    {
      RoomOf(s, r);
      RoomRenamed(s.conns, s'.conns, r, s.rooms[r]);
    }
    forall k | 0 <= k < |s'.conns| ensures Knows(s'.conns, Room(s', s'.conns[k].room), k) {
      RenameKnows(s, s', c, name, order, k);
    }
  }

  ghost predicate Renamed(conns: seq<Conn>, conns': seq<Conn>, c: nat, name: string) {
    && |conns'| == |conns| && c < |conns|
    && forall k :: 0 <= k < |conns| ==>
         conns'[k].room == conns[k].room && conns'[k].id == conns[k].id
           && conns'[k].name == (if k == c then name else conns[k].name)
  }

  lemma RoomRenamed(conns: seq<Conn>, conns': seq<Conn>, r: string, m: map<string, nat>)
    requires RoomFits(conns, r, m) && |conns'| == |conns|
    requires forall k :: 0 <= k < |conns| ==> conns'[k].room == conns[k].room && conns'[k].id == conns[k].id
    ensures RoomFits(conns', r, m)
  {
  }

  lemma RenameKnows(s: Floor, s': Floor, c: nat, name: string, order: seq<nat>, k: nat)
    requires Informed(s) && c < |s.conns| && Harmless(s, c, name, order)
    requires Lists(order, Others(s, s.conns[c].room, s.conns[c].id))
    requires Renamed(s.conns, s'.conns, c, name) && s'.rooms == s.rooms && k < |s.conns|
    requires s'.conns[k].open == s.conns[k].open
    requires Replay(s'.conns[k].inbox) ==
        if k in order then Hear(Replay(s.conns[k].inbox), PeerJoin(Info(s.conns[c].id, name)))
          else Replay(s.conns[k].inbox)
    ensures Knows(s'.conns, Room(s', s'.conns[k].room), k)
  {
    var me, r := s.conns[c], s.conns[k].room;
    if s'.conns[k].open {
      assert Knows(s.conns, Room(s, r), k);
      RoomOf(s, r);
      var m := Room(s, r);
      hide Replay, Others, Fits;
      if k in order {
        OtherInRoom(s, me.room, me.id, k);
        assert m[me.id := m[me.id]] == m;
        Joined(s.conns, s'.conns, r, m, me.id, name, m[me.id], k);
      } else {
        if r == me.room { IsOther(s, me.room, me.id, k); }
        MembersRenamed(s.conns, s'.conns, r, m, c, name, s.conns[k].id);
      }
    }
  }

  /** A name heard only by others: of another room's member, or one's own. */
  lemma MembersRenamed(conns: seq<Conn>, conns': seq<Conn>, r: string, m: map<string, nat>, c: nat, name: string,
                       id: string)
    requires Renamed(conns, conns', c, name) && RoomFits(conns, r, m) && (conns[c].room != r || conns[c].id == id)
    ensures Members(conns', m, id) == Members(conns, m, id)
  {
  }

  /** An open connection holds its own entry. */
  lemma OwnNameIsHarmless(s: Floor, c: nat, name: string, order: seq<nat>)
    requires Informed(s) && c < |s.conns| && s.conns[c].open
    ensures Harmless(s, c, name, order)
  {
    assert Knows(s.conns, Room(s, s.conns[c].room), c);
    hide Replay, Members;
  }

  lemma StepInforms(s: Floor, step: Step)
    requires Informed(s) && CanStep(s, step)
    ensures Informed(Next(s, step))
  {
    hide Informed, AfterJoin, AfterLeave, AfterRename, Lists, Others;
    match step
    case Joins(room, id, name, order) => JoinInforms(s, room, id, name, order);
    case Leaves(c, order) => LeaveInforms(s, c, order);
    case Renames(c, name, order) => OwnNameIsHarmless(s, c, name, order); RenameInforms(s, c, name, order);
    case Dies(c) => DiesInforms(s, c);
  }

  lemma {:induction false} RunInforms(s: Floor, steps: seq<Step>, last: Floor)
    requires Informed(s) && IsRun(s, steps, last)
    ensures Informed(last)
    decreases |steps|
  {
    if steps != [] {
      StepInforms(s, steps[0]);
      hide Informed, CanStep, Next;
      RunInforms(Next(s, steps[0]), steps[1..], last);
    }
  }

  /** Replaying an open connection's messages gives exactly the room minus itself, names included. */
  lemma ReplayIsTheRoom(steps: seq<Step>, s: Floor, c: nat)
    requires IsRun(EMPTY_FLOOR, steps, s) && c < |s.conns| && s.conns[c].open
    ensures var me := s.conns[c]; var m := Room(s, me.room);
      && me.id in m && m[me.id] == c
      && (forall i :: i in Replay(me.inbox) <==> i in m && i != me.id)
      && (forall i :: i in m ==> m[i] < |s.conns| && s.conns[m[i]].room == me.room && s.conns[m[i]].id == i)
      && (forall i :: i in m && i != me.id ==> Replay(me.inbox)[i] == s.conns[m[i]].name)
  {
    hide IsRun;
    assert Informed(EMPTY_FLOOR);
    RunInforms(EMPTY_FLOOR, steps, s);
    assert Knows(s.conns, Room(s, s.conns[c].room), c);
    RoomOf(s, s.conns[c].room);
    hide Replay, Informed;
  }

  /**
   * A connection's goroutine may get to announce a name after the connection was displaced
   * or has left. Exactly when that leaves everyone informed: the connection still holds its
   * entry, or the entry's holder bears that name already, or nobody told is open.
   */
  lemma LateNameInforms(s: Floor, c: nat, name: string, order: seq<nat>)
    requires Informed(s) && c < |s.conns| && Lists(order, Others(s, s.conns[c].room, s.conns[c].id))
    ensures Informed(AfterRename(s, c, name, order)) <==> Harmless(s, c, name, order)
  {
    hide Informed, Lists, Others;
    if Harmless(s, c, name, order) {
      RenameInforms(s, c, name, order);
    } else {
      var k :| k in order && k < |s.conns| && s.conns[k].open;
      Misled(s, c, name, order, k);
      MisledIsUninformed(AfterRename(s, c, name, order), k, s.conns[c].id);
    }
  }

  /** Open connection k lists `id` under a name, or at all, that its room does not. */
  ghost predicate Mistaken(s: Floor, k: nat, id: string)
    requires k < |s.conns|
  {
    && s.conns[k].open && id != s.conns[k].id && id in Replay(s.conns[k].inbox)
    && var m := Room(s, s.conns[k].room);
       id !in m || (m[id] < |s.conns| && s.conns[m[id]].name != Replay(s.conns[k].inbox)[id])
  }

  lemma MisledIsUninformed(s: Floor, k: nat, id: string)
    requires k < |s.conns| && Mistaken(s, k, id)
    ensures !Informed(s)
  {
    assert !Knows(s.conns, Room(s, s.conns[k].room), k);
    hide Replay, Knows, Fits;
  }

  /** What a renaming does to one that is told. */
  lemma HearsName(s: Floor, c: nat, name: string, order: seq<nat>, k: nat)
    requires c < |s.conns| && k < |s.conns| && k in order
    ensures var s' := AfterRename(s, c, name, order);
      && |s'.conns| == |s.conns| && s'.rooms == s.rooms
      && s'.conns[k].open == s.conns[k].open && s'.conns[k].id == s.conns[k].id && s'.conns[k].room == s.conns[k].room
      && Replay(s'.conns[k].inbox) == Add(Replay(s.conns[k].inbox), Info(s.conns[c].id, name))
      && forall q :: 0 <= q < |s.conns| && q != c ==> s'.conns[q].name == s.conns[q].name
  {
    var me := s.conns[c];
    var conns, f := s.conns[c := me.(name := name)], PeerJoin(Info(me.id, name));
    TellSame(conns, order, f, []);
    assert TellAll(conns, order, f) + [] == TellAll(conns, order, f);
    hide Replay, TellAll;
  }

  lemma Misled(s: Floor, c: nat, name: string, order: seq<nat>, k: nat)
    requires Informed(s) && c < |s.conns| && k < |s.conns| && Lists(order, Others(s, s.conns[c].room, s.conns[c].id))
    requires s.conns[k].open && k in order && !Harmless(s, c, name, order)
    ensures Mistaken(AfterRename(s, c, name, order), k, s.conns[c].id)
  {
    hide Replay, Others, AfterRename, Knows, RoomFits;
    OtherInRoom(s, s.conns[c].room, s.conns[c].id, k);
    InRange(s, s.conns[c].room);
    HearsName(s, c, name, order, k);
    hide Lists, Fits;
  }

  lemma InRange(s: Floor, r: string)
    requires Fits(s)
    ensures forall i :: i in Room(s, r) ==> Room(s, r)[i] < |s.conns|
  {
    RoomOf(s, r);
  }

  /**
   * Whenever a displaced connection's goroutine announces a name that its replacement does
   * not bear, every other member of the room is left with that wrong name.
   */
  lemma StaleNameMisleads(s: Floor, c: nat, name: string, order: seq<nat>, k: nat)
    requires Informed(s) && c < |s.conns| && k < |s.conns| && Lists(order, Others(s, s.conns[c].room, s.conns[c].id))
    requires s.conns[k].open && k in order
    requires var me := s.conns[c]; var m := Room(s, me.room);
             me.id in m && m[me.id] != c && s.conns[m[me.id]].name != name
    ensures var s', id := AfterRename(s, c, name, order), s.conns[c].id;
            var m := Room(s', s'.conns[k].room);
            id in m && id in Replay(s'.conns[k].inbox) && Replay(s'.conns[k].inbox)[id] != s'.conns[m[id]].name
  {
    RoomOf(s, s.conns[c].room);
    OtherInRoom(s, s.conns[c].room, s.conns[c].id, k);
    hide Replay, Others, Lists, TellAll, Informed;
    Misled(s, c, name, order, k);
  }

  lemma LeavesNothing(s: Floor, c: nat, name: string, order: seq<nat>, k: nat)
    requires c < |s.conns| && k < |s.conns| && k in order && s.conns[c].id !in Room(s, s.conns[c].room)
    ensures var s' := AfterRename(s, c, name, order);
      c < |s'.conns| && k < |s'.conns| && forall order' :: AfterLeave(s', c, order').conns[k].inbox == s'.conns[k].inbox
  {
    var me := s.conns[c];
    var conns, f := s.conns[c := me.(name := name)], PeerJoin(Info(me.id, name));
    TellSame(conns, order, f, []);
    hide TellAll;
  }

  /**
   * If the replacement has left as well, they are left with a member that is in nobody's
   * room, and the displaced connection's own departure does not take it back.
   */
  lemma StaleNameHaunts(s: Floor, c: nat, name: string, order: seq<nat>, k: nat)
    requires Informed(s) && c < |s.conns| && k < |s.conns| && Lists(order, Others(s, s.conns[c].room, s.conns[c].id))
    requires s.conns[k].open && k in order && s.conns[c].id !in Room(s, s.conns[c].room)
    ensures var s', id := AfterRename(s, c, name, order), s.conns[c].id;
            id !in Room(s', s'.conns[k].room) && id in Replay(s'.conns[k].inbox)
            && forall order' :: AfterLeave(s', c, order').conns[k].inbox == s'.conns[k].inbox
  {
    HearsName(s, c, name, order, k);
    LeavesNothing(s, c, name, order, k);
    OtherInRoom(s, s.conns[c].room, s.conns[c].id, k);
    hide Replay, Others, Lists, TellAll, Informed;
    Misled(s, c, name, order, k);
  }

  // ----------------------------------------------- both cases come about

  const FIRST := Joins("r", "a", "x", [])
  const SECOND := Joins("r", "b", "y", [0])
  const THIRD := Joins("r", "a", "x", [1])
  const GOES := Leaves(2, [1])

  /** Two tabs under one identity, the first displaced, and one other member. */
  lemma Displaces() returns (s: Floor)
    ensures IsRun(EMPTY_FLOOR, [FIRST, SECOND, THIRD], s) && Informed(s)
    ensures |s.conns| == 3 && s.rooms == map["r" := map["a" := 2, "b" := 1]]
    ensures s.conns[0].id == s.conns[2].id == "a" && s.conns[1].id == "b"
    ensures s.conns[0].room == s.conns[1].room == s.conns[2].room == "r" && s.conns[2].name == "x"
    ensures !s.conns[0].open && s.conns[1].open
  {
    hide Replay, AfterJoin, Informed, InfosAt, Lists, Others, IsRun;
    var s1 := AfterJoin(EMPTY_FLOOR, "r", "a", "x", []);
    AfterJoinIs(EMPTY_FLOOR, "r", "a", "x", []);
    assert Lists([], Others(EMPTY_FLOOR, "r", "a")) by { NobodyElse(); }
    assert s1.rooms == map["r" := map["a" := 0]];
    var s2 := AfterJoin(s1, "r", "b", "y", [0]);
    AfterJoinIs(s1, "r", "b", "y", [0]);
    OneElse(s1, map["a" := 0], "b", "a", 0);
    assert s2.rooms == map["r" := map["a" := 0, "b" := 1]];
    s := AfterJoin(s2, "r", "a", "x", [1]);
    AfterJoinIs(s2, "r", "a", "x", [1]);
    OneElse(s2, map["a" := 0, "b" := 1], "a", "b", 1);
    assert Room(s2, "r")["a" := 2] == map["a" := 2, "b" := 1];
    ThreeSteps(s1, s2, s);
  }

  lemma NobodyElse()
    ensures Lists([], Others(EMPTY_FLOOR, "r", "a"))
  {
  }

  /** Someone's only companion in the room. */
  lemma OneElse(s: Floor, m: map<string, nat>, id: string, i: string, c: nat)
    requires Room(s, "r") == m && i in m && i != id && m[i] == c && forall j :: j in m ==> j == i || j == id
    ensures Lists([c], Others(s, "r", id))
  {
    var rest: map<string, nat> := m - {id};
    assert i in rest && rest[i] == c && rest.Keys == {i};
    forall x | x in rest.Values ensures x == c { }
    assert rest.Values == {c};
  }

  lemma JoinIsStep(s: Floor, room: string, id: string, name: string, order: seq<nat>)
    requires Lists(order, Others(s, room, id))
    ensures CanStep(s, Joins(room, id, name, order))
    ensures Next(s, Joins(room, id, name, order)) == AfterJoin(s, room, id, name, order)
  {
  }

  lemma ThreeSteps(s1: Floor, s2: Floor, s: Floor)
    requires Lists([], Others(EMPTY_FLOOR, "r", "a")) && s1 == AfterJoin(EMPTY_FLOOR, "r", "a", "x", [])
    requires Lists([0], Others(s1, "r", "b")) && s2 == AfterJoin(s1, "r", "b", "y", [0])
    requires Lists([1], Others(s2, "r", "a")) && s == AfterJoin(s2, "r", "a", "x", [1])
    ensures IsRun(EMPTY_FLOOR, [FIRST, SECOND, THIRD], s) && Informed(s)
  {
    hide CanStep, Next, Informed, AfterJoin, Lists, Others;
    JoinIsStep(EMPTY_FLOOR, "r", "a", "x", []);
    JoinIsStep(s1, "r", "b", "y", [0]);
    JoinIsStep(s2, "r", "a", "x", [1]);
    assert Informed(EMPTY_FLOOR) by { NobodyToInform(); }
    StepInforms(EMPTY_FLOOR, FIRST);
    StepInforms(s1, SECOND);
    StepInforms(s2, THIRD);
    assert [FIRST, SECOND, THIRD][1..] == [SECOND, THIRD] && [SECOND, THIRD][1..] == [THIRD] && [THIRD][1..] == [];
    assert IsRun(s, [], s) && IsRun(s2, [THIRD], s) && IsRun(s1, [SECOND, THIRD], s);
  }

  lemma NobodyToInform()
    ensures Informed(EMPTY_FLOOR)
  {
  }

  /**
   * Both happen: in one reachable state the displaced connection's late name is wrong, in
   * the next, its replacement gone, it is of nobody.
   */
  lemma StaleNamesHappen()
    ensures exists steps, s, c: nat, k: nat ::
      && IsRun(EMPTY_FLOOR, steps, s) && c < |s.conns| && k < |s.conns| && !s.conns[c].open
      && Lists([k], Others(s, s.conns[c].room, s.conns[c].id))
      && s.conns[c].id in Room(s, s.conns[c].room) && Mistaken(AfterRename(s, c, "z", [k]), k, s.conns[c].id)
    ensures exists steps, s, c: nat, k: nat ::
      && IsRun(EMPTY_FLOOR, steps, s) && c < |s.conns| && k < |s.conns| && !s.conns[c].open
      && Lists([k], Others(s, s.conns[c].room, s.conns[c].id))
      && s.conns[c].id !in Room(s, s.conns[c].room) && Mistaken(AfterRename(s, c, "z", [k]), k, s.conns[c].id)
  {
    hide Replay, IsRun, Informed, TellAll;
    var s := Displaces();
    var m: map<string, nat> := map["a" := 2, "b" := 1];
    assert m["b"] == 1;
    OneElse(s, m, "a", "b", 1);
    hide Lists, Others;
    Misled(s, 0, "z", [1], 1);
    var t := Next(s, GOES);
    assert CanStep(s, GOES);
    StepInforms(s, GOES);
    AfterLeaving(s, t);
    var n: map<string, nat> := map["b" := 1];
    assert n["b"] == 1;
    OneElse(t, n, "a", "b", 1);
    Misled(t, 0, "z", [1], 1);
  }

  lemma AfterLeaving(s: Floor, t: Floor)
    requires |s.conns| == 3 && s.rooms == map["r" := map["a" := 2, "b" := 1]] && t == Next(s, GOES)
    requires IsRun(EMPTY_FLOOR, [FIRST, SECOND, THIRD], s) && CanStep(s, GOES)
    requires s.conns[2].room == "r" && s.conns[2].id == "a"
    ensures |t.conns| == 3 && Room(t, "r") == map["b" := 1]
    ensures forall k :: 0 <= k < 3 ==> t.conns[k].id == s.conns[k].id && t.conns[k].room == s.conns[k].room
    ensures forall k :: 0 <= k < 2 ==> t.conns[k].open == s.conns[k].open
    ensures IsRun(EMPTY_FLOOR, [FIRST, SECOND, THIRD] + [GOES], t)
  {
    hide CanStep, Replay, IsRun, TellAll;
    assert t == AfterLeave(s, 2, [1]);
    var conns := Close(s.conns, 2);
    TellSame(conns, [1], PeerLeave("a"), []);
    assert TellAll(conns, [1], PeerLeave("a")) + [] == TellAll(conns, [1], PeerLeave("a"));
    assert Room(s, "r") - {"a"} == map["b" := 1];
    RunOn(EMPTY_FLOOR, [FIRST, SECOND, THIRD], s, GOES);
  }

  lemma {:induction false} RunOn(s: Floor, steps: seq<Step>, mid: Floor, step: Step)
    requires IsRun(s, steps, mid) && CanStep(mid, step)
    ensures IsRun(s, steps + [step], Next(mid, step))
    decreases |steps|
  {
    if steps == [] {
      assert [] + [step] == [step] && [step][1..] == [];
    } else {
      assert (steps + [step])[1..] == steps[1..] + [step];
      hide CanStep;
      RunOn(Next(s, steps[0]), steps[1..], mid, step);
    }
  }
}
