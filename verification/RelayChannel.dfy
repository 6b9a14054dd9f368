/**
 * The relay as a channel: the messages handed to one end's onMessage are a prefix of those
 * passed to the other end's send, across framing, routing, shared queues and demultiplexing.
 */
module RelayChannel {
  import opened Basics
  import opened HubSystem
  import opened HubSessions
  import opened SessionView
  import opened HubTraffic
  import opened RelayProtocol

  datatype Message = Message(kind: Byte, body: Bytes)

  /** A relay session, and the connections of the two ends it joins. */
  datatype Line = Line(sid: nat, a: nat, b: nat)

  predicate Joins(h: Hub, l: Line) {
    && l.sid in h.born && l.a < |h.peers| && l.b < |h.peers|
    && var s := h.born[l.sid];
       (s.from == l.a && s.to == l.b) || (s.from == l.b && s.to == l.a)
  }

  /** What the client makes of one frame from the server. */
  function Opened(f: Down): seq<Message> {
    if f.Payload? && Parse(f.data).Some? then [Message(Parse(f.data).value.kind, Parse(f.data).value.body)] else []
  }

  function Arrived(w: seq<Down>): seq<Message> {
    if w == [] then [] else Arrived(w[..|w| - 1]) + Opened(w[|w| - 1])
  }

  /** The messages a client has passed to send on one session, as the frames it put on its socket. */
  function Passed(sid: nat, ups: seq<Up>): seq<Message> {
    if ups == [] then []
    else Passed(sid, ups[..|ups| - 1]) + (if UpSid(ups[|ups| - 1]) == Some(sid) then Packed(ups[|ups| - 1]) else [])
  }

  function Packed(u: Up): seq<Message> { if u.Binary? then Opened(Payload(u.data)) else [] }

  /** A message sent is one frame on the socket, for its own session and for no other. */
  lemma SendPasses(sid: nat, ups: seq<Up>, other: nat, m: Message)
    requires sid <= MAX_SESSION
    ensures Passed(other, ups + [Binary(Frame(sid, m.kind, m.body))]) == Passed(other, ups) + if other == sid then [m]
        else []
  {
    var u := Binary(Frame(sid, m.kind, m.body));
    FrameRoundTrip(sid, m.kind, m.body);
    assert (ups + [u])[..|ups + [u]| - 1] == ups;
    hide Frame, Parse, HeaderOf;
    assert Passed(other, ups) + [] == Passed(other, ups);
  }

  lemma ArrivedPush(w: seq<Down>, f: Down)
    ensures Arrived(w + [f]) == Arrived(w) + Opened(f)
  {
    assert (w + [f])[..|w + [f]| - 1] == w;
  }

  lemma {:induction false} ArrivedConcat(a: seq<Down>, b: seq<Down>)
    ensures Leads(Arrived(a), Arrived(a + b))
  {
    if b == [] {
      assert a + b == a;
    } else {
      assert (a + b)[..|a + b| - 1] == a + b[..|b| - 1];
      ArrivedConcat(a, b[..|b| - 1]);
    }
  }

  /** Acknowledgements, announcements and closes carry no message. */
  lemma {:induction false} ArrivedData(w: seq<Down>)
    ensures Arrived(Data(w)) == Arrived(w)
  {
    if w != [] {
      var init, f := w[..|w| - 1], w[|w| - 1];
      ArrivedData(init);
      ArrivedPush(Data(init), f);
      assert Data(init) + [] == Data(init) && Arrived(init) + [] == Arrived(init);
      hide Parse;
    }
  }

  /** What the server has taken about a session carries exactly the messages passed on it. */
  lemma {:induction false} SaidIsPassed(sid: nat, ups: seq<Up>)
    ensures Arrived(Said(sid, ups)) == Passed(sid, ups)
  {
    if ups != [] {
      var init, u := ups[..|ups| - 1], ups[|ups| - 1];
      SaidIsPassed(sid, init);
      var said := Said(sid, init);
      assert said + [] == said && Passed(sid, init) + [] == Passed(sid, init);
      ItemCarries(sid, u, said);
      hide Item, Packed, Arrived;
    }
  }

  lemma ItemCarries(sid: nat, u: Up, said: seq<Down>)
    ensures Arrived(said + Item(sid, u)) == Arrived(said) + if UpSid(u) == Some(sid) then Packed(u) else []
  {
    var i := Item(sid, u);
    assert Arrived(said) + [] == Arrived(said) && said + [] == said;
    if i != [] {
      assert i == [i[0]];
      ArrivedPush(said, i[0]);
    }
    hide Arrived, Parse;
  }

  /**
   * For every session of every run, in each direction: the messages that have reached the
   * receiving client, kinds and bodies, are the first of those passed to send, in order.
   */
  lemma MessagesArriveInOrder(steps: seq<Step>, last: Hub, sid: nat)
    requires IsRun(EMPTY, steps, last) && IsUnwrapped(EMPTY, steps) && sid in last.born && Polite(last, sid)
    ensures last.born[sid].from < |last.peers| && last.born[sid].to < |last.peers|
    ensures var o, c := last.born[sid].from, last.born[sid].to;
      && Leads(Arrived(HubTraffic.Heard(last, sid, c)), Passed(sid, Sent(last.peers[o])))
      && Leads(Arrived(HubTraffic.Heard(last, sid, o)), Passed(sid, Sent(last.peers[c])))
  {
    hide IsRun, IsUnwrapped, Arrived, Passed, Data, Said, About, Leads;
    DeliveredInOrder(steps, last, sid);
    var o, c := last.born[sid].from, last.born[sid].to;
    Carries(HubTraffic.Heard(last, sid, c), sid, Sent(last.peers[o]));
    Carries(HubTraffic.Heard(last, sid, o), sid, Sent(last.peers[c]));
  }

  lemma Carries(heard: seq<Down>, sid: nat, ups: seq<Up>)
    requires Leads(Data(heard), Said(sid, ups))
    ensures Leads(Arrived(heard), Passed(sid, ups))
  {
    hide Arrived, Passed, Data, Said;
    var all := Said(sid, ups);
    assert all == Data(heard) + all[|Data(heard)|..];
    ArrivedConcat(Data(heard), all[|Data(heard)|..]);
    ArrivedData(heard);
    SaidIsPassed(sid, ups);
  }
}
