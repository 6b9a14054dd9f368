/** One end of the direct path as the browser runs it: the link's own flags and its connection. */
module DirectLinkEngine {
  import opened Basics
  import opened DirectLink

  /** The browser's peer connection, as far as negotiation goes. */
  class Connection {
    var sig: Sig
    var chain: seq<Op>
    var pendingLocal: Option<Desc>
    var pendingRemote: Option<Desc>
    var current: Option<Pair>

    constructor ()
      ensures sig == Stable && chain == [] && pendingLocal == None && pendingRemote == None && current == None
    {
      sig, chain, pendingLocal, pendingRemote, current := Stable, [], None, None, None;
    }
  }

  class Link {
    const polite: bool
    var pc: Connection?
    var makingOffer: bool
    var ignoreOffer: bool
    var closed: bool
    /** What has been given to signaling, how many offers were made, and which were refused. */
    var outbox: seq<Desc>
    var made: nat
    var dropped: seq<Desc>

    constructor (selfId: string, peerId: string)
      ensures polite == Less(selfId, peerId) && pc == null && !closed && outbox == [] && View() == FRESH
    {
      polite := Less(selfId, peerId);
      pc, makingOffer, ignoreOffer, closed, outbox, made, dropped := null, false, false, false, [], 0, [];
    }

    function View(): End
      reads this, pc
    {
      if pc == null then FRESH.(making := makingOffer, ignoring := ignoreOffer, made := made, dropped := dropped)
      else End(true, pc.sig, makingOffer, ignoreOffer, pc.chain, pc.pendingLocal, pc.pendingRemote, pc.current, made,
               dropped)
    }

    method Start()
      modifies this`pc
      ensures !closed ==> pc != null && View() == Started(old(View()))
      ensures old(pc) != null ==> pc == old(pc)
      ensures pc != old(pc) ==> fresh(pc)
      ensures closed ==> pc == old(pc)
    {
      if pc != null || closed { return; }
      pc := new Connection();
    }

    /** onnegotiationneeded, up to the description it awaits. */
    method NegotiationNeeded()
      requires pc != null
      modifies this`makingOffer, pc`chain
      ensures View() == BeginOffer(old(View()))
      ensures makingOffer && pc.chain == old(pc.chain) + [Local(true)]
    {
      makingOffer := true;
      pc.chain := pc.chain + [Local(true)];
    }

    /** An offer or answer received through the server, up to the description it awaits. */
    method HandleDescription(d: Desc)
      modifies this`pc, this`ignoreOffer, this`dropped, pc
      ensures !closed ==> View() == Receive(old(View()), polite, d)
      ensures closed ==> View() == old(View())
      ensures outbox == old(outbox)
      ensures !closed && old(pc) != null ==>
                var refused := !polite && d.Offer? && (old(makingOffer) || old(pc.sig) != Stable);
                && ignoreOffer == refused && pc == old(pc)
                && dropped == old(dropped) + (if refused then [d] else [])
                && pc.chain == old(pc.chain) + if refused then [] else [Remote(d)]
    {
      if closed { return; }
      Start();
      var collision := d.Offer? && (makingOffer || pc.sig != Stable);
      ignoreOffer := !polite && collision;
      if ignoreOffer {
        dropped := dropped + [d];
        return;
      }
      pc.chain := pc.chain + [Remote(d)];
    }

    /** The operation at the head of the chain completes, and its awaiter goes on. */
    method Complete()
      requires pc != null && pc.chain != []
      modifies this`makingOffer, this`outbox, this`made, pc
      ensures var done := RunOp(old(View()), if polite then Polite else Impolite);
              View() == done.end && outbox == old(outbox) + done.sends
      ensures pc == old(pc) && (old(pc.chain)[0] == Local(true) ==> !makingOffer)
      ensures old(pc.chain)[0].Local? && old(pc.sig) == HaveRemoteOffer && old(pc.pendingRemote).Some? ==>
                var answer := Answer(if polite then Polite else Impolite, old(pc.pendingRemote).value);
                && outbox == old(outbox) + [answer] && pc.sig == Stable
                && pc.current == Some(Pair(old(pc.pendingRemote).value, answer))
      ensures old(pc.chain)[0].Local? && old(pc.sig) == Stable ==>
                && outbox == old(outbox) + [Offer(if polite then Polite else Impolite, old(made))]
                && pc.sig == HaveLocalOffer && pc.pendingLocal == Some(outbox[|outbox| - 1]) && made == old(made) + 1
      ensures old(pc.chain)[0].Remote? ==> outbox == old(outbox)
      ensures old(pc.chain)[0].Remote? && old(pc.chain)[0].d.Offer? ==>
          pc.sig == HaveRemoteOffer && pc.pendingLocal == None && pc.pendingRemote == Some(old(pc.chain)[0].d)
            && pc.chain == old(pc.chain)[1..] + [Local(false)]
      ensures var op := old(pc.chain)[0];
              op.Remote? && op.d.Answer? && old(pc.sig) == HaveLocalOffer && old(pc.pendingLocal).Some? ==>
                pc.sig == Stable && pc.current == Some(Pair(old(pc.pendingLocal).value, op.d))
    {
      var op := pc.chain[0];
      pc.chain := pc.chain[1..];
      match op {
        case Local(need) =>
          var me := if polite then Polite else Impolite;
          var description: Desc;
          if pc.sig == HaveRemoteOffer && pc.pendingRemote.Some? {
            description := Answer(me, pc.pendingRemote.value);
            pc.current := Some(Pair(pc.pendingRemote.value, description));
            pc.sig, pc.pendingLocal, pc.pendingRemote := Stable, None, None;
          } else {
            description := Offer(me, made);
            made := made + 1;
            pc.sig, pc.pendingLocal := HaveLocalOffer, Some(description);
          }
          outbox := outbox + [description];
          if need { makingOffer := false; }
        case Remote(d) =>
          if d.Offer? {
            pc.sig, pc.pendingLocal, pc.pendingRemote := HaveRemoteOffer, None, Some(d);
            pc.chain := pc.chain + [Local(false)];
          } else if pc.sig == HaveLocalOffer && pc.pendingLocal.Some? {
            pc.current := Some(Pair(pc.pendingLocal.value, d));
            pc.sig, pc.pendingLocal := Stable, None;
          }
      }
    }
  }
}
