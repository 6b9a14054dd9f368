/**
 * The browser's end of the relay as it runs: transports with their counters, the table of
 * live ones, and the signaling socket that frames go out on and come in by.
 */
module RelayEngine {
  import opened Basics
  import opened HubSystem
  import opened RelayProtocol

  /** What a socket has been given to send. */
  datatype Sent = Raw(data: Bytes) | RelayAck(session: nat, bytes: nat) | RelayClose(session: nat)

  class Signaling {
    var connected: bool
    var outbox: seq<Sent>
    var handlers: map<nat, RelayTransport>

    constructor (connected: bool)
      ensures this.connected == connected && outbox == [] && handlers == map[]
    {
      this.connected := connected;
      outbox, handlers := [], map[];
    }

    method Send(m: Sent) returns (ok: bool)
      modifies `outbox
      ensures ok == connected && outbox == old(outbox) + if ok then [m] else []
    {
      if !connected { return false; }
      outbox := outbox + [m];
      return true;
    }

    /** Hands a binary message to the transport of the session in its header. */
    method RouteBinary(buffer: array<Byte>)
      modifies this`outbox, set s | s in handlers :: handlers[s]
      requires forall s :: s in handlers ==> handlers[s].session == s && handlers[s].signaling == this
      ensures Parse(buffer[..]).Some? && Parse(buffer[..]).value.session in handlers ==>
                var got := Parse(buffer[..]).value;
                var t := handlers[got.session];
                && t.inbox == old(t.inbox) + [(got.kind, got.body)]
                && t.Counts() == Took(old(t.Counts()), |got.body|)
                && outbox == old(outbox) + t.AckFor(old(t.Counts()), t.Counts())
      ensures Parse(buffer[..]).None? || Parse(buffer[..]).value.session !in handlers ==> outbox == old(outbox)
      ensures forall s :: s in handlers && (Parse(buffer[..]).None? || Parse(buffer[..]).value.session != s) ==>
                handlers[s].inbox == old(handlers[s].inbox) && handlers[s].Counts() == old(handlers[s].Counts())
    {
      if buffer.Length < RELAY_HEADER { return; }
      var session := U32(buffer[..RELAY_HEADER]);
      if session in handlers {
        assert buffer[..][..RELAY_HEADER] == buffer[..RELAY_HEADER];
        assert buffer.Length > RELAY_HEADER ==> buffer[RELAY_HEADER..][1..] == buffer[..][RELAY_HEADER + 1..];
        handlers[session].Receive(buffer[RELAY_HEADER..]);
      }
    }
  }

  /** Live relay transports by session, so that the server's control messages find them. */
  class RelayTable {
    var active: map<nat, RelayTransport>

    constructor ()
      ensures active == map[]
    {
      active := map[];
    }

    method HandleRelayAck(session: nat, bytes: nat)
      modifies set s | s in active :: active[s]
      requires forall s :: s in active ==> active[s].session == s
      ensures session in active ==> active[session].Counts() == Heard(old(active[session].Counts()), bytes)
      ensures forall s :: s in active && s != session ==> active[s].Counts() == old(active[s].Counts())
    {
      if session in active {
        active[session].ApplyAck(bytes);
      }
    }

    method HandleRelayClose(session: nat)
      modifies this, set s | s in active :: active[s], set s | s in active :: active[s].signaling`handlers
      requires forall s :: s in active ==> active[s].session == s && active[s].table == this && !active[s].closed
      ensures active == old(active) - {session}
      ensures session in old(active) ==>
                old(active)[session].closed && session !in old(active)[session].signaling.handlers
      ensures forall s :: s in active ==> !active[s].closed
    {
      if session in active {
        active[session].MarkClosed();
      } else {
        assert active - {session} == active;
      }
    }
  }

  class RelayTransport {
    const session: nat
    const signaling: Signaling
    const table: RelayTable
    var sent: nat
    var acked: nat
    var received: nat
    var ackedUpTo: nat
    var closed: bool
    /** What onMessage has been handed, as kind and body. */
    var inbox: seq<(Byte, Bytes)>

    function Counts(): Counters
      reads this
    {
      Counters(sent, acked, received, ackedUpTo)
    }

    function AckFor(before: Counters, after: Counters): seq<Sent>
      reads signaling
    {
      if AckSent(before, after).Some? && signaling.connected then [RelayAck(session, AckSent(before, after).value)]
        else []
    }

    constructor (signaling: Signaling, session: nat, table: RelayTable)
      modifies signaling`handlers, table
      ensures this.session == session && this.signaling == signaling && this.table == table
      ensures Counts() == Counters(0, 0, 0, 0) && !closed && inbox == []
      ensures signaling.handlers == old(signaling.handlers)[session := this]
      ensures table.active == old(table.active)[session := this]
    {
      this.session, this.signaling, this.table := session, signaling, table;
      sent, acked, received, ackedUpTo, closed, inbox := 0, 0, 0, 0, false, [];
      new;
      table.active := table.active[session := this];
      signaling.handlers := signaling.handlers[session := this];
    }

    /** Sends one message, or throws (false) when the session or the socket is closed. */
    method Send(kind: Byte, bytes: Bytes) returns (ok: bool)
      modifies `sent, signaling`outbox
      ensures ok == (!closed && signaling.connected)
      ensures signaling.outbox == old(signaling.outbox) + if ok then [Raw(Frame(session, kind, bytes))] else []
      ensures Counts() == if ok then Wrote(old(Counts()), |bytes|) else old(Counts())
      ensures sent == old(sent) + if ok then |bytes| else 0
    {
      if closed { return false; }
      ok := Write(kind, bytes);
    }

    method Write(kind: Byte, bytes: Bytes) returns (ok: bool)
      modifies `sent, signaling`outbox
      ensures ok == signaling.connected
      ensures signaling.outbox == old(signaling.outbox) + if ok then [Raw(Frame(session, kind, bytes))] else []
      ensures Counts() == if ok then Wrote(old(Counts()), |bytes|) else old(Counts())
    {
      var frame := new Byte[5 + |bytes|];
      frame[0], frame[1] := ByteAt(session, 3), ByteAt(session, 2);
      frame[2], frame[3] := ByteAt(session, 1), ByteAt(session, 0);
      frame[4] := kind;
      forall k | 0 <= k < |bytes| { frame[5 + k] := bytes[k]; }
      assert frame[..4] == U32Bytes(session);
      assert frame[5..] == bytes;
      assert frame[..] == frame[..4] + [frame[4]] + frame[5..];
      ok := signaling.Send(Raw(frame[..]));
      if ok { sent := sent + |bytes|; }
    }

    /** What has been sent and not acknowledged, as the progress of a transfer takes it off. */
    method BufferedAmount() returns (n: int)
      ensures n == sent - acked
    {
      n := sent - acked;
    }

    /** A chunk may be sent while no more than 4 MB is unacknowledged. */
    method Writable() returns (ok: bool)
      ensures ok == Credit(Counts()) && (ok <==> sent <= acked + 4194304)
    {
      ok := sent - acked <= CREDIT_WINDOW;
    }

    /** A payload from the server, its session header already taken off. */
    method Receive(payload: Bytes)
      modifies `received, `ackedUpTo, `inbox, signaling`outbox
      ensures payload == [] ==>
          Counts() == old(Counts()) && inbox == old(inbox) && signaling.outbox == old(signaling.outbox)
      ensures payload != [] ==>
                && inbox == old(inbox) + [(payload[0], payload[1..])]
                && Counts() == Took(old(Counts()), |payload| - 1)
                && signaling.outbox == old(signaling.outbox) + AckFor(old(Counts()), Counts())
      ensures payload != [] ==>
                var due := received >= old(ackedUpTo) + 524288;
                && received == old(received) + |payload| - 1 && ackedUpTo == (if due then received else old(ackedUpTo))
                && signaling.outbox == old(signaling.outbox)
                   + if due && signaling.connected then [RelayAck(session, received)] else []
    {
      if |payload| < 1 { return; }
      var kind, body := payload[0], payload[1..];
      received := received + |body|;
      if received - ackedUpTo >= ACK_INTERVAL {
        ackedUpTo := received;
        var _ := signaling.Send(RelayAck(session, received));
      }
      inbox := inbox + [(kind, body)];
    }

    method ApplyAck(bytes: nat)
      modifies `acked
      ensures Counts() == Heard(old(Counts()), bytes)
      ensures acked == (if bytes > old(acked) then bytes else old(acked)) && sent == old(sent)
    {
      acked := if acked >= bytes then acked else bytes;
    }

    /** Nothing addressed to the session reaches the transport any more. */
    method MarkClosed()
      modifies `closed, table, signaling`handlers
      ensures closed && Counts() == old(Counts())
      ensures table.active == if old(closed) then old(table.active) else old(table.active) - {session}
      ensures signaling.handlers == if old(closed) then old(signaling.handlers) else old(signaling.handlers) - {session}
    {
      if closed { return; }
      closed := true;
      table.active := table.active - {session};
      signaling.handlers := signaling.handlers - {session};
    }

    method FlushAck()
      modifies `ackedUpTo, signaling`outbox
      ensures !closed ==>
                && Counts() == Flushed(old(Counts()))
                && signaling.outbox == old(signaling.outbox) + AckFor(old(Counts()), Counts())
      ensures closed ==> Counts() == old(Counts()) && signaling.outbox == old(signaling.outbox)
      ensures !closed ==>
          ackedUpTo == received && signaling.outbox == old(signaling.outbox)
            + if received != old(ackedUpTo) && signaling.connected then [RelayAck(session, received)] else []
    {
      if closed || received == ackedUpTo { return; }
      ackedUpTo := received;
      var _ := signaling.Send(RelayAck(session, received));
    }

    method Close()
      modifies `closed, table, signaling`handlers, signaling`outbox
      ensures closed && Counts() == old(Counts())
      ensures signaling.outbox == old(signaling.outbox) +
                if old(closed) || !signaling.connected then [] else [RelayClose(session)]
      ensures !old(closed) ==> session !in table.active && session !in signaling.handlers
    {
      if closed { return; }
      var _ := signaling.Send(RelayClose(session));
      MarkClosed();
    }
  }
}
