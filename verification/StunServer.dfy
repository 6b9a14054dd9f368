/** The STUN responder as it runs: buffers grown by appending, padding and XOR loops, a counter. */
module StunServer {
  import opened Basics
  import opened Stun

  /** Writes one attribute, padding the value while its declared length stays true. */
  method AppendAttr(dst: Bytes, typ: Word, value: Bytes) returns (r: Bytes)
    ensures r == dst + EncodeAttr(Stun.Attr(typ, value))
  {
    hide Put16;
    r := dst + Put16(typ);
    r := r + Put16(Low16(|value|));
    r := r + value;
    ghost var head := r;
    var pad := (4 - |value| % 4) % 4;
    assert head + Zeros(0) == head;
    while pad > 0
      invariant 0 <= pad <= Padding(|value|)
      invariant r == head + Zeros(Padding(|value|) - pad)
    {
      r := r + [0];
      pad := pad - 1;
    }
    assert head + Zeros(Padding(|value|)) == dst + EncodeAttr(Stun.Attr(typ, value));
  }

  /** The XOR loop over an address and the key as long as it. */
  method XorAppend(dst: Bytes, ip: Bytes, key: array<Byte>) returns (r: Bytes)
    requires |ip| == key.Length
    ensures r == dst + XorBytes(ip, key[..])
  {
    r := dst;
    var i := 0;
    while i < |ip|
      invariant i <= |ip|
      invariant r == dst + XorBytes(ip, key[..])[..i]
    {
      r := r + [XorByte(ip[i], key[i])];
      i := i + 1;
    }
  }

  method AppendXorMappedAddress(dst: Bytes, addr: Source, txId: Bytes) returns (r: Bytes)
    requires ValidSource(addr) && |txId| == 12
    ensures r == dst + EncodeAttr(XorMapped(addr, txId))
  {
    hide EncodeAttr, Put16;
    var xorPort := XorWord(addr.port, MAGIC_HIGH);
    var ip4 := To4(addr.ip);
    var value: Bytes;
    if ip4.Some? {
      value := [0, FAMILY_IPV4] + Put16(xorPort);
      var cookie := new Byte[4] (i requires 0 <= i < 4 => MAGIC_COOKIE[i]);
      assert cookie[..] == MAGIC_COOKIE;
      value := XorAppend(value, ip4.value, cookie);
      assert XorBytes(ip4.value, MAGIC_COOKIE) == XorBytes(ip4.value, MAGIC_COOKIE + txId);
    } else {
      value := [0, FAMILY_IPV6] + Put16(xorPort);
      var key := new Byte[16];
      forall i | 0 <= i < 4 { key[i] := MAGIC_COOKIE[i]; }
      forall i | 0 <= i < 12 { key[4 + i] := txId[i]; }
      assert key[..] == MAGIC_COOKIE + txId;
      value := XorAppend(value, addr.ip, key);
    }
    r := AppendAttr(dst, ATTR_XOR_MAPPED_ADDRESS, value);
  }

  method AppendMappedAddress(dst: Bytes, addr: Source) returns (r: Bytes)
    requires ValidSource(addr)
    ensures r == dst + EncodeAttr(Mapped(addr))
  {
    hide EncodeAttr, Put16;
    var ip4 := To4(addr.ip);
    var value: Bytes;
    if ip4.Some? {
      value := [0, FAMILY_IPV4] + Put16(addr.port);
      value := value + ip4.value;
    } else {
      value := [0, FAMILY_IPV6] + Put16(addr.port);
      value := value + To16(addr.ip).value;
    }
    r := AppendAttr(dst, ATTR_MAPPED_ADDRESS, value);
  }

  method BuildResponse(pkt: Bytes, from: Source) returns (r: Response)
    requires ValidSource(from)
    ensures r == Answer(pkt, from)
  {
    hide EncodeAttr, Put16, Get16, Success, EncodeAttrs;
    if |pkt| < HEADER_SIZE { return Refused(ShortPacket); }
    var msgType := Get16(pkt[0..2]);
    assert pkt[0..2] == pkt[..2];
    if TopBits(msgType) || msgType != TYPE_BINDING_REQUEST { return Refused(NotARequest); }
    if pkt[4..8] != MAGIC_COOKIE { return Refused(BadCookie); }
    var txId := pkt[8..20];

    var attrs: Bytes := [];
    attrs := AppendXorMappedAddress(attrs, from, txId);
    attrs := AppendMappedAddress(attrs, from);
    attrs := AppendAttr(attrs, ATTR_SOFTWARE, SOFTWARE);
    ThreeAttrs(from, txId, attrs);

    var resp := Put16(TYPE_BINDING_SUCCESS);
    resp := resp + Put16(Low16(|attrs|));
    resp := resp + MAGIC_COOKIE;
    resp := resp + txId;
    resp := resp + attrs;
    return Reply(resp);
  }

  lemma ThreeAttrs(from: Source, txId: Bytes, attrs: Bytes)
    requires ValidSource(from) && |txId| == 12
    requires attrs == [] + EncodeAttr(XorMapped(from, txId)) + EncodeAttr(Mapped(from))
        + EncodeAttr(Stun.Attr(ATTR_SOFTWARE, SOFTWARE))
    ensures Success(txId, from).attrs == [XorMapped(from, txId), Mapped(from), Stun.Attr(ATTR_SOFTWARE, SOFTWARE)]
    ensures EncodeAttrs(Success(txId, from).attrs) == attrs
    ensures Success(txId, from).typ == TYPE_BINDING_SUCCESS && Success(txId, from).txId == txId
  {
    hide EncodeAttr, XorMapped, Mapped;
    var x, m, s := XorMapped(from, txId), Mapped(from), Stun.Attr(ATTR_SOFTWARE, SOFTWARE);
    assert [x, m, s][1..] == [m, s] && [m, s][1..] == [s] && [s][1..] == [] && EncodeAttrs([]) == [];
    assert EncodeAttrs([s]) == EncodeAttr(s) + [];
    assert EncodeAttrs([m, s]) == EncodeAttr(m) + EncodeAttrs([s]);
  }

  class Server {
    var requests: nat

    constructor ()
      ensures requests == 0
    {
      requests := 0;
    }

    /** One turn of the serving loop: the reply to send, if any, and the count of requests answered. */
    method Serve(pkt: Bytes, from: Source) returns (reply: Option<Bytes>)
      requires ValidSource(from)
      modifies this
      ensures reply == if Answer(pkt, from).Reply? then Some(Answer(pkt, from).data) else None
      ensures requests == old(requests) + if reply.Some? then 1 else 0
    {
      var resp := BuildResponse(pkt, from);
      if resp.Refused? { return None; }
      requests := requests + 1;
      return Some(resp.data);
    }
  }
}
