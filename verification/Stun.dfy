/**
 * The STUN responder: what a Binding request is answered with, and what a client that
 * knows nothing but the message format (sections 6 and 15 of RFC 5389) reads out of it.
 */
module Stun {
  import opened Basics

  const MAGIC_COOKIE: Bytes := [0x21, 0x12, 0xA4, 0x42]
  const HEADER_SIZE: nat := 20
  const MAGIC_HIGH: Word := 0x2112
  const TYPE_BINDING_REQUEST: Word := 0x0001
  const TYPE_BINDING_SUCCESS: Word := 0x0101
  const ATTR_MAPPED_ADDRESS: Word := 0x0001
  const ATTR_XOR_MAPPED_ADDRESS: Word := 0x0020
  const ATTR_SOFTWARE: Word := 0x8022
  const FAMILY_IPV4: Byte := 0x01
  const FAMILY_IPV6: Byte := 0x02

  /** "LanShare" in ASCII. */
  const SOFTWARE: Bytes := [0x4C, 0x61, 0x6E, 0x53, 0x68, 0x61, 0x72, 0x65]

  // ------------------------------------------------------------ 16-bit numbers

  newtype Word = x: int | 0 <= x < 0x1_0000

  /** uint16(n) */
  function Low16(n: nat): Word { (n % 0x1_0000) as Word }

  /** Big endian, as AppendUint16 writes it. */
  function Put16(x: Word): (b: Bytes)
    ensures |b| == 2
  {
    [(x as nat / 0x100) as Byte, (x as nat % 0x100) as Byte]
  }

  function Get16(b: Bytes): Word
    requires |b| == 2
  {
    (b[0] as nat * 0x100 + b[1] as nat) as Word
  }

  lemma Got16(x: Word)
    ensures Get16(Put16(x)) == x
  {
  }

  /** Exclusive or, bit by bit. */
  function Xor(a: nat, b: nat): nat
    decreases a + b
  {
    if a == 0 && b == 0 then 0
    else (if a % 2 != b % 2 then 1 else 0) + 2 * Xor(a / 2, b / 2)
  }

  /** It stays within as many bits as its arguments have. */
  lemma {:induction false} XorFits(a: nat, b: nat, bits: nat)
    requires a < Power(bits) && b < Power(bits)
    ensures Xor(a, b) < Power(bits)
    decreases bits
  {
    if bits > 0 && (a != 0 || b != 0) {
      XorFits(a / 2, b / 2, bits - 1);
    }
  }

  function Power(n: nat): (p: nat)
    ensures p >= 1
  {
    if n == 0 then 1 else 2 * Power(n - 1)
  }

  /** Doing it twice undoes it. */
  lemma {:induction false} XorTwice(a: nat, k: nat)
    ensures Xor(Xor(a, k), k) == a
    decreases a + k
  {
    if a != 0 || k != 0 {
      XorTwice(a / 2, k / 2);
      var x := Xor(a, k);
      assert x / 2 == Xor(a / 2, k / 2);
      assert x % 2 == if a % 2 != k % 2 then 1 else 0;
    }
  }

  /** Bit number k, counting from the lowest. */
  predicate Bit(x: nat, k: nat) { if k == 0 then x % 2 == 1 else Bit(x / 2, k - 1) }

  /** It sets exactly the bits in which its arguments differ. */
  lemma {:induction false} XorBits(a: nat, b: nat, k: nat)
    ensures Bit(Xor(a, b), k) <==> Bit(a, k) != Bit(b, k)
    decreases k
  {
    var x := Xor(a, b);
    assert x % 2 == (if a % 2 != b % 2 then 1 else 0) && x / 2 == Xor(a / 2, b / 2);
    if k > 0 { XorBits(a / 2, b / 2, k - 1); }
  }

  function XorByte(a: Byte, k: Byte): Byte {
    assert Xor(a as nat, k as nat) < 0x100 by { Powers(); XorFits(a as nat, k as nat, 8); }
    Xor(a as nat, k as nat) as Byte
  }

  function XorWord(a: Word, k: Word): Word {
    assert Xor(a as nat, k as nat) < 0x1_0000 by { Powers(); XorFits(a as nat, k as nat, 16); }
    Xor(a as nat, k as nat) as Word
  }

  lemma Powers()
    ensures Power(8) == 0x100 && Power(16) == 0x1_0000
  {
    assert Power(4) == 16;
    assert Power(8) == 0x100;
    assert Power(12) == 0x1000;
  }

  // --------------------------------------------------------------- attributes

  datatype Attr = Attr(typ: Word, value: Bytes)

  /** The fewest bytes that bring a value to a multiple of four. */
  function Padding(n: nat): (p: nat)
    ensures p < 4 && (n + p) % 4 == 0
  {
    (4 - n % 4) % 4
  }

  function Zeros(n: nat): (b: Bytes)
    ensures |b| == n && forall k :: 0 <= k < n ==> b[k] == 0
  {
    seq(n, _ => 0)
  }

  /** One attribute: type, true length, value, and zeros up to a multiple of four. */
  function EncodeAttr(a: Attr): Bytes {
    Put16(a.typ) + Put16(Low16(|a.value|)) + a.value + Zeros(Padding(|a.value|))
  }

  function EncodeAttrs(attrs: seq<Attr>): Bytes {
    if attrs == [] then [] else EncodeAttr(attrs[0]) + EncodeAttrs(attrs[1..])
  }

  /** A reader of any attribute list: it goes by the lengths, and by nothing else. */
  function Walk(b: Bytes): Option<seq<Attr>>
    decreases |b|
  {
    if b == [] then Some([])
    else if |b| < 4 then None
    else
      var n := Get16(b[2..4]) as nat;
      var next := 4 + n + Padding(n);
      if |b| < next then None
      else
        var rest := Walk(b[next..]);
        if rest.None? then None else Some([Attr(Get16(b[..2]), b[4..4 + n])] + rest.value)
  }

  lemma AttrLayout(a: Attr, rest: Bytes)
    requires |a.value| < 0x1_0000
    ensures var b := EncodeAttr(a) + rest; var next := 4 + |a.value| + Padding(|a.value|);
            && |b| == next + |rest| && next % 4 == 0
            && Get16(b[2..4]) as nat == |a.value| && Get16(b[..2]) == a.typ
            && b[4..4 + |a.value|] == a.value && b[next..] == rest
  {
    hide Put16, Get16;
    var n := |a.value|;
    var b := EncodeAttr(a) + rest;
    var head, body := Put16(a.typ) + Put16(Low16(n)), a.value + Zeros(Padding(n)) + rest;
    Got16(a.typ);
    Got16(Low16(n));
    assert b == head + body;
    assert b[2..4] == Put16(Low16(n)) && b[..2] == Put16(a.typ);
    assert b[4..] == body;
    assert b[4..4 + n] == body[..n] == a.value;
    assert b[4 + n + Padding(n)..] == body[n + Padding(n)..] == rest;
  }

  /** The walker takes one attribute off the front. */
  lemma WalkOne(a: Attr, rest: Bytes, attrs: seq<Attr>)
    requires |a.value| < 0x1_0000 && Walk(rest) == Some(attrs)
    ensures Walk(EncodeAttr(a) + rest) == Some([a] + attrs) && |EncodeAttr(a)| % 4 == 0
  {
    hide Put16, Get16, EncodeAttr, Padding;
    AttrLayout(a, rest);
    var b := EncodeAttr(a) + rest;
    assert |b| >= 4 && b != [];
  }

  ghost predicate Short(attrs: seq<Attr>) { forall k :: 0 <= k < |attrs| ==> |attrs[k].value| < 0x1_0000 }

  /** Padded attributes read back exactly, whatever they are and however many. */
  lemma {:induction false} WalkInverts(attrs: seq<Attr>)
    requires Short(attrs)
    ensures Walk(EncodeAttrs(attrs)) == Some(attrs) && |EncodeAttrs(attrs)| % 4 == 0
  {
    hide EncodeAttr, Walk;
    if attrs == [] {
      WalkNothing();
    } else {
      var a, rest := attrs[0], EncodeAttrs(attrs[1..]);
      WalkInverts(attrs[1..]);
      WalkOne(a, rest, attrs[1..]);
      assert EncodeAttrs(attrs) == EncodeAttr(a) + rest;
      hide EncodeAttrs;
      assert attrs == [a] + attrs[1..];
    }
  }

  lemma WalkNothing()
    ensures Walk([]) == Some([])
  {
  }

  // ---------------------------------------------------------------- addresses

  /** A UDP source: four or sixteen address bytes, and uint16 of the port. */
  datatype Source = Source(ip: Bytes, port: Word)

  predicate ValidSource(s: Source) { |s.ip| == 4 || |s.ip| == 16 }

  const MAPPED_PREFIX: Bytes := [0, 0, 0, 0, 0, 0, 0, 0, 0, 0, 0xFF, 0xFF]

  /** net.IP.To4: also the form an IPv4 address takes within IPv6. */
  function To4(ip: Bytes): Option<Bytes> {
    if |ip| == 4 then Some(ip)
    else if |ip| == 16 && ip[..12] == MAPPED_PREFIX then Some(ip[12..])
    else None
  }

  function To16(ip: Bytes): Option<Bytes> {
    if |ip| == 4 then Some(MAPPED_PREFIX + ip) else if |ip| == 16 then Some(ip) else None
  }

  function XorBytes(a: Bytes, key: Bytes): (r: Bytes)
    requires |a| <= |key|
    ensures |r| == |a|
  {
    seq(|a|, i requires 0 <= i < |a| => XorByte(a[i], key[i]))
  }

  lemma XorBytesTwice(a: Bytes, key: Bytes)
    requires |a| <= |key|
    ensures XorBytes(XorBytes(a, key), key) == a
  {
    forall i | 0 <= i < |a| ensures XorBytes(XorBytes(a, key), key)[i] == a[i] {
      XorTwice(a[i] as nat, key[i] as nat);
    }
  }

  /** The address a client should learn: IPv4 wherever there is one. */
  function Address(s: Source): (a: Bytes)
    requires ValidSource(s)
    ensures |a| == if To4(s.ip).Some? then 4 else 16
  {
    if To4(s.ip).Some? then To4(s.ip).value else s.ip
  }

  function Family(s: Source): Byte { if To4(s.ip).Some? then FAMILY_IPV4 else FAMILY_IPV6 }

  function XorMapped(s: Source, txId: Bytes): Attr
    requires ValidSource(s) && |txId| == 12
  {
    Attr(ATTR_XOR_MAPPED_ADDRESS,
         [0, Family(s)] + Put16(XorWord(s.port, MAGIC_HIGH)) + XorBytes(Address(s), MAGIC_COOKIE + txId))
  }

  function Mapped(s: Source): Attr
    requires ValidSource(s)
  {
    Attr(ATTR_MAPPED_ADDRESS, [0, Family(s)] + Put16(s.port) + Address(s))
  }

  /** Section 15.1: family, port, and an address of the family's length. */
  function ReadMapped(value: Bytes): Option<(Bytes, Word)> {
    if (|value| == 8 && value[1] == FAMILY_IPV4) || (|value| == 20 && value[1] == FAMILY_IPV6)
    then Some((value[4..], Get16(value[2..4])))
    else None
  }

  /** Section 15.2: the port is XORed with the cookie's upper half, the address with cookie and transaction. */
  function ReadXorMapped(value: Bytes, txId: Bytes): Option<(Bytes, Word)>
    requires |txId| == 12
  {
    var m := ReadMapped(value);
    if m.None? then None
    else Some((XorBytes(m.value.0, MAGIC_COOKIE + txId), XorWord(m.value.1, Get16(MAGIC_COOKIE[..2]))))
  }

  /** Of the lowest `bits` bits, exactly those of the mask are changed. */
  ghost predicate Masked(x: nat, plain: nat, mask: nat, bits: nat) {
    forall k: nat :: k < bits ==> (Bit(x, k) <==> Bit(plain, k) != Bit(mask, k))
  }

  lemma XorMasks(a: nat, b: nat, bits: nat)
    ensures Masked(Xor(a, b), a, b, bits)
  {
    forall k: nat | k < bits ensures Bit(Xor(a, b), k) <==> Bit(a, k) != Bit(b, k) { XorBits(a, b, k); }
  }

  lemma CookieHigh()
    ensures MAGIC_HIGH == Get16(MAGIC_COOKIE[..2])
  {
  }

  /**
   * Section 15.2, bit by bit: what is sent differs from the port exactly where the upper half
   * of the cookie has a bit, and from the address exactly where cookie and transaction have one.
   */
  lemma XorMappedBits(s: Source, txId: Bytes)
    requires ValidSource(s) && |txId| == 12
    ensures var v, a, key := XorMapped(s, txId).value, Address(s), [0x21, 0x12, 0xA4, 0x42] + txId;
      && |v| == 4 + |a| && v[0] == 0 && v[1] == (if |a| == 4 then 0x01 else 0x02)
      && Masked(v[2] as nat * 0x100 + v[3] as nat, s.port as nat, 0x2112, 16)
      && forall i :: 0 <= i < |a| ==> Masked(v[4 + i] as nat, a[i] as nat, key[i] as nat, 8)
  {
    var v, a, key := XorMapped(s, txId).value, Address(s), MAGIC_COOKIE + txId;
    XorMappedParts(s, txId);
    var x := XorWord(s.port, MAGIC_HIGH);
    Got16(x);
    assert v == [0, Family(s)] + Put16(x) + XorBytes(a, key);
    hide Put16, Address, To4, XorMapped, Masked;
    assert v[2..4] == Put16(x) && Get16(v[2..4]) == x;
    XorMasks(s.port as nat, 0x2112, 16);
    forall i | 0 <= i < |a| ensures Masked(v[4 + i] as nat, a[i] as nat, key[i] as nat, 8) {
      assert v[4 + i] == XorBytes(a, key)[i];
      XorMasks(a[i] as nat, key[i] as nat, 8);
    }
  }

  lemma MappedReads(s: Source)
    requires ValidSource(s)
    ensures ReadMapped(Mapped(s).value) == Some((Address(s), s.port))
    ensures |Mapped(s).value| == if To4(s.ip).Some? then 8 else 20
  {
    hide Put16, Get16;
    var v := Mapped(s).value;
    Got16(s.port);
    assert v[2..4] == Put16(s.port) && v[4..] == Address(s);
  }

  lemma XorMappedReads(s: Source, txId: Bytes)
    requires ValidSource(s) && |txId| == 12
    ensures ReadXorMapped(XorMapped(s, txId).value, txId) == Some((Address(s), s.port))
    ensures |XorMapped(s, txId).value| == if To4(s.ip).Some? then 8 else 20
  {
    hide Put16, Get16, XorBytes, Address, To4, XorMapped, ReadMapped;
    var a, key := Address(s), MAGIC_COOKIE + txId;
    XorMappedParts(s, txId);
    CookieHigh();
    Got16(XorWord(s.port, MAGIC_HIGH));
    XorTwice(s.port as nat, MAGIC_HIGH as nat);
    XorBytesTwice(a, key);
  }

  lemma XorMappedParts(s: Source, txId: Bytes)
    requires ValidSource(s) && |txId| == 12
    ensures var v := XorMapped(s, txId).value;
      && |v| == (if To4(s.ip).Some? then 8 else 20)
      && ReadMapped(v) == Some((XorBytes(Address(s), MAGIC_COOKIE + txId), Get16(Put16(XorWord(s.port, MAGIC_HIGH)))))
  {
    hide XorBytes, Address, To4, Put16, Get16;
    var v, x, q :=
      XorMapped(s, txId).value, XorBytes(Address(s), MAGIC_COOKIE + txId), Put16(XorWord(s.port, MAGIC_HIGH));
    assert v == [0, Family(s)] + q + x;
    assert v[2..4] == q && v[4..] == x && v[1] == Family(s);
  }

  /** The address learned stands for the source's own: both have the same sixteen-byte form. */
  lemma AddressIsSource(s: Source)
    requires ValidSource(s)
    ensures To16(Address(s)) == To16(s.ip)
  {
    if |s.ip| == 16 && To4(s.ip).Some? { assert s.ip == s.ip[..12] + s.ip[12..]; }
  }

  // ----------------------------------------------------------------- messages

  datatype Error = ShortPacket | NotARequest | BadCookie

  datatype Response = Reply(data: Bytes) | Refused(error: Error)

  datatype Message = Message(typ: Word, txId: Bytes, attrs: seq<Attr>)

  /** x & 0xC000 != 0 */
  predicate TopBits(x: Word) { x >= 0x4000 }

  /** Section 6: two zero bits, a length that is the size of what follows and a multiple of 4, the cookie. */
  function ReadMessage(b: Bytes): Option<Message> {
    if |b| < HEADER_SIZE || TopBits(Get16(b[..2])) || b[4..8] != MAGIC_COOKIE then None
    else
      var n := Get16(b[2..4]) as nat;
      if n % 4 != 0 || |b| != HEADER_SIZE + n then None
      else
        var attrs := Walk(b[HEADER_SIZE..]);
        if attrs.None? then None else Some(Message(Get16(b[..2]), b[8..20], attrs.value))
  }

  function WriteMessage(m: Message): Bytes {
    var attrs := EncodeAttrs(m.attrs);
    Put16(m.typ) + Put16(Low16(|attrs|)) + MAGIC_COOKIE + m.txId + attrs
  }

  /** Any well-formed message whose attributes fit reads back exactly. */
  lemma MessageRoundTrip(m: Message)
    requires |m.txId| == 12 && Short(m.attrs) && |EncodeAttrs(m.attrs)| < 0x1_0000 && !TopBits(m.typ)
    ensures ReadMessage(WriteMessage(m)) == Some(m)
    ensures |WriteMessage(m)| == HEADER_SIZE + |EncodeAttrs(m.attrs)| && |EncodeAttrs(m.attrs)| % 4 == 0
  {
    hide Put16, Get16, Walk, EncodeAttrs, WriteMessage;
    var attrs := EncodeAttrs(m.attrs);
    var b := WriteMessage(m);
    WalkInverts(m.attrs);
    MessageLayout(m);
    assert m == Message(m.typ, m.txId, m.attrs);
  }

  /** Where the parts of a message lie. */
  lemma MessageLayout(m: Message)
    requires |m.txId| == 12 && |EncodeAttrs(m.attrs)| < 0x1_0000
    ensures var b, attrs := WriteMessage(m), EncodeAttrs(m.attrs);
      && |b| == HEADER_SIZE + |attrs| && Get16(b[..2]) == m.typ && Get16(b[2..4]) as nat == |attrs|
      && b[4..8] == MAGIC_COOKIE && b[8..20] == m.txId && b[HEADER_SIZE..] == attrs
  {
    hide Put16, Get16, EncodeAttrs;
    var b, attrs := WriteMessage(m), EncodeAttrs(m.attrs);
    Got16(m.typ);
    Got16(Low16(|attrs|));
    assert b[..2] == Put16(m.typ) && b[2..4] == Put16(Low16(|attrs|));
    assert b[4..8] == MAGIC_COOKIE && b[8..20] == m.txId && b[20..] == attrs;
  }

  /** What a packet is answered with. */
  function Answer(pkt: Bytes, from: Source): Response
    requires ValidSource(from)
  {
    if |pkt| < HEADER_SIZE then Refused(ShortPacket)
    else if TopBits(Get16(pkt[..2])) || Get16(pkt[..2]) != TYPE_BINDING_REQUEST then Refused(NotARequest)
    else if pkt[4..8] != MAGIC_COOKIE then Refused(BadCookie)
    else Reply(WriteMessage(Success(pkt[8..20], from)))
  }

  function Success(txId: Bytes, from: Source): Message
    requires ValidSource(from) && |txId| == 12
  {
    Message(TYPE_BINDING_SUCCESS, txId, [XorMapped(from, txId), Mapped(from), Attr(ATTR_SOFTWARE, SOFTWARE)])
  }

  /** Every request that another STUN client would send is answered. */
  lemma RequestsAreAnswered(m: Message, from: Source)
    requires ValidSource(from) && |m.txId| == 12 && Short(m.attrs) && |EncodeAttrs(m.attrs)| < 0x1_0000
    requires m.typ == TYPE_BINDING_REQUEST
    ensures Answer(WriteMessage(m), from) == Reply(WriteMessage(Success(m.txId, from)))
  {
    hide Put16, Get16, EncodeAttrs, WriteMessage, Success;
    MessageLayout(m);
    RequestBits();
  }

  lemma RequestBits()
    ensures !TopBits(TYPE_BINDING_REQUEST) && !TopBits(TYPE_BINDING_SUCCESS)
  {
  }

  /**
   * For every packet that is answered and every source, the response is a well-formed
   * message of declared length its own size less twenty, a multiple of four; it echoes
   * the transaction, and both address attributes read back to the source.
   */
  lemma ResponseReadsBack(pkt: Bytes, from: Source)
    requires ValidSource(from) && Answer(pkt, from).Reply?
    ensures var b := Answer(pkt, from).data; var m := ReadMessage(b);
      && m.Some? && m.value.typ == TYPE_BINDING_SUCCESS && m.value.txId == pkt[8..20] && |m.value.attrs| == 3
      && Get16(b[2..4]) as nat == |b| - HEADER_SIZE && |b| % 4 == 0
      && m.value.attrs[0].typ == ATTR_XOR_MAPPED_ADDRESS && m.value.attrs[1].typ == ATTR_MAPPED_ADDRESS
      && ReadXorMapped(m.value.attrs[0].value, pkt[8..20]) == Some((Address(from), from.port))
      && ReadMapped(m.value.attrs[1].value) == Some((Address(from), from.port))
      && m.value.attrs[2] == Attr(ATTR_SOFTWARE, SOFTWARE)
  {
    hide ReadMessage, WriteMessage, Get16, EncodeAttrs, XorMapped, Mapped, ReadMapped, ReadXorMapped, Address;
    var txId := pkt[8..20];
    var m := Success(txId, from);
    XorMappedReads(from, txId);
    MappedReads(from);
    MappedTypes(from, txId);
    AttrsFit(m.attrs);
    RequestBits();
    MessageRoundTrip(m);
    MessageLayout(m);
  }

  lemma MappedTypes(s: Source, txId: Bytes)
    requires ValidSource(s) && |txId| == 12
    ensures XorMapped(s, txId).typ == ATTR_XOR_MAPPED_ADDRESS && Mapped(s).typ == ATTR_MAPPED_ADDRESS
  {
    hide Put16;
  }

  lemma AttrsFit(attrs: seq<Attr>)
    requires |attrs| == 3 && forall k :: 0 <= k < 3 ==> |attrs[k].value| <= 20
    ensures Short(attrs) && |EncodeAttrs(attrs)| <= 84
  {
    var b, c := attrs[1..], attrs[2..];
    assert b[1..] == c && c[1..] == [];
    assert EncodeAttrs([]) == [];
    assert EncodeAttrs(c) == EncodeAttr(attrs[2]) + EncodeAttrs([]);
    assert EncodeAttrs(b) == EncodeAttr(attrs[1]) + EncodeAttrs(c);
    assert EncodeAttrs(attrs) == EncodeAttr(attrs[0]) + EncodeAttrs(b);
    hide EncodeAttrs;
    forall a: Attr | |a.value| <= 20
      ensures |EncodeAttr(a)| <= 28
    {
      assert |Put16(a.typ)| == 2 && |Put16(Low16(|a.value|))| == 2;
      hide Put16;
    }
  }

  // ---------------------------------------------------------- byte for byte

  /** Which packets are answered, and why the others are not. */
  lemma WhatIsAnswered(pkt: Bytes, from: Source)
    requires ValidSource(from)
    ensures Answer(pkt, from).Reply? <==> |pkt| >= 20 && pkt[..2] == [0, 1] && pkt[4..8] == [0x21, 0x12, 0xA4, 0x42]
    ensures Answer(pkt, from) == Refused(ShortPacket) <==> |pkt| < 20
    ensures Answer(pkt, from) == Refused(NotARequest) <==> |pkt| >= 20 && pkt[..2] != [0, 1]
  {
    if |pkt| >= 20 {
      var b := pkt[..2];
      assert b == [b[0], b[1]];
      assert Get16(b) == TYPE_BINDING_REQUEST <==> b == [0, 1];
    }
  }

  const SAMPLE_ID: Bytes := [0xb7, 0xe7, 0xa7, 0x01, 0xbc, 0x34, 0xd6, 0x86, 0xfa, 0x87, 0xdf, 0xae]

  /** What is sent for the source of the sample response of section 2.2 of RFC 5769, as it is there. */
  lemma SampleIPv4(s: Source)
    requires s.ip == [192, 0, 2, 1] || s.ip == [0, 0, 0, 0, 0, 0, 0, 0, 0, 0, 0xFF, 0xFF, 192, 0, 2, 1]
    requires s.port == 32853
    ensures XorMapped(s, SAMPLE_ID) == Attr(0x0020, [0, 1, 0xa1, 0x47, 0xe1, 0x12, 0xa6, 0x43])
  {
    SamplePort();
    SampleBytes();
    if |s.ip| == 16 { assert s.ip[..12] == MAPPED_PREFIX && s.ip[12..] == [192, 0, 2, 1]; }
    assert Address(s) == [192, 0, 2, 1];
    hide XorByte, XorWord, Put16;
    assert XorBytes(Address(s), MAGIC_COOKIE + SAMPLE_ID) == [0xe1, 0x12, 0xa6, 0x43];
  }

  lemma SamplePort()
    ensures Put16(XorWord(32853, MAGIC_HIGH)) == [0xa1, 0x47]
  {
    assert Xor(0x8, 0x2) == 0xa;
    assert Xor(0x80, 0x21) == 0xa1;
    assert Xor(0x805, 0x211) == 0xa14;
    assert Xor(0x8055, 0x2112) == 0xa147;
    hide Xor;
  }

  lemma SampleBytes()
    ensures XorByte(192, 0x21) == 0xe1 && XorByte(0, 0x12) == 0x12
    ensures XorByte(2, 0xA4) == 0xa6 && XorByte(1, 0x42) == 0x43
  {
    assert Xor(0xc, 0x2) == 0xe;
    assert Xor(0xc0, 0x21) == 0xe1;
    assert Xor(0, 0x1) == 0x1;
    assert Xor(0, 0x12) == 0x12;
    assert Xor(0, 0xa) == 0xa;
    assert Xor(2, 0xa4) == 0xa6;
    assert Xor(0, 0x4) == 0x4;
    assert Xor(1, 0x42) == 0x43;
    hide Xor;
  }
}
