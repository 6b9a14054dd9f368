/** The arithmetic and the framing of one end of a relay session. */
module RelayProtocol {
  import opened Basics
  import opened HubSystem

  const KIND_BINARY: Byte := 0
  const KIND_TEXT: Byte := 1
  const CREDIT_WINDOW: nat := 4 * 1024 * 1024
  const ACK_INTERVAL: nat := 512 * 1024

  // ----------------------------------------------------------------- framing

  /** The low byte of n once it is shifted right by `shift` bytes. */
  function ByteAt(n: nat, shift: nat): Byte {
    if shift == 0 then (n % 0x100) as Byte else ByteAt(n / 0x100, shift - 1)
  }

  /** A 32-bit number, most significant byte first. */
  function U32Bytes(n: nat): (b: Bytes)
    ensures |b| == 4
  {
    [ByteAt(n, 3), ByteAt(n, 2), ByteAt(n, 1), ByteAt(n, 0)]
  }

  function Frame(session: nat, kind: Byte, body: Bytes): Bytes { U32Bytes(session) + [kind] + body }

  lemma U32Back(n: nat)
    requires n <= MAX_SESSION
    ensures U32(U32Bytes(n)) == n
  {
    var a := n / 0x100;
    var b := a / 0x100;
    var c := b / 0x100;
    assert ByteAt(n, 1) == ByteAt(a, 0);
    assert ByteAt(n, 2) == ByteAt(a, 1) == ByteAt(b, 0);
    assert ByteAt(n, 3) == ByteAt(a, 2) == ByteAt(b, 1) == ByteAt(c, 0);
    assert n == a * 0x100 + n % 0x100 && a == b * 0x100 + a % 0x100 && b == c * 0x100 + b % 0x100 && c < 0x100;
    hide ByteAt;
  }

  /** What a client makes of a binary frame: whose session it is, and what it carries. */
  datatype Parsed = Parsed(session: nat, kind: Byte, body: Bytes)

  function Parse(data: Bytes): Option<Parsed> {
    if |data| < RELAY_HEADER + 1 then None
    else Some(Parsed(U32(data[..RELAY_HEADER]), data[RELAY_HEADER], data[RELAY_HEADER + 1..]))
  }

  /** A frame carries its session past the server and its kind and body to the far end. */
  lemma FrameRoundTrip(session: nat, kind: Byte, body: Bytes)
    requires session <= MAX_SESSION
    ensures HeaderOf(Frame(session, kind, body)) == Some(session)
    ensures Parse(Frame(session, kind, body)) == Some(Parsed(session, kind, body))
  {
    var f := Frame(session, kind, body);
    U32Back(session);
    assert f[..RELAY_HEADER] == U32Bytes(session);
    assert f[RELAY_HEADER] == kind && f[RELAY_HEADER + 1..] == body;
    hide U32Bytes, U32;
  }

  /** On the wire: the session most significant byte first, the kind, the body. */
  lemma FrameLayout(a: Byte, b: Byte, c: Byte, d: Byte, kind: Byte, body: Bytes)
    ensures var session := a as nat * 0x100_0000 + b as nat * 0x1_0000 + c as nat * 0x100 + d as nat;
      && session <= MAX_SESSION && Frame(session, kind, body) == [a, b, c, d, kind] + body
      && HeaderOf([a, b, c, d, kind] + body) == Some(session)
  {
    var s1 := a as nat * 0x1_0000 + b as nat * 0x100 + c as nat;
    var s2 := a as nat * 0x100 + b as nat;
    var session := s1 * 0x100 + d as nat;
    assert ByteAt(session, 0) == d && session / 0x100 == s1;
    assert ByteAt(s1, 0) == c && s1 / 0x100 == s2;
    assert ByteAt(s2, 0) == b && s2 / 0x100 == a as nat;
    assert ByteAt(a as nat, 0) == a;
    assert ByteAt(session, 1) == ByteAt(s1, 0);
    assert ByteAt(session, 2) == ByteAt(s1, 1) == ByteAt(s2, 0);
    assert ByteAt(session, 3) == ByteAt(s1, 2) == ByteAt(s2, 1) == ByteAt(a as nat, 0);
    hide ByteAt;
    assert U32Bytes(session) == [a, b, c, d];
    assert ([a, b, c, d, kind] + body)[..RELAY_HEADER] == [a, b, c, d];
    assert [a, b, c, d] + [kind] + body == [a, b, c, d, kind] + body;
  }

  /** Different messages of any sessions never make the same frame. */
  lemma FrameInjective(s: nat, k: Byte, b: Bytes, s': nat, k': Byte, b': Bytes)
    requires s <= MAX_SESSION && s' <= MAX_SESSION && Frame(s, k, b) == Frame(s', k', b')
    ensures s == s' && k == k' && b == b'
  {
    FrameRoundTrip(s, k, b);
    FrameRoundTrip(s', k', b');
  }

  // ---------------------------------------------------------------- counters

  /** Body bytes sent, confirmed by the far end, received, and confirmed to it. */
  datatype Counters = Counters(sent: nat, acked: nat, received: nat, ackedUpTo: nat)

  function Wrote(c: Counters, n: nat): Counters { c.(sent := c.sent + n) }

  function Took(c: Counters, n: nat): Counters {
    var c1 := c.(received := c.received + n);
    if c1.received - c1.ackedUpTo >= ACK_INTERVAL then c1.(ackedUpTo := c1.received) else c1
  }

  function Max(a: nat, b: nat): nat { if a >= b then a else b }

  function Heard(c: Counters, bytes: nat): Counters { c.(acked := Max(c.acked, bytes)) }

  function Flushed(c: Counters): Counters { c.(ackedUpTo := c.received) }

  /** The acknowledgement that goes out when the counters change so. */
  function AckSent(before: Counters, after: Counters): Option<nat> {
    if after.ackedUpTo != before.ackedUpTo then Some(after.received) else None
  }

  predicate Credit(c: Counters) { c.sent - c.acked <= CREDIT_WINDOW }
}
