/** The datagrams clients exchange directly and through the relay server. */
module Frames {
  import opened Wrappers
  import opened Bytes

  /** A client id; well-formed ones have 8 bytes. */
  type Id = bytes

  const ID_LENGTH: nat := 8
  const ZERO_ID: Id := [0, 0, 0, 0, 0, 0, 0, 0]

  const HELLO: byte := 1
  const HELLO_ACK: byte := 2
  const PING: byte := 3
  const PONG: byte := 4
  const DATA: byte := 5

  const FRAME_MAGIC: bytes := [69, 76, 75, 49]   // "ELK1"
  const RELAY_MAGIC: bytes := [69, 76, 75, 82]   // "ELKR"
  const FRAME_HEADER: nat := 21
  const RELAY_HEADER: nat := 20

  datatype Frame = Frame(typ: byte, sender: Id, target: Id, payload: bytes)

  /** The bytes of a frame, or nothing when an id has the wrong length. */
  function BuildFrame(typ: byte, me: Id, peer: Id, payload: bytes): Option<bytes>
  {
    if |me| != ID_LENGTH || |peer| != ID_LENGTH then None
    else Some(FRAME_MAGIC + [typ] + me + peer + payload)
  }

  function ParseFrame(buf: bytes): Option<Frame>
  {
    if |buf| < FRAME_HEADER || buf[0..4] != FRAME_MAGIC then None
    else Some(Frame(buf[4], buf[5..13], buf[13..21], buf[21..]))
  }

  function BuildRelay(sender: Id, target: Id, frame: bytes): Option<bytes>
  {
    if |sender| != ID_LENGTH || |target| != ID_LENGTH then None
    else Some(RELAY_MAGIC + sender + target + frame)
  }

  datatype Envelope = Envelope(sender: Id, target: Id, payload: bytes)

  function ParseRelay(buf: bytes): Option<Envelope>
  {
    if |buf| < RELAY_HEADER || buf[0..4] != RELAY_MAGIC then None
    else Some(Envelope(buf[4..12], buf[12..20], buf[20..]))
  }

  /** A frame that was built parses back to its parts, and is never taken for a relay packet. */
  lemma ParseBuiltFrame(typ: byte, me: Id, peer: Id, payload: bytes)
    requires BuildFrame(typ, me, peer, payload).Some?
    ensures var d := BuildFrame(typ, me, peer, payload).value;
            ParseFrame(d) == Some(Frame(typ, me, peer, payload)) && ParseRelay(d) == None
  {
    var d := BuildFrame(typ, me, peer, payload).value;
    assert d[0..4] == FRAME_MAGIC && d[4] == typ;
    assert d[5..13] == me && d[13..21] == peer && d[21..] == payload;
    assert FRAME_MAGIC[3] != RELAY_MAGIC[3];
  }

  /** Any buffer the parser takes is the one the builder makes from its parts. */
  lemma BuildParsedFrame(buf: bytes)
    requires ParseFrame(buf).Some?
    ensures var f := ParseFrame(buf).value; BuildFrame(f.typ, f.sender, f.target, f.payload) == Some(buf)
  {
    var f := ParseFrame(buf).value;
    assert buf == buf[0..4] + [buf[4]] + buf[5..13] + buf[13..21] + buf[21..];
  }

  lemma ParseBuiltRelay(sender: Id, target: Id, frame: bytes)
    requires BuildRelay(sender, target, frame).Some?
    ensures var d := BuildRelay(sender, target, frame).value;
            ParseRelay(d) == Some(Envelope(sender, target, frame)) && ParseFrame(d) == None
  {
    var d := BuildRelay(sender, target, frame).value;
    assert d[0..4] == RELAY_MAGIC;
    assert d[4..12] == sender && d[12..20] == target && d[20..] == frame;
    assert FRAME_MAGIC[3] != RELAY_MAGIC[3];
  }

  /** The two layouts, byte by byte. */
  lemma Layouts(typ: byte, sender: Id, target: Id, payload: bytes)
    requires |sender| == 8 && |target| == 8
    ensures BuildFrame(typ, sender, target, payload) == Some([69, 76, 75, 49, typ] + sender + target + payload)
    ensures BuildRelay(sender, target, payload) == Some([69, 76, 75, 82] + sender + target + payload)
    ensures HELLO == 1 && HELLO_ACK == 2 && PING == 3 && PONG == 4 && DATA == 5
  {
    assert FRAME_MAGIC + [typ] == [69, 76, 75, 49, typ];
  }

  /** buildFrame as it fills its buffer. */
  method FillFrame(typ: byte, me: Id, peer: Id, payload: bytes) returns (out: Option<bytes>)
    ensures out == BuildFrame(typ, me, peer, payload)
  {
    if |me| != ID_LENGTH || |peer| != ID_LENGTH {
      return None;
    }
    var buf := new byte[FRAME_HEADER + |payload|](_ => 0);
    Copy(buf, 0, FRAME_MAGIC);
    buf[4] := typ;
    Copy(buf, 5, me);
    Copy(buf, 13, peer);
    Copy(buf, 21, payload);
    assert buf[..] == FRAME_MAGIC + [typ] + me + peer + payload;
    return Some(buf[..]);
  }

  /** buildRelay as it fills its buffer. */
  method FillRelay(sender: Id, target: Id, frame: bytes) returns (out: Option<bytes>)
    ensures out == BuildRelay(sender, target, frame)
  {
    if |sender| != ID_LENGTH || |target| != ID_LENGTH {
      return None;
    }
    var buf := new byte[RELAY_HEADER + |frame|](_ => 0);
    Copy(buf, 0, RELAY_MAGIC);
    Copy(buf, 4, sender);
    Copy(buf, 12, target);
    Copy(buf, 20, frame);
    assert buf[..] == RELAY_MAGIC + sender + target + frame;
    return Some(buf[..]);
  }

  // ---- associated data ----

  const AAD_PREFIX: bytes := [69, 76, 75, 49, 124]   // "ELK1|"

  /** The two ids in sorted order, bound to every data frame between them. */
  function PeerAad(a: Id, b: Id): bytes
  {
    if Less(b, a) then AAD_PREFIX + b + [124] + a else AAD_PREFIX + a + [124] + b
  }

  lemma PeerAadSymmetric(a: Id, b: Id)
    ensures PeerAad(a, b) == PeerAad(b, a)
  {
    LessIsStrict(a, b);
    LessIsTotal(a, b);
  }

  /** Both ends compute the same associated data, and distinct pairs of clients never share it. */
  lemma PeerAadNamesThePair(a: Id, b: Id, c: Id, d: Id)
    requires |a| == |b| == |c| == |d| == ID_LENGTH
    ensures PeerAad(a, b) == PeerAad(c, d) <==> (a == c && b == d) || (a == d && b == c)
  {
    PeerAadSymmetric(a, b);
    var x, y := PeerAad(a, b), PeerAad(c, d);
    assert x[5..13] == (if Less(b, a) then b else a) && x[14..] == (if Less(b, a) then a else b);
    assert y[5..13] == (if Less(d, c) then d else c) && y[14..] == (if Less(d, c) then c else d);
  }
}
