/** Asking a STUN server for one's public address, and reading its answer. */
module Stun {
  import opened Wrappers
  import opened Bytes
  import opened Words

  const MAGIC_COOKIE: nat := 0x2112A442
  const COOKIE_TOP: nat := 0x2112
  const CHANGE_REQUEST: nat := 0x0003
  const XOR_MAPPED_ADDRESS: nat := 0x0020
  const BINDING_REQUEST: nat := 0x0001
  const BINDING_SUCCESS: nat := 0x0101
  const BINDING_ERROR: nat := 0x0111
  const HEADER: nat := 20

  /** A transaction id. */
  type TxId = s: bytes | |s| == 12 witness [0, 0, 0, 0, 0, 0, 0, 0, 0, 0, 0, 0]

  datatype Reason = TooShort | ErrorResponse | BadCookie | WrongTransaction | TruncatedBody | ShortAddress | NoAddress

  /** Hangs: the loop never ends (NeverEndsIff). */
  datatype Outcome = Found(ip: bytes, port: nat) | Failed(reason: Reason) | Hangs

  function U16(s: bytes, at: nat): nat
    requires at + 2 <= |s|
  {
    FromBigEndian(s[at..at + 2])
  }

  function U32(s: bytes, at: nat): nat
    requires at + 4 <= |s|
  {
    FromBigEndian(s[at..at + 4])
  }

  function XorBytes(a: bytes, b: bytes): bytes
    requires |a| == |b|
  {
    if a == [] then [] else [Xor(a[0], b[0]) % 256] + XorBytes(a[1..], b[1..])
  }

  // ---- the request ----

  lemma CookieBytes()
    ensures BigEndian(4, MAGIC_COOKIE) == [0x21, 0x12, 0xA4, 0x42]
  {
  }

  function ChangeRequest(changeIP: bool, changePort: bool): bytes
  {
    if changeIP || changePort then
      BigEndian(2, CHANGE_REQUEST) + BigEndian(2, 4)
      + BigEndian(4, (if changeIP then 4 else 0) + (if changePort then 2 else 0))
    else []
  }

  function Message(typ: nat, txId: TxId, body: bytes): bytes
  {
    BigEndian(2, typ) + BigEndian(2, |body|) + BigEndian(4, MAGIC_COOKIE) + txId + body
  }

  /**
   The request of section 6 of RFC 5389, byte by byte, with the attribute of section 7.2 of RFC 5780 when
   asked for.
   */
  lemma RequestLayout(txId: TxId, changeIP: bool, changePort: bool)
    ensures var flags := (if changeIP then 4 else 0) + (if changePort then 2 else 0);
            var body := if flags == 0 then [] else [0, 3, 0, 4, 0, 0, 0, flags];
            Message(BINDING_REQUEST, txId, ChangeRequest(changeIP, changePort)) ==
              [0, 1, 0, |body|, 0x21, 0x12, 0xA4, 0x42] + txId + body
  {
    hide BigEndian;
    var flags := (if changeIP then 4 else 0) + (if changePort then 2 else 0);
    var body := ChangeRequest(changeIP, changePort);
    TwoBytes(3);
    TwoBytes(4);
    SmallNumber(flags);
    assert body == if flags == 0 then [] else [0, 3, 0, 4, 0, 0, 0, flags];
    hide ChangeRequest;
    TwoBytes(1);
    TwoBytes(|body|);
    CookieBytes();
  }

  method BuildChangeRequest(changeIP: bool, changePort: bool) returns (body: bytes)
    ensures body == ChangeRequest(changeIP, changePort)
  {
    if !changeIP && !changePort {
      return [];
    }
    hide BigEndian;
    ghost var t, l := BigEndian(2, CHANGE_REQUEST), BigEndian(2, 4);
    var attr := new byte[8](_ => 0);
    Copy(attr, 0, BigEndian(2, CHANGE_REQUEST));
    assert attr[..2] == t;
    Copy(attr, 2, BigEndian(2, 4));
    assert attr[..4] == t + l;
    var flags := 0;
    if changeIP {
      flags := flags + 4;
    }
    if changePort {
      flags := flags + 2;
    }
    Copy(attr, 4, BigEndian(4, flags));
    assert attr[..] == t + l + BigEndian(4, flags);
    return attr[..];
  }

  method BuildBindingRequest(txId: TxId, changeIP: bool, changePort: bool) returns (request: bytes)
    ensures request == Message(BINDING_REQUEST, txId, ChangeRequest(changeIP, changePort))
  {
    hide BigEndian;
    var body := BuildChangeRequest(changeIP, changePort);
    ghost var t, l, c := BigEndian(2, BINDING_REQUEST), BigEndian(2, |body|), BigEndian(4, MAGIC_COOKIE);
    var hdr := new byte[HEADER](_ => 0);
    Copy(hdr, 0, BigEndian(2, BINDING_REQUEST));
    assert hdr[..2] == t;
    Copy(hdr, 2, BigEndian(2, |body|));
    assert hdr[..4] == t + l;
    Copy(hdr, 4, BigEndian(4, MAGIC_COOKIE));
    assert hdr[..8] == t + l + c;
    Copy(hdr, 8, txId);
    assert hdr[..] == hdr[..20] == t + l + c + txId;
    return hdr[..] + body;
  }

  // ---- attributes ----

  datatype Attr = Attr(typ: u16, value: bytes)

  function Encode(a: Attr): bytes
  {
    BigEndian(2, a.typ) + BigEndian(2, |a.value|) + a.value
  }

  function EncodeAll(attrs: seq<Attr>): bytes
  {
    if attrs == [] then [] else Encode(attrs[0]) + EncodeAll(attrs[1..])
  }

  /** XOR-MAPPED-ADDRESS for IPv4, section 15.2 of RFC 5389; the reserved byte may be anything. */
  function MappedAddress(reserved: byte, ip: bytes, port: u16): Attr
    requires |ip| == 4
  {
    Attr(XOR_MAPPED_ADDRESS,
         [reserved, 1] + BigEndian(2, Xor(port, COOKIE_TOP)) + BigEndian(4, Xor(FromBigEndian(ip), MAGIC_COOKIE)))
  }

  // ---- the answer ----

  lemma Pow256Bound(s: bytes)
    requires |s| == 2
    ensures FromBigEndian(s) < LIMIT16
  {
  }

  /** The first attribute, if the list holds a complete one. */
  function FirstAttr(attrs: bytes): Option<Attr>
  {
    if |attrs| < 4 || |attrs| < 4 + U16(attrs, 2) then None
    else Pow256Bound(attrs[0..2]); Some(Attr(U16(attrs, 0), attrs[4..4 + U16(attrs, 2)]))
  }

  /** What the loop does with an attribute: go on behind it, start over without moving, or return. */
  datatype Verdict = Skip | Again | Return(outcome: Outcome)

  function Judge(a: Attr, txId: TxId): Verdict
  {
    if a.typ != XOR_MAPPED_ADDRESS then Skip
    else if |a.value| < 8 then Return(Failed(ShortAddress))
    else
      var port := Xor(U16(a.value, 2), COOKIE_TOP);
      if a.value[1] == 1 then Return(Found(BigEndian(4, Xor(U32(a.value, 4), MAGIC_COOKIE)), port))
      else if a.value[1] == 2 then
        if |a.value| < 20 then Again else Return(Found(XorBytes(a.value[4..20], [0, 0, 0, 0] + txId), port))
      else Skip
  }

  /** The loop, between two iterations or at its end. */
  datatype Loop = Running(attrs: bytes) | Done(outcome: Outcome)

  /** One iteration, its guard included; `continue` leaves attrs where it was. */
  function Iterate(attrs: bytes, txId: TxId): Loop
  {
    match FirstAttr(attrs)
    case None => Done(Failed(NoAddress))
    case Some(a) =>
      match Judge(a, txId)
      case Skip => Running(attrs[4 + |a.value|..])
      case Again => Running(attrs)
      case Return(outcome) => Done(outcome)
  }

  /** The loop after n iterations, or where it ended before. */
  function Steps(n: nat, attrs: bytes, txId: TxId): Loop
  {
    if n == 0 then Running(attrs)
    else
      match Iterate(attrs, txId)
      case Done(outcome) => Done(outcome)
      case Running(rest) => Steps(n - 1, rest, txId)
  }

  /** What the loop comes to. */
  function Walk(attrs: bytes, txId: TxId): Outcome
    decreases |attrs|
  {
    match FirstAttr(attrs)
    case None => Failed(NoAddress)
    case Some(a) =>
      match Judge(a, txId)
      case Skip => Walk(attrs[4 + |a.value|..], txId)
      case Again => Hangs
      case Return(outcome) => outcome
  }

  /** The checks before the loop; None when the datagram gets to it. */
  function HeaderError(data: bytes, txId: TxId): Option<Reason>
  {
    if |data| < HEADER then Some(TooShort)
    else if U16(data, 0) == BINDING_ERROR then Some(ErrorResponse)
    else if U32(data, 4) != MAGIC_COOKIE then Some(BadCookie)
    else if data[8..20] != txId then Some(WrongTransaction)
    else if HEADER + U16(data, 2) > |data| then Some(TruncatedBody)
    else None
  }

  /** The attributes the loop starts with. */
  function Body(data: bytes): bytes
    requires |data| >= HEADER && HEADER + U16(data, 2) <= |data|
  {
    data[HEADER..HEADER + U16(data, 2)]
  }

  function Parse(data: bytes, txId: TxId): Outcome
  {
    match HeaderError(data, txId)
    case Some(reason) => Failed(reason)
    case None => Walk(Body(data), txId)
  }

  // ---- what the walk finds ----

  lemma AttrSlices(t: bytes, l: bytes, v: bytes, rest: bytes)
    requires |t| == 2 && |l| == 2
    ensures var s := t + l + v + rest;
            s[0..2] == t && s[2..4] == l && s[4..4 + |v|] == v && s[4 + |v|..] == rest
  {
  }

  lemma EncodedFirst(a: Attr, rest: bytes)
    requires |a.value| < LIMIT16
    ensures FirstAttr(Encode(a) + rest) == Some(a) && (Encode(a) + rest)[4 + |a.value|..] == rest
  {
    hide FromBigEndian, BigEndian;
    FixedWidths(a.typ);
    FixedWidths(|a.value|);
    AttrSlices(BigEndian(2, a.typ), BigEndian(2, |a.value|), a.value, rest);
  }

  lemma FirstEncoded(attrs: bytes)
    requires FirstAttr(attrs).Some?
    ensures var a := FirstAttr(attrs).value;
            |a.value| < LIMIT16 && attrs == Encode(a) + attrs[4 + |a.value|..]
  {
    EncodeDecode(attrs[0..2]);
    EncodeDecode(attrs[2..4]);
    Pow256Bound(attrs[2..4]);
  }

  /** Attributes the walk passes over. */
  predicate Passed(attrs: seq<Attr>, txId: TxId)
  {
    forall i :: 0 <= i < |attrs| ==> |attrs[i].value| < LIMIT16 && Judge(attrs[i], txId) == Skip
  }

  lemma WalkStep(attrs: bytes, a: Attr, txId: TxId)
    requires FirstAttr(attrs) == Some(a) && Judge(a, txId) == Skip
    ensures |attrs| >= 4 + |a.value| && Walk(attrs, txId) == Walk(attrs[4 + |a.value|..], txId)
  {
  }

  lemma WalkReturns(attrs: bytes, a: Attr, txId: TxId)
    requires FirstAttr(attrs) == Some(a) && Judge(a, txId).Return?
    ensures Walk(attrs, txId) == Judge(a, txId).outcome
  {
  }

  lemma Regroup(a: bytes, b: bytes, c: bytes)
    ensures (a + b) + c == a + (b + c)
  {
  }

  lemma {:induction false} WalkPasses(attrs: seq<Attr>, rest: bytes, txId: TxId)
    requires Passed(attrs, txId)
    ensures Walk(EncodeAll(attrs) + rest, txId) == Walk(rest, txId)
  {
    if attrs == [] {
      assert EncodeAll(attrs) + rest == rest;
    } else {
      hide Walk, Encode, FirstAttr, Judge;
      var after := EncodeAll(attrs[1..]) + rest;
      WalkPasses(attrs[1..], rest, txId);
      EncodedFirst(attrs[0], after);
      Regroup(Encode(attrs[0]), EncodeAll(attrs[1..]), rest);
      WalkStep(Encode(attrs[0]) + after, attrs[0], txId);
    }
  }

  /** Every byte string is some attributes that are passed over, then one that settles the matter or none at all. */
  lemma {:induction false} WalkStops(attrs: bytes, txId: TxId) returns (passed: seq<Attr>, rest: bytes)
    ensures Passed(passed, txId) && attrs == EncodeAll(passed) + rest && Walk(rest, txId) == Walk(attrs, txId)
    ensures FirstAttr(rest).None? || Judge(FirstAttr(rest).value, txId) != Skip
    decreases |attrs|
  {
    if FirstAttr(attrs).None? || Judge(FirstAttr(attrs).value, txId) != Skip {
      passed, rest := [], attrs;
      assert EncodeAll(passed) + rest == attrs;
    } else {
      var a := FirstAttr(attrs).value;
      FirstEncoded(attrs);
      var more;
      more, rest := WalkStops(attrs[4 + |a.value|..], txId);
      passed := [a] + more;
      assert passed[1..] == more;
      assert EncodeAll(passed) + rest == Encode(a) + (EncodeAll(more) + rest);
    }
  }

  lemma Pow2Widths()
    ensures Pow2(16) == LIMIT16 && Pow2(32) == LIMIT32
  {
    assert Pow2(8) == 256;
    Pow2Sum(8, 8);
    Pow2Sum(16, 16);
  }

  lemma UnmaskedAddress(reserved: byte, ip: bytes, port: u16, txId: TxId)
    requires |ip| == 4
    ensures Judge(MappedAddress(reserved, ip, port), txId) == Return(Found(ip, port))
  {
    var p, x := Xor(port, COOKIE_TOP), Xor(FromBigEndian(ip), MAGIC_COOKIE);
    assert FromBigEndian(ip) < LIMIT32 by { Pow256Widths(); }
    EncodeDecode(ip);
    hide FromBigEndian, BigEndian, Xor;
    Pow2Widths();
    XorBelow(port, COOKIE_TOP, 16);
    XorBelow(FromBigEndian(ip), MAGIC_COOKIE, 32);
    FixedWidths(p);
    FixedWidths(x);
    AttrSlices([reserved, 1], BigEndian(2, p), BigEndian(4, x), []);
    var v := MappedAddress(reserved, ip, port).value;
    assert v + [] == v;
    XorCancels(port, COOKIE_TOP);
    XorCancels(FromBigEndian(ip), MAGIC_COOKIE);
  }

  /** The cookie's digits turned over, as in the test vector below. */
  lemma MaskedVector(port: nat, top: nat, ip: nat, cookie: nat)
    requires port == 0x8055 && top == COOKIE_TOP && ip == 0xC000_0201 && cookie == MAGIC_COOKIE
    ensures Xor(port, top) == 0xA147 && Xor(ip, cookie) == 0xE112_A643
  {
    hide Xor;
    XorSelf(0);
    XorHexDigit(port / 0x10000, (1, 0, 0, 0), top / 0x10000, (0, 0, 1, 0));
    XorHexDigit(port / 0x1000, (0, 0, 0, 0), top / 0x1000, (0, 0, 0, 1));
    XorHexDigit(port / 0x100, (0, 1, 0, 1), top / 0x100, (0, 0, 0, 1));
    XorHexDigit(port / 0x10, (0, 1, 0, 1), top / 0x10, (0, 0, 1, 0));
    XorHexDigit(ip / 0x100000000, (1, 1, 0, 0), cookie / 0x100000000, (0, 0, 1, 0));
    XorHexDigit(ip / 0x10000000, (0, 0, 0, 0), cookie / 0x10000000, (0, 0, 0, 1));
    XorHexDigit(ip / 0x1000000, (0, 0, 0, 0), cookie / 0x1000000, (0, 0, 0, 1));
    XorHexDigit(ip / 0x100000, (0, 0, 0, 0), cookie / 0x100000, (0, 0, 1, 0));
    XorHexDigit(ip / 0x10000, (0, 0, 0, 0), cookie / 0x10000, (1, 0, 1, 0));
    XorHexDigit(ip / 0x1000, (0, 0, 1, 0), cookie / 0x1000, (0, 1, 0, 0));
    XorHexDigit(ip / 0x100, (0, 0, 0, 0), cookie / 0x100, (0, 1, 0, 0));
    XorHexDigit(ip / 0x10, (0, 0, 0, 1), cookie / 0x10, (0, 0, 1, 0));
  }

  /** The test vector of section 2.2 of RFC 5769: 192.0.2.1, port 32853. */
  lemma KnownAnswer(ip: bytes, port: u16)
    requires ip == [192, 0, 2, 1] && port == 32853
    ensures MappedAddress(0, ip, port) == Attr(0x0020, [0, 1, 0xA1, 0x47, 0xE1, 0x12, 0xA6, 0x43])
  {
    hide Xor;
    BigEndianDigits(192, 0, 2, 1, []);
    MaskedVector(port, COOKIE_TOP, FromBigEndian(ip), MAGIC_COOKIE);
    hide FromBigEndian;
    TwoBytes(0xA147);
    assert BigEndian(4, 0xE112_A643) == [0xE1, 0x12, 0xA6, 0x43];
    hide BigEndian;
  }

  /** A successful answer to that transaction, with anything after its body. */
  ghost predicate Answers(data: bytes, txId: TxId, body: bytes)
  {
    exists typ: u16, junk: bytes :: typ != BINDING_ERROR && data == Message(typ, txId, body) + junk
  }

  lemma MessageSlices(t: bytes, l: bytes, c: bytes, x: bytes, body: bytes, junk: bytes)
    requires |t| == 2 && |l| == 2 && |c| == 4 && |x| == 12
    ensures var s := t + l + c + x + body + junk;
            s[0..2] == t && s[2..4] == l && s[4..8] == c && s[8..20] == x && s[20..20 + |body|] == body
  {
  }

  lemma AnswerIsWalked(data: bytes, txId: TxId, body: bytes)
    requires |body| < LIMIT16 && Answers(data, txId, body)
    ensures Parse(data, txId) == Walk(body, txId)
  {
    hide FromBigEndian, BigEndian, Walk;
    var typ: u16, junk: bytes :| typ != BINDING_ERROR && data == Message(typ, txId, body) + junk;
    FixedWidths(typ);
    FixedWidths(|body|);
    FixedWidths(MAGIC_COOKIE);
    MessageSlices(BigEndian(2, typ), BigEndian(2, |body|), BigEndian(4, MAGIC_COOKIE), txId, body, junk);
  }

  /** The first IPv4 address is found exactly, behind any other attributes and before anything at all. */
  lemma AddressIsFound(data: bytes, txId: TxId, others: seq<Attr>, reserved: byte, ip: bytes, port: u16,
                       trailing: bytes)
    requires |ip| == 4 && Passed(others, txId)
    requires var body := EncodeAll(others) + (Encode(MappedAddress(reserved, ip, port)) + trailing);
             |body| < LIMIT16 && Answers(data, txId, body)
    ensures Parse(data, txId) == Found(ip, port)
  {
    var a := MappedAddress(reserved, ip, port);
    AnswerIsWalked(data, txId, EncodeAll(others) + (Encode(a) + trailing));
    WalkPasses(others, Encode(a) + trailing, txId);
    EncodedFirst(a, trailing);
    UnmaskedAddress(reserved, ip, port, txId);
  }

  // ---- when the loop does not end ----

  lemma {:induction false} HangingGoesOn(n: nat, attrs: bytes, txId: TxId)
    requires Walk(attrs, txId) == Hangs
    ensures Steps(n, attrs, txId).Running?
  {
    if n > 0 {
      HangingGoesOn(n - 1, Iterate(attrs, txId).attrs, txId);
    }
  }

  /** Otherwise it ends with the outcome of the walk, after at most one iteration for every 4 bytes and one more. */
  lemma {:induction false} OthersEnd(n: nat, attrs: bytes, txId: TxId)
    requires Walk(attrs, txId) != Hangs && n > |attrs| / 4
    ensures Steps(n, attrs, txId) == Done(Walk(attrs, txId))
    decreases n
  {
    if Iterate(attrs, txId).Running? {
      OthersEnd(n - 1, Iterate(attrs, txId).attrs, txId);
    }
  }

  /** The datagram got past the checks, and n iterations later the loop is still going. */
  predicate StillWalking(n: nat, data: bytes, txId: TxId)
  {
    HeaderError(data, txId).None? && Steps(n, Body(data), txId).Running?
  }

  /**
   Parsing never ends iff the outcome is Hangs; any other outcome is reached within a bounded number of
   iterations.
   */
  lemma NeverEndsIff(data: bytes, txId: TxId)
    ensures (forall n: nat :: StillWalking(n, data, txId)) <==> Parse(data, txId) == Hangs
    ensures Parse(data, txId) != Hangs && HeaderError(data, txId).None? ==>
              forall n: nat :: n > |data| / 4 ==> Steps(n, Body(data), txId) == Done(Parse(data, txId))
  {
    hide Walk, Iterate, Steps;
    if HeaderError(data, txId).None? {
      if Parse(data, txId) == Hangs {
        forall n: nat ensures StillWalking(n, data, txId) { HangingGoesOn(n, Body(data), txId); }
      } else {
        forall n: nat | n > |data| / 4 ensures Steps(n, Body(data), txId) == Done(Parse(data, txId)) {
          OthersEnd(n, Body(data), txId);
        }
        assert !StillWalking(|data| / 4 + 1, data, txId);
      }
    } else {
      assert !StillWalking(0, data, txId);
    }
  }

  predicate ShortIPv6At(attrs: bytes, txId: TxId, passed: seq<Attr>, v: bytes, rest: bytes)
  {
    && Passed(passed, txId) && 8 <= |v| < 20 && v[1] == 2
    && attrs == EncodeAll(passed) + (Encode(Attr(XOR_MAPPED_ADDRESS, v)) + rest)
  }

  /** attrs holds, behind attributes that are passed over, an IPv6 address of 8 to 19 bytes. */
  ghost predicate HoldsShortIPv6(attrs: bytes, txId: TxId)
  {
    exists passed: seq<Attr>, v: bytes, rest: bytes :: ShortIPv6At(attrs, txId, passed, v, rest)
  }

  lemma WalkHangsIff(attrs: bytes, txId: TxId)
    ensures Walk(attrs, txId) == Hangs <==> HoldsShortIPv6(attrs, txId)
  {
    if Walk(attrs, txId) == Hangs {
      var passed, rest := WalkStops(attrs, txId);
      var a := FirstAttr(rest).value;
      FirstEncoded(rest);
      assert a == Attr(XOR_MAPPED_ADDRESS, a.value);
      assert ShortIPv6At(attrs, txId, passed, a.value, rest[4 + |a.value|..]);
    }
    if passed: seq<Attr>, v: bytes, rest: bytes :| ShortIPv6At(attrs, txId, passed, v, rest) {
      WalkPasses(passed, Encode(Attr(XOR_MAPPED_ADDRESS, v)) + rest, txId);
      EncodedFirst(Attr(XOR_MAPPED_ADDRESS, v), rest);
    }
  }

  /** Parsing a datagram never ends exactly when it passes the checks and holds a short IPv6 address. */
  lemma HangsIff(data: bytes, txId: TxId)
    ensures (forall n: nat :: StillWalking(n, data, txId)) <==>
              HeaderError(data, txId).None? && HoldsShortIPv6(Body(data), txId)
  {
    NeverEndsIff(data, txId);
    if HeaderError(data, txId).None? {
      WalkHangsIff(Body(data), txId);
    }
  }

  const SHORT_IPV6: Attr := Attr(XOR_MAPPED_ADDRESS, [0, 2, 0, 0, 0, 0, 0, 0])

  /** A 32-byte answer on which parsing never ends. */
  lemma AnswerThatHangs(txId: TxId)
    ensures forall n: nat :: StillWalking(n, Message(BINDING_SUCCESS, txId, Encode(SHORT_IPV6)), txId)
  {
    var data := Message(BINDING_SUCCESS, txId, Encode(SHORT_IPV6));
    assert data == data + [] && Answers(data, txId, Encode(SHORT_IPV6));
    AnswerIsWalked(data, txId, Encode(SHORT_IPV6));
    EncodedFirst(SHORT_IPV6, []);
    assert Encode(SHORT_IPV6) + [] == Encode(SHORT_IPV6);
    NeverEndsIff(data, txId);
  }

  /** What a server answers to a request: the transaction id echoed, and where the request came from. */
  function Response(request: bytes, ip: bytes, port: u16): bytes
    requires |request| >= HEADER && |ip| == 4
  {
    Message(BINDING_SUCCESS, request[8..20], Encode(MappedAddress(0, ip, port)))
  }

  /** Whatever was asked for, the answer to one's own request tells one's own address. */
  lemma RequestAndResponse(txId: TxId, changeIP: bool, changePort: bool, ip: bytes, port: u16)
    requires |ip| == 4
    ensures var request := Message(BINDING_REQUEST, txId, ChangeRequest(changeIP, changePort));
            Parse(Response(request, ip, port), txId) == Found(ip, port)
  {
    var request := Message(BINDING_REQUEST, txId, ChangeRequest(changeIP, changePort));
    assert request[8..20] == txId;
    var a := MappedAddress(0, ip, port);
    var data := Response(request, ip, port);
    assert data == Message(BINDING_SUCCESS, txId, Encode(a)) + [];
    assert Answers(data, txId, Encode(a));
    assert Encode(a) == EncodeAll([]) + (Encode(a) + []);
    AddressIsFound(data, txId, [], 0, ip, port, []);
  }

  // ---- padding ----

  function Zeros(n: nat): bytes
  {
    seq(n, _ => 0)
  }

  /** The attributes as section 15 of RFC 5389 lays them out, each padded to a multiple of 4 bytes. */
  function EncodePadded(attrs: seq<Attr>): bytes
  {
    if attrs == [] then []
    else Encode(attrs[0]) + Zeros((4 - |attrs[0].value| % 4) % 4) + EncodePadded(attrs[1..])
  }

  /** Where no padding is called for, the layout the walk expects is the standard's. */
  lemma {:induction false} PaddingFree(attrs: seq<Attr>)
    requires forall i :: 0 <= i < |attrs| ==> |attrs[i].value| % 4 == 0
    ensures EncodePadded(attrs) == EncodeAll(attrs)
  {
    if attrs == [] {
    } else {
      assert |attrs[0].value| % 4 == 0;
      PaddingFree(attrs[1..]);
    }
  }

  /** Attributes that need no padding come first, then the others as they would alone. */
  lemma {:induction false} PaddedAfterAligned(aligned: seq<Attr>, more: seq<Attr>)
    requires forall i :: 0 <= i < |aligned| ==> |aligned[i].value| % 4 == 0
    ensures EncodePadded(aligned + more) == EncodeAll(aligned) + EncodePadded(more)
  {
    if aligned == [] {
      assert aligned + more == more && EncodeAll(aligned) + EncodePadded(more) == EncodePadded(more);
    } else {
      var all := aligned + more;
      assert all[0] == aligned[0] && all[1..] == aligned[1..] + more;
      assert |aligned[0].value| % 4 == 0;
      PaddedAfterAligned(aligned[1..], more);
      Regroup(Encode(aligned[0]), EncodeAll(aligned[1..]), EncodePadded(more));
    }
  }

  lemma PaddedPair(a: Attr, address: Attr)
    requires |address.value| % 4 == 0
    ensures EncodePadded([a, address]) == Encode(a) + (Zeros((4 - |a.value| % 4) % 4) + Encode(address))
  {
    var attrs, zeros := [a, address], Zeros((4 - |a.value| % 4) % 4);
    assert attrs[1..] == [address] && [address][1..] == [];
    assert EncodePadded([address]) == Encode(address);
    Regroup(Encode(a), zeros, Encode(address));
  }

  lemma MappedAddressStarts(reserved: byte, ip: bytes, port: u16)
    requires |ip| == 4
    ensures var s := Encode(MappedAddress(reserved, ip, port)); |s| == 12 && s[..5] == [0, 32, 0, 8, reserved]
  {
    TwoBytes(XOR_MAPPED_ADDRESS);
    TwoBytes(8);
  }

  lemma SpelledOut(a: byte, b: byte)
    ensures FromBigEndian([a, b]) == 256 * a as nat + b as nat
  {
    assert [a, b][..1] == [a] && [a][..0] == [];
  }

  lemma LengthAt(s: bytes, at: nat)
    requires at + 2 <= |s|
    ensures U16(s, at) == 256 * s[at] as nat + s[at + 1] as nat
  {
    assert s[at..at + 2] == [s[at], s[at + 1]];
    SpelledOut(s[at], s[at + 1]);
  }

  /** Walked from its padding on, an address is misread: the next length is 8192, 32, or 0 and then at least 2048. */
  lemma MisalignedFails(pad: nat, address: bytes, reserved: byte, txId: TxId)
    requires 1 <= pad <= 3 && |address| == 12 && address[..5] == [0, 32, 0, 8, reserved]
    ensures Walk(Zeros(pad) + address, txId) == Failed(NoAddress)
  {
    var left := Zeros(pad) + address;
    hide FromBigEndian;
    assert forall k :: 0 <= k < 5 ==> left[pad + k] == address[..5][k];
    LengthAt(left, 2);
    if pad == 3 {
      var rest := left[4..];
      LengthAt(rest, 2);
      assert left[4..4 + 0] == [] && FirstAttr(rest) == None;
      LengthAt(left, 0);
      WalkStep(left, Attr(0, []), txId);
    } else {
      assert FirstAttr(left) == None;
    }
  }

  /** What the walk makes of an address at the end of the list, after some padding. */
  lemma PaddedEndFoundIff(pad: nat, reserved: byte, ip: bytes, port: u16, txId: TxId)
    requires pad <= 3 && |ip| == 4
    ensures Walk(Zeros(pad) + Encode(MappedAddress(reserved, ip, port)), txId) ==
              if pad == 0 then Found(ip, port) else Failed(NoAddress)
  {
    var address := MappedAddress(reserved, ip, port);
    MappedAddressStarts(reserved, ip, port);
    hide Encode, FromBigEndian, BigEndian, Walk, MappedAddress;
    if pad == 0 {
      assert Zeros(pad) + Encode(address) == Encode(address) + [];
      EncodedFirst(address, []);
      UnmaskedAddress(reserved, ip, port, txId);
      WalkReturns(Encode(address) + [], address, txId);
    } else {
      MisalignedFails(pad, Encode(address), reserved, txId);
    }
  }

  /** Padding is not skipped: at the end of the list an address is found iff the attribute before it needs none. */
  lemma PaddedAddressFoundIff(aligned: seq<Attr>, a: Attr, reserved: byte, ip: bytes, port: u16, txId: TxId)
    requires |ip| == 4 && Passed(aligned, txId) && Passed([a], txId)
    requires forall i :: 0 <= i < |aligned| ==> |aligned[i].value| % 4 == 0
    ensures Walk(EncodePadded(aligned + [a, MappedAddress(reserved, ip, port)]), txId) ==
              if |a.value| % 4 == 0 then Found(ip, port) else Failed(NoAddress)
  {
    var address := MappedAddress(reserved, ip, port);
    var pad := (4 - |a.value| % 4) % 4;
    assert pad <= 3 && (pad == 0 <==> |a.value| % 4 == 0);
    var left := Zeros(pad) + Encode(address);
    PaddedAfterAligned(aligned, [a, address]);
    assert |address.value| == 8;
    PaddedPair(a, address);
    assert |[a][0].value| < LIMIT16 && Judge([a][0], txId) == Skip;
    hide *;
    PaddedEndFoundIff(pad, reserved, ip, port, txId);
    WalkPasses(aligned, Encode(a) + left, txId);
    EncodedFirst(a, left);
    WalkStep(Encode(a) + left, a, txId);
  }

  /** The same of a whole answer laid out by the standard. */
  lemma PaddedAnswerReadIff(data: bytes, aligned: seq<Attr>, a: Attr, reserved: byte, ip: bytes, port: u16, txId: TxId)
    requires |ip| == 4 && Passed(aligned, txId) && Passed([a], txId)
    requires forall i :: 0 <= i < |aligned| ==> |aligned[i].value| % 4 == 0
    requires var body := EncodePadded(aligned + [a, MappedAddress(reserved, ip, port)]);
             |body| < LIMIT16 && Answers(data, txId, body)
    ensures Parse(data, txId) == Found(ip, port) <==> |a.value| % 4 == 0
    ensures |a.value| % 4 != 0 ==> Parse(data, txId) == Failed(NoAddress)
  {
    AnswerIsWalked(data, txId, EncodePadded(aligned + [a, MappedAddress(reserved, ip, port)]));
    PaddedAddressFoundIff(aligned, a, reserved, ip, port, txId);
  }

  const ONE_BYTE: Attr := Attr(0x8022, [65])

  /** An answer whose software name is one letter long is not understood. */
  lemma PaddingHidesAddress(ip: bytes, port: u16, txId: TxId)
    requires |ip| == 4
    ensures Parse(Message(BINDING_SUCCESS, txId, EncodePadded([ONE_BYTE, MappedAddress(0, ip, port)])), txId) ==
              Failed(NoAddress)
  {
    hide Parse, Message;
    var attrs := [ONE_BYTE, MappedAddress(0, ip, port)];
    var body := EncodePadded(attrs);
    var data := Message(BINDING_SUCCESS, txId, body);
    assert |body| == 20 by {
      PaddedPair(ONE_BYTE, attrs[1]);
    }
    hide EncodePadded, MappedAddress, Encode;
    assert data == data + [] && Answers(data, txId, body);
    assert [] + attrs == attrs;
    PaddedAnswerReadIff(data, [], ONE_BYTE, 0, ip, port, txId);
  }

  // ---- the loop ----

  method ParseXORMappedAddress(data: bytes, txId: TxId) returns (outcome: Outcome)
    ensures outcome == Parse(data, txId)
  {
    if |data| < HEADER {
      return Failed(TooShort);
    }
    if U16(data, 0) == BINDING_ERROR {
      return Failed(ErrorResponse);
    }
    if U32(data, 4) != MAGIC_COOKIE {
      return Failed(BadCookie);
    }
    if data[8..20] != txId {
      return Failed(WrongTransaction);
    }
    var ln := U16(data, 2);
    if HEADER + ln > |data| {
      return Failed(TruncatedBody);
    }
    var attrs := data[HEADER..HEADER + ln];
    while |attrs| >= 4
      invariant Walk(attrs, txId) == Parse(data, txId)
      decreases |attrs|
    {
      var atype, alen := U16(attrs, 0), U16(attrs, 2);
      if |attrs| < 4 + alen {
        break;
      }
      var value := attrs[4..4 + alen];
      if atype == XOR_MAPPED_ADDRESS {
        if alen < 8 {
          return Failed(ShortAddress);
        }
        var family, port := value[1], Xor(U16(value, 2), COOKIE_TOP);
        if family == 1 {
          return Found(BigEndian(4, Xor(U32(value, 4), MAGIC_COOKIE)), port);
        } else if family == 2 {
          if alen < 20 {
            return Hangs; // Iterate(attrs, txId) == Running(attrs): the loop starts over where it was
          }
          return Found(XorBytes(value[4..20], [0, 0, 0, 0] + txId), port);
        }
      }
      attrs := attrs[4 + alen..];
    }
    return Failed(NoAddress);
  }
}
