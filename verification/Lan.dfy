/** LAN-discovery packets: recognising, readdressing and building them. */
module Lan {
  import opened Wrappers
  import opened Bytes

  const DISCOVERY_PORT: nat := 4445
  const DISCOVERY_GROUP: bytes := [224, 0, 2, 60]
  const UDP: byte := 17

  /** An IPv4 address; Option<Ip> where the program may hold no address, or one that is not IPv4. */
  type Ip = s: bytes | |s| == 4 witness [0, 0, 0, 0]

  // ---- reading a packet ----

  predicate IsIPv4(pkt: bytes)
  {
    |pkt| >= 20 && pkt[0] / 16 == 4
  }

  /** The header length the packet claims, in bytes. */
  function HeaderLength(pkt: bytes): nat
  {
    if pkt == [] then 0 else pkt[0] as nat % 16 * 4
  }

  predicate HasHeader(pkt: bytes)
  {
    IsIPv4(pkt) && 20 <= HeaderLength(pkt) <= |pkt|
  }

  /** The last four bytes of the header; the destination field when there are no options. */
  function IPv4Dst(pkt: bytes): Option<Ip>
  {
    if HasHeader(pkt) then Some(pkt[HeaderLength(pkt) - 4..HeaderLength(pkt)]) else None
  }

  /** The four bytes before those; the source field when there are no options. */
  function IPv4Src(pkt: bytes): Option<Ip>
  {
    if HasHeader(pkt) then Some(pkt[HeaderLength(pkt) - 8..HeaderLength(pkt) - 4]) else None
  }

  function UDPDestPort(pkt: bytes): nat
  {
    if !IsIPv4(pkt) then 0
    else
      var ihl := HeaderLength(pkt);
      if ihl + 8 > |pkt| || pkt[9] != UDP then 0 else pkt[ihl + 2] as nat * 256 + pkt[ihl + 3] as nat
  }

  predicate IsMulticast(ip: Ip)
  {
    ip[0] / 16 == 14
  }

  predicate IsDiscovery(pkt: bytes)
  {
    && UDPDestPort(pkt) == DISCOVERY_PORT
    && var dst := IPv4Dst(pkt);
       dst.Some? && (IsMulticast(dst.value) || dst.value == [255, 255, 255, 255])
  }

  predicate InVirtualSubnet(ip: Option<Ip>)
  {
    ip.Some? && ip.value[0] == 10 && ip.value[1] == 0 && ip.value[2] == 0
  }

  /**
   Without options, an advertisement is a UDP packet to port 4445 of a multicast address, 224.0.0.0 to
   239.255.255.255, or of the broadcast address.
   */
  lemma PlainDiscoveryIff(pkt: bytes)
    requires |pkt| >= 28 && pkt[0] == 0x45
    ensures IsDiscovery(pkt) <==>
              && pkt[9] == 17 && pkt[22] == 0x11 && pkt[23] == 0x5D
              && (224 <= pkt[16] <= 239 || pkt[16..20] == [255, 255, 255, 255])
  {
    assert pkt[16..20][0] == pkt[16];
  }

  /** The source field of section 3.1 of RFC 791, which is what a host that receives the packet sees. */
  function SourceField(pkt: bytes): Ip
    requires |pkt| >= 20
  {
    pkt[12..16]
  }

  // ---- readdressing ----

  function Rewritten(pkt: bytes, ip: Option<Ip>, dest: bool): (out: bytes)
    ensures |out| == |pkt|
  {
    if !HasHeader(pkt) || ip.None? then pkt
    else
      var lo := HeaderLength(pkt) - (if dest then 4 else 8);
      pkt[..lo] + ip.value + pkt[lo + 4..]
  }

  /** Both rewrites reach the address they name, and nothing else that is read from the packet. */
  lemma RewriteReads(pkt: bytes, ip: Ip, dest: bool)
    requires HasHeader(pkt)
    ensures var out := Rewritten(pkt, Some(ip), dest);
            && HasHeader(out) && UDPDestPort(out) == UDPDestPort(pkt)
            && IPv4Dst(out) == (if dest then Some(ip) else IPv4Dst(pkt))
            && IPv4Src(out) == (if dest then IPv4Src(pkt) else Some(ip))
  {
    var out, n := Rewritten(pkt, Some(ip), dest), HeaderLength(pkt);
    var lo := n - (if dest then 4 else 8);
    assert forall k :: 0 <= k < |pkt| ==> out[k] == if lo <= k < lo + 4 then ip[k - lo] else pkt[k];
    assert out[0] == pkt[0] && out[9] == pkt[9] && lo >= 12;
    assert dest ==> out[n - 4..n] == ip && out[n - 8..n - 4] == pkt[n - 8..n - 4];
    assert !dest ==> out[n - 8..n - 4] == ip && out[n - 4..n] == pkt[n - 4..n];
  }

  /** The source field itself is rewritten only in a header without options. */
  lemma SourceFieldAfterRewrite(pkt: bytes, ip: Ip)
    requires HasHeader(pkt)
    ensures SourceField(Rewritten(pkt, Some(ip), false)) ==
            if HeaderLength(pkt) == 20 then ip else SourceField(pkt)
  {
  }

  /** Putting the old source back undoes the rewrite. */
  lemma RewriteUndone(pkt: bytes, ip: Ip)
    requires HasHeader(pkt)
    ensures Rewritten(Rewritten(pkt, Some(ip), false), IPv4Src(pkt), false) == pkt
  {
  }

  method RewriteIPv4(pkt: bytes, ip: Option<Ip>, dest: bool) returns (out: bytes)
    ensures out == Rewritten(pkt, ip, dest)
  {
    var buf := new byte[|pkt|](_ => 0);
    Copy(buf, 0, pkt);
    assert buf[..] == pkt;
    if buf.Length < 20 || buf[0] / 16 != 4 {
      return buf[..];
    }
    var ihl := buf[0] as nat % 16 * 4;
    if ihl < 20 || ihl > buf.Length || ip.None? {
      return buf[..];
    }
    var lo := ihl - 8;
    if dest {
      lo := ihl - 4;
    }
    Copy(buf, lo, ip.value);
    out := buf[..];
  }

  // ---- the ones' complement checksum ----

  function Word(pkt: bytes, i: nat): nat
    requires i + 1 < |pkt|
  {
    pkt[i] as nat * 256 + pkt[i + 1] as nat
  }

  /** The sum of the 16-bit words of an even number of bytes. */
  function SumWords(h: bytes): nat
  {
    if |h| < 2 then 0 else Word(h, 0) + SumWords(h[2..])
  }

  lemma {:induction false} SumWordsJoin(a: bytes, b: bytes)
    requires |a| % 2 == 0
    ensures SumWords(a + b) == SumWords(a) + SumWords(b)
  {
    if a == [] {
      assert a + b == b;
    } else {
      SumWordsJoin(a[2..], b);
      assert (a + b)[2..] == a[2..] + b;
    }
  }

  lemma {:induction false} SumWordsBound(h: bytes)
    ensures SumWords(h) <= |h| / 2 * 65535
  {
    if |h| >= 2 { SumWordsBound(h[2..]); }
  }

  lemma SameRest(c: nat, q: nat)
    ensures (c + 65535 * q) % 65535 == c % 65535
  {
  }

  lemma CarryKeepsRest(sum: nat)
    ensures var carried := sum % LIMIT16 + sum / LIMIT16;
            && carried % 65535 == sum % 65535 && (carried == 0 <==> sum == 0)
            && (sum / LIMIT16 != 0 ==> carried < sum)
  {
    var q, c := sum / LIMIT16, sum % LIMIT16;
    assert sum == LIMIT16 * q + c;
    assert sum == (c + q) + 65535 * q;
    SameRest(c + q, q);
  }

  /** Carries added back in until the sum fits 16 bits: it keeps the sum modulo 65535, and only 0 folds to 0. */
  function Fold(sum: nat): (r: nat)
    ensures r < LIMIT16 && r % 65535 == sum % 65535 && (r == 0 <==> sum == 0)
  {
    if sum / LIMIT16 == 0 then sum
    else
      var carried := sum % LIMIT16 + sum / LIMIT16;
      CarryKeepsRest(sum);
      Fold(carried)
  }

  method FoldCarries(start: nat) returns (sum: nat)
    ensures sum == Fold(start)
  {
    sum := start;
    while sum / LIMIT16 != 0
      invariant Fold(sum) == Fold(start)
      decreases sum
    {
      sum := sum % LIMIT16 + sum / LIMIT16;
    }
  }

  lemma WholeMultiple(rest: nat, f: nat)
    requires f <= 65535 && f % 65535 == rest % 65535
    ensures (rest + (65535 - f)) % 65535 == 0
  {
    assert rest + (65535 - f) == 65535 * (1 + rest / 65535 - f / 65535);
  }

  /** A checksum that is the complement of the folded rest completes the sum to 0xFFFF. */
  lemma ComplementCompletes(rest: nat)
    ensures Fold(rest + (65535 - Fold(rest))) == 65535
  {
    hide Fold;
    var f := Fold(rest);
    WholeMultiple(rest, f);
    var total := rest + (65535 - f);
    assert total == 0 ==> rest == 0 && f == 65535;
    assert Fold(total) != 0 && Fold(total) % 65535 == 0;
  }

  // ---- building an advertisement ----

  /** The header of a packet with that payload, around a given checksum. */
  function Header(src: Ip, length: nat, checksum: nat): (h: bytes)
    ensures |h| == 20
  {
    [0x45, 0] + BigEndian(2, length) + [0, 0, 0, 0, 64, UDP] + BigEndian(2, checksum) + src + DISCOVERY_GROUP
  }

  function UdpHeader(length: nat): (h: bytes)
    ensures |h| == 8
  {
    BigEndian(2, DISCOVERY_PORT) + BigEndian(2, DISCOVERY_PORT) + BigEndian(2, length) + [0, 0]
  }

  /** The advertisement built around a payload; lengths keep their low 16 bits. */
  function Built(src: Ip, payload: bytes): bytes
  {
    var checksum := 65535 - Fold(SumWords(Header(src, 28 + |payload|, 0)));
    Header(src, 28 + |payload|, checksum) + UdpHeader(8 + |payload|) + payload
  }

  lemma HeaderSum(src: Ip, length: nat, checksum: nat)
    requires checksum < LIMIT16
    ensures SumWords(Header(src, length, checksum)) == SumWords(Header(src, length, 0)) + checksum
  {
    var a, b := [0x45, 0] + BigEndian(2, length) + [0, 0, 0, 0, 64, UDP], src + DISCOVERY_GROUP;
    forall c: nat | c < LIMIT16
      ensures SumWords(Header(src, length, c)) == SumWords(a) + c + SumWords(b)
    {
      assert Header(src, length, c) == a + (BigEndian(2, c) + b);
      SumWordsJoin(a, BigEndian(2, c) + b);
      SumWordsJoin(BigEndian(2, c), b);
      TwoBytes(c);
    }
  }

  /** The words of the header add up to 0xFFFF, as section 1 of RFC 1071 asks, whatever the payload. */
  lemma HeaderFoldsToOnes(src: Ip, payload: bytes)
    ensures Fold(SumWords(Built(src, payload)[..20])) == 0xFFFF
  {
    var length := 28 + |payload|;
    var rest := SumWords(Header(src, length, 0));
    var checksum := 65535 - Fold(rest);
    assert Built(src, payload)[..20] == Header(src, length, checksum);
    hide Fold, SumWords, Header, Built;
    HeaderSum(src, length, checksum);
    ComplementCompletes(rest);
  }

  /** Version 4, five words of header, hop limit 64, UDP, to 224.0.2.60, from port 4445 to port 4445. */
  lemma BuiltLayout(src: Ip, payload: bytes)
    ensures var pkt := Built(src, payload);
            && |pkt| >= 28 && pkt[..2] == [0x45, 0] && pkt[4..10] == [0, 0, 0, 0, 64, 17]
            && pkt[12..16] == src && pkt[16..20] == [224, 0, 2, 60]
            && pkt[20..24] == [0x11, 0x5D, 0x11, 0x5D] && pkt[26..28] == [0, 0] && pkt[28..] == payload
  {
    TwoBytes(4445);
    hide BigEndian;
  }

  lemma LowSixteen(n: nat)
    ensures n / 256 % 256 * 256 + n % 256 == n % LIMIT16
  {
  }

  /** Both length fields keep the low 16 bits. */
  lemma BuiltLengths(src: Ip, payload: bytes)
    ensures var pkt := Built(src, payload);
            |pkt| == 28 + |payload| && Word(pkt, 2) == |pkt| % LIMIT16 && Word(pkt, 24) == (8 + |payload|) % LIMIT16
  {
    TwoBytes(28 + |payload|);
    TwoBytes(8 + |payload|);
    hide BigEndian;
    var pkt := Built(src, payload);
    assert pkt[2..4] == BigEndian(2, 28 + |payload|) && pkt[24..26] == BigEndian(2, 8 + |payload|);
    assert pkt[2] == pkt[2..4][0] && pkt[3] == pkt[2..4][1] && pkt[24] == pkt[24..26][0] && pkt[25] == pkt[24..26][1];
    LowSixteen(28 + |payload|);
    LowSixteen(8 + |payload|);
  }

  lemma LayoutReads(pkt: bytes, src: Ip)
    requires |pkt| >= 28 && pkt[0] == 0x45 && pkt[9] == 17 && pkt[16] == 224
    requires pkt[12..16] == src && pkt[16..20] == DISCOVERY_GROUP && pkt[22] == 0x11 && pkt[23] == 0x5D
    ensures HasHeader(pkt) && HeaderLength(pkt) == 20 && SourceField(pkt) == src
    ensures IsDiscovery(pkt) && IPv4Src(pkt) == Some(src) && IPv4Dst(pkt) == Some(DISCOVERY_GROUP)
  {
  }

  lemma FitsSixteen(n: nat)
    ensures n < LIMIT16 <==> n % LIMIT16 == n
  {
  }

  /**
   The result is an advertisement from src, without options, whose own source field is src and whose
   payload is the one given; its length field is right when the packet is at most 65535 bytes long.
   */
  lemma BuiltReads(src: Ip, payload: bytes)
    ensures var pkt := Built(src, payload);
            && |pkt| == 28 + |payload| && pkt[28..] == payload
            && HasHeader(pkt) && HeaderLength(pkt) == 20 && SourceField(pkt) == src
            && IsDiscovery(pkt) && IPv4Src(pkt) == Some(src) && IPv4Dst(pkt) == Some(DISCOVERY_GROUP)
            && (|pkt| < LIMIT16 <==> Word(pkt, 2) == |pkt|)
            && (|pkt| < LIMIT16 ==> Word(pkt, 24) == 8 + |payload|)
  {
    hide Built, Word, HasHeader, HeaderLength, SourceField, IsDiscovery, IPv4Src, IPv4Dst;
    var pkt := Built(src, payload);
    BuiltLayout(src, payload);
    BuiltLengths(src, payload);
    assert pkt[0] == pkt[..2][0] && pkt[9] == pkt[4..10][5] && pkt[16] == pkt[16..20][0];
    assert pkt[22] == pkt[20..24][2] && pkt[23] == pkt[20..24][3];
    LayoutReads(pkt, src);
    FitsSixteen(|pkt|);
    FitsSixteen(8 + |payload|);
  }

  /** Everything from `at` on is still zero. */
  predicate Blank(s: bytes, at: nat)
  {
    forall k :: at <= k < |s| ==> s[k] == 0
  }

  /** Writes src where the blank part begins. */
  method PutNext(buf: array<byte>, at: nat, src: bytes)
    requires at + |src| <= buf.Length && Blank(buf[..], at)
    modifies buf
    ensures buf[..at + |src|] == old(buf[..at]) + src && Blank(buf[..], at + |src|)
  {
    ghost var before := buf[..];
    Copy(buf, at, src);
    assert buf[..] == before[..at] + src + before[at + |src|..];
    assert forall k :: at + |src| <= k < buf.Length ==> buf[..][k] == before[k];
  }

  /** Fills everything but the checksum. */
  method FillDiscovery(buf: array<byte>, src: Ip, payload: bytes)
    requires buf.Length == 28 + |payload| && Blank(buf[..], 0)
    modifies buf
    ensures buf[..] == Header(src, buf.Length, 0) + UdpHeader(8 + |payload|) + payload
  {
    hide BigEndian;
    PutNext(buf, 0, [0x45]);
    assert buf[..2] == [0x45, 0];
    PutNext(buf, 2, BigEndian(2, buf.Length));
    assert buf[..8] == buf[..4] + [0, 0, 0, 0];
    PutNext(buf, 8, [64]);
    PutNext(buf, 9, [UDP]);
    assert buf[..12] == buf[..10] + [0, 0];
    PutNext(buf, 12, src);
    PutNext(buf, 16, DISCOVERY_GROUP);
    TwoBytes(0);
    assert buf[..20] == Header(src, buf.Length, 0);
    PutNext(buf, 20, BigEndian(2, DISCOVERY_PORT));
    PutNext(buf, 22, BigEndian(2, DISCOVERY_PORT));
    PutNext(buf, 24, BigEndian(2, 8 + |payload|));
    assert buf[..28] == buf[..26] + [0, 0];
    assert buf[..28] == Header(src, buf.Length, 0) + UdpHeader(8 + |payload|);
    PutNext(buf, 28, payload);
    assert buf[..] == buf[..28 + |payload|];
  }

  /** The sum of the 16-bit words of the first 20 bytes. */
  method SumHeader(buf: array<byte>) returns (sum: nat)
    requires buf.Length >= 20
    ensures sum == SumWords(buf[..20]) < LIMIT32    // no uint32 overflow
  {
    SumWordsBound(buf[..20]);
    ghost var h := buf[..20];
    sum := 0;
    var i := 0;
    while i < 20
      invariant 0 <= i <= 20 && i % 2 == 0
      invariant sum + SumWords(h[i..]) == SumWords(h)
    {
      assert h[i] == buf[i] && h[i + 1] == buf[i + 1];
      assert h[i..][2..] == h[i + 2..];
      sum := sum + (buf[i] as nat * 256 + buf[i + 1] as nat);
      i := i + 2;
    }
  }

  lemma ChecksumGoesAt10(src: Ip, length: nat, checksum: nat, tail: bytes)
    ensures var s := Header(src, length, 0) + tail;
            s[..10] + BigEndian(2, checksum) + s[12..] == Header(src, length, checksum) + tail
  {
  }

  method BuildDiscovery(src: Option<Ip>, payload: bytes) returns (pkt: Option<bytes>)
    ensures pkt == (if src.Some? then Some(Built(src.value, payload)) else None)
  {
    if src.None? {
      return None;
    }
    var total := 28 + |payload|;
    var buf := new byte[total](_ => 0);
    FillDiscovery(buf, src.value, payload);
    assert buf[..20] == Header(src.value, total, 0);
    var sum := SumHeader(buf);
    sum := FoldCarries(sum);
    ghost var tail := UdpHeader(8 + |payload|) + payload;
    assert buf[..] == Header(src.value, total, 0) + tail;
    ChecksumGoesAt10(src.value, total, 65535 - sum, tail);
    Copy(buf, 10, BigEndian(2, 65535 - sum));
    assert Built(src.value, payload) == Header(src.value, total, 65535 - sum) + tail;
    return Some(buf[..]);
  }
}
