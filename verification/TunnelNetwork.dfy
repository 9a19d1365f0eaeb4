/**
 Any number of tunnels joined by a network that loses, repeats, reorders and misaddresses
 datagrams, but invents none. Every locked section of every tunnel is one step; steps of different
 tunnels, of the punch loops and of the relay interleave freely.
 */
module TunnelNetwork {
  import opened Wrappers
  import opened Bytes
  import opened Primitives
  import opened Sessions
  import opened KeyExchange
  import opened Frames
  import opened Tunnels

  /** A packet taken from an authenticated data frame, with the counter it was sealed under. */
  datatype Delivery = Delivery(ctr: u64, packet: bytes)

  datatype Net = Net(
    nodes: map<Id, TunnelState>,
    wire: set<bytes>,                            // every datagram written so far
    outbox: map<(Id, Id), seq<bytes>>,           // packets passed to SendData, by sender and target
    inbox: map<(Id, Id), seq<Delivery>>)         // packets accepted, by sender and target

  datatype Action =
    | SetFriends(node: Id, keys: seq<bytes>)
    | SetRelay(node: Id, relay: Addr)
    | SetForceRelay(node: Id, flag: bool)
    | SetDataSink(node: Id, flag: bool)
    | Connect(node: Id, peer: Id, candidates: seq<Addr>, newKey: Option<bytes>)
    | Punch(node: Id, peer: Id, viaRelay: bool)
    | PunchDeadline(node: Id, peer: Id, viaRelay: bool)
    | Announce(node: Id)
    | Send(node: Id, peer: Id, payload: bytes)
    | Deliver(node: Id, datagram: bytes, src: Addr)
    | Forward(relayed: bytes)

  function Sent(s: Net, a: Id, b: Id): seq<bytes>
  {
    if (a, b) in s.outbox then s.outbox[(a, b)] else []
  }

  function Received(s: Net, a: Id, b: Id): seq<Delivery>
  {
    if (a, b) in s.inbox then s.inbox[(a, b)] else []
  }

  function Written(sent: seq<Datagram>): set<bytes>
  {
    set d | d in sent :: d.data
  }

  function Put(s: Net, a: Id, e: Effect): Net
  {
    s.(nodes := s.nodes[a := e.tunnel], wire := s.wire + Written(e.sent))
  }

  function Reconfigured(s: Net, a: Id, t: TunnelState): Net
  {
    s.(nodes := s.nodes[a := t])
  }

  /** The packet a datagram makes node t accept, if any, with its sender. */
  function Accepted(suite: Suite, t: TunnelState, datagram: bytes): Option<(Id, Delivery)>
  {
    match ParseFrame(datagram)
    case None => None
    case Some(f) =>
      if f.target != t.myId || f.typ != DATA || f.sender !in t.peers || t.peers[f.sender].session.None? then None
      else
        match OpenStep(suite, t.peers[f.sender].session.value, PeerAad(f.sender, f.target), f.payload)
        case Err(_) => None
        case Ok((_, packet)) => Some((f.sender, Delivery(Counter(f.payload), packet)))
  }

  function StepSend(suite: Suite, s: Net, a: Id, b: Id, payload: bytes): Net
    requires a in s.nodes
  {
    match SendDataStep(suite, s.nodes[a], b, payload)
    case Err(_) => s
    case Ok(e) => Put(s, a, e).(outbox := s.outbox[(a, b) := Sent(s, a, b) + [payload]])
  }

  function StepDeliver(suite: Suite, s: Net, a: Id, datagram: bytes, src: Addr): Net
    requires a in s.nodes
  {
    var s' := Put(s, a, DatagramStep(suite, s.nodes[a], datagram, src));
    match Accepted(suite, s.nodes[a], datagram)
    case None => s'
    case Some((b, delivery)) => s'.(inbox := s.inbox[(b, a) := Received(s, b, a) + [delivery]])
  }

  function Step(suite: Suite, s: Net, action: Action): Net
  {
    if action.Forward? then
      match ParseRelay(action.relayed)
      case None => s
      case Some(env) => if action.relayed in s.wire then s.(wire := s.wire + {env.payload}) else s
    else if action.node !in s.nodes then s
    else
      var a, t := action.node, s.nodes[action.node];
      match action
      case SetFriends(_, keys) => Reconfigured(s, a, t.(friends := FriendKeys(keys)))
      case SetRelay(_, relay) => Reconfigured(s, a, t.(relayAddr := Some(relay)))
      case SetForceRelay(_, flag) => Reconfigured(s, a, t.(forceRelay := flag))
      case SetDataSink(_, flag) => Reconfigured(s, a, t.(hasSink := flag))
      case Connect(_, b, candidates, newKey) => Reconfigured(s, a, BeginConnectStep(suite, t, b, candidates, newKey))
      case Punch(_, b, viaRelay) =>
        if b in t.peers then Put(s, a, Effect(t, PunchRound(t, t.peers[b], b, viaRelay), [])) else s
      case PunchDeadline(_, b, viaRelay) =>
        if b in t.peers then Reconfigured(s, a, PutPeer(t, b, PunchExpired(t, t.peers[b], viaRelay))) else s
      case Announce(_) => Put(s, a, Effect(t, AnnounceStep(t), []))
      case Send(_, b, payload) => StepSend(suite, s, a, b, payload)
      case Deliver(_, datagram, src) => if datagram in s.wire then StepDeliver(suite, s, a, datagram, src) else s
  }

  /** Every tunnel has an identity and nothing has happened yet. */
  ghost predicate Initial(s: Net)
  {
    && (forall a :: a in s.nodes ==>
         && s.nodes[a].myId == a && |a| == ID_LENGTH
         && s.nodes[a].identity.Some? && s.nodes[a].peers == map[])
    && s.wire == {} && s.outbox == map[] && s.inbox == map[]
  }

  function Run(suite: Suite, s: Net, actions: seq<Action>): Net
  {
    if actions == [] then s
    else Step(suite, Run(suite, s, actions[..|actions| - 1]), actions[|actions| - 1])
  }

  // ---- the invariant ----

  ghost predicate Knows(s: Net, a: Id, b: Id)
  {
    a in s.nodes && b in s.nodes[a].peers
  }

  ghost predicate HasSession(s: Net, a: Id, b: Id)
  {
    Knows(s, a, b) && s.nodes[a].peers[b].session.Some?
  }

  function SessionOf(s: Net, a: Id, b: Id): SessionState
    requires HasSession(s, a, b)
  {
    s.nodes[a].peers[b].session.value
  }

  /** key is the one a derives from what b sends to a. */
  ghost predicate KeyedFor(suite: Suite, s: Net, a: Id, b: Id, key: bytes)
    requires Knows(s, a, b)
  {
    && s.nodes[a].identity.Some? && s.nodes[a].peers[b].eph.Some?
    && Knows(s, b, a) && s.nodes[b].identity.Some? && s.nodes[b].peers[a].eph.Some?
    && DeriveKey(suite, s.nodes[a].identity.value, s.nodes[a].peers[b].eph.value,
                 HandshakeOf(suite, s.nodes[b].identity.value, s.nodes[b].peers[a].eph.value)) == Ok(key)
  }

  function Counters(log: seq<Delivery>): set<u64>
  {
    set i | 0 <= i < |log| :: log[i].ctr
  }

  /** The delivery is packet n of those passed to SendData, sealed under counter n modulo 2^64. */
  ghost predicate WasSent(delivery: Delivery, sent: seq<bytes>, n: nat)
  {
    n < |sent| && delivery.ctr == n % LIMIT64 && delivery.packet == sent[n]
  }

  ghost predicate SentSomewhere(delivery: Delivery, sent: seq<bytes>)
  {
    exists n :: WasSent(delivery, sent, n)
  }

  ghost predicate Genuine(log: seq<Delivery>, sent: seq<bytes>)
  {
    forall i :: 0 <= i < |log| ==> SentSomewhere(log[i], sent)
  }

  ghost predicate IsHighest(log: seq<Delivery>, h: int)
  {
    (exists k :: 0 <= k < |log| && log[k].ctr == h) && (forall k :: 0 <= k < |log| ==> log[k].ctr <= h)
  }

  /**
   A counter occurs again only with an age limit of 64, and when it was exactly 64 behind the highest accepted
   before.
   */
  ghost predicate RepeatsOnlyAtEdge(limit: nat, log: seq<Delivery>)
  {
    forall i, j :: 0 <= i < j < |log| && log[i].ctr == log[j].ctr ==>
      limit == 64 && IsHighest(log[..j], log[j].ctr as int + 64)
  }

  /** Handshake, state and session of the entry fit together. */
  ghost predicate EntryOk(suite: Suite, s: Net, a: Id, b: Id)
    requires Knows(s, a, b) && s.nodes[a].identity.Some?
  {
    var p := s.nodes[a].peers[b];
    && p.handshake == (if p.eph.Some? then Some(HandshakeOf(suite, s.nodes[a].identity.value, p.eph.value)) else None)
    && (p.state == Connected ==> p.session.Some?)
    && (p.session.Some? ==> KeyedFor(suite, s, a, b, p.session.value.key))
  }

  /** The send counter counts the packets sent, and the window tracks the ones accepted. */
  ghost predicate TrafficOk(suite: Suite, s: Net, a: Id, b: Id)
  {
    && (HasSession(s, a, b) ==>
          && SessionOf(s, a, b).send == |Sent(s, a, b)| % LIMIT64
          && Tracks(SessionOf(s, a, b).window, Counters(Received(s, b, a))))
    && Genuine(Received(s, b, a), Sent(s, b, a))
    && RepeatsOnlyAtEdge(suite.replayWindow, Received(s, b, a))
  }

  ghost predicate PeerOk(suite: Suite, s: Net, a: Id, b: Id)
    requires Knows(s, a, b) && s.nodes[a].identity.Some?
  {
    EntryOk(suite, s, a, b) && TrafficOk(suite, s, a, b)
  }

  /** f carries packet n of its sender's, sealed under the sender's session key. */
  ghost predicate Seals(suite: Suite, s: Net, f: Frame, n: nat)
    requires HasSession(s, f.sender, f.target)
  {
    && n < |Sent(s, f.sender, f.target)|
    && f.payload == SealedPacket(suite, SessionOf(s, f.sender, f.target).key, n % LIMIT64,
                                 PeerAad(f.sender, f.target), Sent(s, f.sender, f.target)[n])
  }

  ghost predicate FrameOk(suite: Suite, s: Net, f: Frame)
  {
    && Knows(s, f.sender, f.target)
    && (f.typ == HELLO || f.typ == HELLO_ACK ==>
          f.payload == HandshakePayload(s.nodes[f.sender].peers[f.target]))
    && (f.typ == DATA ==> HasSession(s, f.sender, f.target) && exists n :: Seals(suite, s, f, n))
  }

  ghost predicate DatagramOk(suite: Suite, s: Net, d: bytes)
  {
    && (ParseFrame(d).Some? ==> FrameOk(suite, s, ParseFrame(d).value))
    && (ParseRelay(d).Some? ==>
          var inner := ParseRelay(d).value.payload;
          ParseRelay(inner) == None && (ParseFrame(inner).Some? ==> FrameOk(suite, s, ParseFrame(inner).value)))
  }

  /** Packets flow only where there is a session. */
  ghost predicate LogsOk(s: Net, a: Id, b: Id)
  {
    Sent(s, a, b) != [] || Received(s, b, a) != [] ==> HasSession(s, a, b)
  }

  ghost predicate NodeOk(suite: Suite, s: Net, a: Id)
    requires a in s.nodes
  {
    && s.nodes[a].myId == a && |a| == ID_LENGTH && s.nodes[a].identity.Some?
    && (forall b :: b in s.nodes[a].peers ==> PeerOk(suite, s, a, b))
    && forall b :: LogsOk(s, a, b)
  }

  ghost predicate Inv(suite: Suite, s: Net)
  {
    && (forall a :: a in s.nodes ==> NodeOk(suite, s, a))
    && (forall d :: d in s.wire ==> DatagramOk(suite, s, d))
  }

  // ---- what a step can only add to ----

  ghost predicate PeerExtends(p: Peer, p': Peer)
  {
    && p'.eph == p.eph && p'.handshake == p.handshake
    && (p.state == Connected ==> p'.state == Connected)
    && (p.session.Some? ==> p'.session.Some? && p'.session.value.key == p.session.value.key)
  }

  ghost predicate PairExtends(s: Net, s': Net, a: Id, b: Id)
  {
    && (Knows(s, a, b) ==> Knows(s', a, b) && PeerExtends(s.nodes[a].peers[b], s'.nodes[a].peers[b]))
    && Sent(s, a, b) <= Sent(s', a, b)
    && Received(s, a, b) <= Received(s', a, b)
  }

  ghost predicate Extends(s: Net, s': Net)
  {
    && s'.nodes.Keys == s.nodes.Keys
    && (forall a :: a in s.nodes ==>
          s'.nodes[a].identity == s.nodes[a].identity && s'.nodes[a].myId == s.nodes[a].myId)
    && forall a, b :: PairExtends(s, s', a, b)
  }

  lemma ExtendsByNode(s: Net, s': Net, a: Id)
    requires a in s.nodes && a in s'.nodes && s'.nodes == s.nodes[a := s'.nodes[a]]
    requires s'.nodes[a].identity == s.nodes[a].identity && s'.nodes[a].myId == s.nodes[a].myId
    requires forall b :: b in s.nodes[a].peers ==>
               b in s'.nodes[a].peers && PeerExtends(s.nodes[a].peers[b], s'.nodes[a].peers[b])
    requires forall c, d :: Sent(s, c, d) <= Sent(s', c, d) && Received(s, c, d) <= Received(s', c, d)
    ensures Extends(s, s')
  {
  }

  lemma ExtendsTransitive(s: Net, s': Net, s'': Net)
    requires Extends(s, s') && Extends(s', s'')
    ensures Extends(s, s'')
  {
    forall a, b
      ensures PairExtends(s, s'', a, b)
    {
      assert PairExtends(s, s', a, b) && PairExtends(s', s'', a, b);
    }
  }

  lemma FrameOkExtends(suite: Suite, s: Net, s': Net, f: Frame)
    requires FrameOk(suite, s, f) && Extends(s, s')
    ensures FrameOk(suite, s', f)
  {
    var a, b := f.sender, f.target;
    assert PairExtends(s, s', a, b);
    if f.typ == DATA {
      var n :| Seals(suite, s, f, n);
      assert Seals(suite, s', f, n);
    }
  }

  lemma DatagramOkExtends(suite: Suite, s: Net, s': Net, d: bytes)
    requires DatagramOk(suite, s, d) && Extends(s, s')
    ensures DatagramOk(suite, s', d)
  {
    if ParseFrame(d).Some? { FrameOkExtends(suite, s, s', ParseFrame(d).value); }
    if ParseRelay(d).Some? {
      var inner := ParseRelay(d).value.payload;
      if ParseFrame(inner).Some? { FrameOkExtends(suite, s, s', ParseFrame(inner).value); }
    }
  }

  lemma GenuineExtends(log: seq<Delivery>, sent: seq<bytes>, sent': seq<bytes>)
    requires Genuine(log, sent) && sent <= sent'
    ensures Genuine(log, sent')
  {
    forall i | 0 <= i < |log|
      ensures SentSomewhere(log[i], sent')
    {
      var n :| WasSent(log[i], sent, n);
      assert WasSent(log[i], sent', n);
    }
  }

  lemma ExtendsAt(s: Net, s': Net, a: Id, b: Id)
    requires Extends(s, s')
    ensures Knows(s, a, b) ==> Knows(s', a, b) && PeerExtends(s.nodes[a].peers[b], s'.nodes[a].peers[b])
    ensures a in s.nodes ==> a in s'.nodes && s'.nodes[a].identity == s.nodes[a].identity
    ensures Sent(s, a, b) <= Sent(s', a, b) && Received(s, a, b) <= Received(s', a, b)
  {
    assert PairExtends(s, s', a, b);
  }

  lemma KeyedForExtends(suite: Suite, s: Net, s': Net, a: Id, b: Id, key: bytes)
    requires Extends(s, s') && Knows(s, a, b) && KeyedFor(suite, s, a, b, key)
    ensures Knows(s', a, b) && KeyedFor(suite, s', a, b, key)
  {
    hide DeriveKey, Extends;
    ExtendsAt(s, s', a, b);
    ExtendsAt(s, s', b, a);
  }

  /** An entry whose handshake and session key stay is still in order. */
  lemma EntryOkExtends(suite: Suite, s: Net, s': Net, a: Id, b: Id)
    requires Extends(s, s') && Knows(s, a, b) && s.nodes[a].identity.Some? && EntryOk(suite, s, a, b)
    requires Knows(s', a, b) && (HasSession(s', a, b) ==> HasSession(s, a, b))
    requires s'.nodes[a].peers[b].state == Connected ==> HasSession(s, a, b)
    ensures s'.nodes[a].identity.Some? && EntryOk(suite, s', a, b)
  {
    hide KeyedFor, Extends;
    ExtendsAt(s, s', a, b);
    if HasSession(s, a, b) { KeyedForExtends(suite, s, s', a, b, SessionOf(s, a, b).key); }
  }

  /** A peer entry that a step does not touch stays in order. */
  lemma PeerOkExtends(suite: Suite, s: Net, s': Net, a: Id, b: Id)
    requires Extends(s, s') && Knows(s, a, b) && s.nodes[a].identity.Some? && PeerOk(suite, s, a, b)
    requires Knows(s', a, b) && s'.nodes[a].peers[b] == s.nodes[a].peers[b]
    requires Sent(s', a, b) == Sent(s, a, b) && Received(s', b, a) == Received(s, b, a)
    ensures s'.nodes[a].identity.Some? && PeerOk(suite, s', a, b)
  {
    hide Extends, KeyedFor, Genuine, Tracks, RepeatsOnlyAtEdge;
    ExtendsAt(s, s', b, a);
    GenuineExtends(Received(s, b, a), Sent(s, b, a), Sent(s', b, a));
    EntryOkExtends(suite, s, s', a, b);
  }

  /** Nothing but node a's entry for b, its configuration and the logs of the pair differs. */
  ghost predicate Local(s: Net, s': Net, a: Id, b: Id)
    requires a in s.nodes && s'.nodes.Keys == s.nodes.Keys
  {
    && (forall c :: c in s.nodes && c != a ==> s'.nodes[c] == s.nodes[c])
    && (forall c :: c in s'.nodes[a].peers && c != b ==>
          c in s.nodes[a].peers && s'.nodes[a].peers[c] == s.nodes[a].peers[c])
    && (forall c, d :: (c, d) != (a, b) ==> Sent(s', c, d) == Sent(s, c, d))
    && (forall c, d :: (c, d) != (b, a) ==> Received(s', c, d) == Received(s, c, d))
  }

  lemma LocalByNode(s: Net, s': Net, a: Id, b: Id)
    requires a in s.nodes && a in s'.nodes && s'.nodes == s.nodes[a := s'.nodes[a]]
    requires OnlyPeer(s.nodes[a], s'.nodes[a], b)
    requires forall c, d :: (c, d) != (a, b) ==> Sent(s', c, d) == Sent(s, c, d)
    requires forall c, d :: (c, d) != (b, a) ==> Received(s', c, d) == Received(s, c, d)
    ensures Local(s, s', a, b)
  {
  }

  lemma PairLocal(suite: Suite, s: Net, s': Net, a: Id, b: Id, c: Id, d: Id)
    requires Extends(s, s') && a in s.nodes && Local(s, s', a, b) && (c, d) != (a, b)
    requires c in s.nodes && NodeOk(suite, s, c)
    ensures Knows(s', c, d) ==> s'.nodes[c].identity.Some? && PeerOk(suite, s', c, d)
    ensures LogsOk(s', c, d)
  {
    assert LogsOk(s, c, d);
    hide Extends, PeerOk;
    ExtendsAt(s, s', c, d);
    if Knows(s', c, d) {
      assert Knows(s, c, d) && PeerOk(suite, s, c, d);
      PeerOkExtends(suite, s, s', c, d);
    }
  }

  /**
   A step that touches only node a's entry for b, and their logs, keeps the invariant if that entry and the
   new datagrams are in order.
   */
  lemma InvLocal(suite: Suite, s: Net, s': Net, a: Id, b: Id)
    requires Inv(suite, s) && Extends(s, s') && a in s.nodes && Local(s, s', a, b)
    requires Knows(s', a, b) ==> s'.nodes[a].identity.Some? && PeerOk(suite, s', a, b)
    requires LogsOk(s', a, b)
    requires forall d :: d in s'.wire ==> d in s.wire || DatagramOk(suite, s', d)
    ensures Inv(suite, s')
  {
    forall c | c in s'.nodes
      ensures NodeOk(suite, s', c)
    {
      hide PeerOk, LogsOk, Local, DatagramOk;
      assert NodeOk(suite, s, c);
      forall d
        ensures d in s'.nodes[c].peers ==> s'.nodes[c].identity.Some? && PeerOk(suite, s', c, d)
        ensures LogsOk(s', c, d)
      {
        if (c, d) != (a, b) { PairLocal(suite, s, s', a, b, c, d); }
      }
    }
    forall d | d in s'.wire
      ensures DatagramOk(suite, s', d)
    {
      hide Extends, DatagramOk;
      if d in s.wire { DatagramOkExtends(suite, s, s', d); }
    }
  }

  // ---- what the tunnel's steps write ----

  /** d is frame f, bare or in a relay envelope. */
  ghost predicate Carries(d: bytes, f: Frame)
  {
    if ParseFrame(d).Some? then ParseFrame(d) == Some(f) && ParseRelay(d) == None
    else
      && ParseRelay(d).Some?
      && ParseFrame(ParseRelay(d).value.payload) == Some(f)
      && ParseRelay(ParseRelay(d).value.payload) == None
  }

  lemma CarriedOk(suite: Suite, s: Net, d: bytes, f: Frame)
    requires Carries(d, f) && FrameOk(suite, s, f)
    ensures DatagramOk(suite, s, d)
  {
  }

  lemma FramedCarries(t: TunnelState, p: Peer, id: Id, typ: byte, payload: bytes)
    ensures forall d :: d in Written(Framed(t, p, id, typ, payload)) ==> Carries(d, Frame(typ, t.myId, id, payload))
  {
    if BuildFrame(typ, t.myId, id, payload).Some? {
      var data := BuildFrame(typ, t.myId, id, payload).value;
      ParseBuiltFrame(typ, t.myId, id, payload);
      if BuildRelay(t.myId, id, data).Some? { ParseBuiltRelay(t.myId, id, data); }
    }
  }

  lemma PunchCarries(t: TunnelState, p: Peer, id: Id, viaRelay: bool)
    ensures forall d :: d in Written(PunchRound(t, p, id, viaRelay)) ==>
              Carries(d, Frame(HELLO, t.myId, id, HandshakePayload(p)))
  {
    var payload := HandshakePayload(p);
    if BuildFrame(HELLO, t.myId, id, payload).Some? {
      var data := BuildFrame(HELLO, t.myId, id, payload).value;
      ParseBuiltFrame(HELLO, t.myId, id, payload);
      if BuildRelay(t.myId, id, data).Some? { ParseBuiltRelay(t.myId, id, data); }
    }
  }

  lemma AnnounceCarriesNothing(suite: Suite, s: Net, t: TunnelState)
    ensures forall d :: d in Written(AnnounceStep(t)) ==> DatagramOk(suite, s, d)
  {
  }

  lemma WrittenBoth(x: seq<Datagram>, y: seq<Datagram>)
    ensures Written(x + y) == Written(x) + Written(y)
  {
  }

  /** A control frame leaves the tunnel as it was and puts exactly that frame on the wire. */
  lemma ControlFrame(suite: Suite, t: TunnelState, id: Id, typ: byte, payload: bytes)
    requires id in t.peers && typ != DATA
    ensures SendStep(suite, t, id, typ, payload).tunnel == t
    ensures forall d :: d in Written(SendStep(suite, t, id, typ, payload).sent) ==>
              Carries(d, Frame(typ, t.myId, id, payload))
  {
    FramedCarries(t, t.peers[id], id, typ, payload);
  }

  // ---- every step keeps the invariant ----

  /** One entry of one node changes its path, state or session, and control frames about it go out. */
  lemma NodeFacts(suite: Suite, s: Net, a: Id, b: Id)
    requires Inv(suite, s) && a in s.nodes
    ensures NodeOk(suite, s, a) && LogsOk(s, a, b) && s.nodes[a].identity.Some?
  {
    assert NodeOk(suite, s, a);
    hide Inv, PeerOk;
  }

  lemma NodeIsOk(suite: Suite, s: Net, a: Id)
    requires Inv(suite, s) && a in s.nodes
    ensures NodeOk(suite, s, a) && s.nodes[a].identity.Some? && s.nodes[a].myId == a && |a| == ID_LENGTH
  {
    hide PeerOk, LogsOk, DatagramOk;
  }

  lemma WireIsOk(suite: Suite, s: Net, d: bytes)
    requires Inv(suite, s) && d in s.wire
    ensures DatagramOk(suite, s, d)
  {
    hide NodeOk, DatagramOk;
  }

  lemma NodePeer(suite: Suite, s: Net, a: Id, b: Id)
    requires Inv(suite, s) && Knows(s, a, b)
    ensures s.nodes[a].identity.Some? && PeerOk(suite, s, a, b)
  {
    assert NodeOk(suite, s, a);
    hide Inv, PeerOk;
  }

  lemma ReconfigureKeeps(suite: Suite, s: Net, a: Id, t': TunnelState, written: set<bytes>)
    requires Inv(suite, s) && a in s.nodes
    requires var t := s.nodes[a]; t'.peers == t.peers && t'.identity == t.identity && t'.myId == t.myId
    requires forall d :: d in written ==> DatagramOk(suite, s, d)
    ensures var s' := s.(nodes := s.nodes[a := t'], wire := s.wire + written); Inv(suite, s') && Extends(s, s')
  {
    var s' := s.(nodes := s.nodes[a := t'], wire := s.wire + written);
    hide Inv, NodeOk, PeerOk, DatagramOk, Extends;
    NodeFacts(suite, s, a, a);
    ExtendsByNode(s, s', a);
    if Knows(s, a, a) {
      NodePeer(suite, s, a, a);
      PeerOkExtends(suite, s, s', a, a);
    }
    forall d | d in written ensures DatagramOk(suite, s', d) { DatagramOkExtends(suite, s, s', d); }
    InvLocal(suite, s, s', a, a);
  }

  lemma SameNodeOk(suite: Suite, s: Net, s': Net, a: Id)
    requires Extends(s, s') && a in s.nodes && NodeOk(suite, s, a)
    requires s'.nodes == s.nodes && s'.outbox == s.outbox && s'.inbox == s.inbox
    ensures NodeOk(suite, s', a)
  {
    hide Extends, PeerOk;
    forall b | b in s.nodes[a].peers ensures PeerOk(suite, s', a, b) { PeerOkExtends(suite, s, s', a, b); }
    forall b ensures LogsOk(s', a, b) { assert LogsOk(s, a, b); }
  }

  lemma ForwardKeeps(suite: Suite, s: Net, relayed: bytes)
    requires Inv(suite, s)
    ensures var s' := Step(suite, s, Forward(relayed)); Inv(suite, s') && Extends(s, s')
  {
    var s' := Step(suite, s, Forward(relayed));
    assert Extends(s, s');
    if s' != s {
      assert DatagramOk(suite, s, relayed);
      var inner := ParseRelay(relayed).value.payload;
      assert DatagramOk(suite, s, inner);
      hide Extends, NodeOk, DatagramOk;
      forall a | a in s'.nodes ensures NodeOk(suite, s', a) { SameNodeOk(suite, s, s', a); }
      forall d | d in s'.wire ensures DatagramOk(suite, s', d) { DatagramOkExtends(suite, s, s', d); }
    }
  }

  lemma SameLogs(s: Net, s': Net)
    requires s'.outbox == s.outbox && s'.inbox == s.inbox
    ensures forall a, b :: Sent(s', a, b) == Sent(s, a, b) && Received(s', a, b) == Received(s, a, b)
  {
  }

  lemma NewPeerOk(suite: Suite, s: Net, a: Id, b: Id, t: TunnelState, candidates: seq<Addr>, newKey: Option<bytes>)
    requires Knows(s, a, b) && s.nodes[a].identity.Some?
    requires Sent(s, a, b) == [] && Received(s, b, a) == []
    requires t.identity == s.nodes[a].identity && s.nodes[a].peers[b] == NewPeer(suite, t, candidates, newKey)
    ensures PeerOk(suite, s, a, b)
  {
  }

  lemma NothingExtends(s: Net)
    ensures Extends(s, s)
  {
  }

  /** One entry of one node changed, and no log. */
  lemma EntryLocal(s: Net, s': Net, a: Id, b: Id)
    requires a in s.nodes && a in s'.nodes && s'.nodes == s.nodes[a := s'.nodes[a]]
             && OnlyPeer(s.nodes[a], s'.nodes[a], b)
    requires s'.outbox == s.outbox && s'.inbox == s.inbox && LogsOk(s, a, b) && b in s.nodes[a].peers
    requires PeerExtends(s.nodes[a].peers[b], s'.nodes[a].peers[b])
    ensures Extends(s, s') && Local(s, s', a, b) && LogsOk(s', a, b)
  {
    ExtendsByNode(s, s', a);
    LocalByNode(s, s', a, b);
    hide Extends, Local;
  }

  lemma ConnectKeeps(suite: Suite, s: Net, a: Id, b: Id, candidates: seq<Addr>, newKey: Option<bytes>)
    requires Inv(suite, s) && a in s.nodes
    ensures var s' := Reconfigured(s, a, BeginConnectStep(suite, s.nodes[a], b, candidates, newKey));
            Inv(suite, s') && Extends(s, s')
  {
    hide Inv, NodeOk, PeerOk, DatagramOk, Extends, NewPeer, Sent, Received;
    var s' := Reconfigured(s, a, BeginConnectStep(suite, s.nodes[a], b, candidates, newKey));
    NodeFacts(suite, s, a, b);
    SameLogs(s, s');
    if b in s.nodes[a].peers {
      assert s.nodes[a := s.nodes[a]] == s.nodes && s' == s;
      NothingExtends(s);
    } else {
      ExtendsByNode(s, s', a);
      NewPeerOk(suite, s', a, b, s.nodes[a], candidates, newKey);
      InvLocal(suite, s, s', a, b);
    }
  }

  lemma EntryKeeps(suite: Suite, s: Net, s': Net, a: Id, b: Id, frames: set<Frame>)
    requires Inv(suite, s) && Knows(s, a, b) && a in s'.nodes
    requires s'.nodes == s.nodes[a := s'.nodes[a]] && OnlyPeer(s.nodes[a], s'.nodes[a], b)
    requires s'.outbox == s.outbox && s'.inbox == s.inbox
    requires PeerExtends(s.nodes[a].peers[b], s'.nodes[a].peers[b])
    requires s'.nodes[a].identity.Some? && PeerOk(suite, s', a, b)
    requires forall f :: f in frames ==> f.sender == a && f.target == b && f.typ != DATA
    requires forall f :: f in frames && (f.typ == HELLO || f.typ == HELLO_ACK) ==>
               f.payload == HandshakePayload(s'.nodes[a].peers[b])
    requires forall d :: d in s'.wire ==> d in s.wire || exists f :: f in frames && Carries(d, f)
    ensures Inv(suite, s') && Extends(s, s')
  {
    hide Inv, NodeOk, LogsOk, Extends, PeerOk, DatagramOk, Carries, PeerExtends;
    NodeFacts(suite, s, a, b);
    EntryLocal(s, s', a, b);
    forall d | d in s'.wire && d !in s.wire
      ensures DatagramOk(suite, s', d)
    {
      var f :| f in frames && Carries(d, f);
      assert FrameOk(suite, s', f);
      CarriedOk(suite, s', d, f);
    }
    InvLocal(suite, s, s', a, b);
  }

  // ---- sending data ----

  function CountedUp(t: TunnelState, b: Id): TunnelState
    requires b in t.peers && t.peers[b].session.Some?
  {
    var session := t.peers[b].session.value;
    PutPeer(t, b, t.peers[b].(session := Some(session.(send := (session.send + 1) % LIMIT64))))
  }

  function NextSealed(suite: Suite, t: TunnelState, b: Id, payload: bytes): Frame
    requires b in t.peers && t.peers[b].session.Some?
  {
    var session := t.peers[b].session.value;
    Frame(DATA, t.myId, b, SealedPacket(suite, session.key, session.send, PeerAad(t.myId, b), payload))
  }

  /** A data frame for a peer with a session advances its send counter and goes out sealed. */
  lemma SealedFrame(suite: Suite, t: TunnelState, b: Id, payload: bytes)
    requires b in t.peers && t.peers[b].session.Some?
    ensures SendStep(suite, t, b, DATA, payload).tunnel == CountedUp(t, b)
    ensures forall d :: d in Written(SendStep(suite, t, b, DATA, payload).sent) ==>
              Carries(d, NextSealed(suite, t, b, payload))
  {
    var p := t.peers[b];
    var session := p.session.value;
    var sealed := SealedPacket(suite, session.key, session.send, PeerAad(t.myId, b), payload);
    FramedCarries(t, p.(session := Some(session.(send := (session.send + 1) % LIMIT64))), b, DATA, sealed);
  }

  lemma SendLogs(s: Net, s': Net, a: Id, b: Id, payload: bytes)
    requires s'.outbox == s.outbox[(a, b) := Sent(s, a, b) + [payload]] && s'.inbox == s.inbox
    ensures Sent(s', a, b) == Sent(s, a, b) + [payload]
    ensures forall c, d :: (c, d) != (a, b) ==> Sent(s', c, d) == Sent(s, c, d)
    ensures forall c, d :: Received(s', c, d) == Received(s, c, d)
    ensures forall c, d :: Sent(s, c, d) <= Sent(s', c, d)
  {
  }

  lemma SealedSendLocal(s: Net, s': Net, a: Id, b: Id, payload: bytes)
    requires HasSession(s, a, b) && s'.nodes == s.nodes[a := CountedUp(s.nodes[a], b)]
    requires s'.outbox == s.outbox[(a, b) := Sent(s, a, b) + [payload]] && s'.inbox == s.inbox
    ensures Local(s, s', a, b) && Extends(s, s')
    ensures Sent(s', a, b) == Sent(s, a, b) + [payload] && Received(s', b, a) == Received(s, b, a)
  {
    SendLogs(s, s', a, b, payload);
    LocalByNode(s, s', a, b);
    ExtendsByNode(s, s', a);
    hide Local, Extends;
  }

  lemma CounterSteps(n: nat)
    ensures (n % LIMIT64 + 1) % LIMIT64 == (n + 1) % LIMIT64
  {
  }

  lemma SentPeerOk(suite: Suite, s: Net, s': Net, a: Id, b: Id)
    requires Inv(suite, s) && HasSession(s, a, b) && Extends(s, s') && Knows(s', a, b) && s'.nodes[a].identity.Some?
    requires |Sent(s', a, b)| == |Sent(s, a, b)| + 1 && Received(s', b, a) == Received(s, b, a)
    requires var p := s.nodes[a].peers[b];
             s'.nodes[a].peers[b] == p.(session := Some(p.session.value.(send := (p.session.value.send + 1) % LIMIT64)))
    ensures PeerOk(suite, s', a, b)
  {
    hide Extends, KeyedFor, Genuine, Tracks, RepeatsOnlyAtEdge, Inv, NodeOk, Sent, Received;
    NodePeer(suite, s, a, b);
    ExtendsAt(s, s', b, a);
    GenuineExtends(Received(s, b, a), Sent(s, b, a), Sent(s', b, a));
    CounterSteps(|Sent(s, a, b)|);
    EntryOkExtends(suite, s, s', a, b);
    hide EntryOk;
  }

  lemma SentFrameOk(suite: Suite, s: Net, s': Net, f: Frame, payload: bytes)
    requires f.typ == DATA && HasSession(s, f.sender, f.target) && HasSession(s', f.sender, f.target)
    requires Sent(s', f.sender, f.target) == Sent(s, f.sender, f.target) + [payload]
    requires SessionOf(s', f.sender, f.target).key == SessionOf(s, f.sender, f.target).key
    requires f.payload == SealedPacket(suite, SessionOf(s, f.sender, f.target).key,
                            |Sent(s, f.sender, f.target)| % LIMIT64, PeerAad(f.sender, f.target), payload)
    ensures FrameOk(suite, s', f)
  {
    assert Seals(suite, s', f, |Sent(s, f.sender, f.target)|);
  }

  lemma SealedSendOk(suite: Suite, s: Net, s': Net, a: Id, b: Id, payload: bytes)
    requires Inv(suite, s) && HasSession(s, a, b) && Extends(s, s')
    requires s'.nodes == s.nodes[a := CountedUp(s.nodes[a], b)]
    requires Sent(s', a, b) == Sent(s, a, b) + [payload] && Received(s', b, a) == Received(s, b, a)
    ensures Knows(s', a, b) && s'.nodes[a].identity.Some? && PeerOk(suite, s', a, b)
    ensures FrameOk(suite, s', NextSealed(suite, s.nodes[a], b, payload)) && LogsOk(s', a, b)
  {
    assert PeerOk(suite, s, a, b) && NodeOk(suite, s, a);
    hide DatagramOk, SealedPacket, FrameOk, KeyedFor, Tracks, Genuine, RepeatsOnlyAtEdge, Inv, Extends;
    SentPeerOk(suite, s, s', a, b);
    hide PeerOk, EntryOk;
    SentFrameOk(suite, s, s', NextSealed(suite, s.nodes[a], b, payload), payload);
  }

  lemma SealedSendKeeps(suite: Suite, s: Net, s': Net, a: Id, b: Id, payload: bytes)
    requires Inv(suite, s) && HasSession(s, a, b)
    requires s'.nodes == s.nodes[a := CountedUp(s.nodes[a], b)]
    requires s'.outbox == s.outbox[(a, b) := Sent(s, a, b) + [payload]] && s'.inbox == s.inbox
    requires forall d :: d in s'.wire ==> d in s.wire || Carries(d, NextSealed(suite, s.nodes[a], b, payload))
    ensures Inv(suite, s') && Extends(s, s')
  {
    hide Inv, Extends, Local, PeerOk, LogsOk, DatagramOk, FrameOk, Carries, CountedUp, NextSealed, Sent, Received;
    SealedSendLocal(s, s', a, b, payload);
    SealedSendOk(suite, s, s', a, b, payload);
    forall d | d in s'.wire && d !in s.wire
      ensures DatagramOk(suite, s', d)
    {
      CarriedOk(suite, s', d, NextSealed(suite, s.nodes[a], b, payload));
    }
    InvLocal(suite, s, s', a, b);
  }

  lemma SendKeeps(suite: Suite, s: Net, a: Id, b: Id, payload: bytes)
    requires Inv(suite, s) && a in s.nodes
    ensures var s' := StepSend(suite, s, a, b, payload); Inv(suite, s') && Extends(s, s')
  {
    hide SendStep, Carries;
    if SendDataStep(suite, s.nodes[a], b, payload).Ok? {
      assert NodeOk(suite, s, a) && PeerOk(suite, s, a, b);
      hide PeerOk, Inv, Extends;
      SealedFrame(suite, s.nodes[a], b, payload);
      SealedSendKeeps(suite, s, StepSend(suite, s, a, b, payload), a, b, payload);
    }
  }

  // ---- receiving ----

  /** Both ends of a pair hold the same session key. */
  lemma KeyAgreement(suite: Suite, s: Net, a: Id, b: Id)
    requires suite.Lawful() && Inv(suite, s) && HasSession(s, a, b) && HasSession(s, b, a)
    ensures SessionOf(s, a, b).key == SessionOf(s, b, a).key
  {
    assert NodeOk(suite, s, a) && NodeOk(suite, s, b);
    assert PeerOk(suite, s, a, b) && PeerOk(suite, s, b, a);
    BothSidesDeriveSameKey(suite,
      s.nodes[a].identity.value, s.nodes[a].peers[b].eph.value,
      s.nodes[b].identity.value, s.nodes[b].peers[a].eph.value);
  }

  /** A session newly derived from a genuine hello or helloAck is keyed for its sender, whose static key was allowed. */
  lemma EstablishedOk(suite: Suite, s: Net, t: TunnelState, f: Frame)
    requires suite.Lawful() && Inv(suite, s) && FrameOk(suite, s, f) && Knows(s, f.target, f.sender)
    requires f.typ == HELLO || f.typ == HELLO_ACK
    requires t.identity == s.nodes[f.target].identity && t.identity.Some? && f.sender in t.peers
    requires t.peers[f.sender].eph == s.nodes[f.target].peers[f.sender].eph
    requires Establish(suite, t, f.sender, f.payload).Ok?
    ensures var a, b := f.target, f.sender;
            && s.nodes[b].identity.Some?
            && CheckPeerStatic(t, suite.publicKey(s.nodes[b].identity.value))
            && var t' := Establish(suite, t, b, f.payload).value;
            && t'.peers[b].session.Some?
            && var key := t'.peers[b].session.value.key;
            && t' == PutPeer(t, b, t.peers[b].(session := Some(SessionState(key, 0, EMPTY_WINDOW))))
            && KeyedFor(suite, s, a, b, key)
  {
  }

  /** The session of p' is p's, or a new one keyed for b. */
  ghost predicate SessionKeptOrNew(suite: Suite, s: Net, a: Id, b: Id, p': Peer)
    requires Knows(s, a, b)
  {
    var p := s.nodes[a].peers[b];
    || p'.session == p.session
    || (p.session.None? && p'.session.Some?
        && p'.session.value == SessionState(p'.session.value.key, 0, EMPTY_WINDOW)
        && KeyedFor(suite, s, a, b, p'.session.value.key))
  }

  /** A control frame may move the path, connect the peer and start a session. */
  ghost predicate ControlOutcome(suite: Suite, s: Net, a: Id, b: Id, t': TunnelState)
    requires Knows(s, a, b)
  {
    var p := s.nodes[a].peers[b];
    && OnlyPeer(s.nodes[a], t', b)
    && t'.peers[b].eph == p.eph && t'.peers[b].handshake == p.handshake
    && (p.state == Connected ==> t'.peers[b].state == Connected)
    && (t'.peers[b].state == Connected ==> p.state == Connected || t'.peers[b].session.Some?)
    && SessionKeptOrNew(suite, s, a, b, t'.peers[b])
  }

  lemma KeptSessionOk(suite: Suite, s: Net, s': Net, a: Id, b: Id)
    requires Extends(s, s') && Knows(s, a, b) && s.nodes[a].identity.Some? && PeerOk(suite, s, a, b) && Knows(s', a, b)
    requires s'.outbox == s.outbox && s'.inbox == s.inbox
    requires s'.nodes[a].peers[b].session == s.nodes[a].peers[b].session
    requires s'.nodes[a].peers[b].state == Connected ==> HasSession(s, a, b)
    ensures s'.nodes[a].identity.Some? && PeerOk(suite, s', a, b)
  {
    hide Extends, Genuine, RepeatsOnlyAtEdge, KeyedFor, Tracks;
    EntryOkExtends(suite, s, s', a, b);
    assert Sent(s', b, a) == Sent(s, b, a) && Received(s', b, a) == Received(s, b, a)
           && Sent(s', a, b) == Sent(s, a, b);
  }

  lemma NewSessionOk(suite: Suite, s: Net, s': Net, a: Id, b: Id, key: bytes)
    requires Extends(s, s') && Knows(s, a, b) && s.nodes[a].identity.Some? && EntryOk(suite, s, a, b) && Knows(s', a, b)
    requires Sent(s', a, b) == [] && Received(s', b, a) == []
    requires KeyedFor(suite, s, a, b, key)
    requires s'.nodes[a].peers[b].session == Some(SessionState(key, 0, EMPTY_WINDOW))
    ensures s'.nodes[a].identity.Some? && PeerOk(suite, s', a, b)
  {
    assert TrafficOk(suite, s', a, b) by {
      TracksNothing();
      assert Counters([]) == {};
    }
    hide TrafficOk, Extends, KeyedFor;
    ExtendsAt(s, s', a, b);
    KeyedForExtends(suite, s, s', a, b, key);
  }

  lemma ControlPeerOk(suite: Suite, s: Net, s': Net, a: Id, b: Id)
    requires Inv(suite, s) && Knows(s, a, b) && Extends(s, s') && Knows(s', a, b)
    requires s'.outbox == s.outbox && s'.inbox == s.inbox
    requires ControlOutcome(suite, s, a, b, s'.nodes[a])
    ensures s'.nodes[a].identity.Some? && PeerOk(suite, s', a, b)
  {
    assert NodeOk(suite, s, a) && PeerOk(suite, s, a, b) && LogsOk(s, a, b);
    hide Extends, TrafficOk, Inv, KeyedFor;
    var p' := s'.nodes[a].peers[b];
    if p'.session == s.nodes[a].peers[b].session {
      KeptSessionOk(suite, s, s', a, b);
    } else {
      NewSessionOk(suite, s, s', a, b, p'.session.value.key);
    }
  }

  lemma ControlExtends(suite: Suite, s: Net, s': Net, a: Id, b: Id)
    requires Knows(s, a, b) && a in s'.nodes
    requires s'.nodes == s.nodes[a := s'.nodes[a]] && ControlOutcome(suite, s, a, b, s'.nodes[a])
    requires s'.outbox == s.outbox && s'.inbox == s.inbox
    ensures PeerExtends(s.nodes[a].peers[b], s'.nodes[a].peers[b]) && Extends(s, s')
  {
    assert PeerExtends(s.nodes[a].peers[b], s'.nodes[a].peers[b]);
    ExtendsByNode(s, s', a);
    hide Extends;
  }

  lemma ControlKeeps(suite: Suite, s: Net, s': Net, a: Id, b: Id, frames: set<Frame>)
    requires Inv(suite, s) && Knows(s, a, b) && a in s'.nodes
    requires s'.nodes == s.nodes[a := s'.nodes[a]] && ControlOutcome(suite, s, a, b, s'.nodes[a])
    requires s'.outbox == s.outbox && s'.inbox == s.inbox
    requires forall f :: f in frames ==> f.sender == a && f.target == b && f.typ != DATA
    requires forall f :: f in frames && (f.typ == HELLO || f.typ == HELLO_ACK) ==>
               f.payload == HandshakePayload(s'.nodes[a].peers[b])
    requires forall d :: d in s'.wire ==> d in s.wire || exists f :: f in frames && Carries(d, f)
    ensures Inv(suite, s') && Extends(s, s')
  {
    hide Inv, PeerOk, Carries, HandshakePayload;
    ControlExtends(suite, s, s', a, b);
    hide Extends, PeerExtends;
    ControlPeerOk(suite, s, s', a, b);
    EntryKeeps(suite, s, s', a, b, frames);
  }

  lemma OutcomeKeepsHandshake(suite: Suite, s: Net, a: Id, b: Id, t: TunnelState)
    requires Knows(s, a, b) && ControlOutcome(suite, s, a, b, t)
    ensures b in t.peers && HandshakePayload(t.peers[b]) == HandshakePayload(s.nodes[a].peers[b])
  {
  }

  /** A control outcome and the frames that go with it keep the invariant. */
  lemma EffectKeeps(suite: Suite, s: Net, a: Id, b: Id, e: Effect, frames: set<Frame>)
    requires Inv(suite, s) && Knows(s, a, b) && ControlOutcome(suite, s, a, b, e.tunnel)
    requires forall f :: f in frames ==> f.sender == a && f.target == b && f.typ != DATA
    requires forall f :: f in frames && (f.typ == HELLO || f.typ == HELLO_ACK) ==>
               f.payload == HandshakePayload(s.nodes[a].peers[b])
    requires forall d :: d in Written(e.sent) ==> exists f :: f in frames && Carries(d, f)
    ensures Inv(suite, Put(s, a, e)) && Extends(s, Put(s, a, e))
  {
    hide Inv, Extends, ControlOutcome, Carries, HandshakePayload, Written;
    OutcomeKeepsHandshake(suite, s, a, b, e.tunnel);
    ControlKeeps(suite, s, Put(s, a, e), a, b, frames);
  }

  /** What a hello does once the peer's path is noted. */
  lemma HelloShape(suite: Suite, t: TunnelState, f: Frame)
    requires f.sender in t.peers && t.identity.Some?
    ensures var e := HelloStep(suite, t, f);
            match Handshaken(suite, t, f)
            case Err(_) => e == Effect(t, [], [])
            case Ok(t1) =>
              && e.tunnel == MarkConnected(t1, f.sender) && e.sunk == []
              && forall d :: d in Written(e.sent) ==>
                   || Carries(d, Frame(HELLO_ACK, t.myId, f.sender, HandshakePayload(t1.peers[f.sender])))
                   || Carries(d, Frame(PING, t.myId, f.sender, []))
  {
    if Handshaken(suite, t, f).Ok? {
      var t1 := Handshaken(suite, t, f).value;
      var t2 := MarkConnected(t1, f.sender);
      var ack := HandshakePayload(t1.peers[f.sender]);
      hide SendStep, Carries;
      ControlFrame(suite, t2, f.sender, HELLO_ACK, ack);
      ControlFrame(suite, t2, f.sender, PING, []);
      WrittenBoth(SendStep(suite, t2, f.sender, HELLO_ACK, ack).sent, SendStep(suite, t2, f.sender, PING, []).sent);
    }
  }

  lemma HelloAckShape(suite: Suite, t: TunnelState, f: Frame)
    requires f.sender in t.peers && t.identity.Some?
    ensures var e := HelloAckStep(suite, t, f);
            match Handshaken(suite, t, f)
            case Err(_) => e == Effect(t, [], [])
            case Ok(t1) =>
              && e.tunnel == MarkConnected(t1, f.sender) && e.sunk == []
              && forall d :: d in Written(e.sent) ==> Carries(d, Frame(PING, t.myId, f.sender, []))
  {
    if Handshaken(suite, t, f).Ok? {
      var t1 := Handshaken(suite, t, f).value;
      hide SendStep, Carries;
      ControlFrame(suite, MarkConnected(t1, f.sender), f.sender, PING, []);
      if t1.peers[f.sender].state == Connected {
        assert t1.peers[f.sender := t1.peers[f.sender]] == t1.peers;
      }
    }
  }

  /** Noting the path of a frame is a control outcome, whatever the frame. */
  lemma NotePathOutcome(suite: Suite, s: Net, a: Id, b: Id, src: Addr)
    requires Knows(s, a, b)
    ensures ControlOutcome(suite, s, a, b, NotePath(s.nodes[a], b, src))
  {
  }

  /**
   Putting an entry whose session is kept or new, and whose handshake and Connected state stay, is a control
   outcome.
   */
  lemma PutOutcome(suite: Suite, s: Net, a: Id, b: Id, t: TunnelState, q: Peer)
    requires Knows(s, a, b) && OnlyPeer(s.nodes[a], t, b)
    requires var p := s.nodes[a].peers[b];
             && q.eph == p.eph && q.handshake == p.handshake && q.session.Some?
             && (p.state == Connected ==> q.state == Connected)
    requires SessionKeptOrNew(suite, s, a, b, q)
    ensures ControlOutcome(suite, s, a, b, PutPeer(t, b, q))
  {
    hide SessionKeptOrNew;
  }

  /** The peer entry after a handshake frame was processed and the peer marked connected. */
  lemma HandshakenEntry(suite: Suite, s: Net, t: TunnelState, f: Frame)
    requires suite.Lawful() && Inv(suite, s) && FrameOk(suite, s, f) && Knows(s, f.target, f.sender)
    requires f.typ == HELLO || f.typ == HELLO_ACK
    requires t.identity == s.nodes[f.target].identity && t.identity.Some? && f.sender in t.peers
    requires t.peers[f.sender].eph == s.nodes[f.target].peers[f.sender].eph
    requires t.peers[f.sender].session == s.nodes[f.target].peers[f.sender].session
    requires Handshaken(suite, t, f).Ok?
    ensures var a, b := f.target, f.sender;
            var t1 := Handshaken(suite, t, f).value;
            && t1.peers[b].session.Some?
            && t1 == PutPeer(t, b, t.peers[b].(session := t1.peers[b].session))
            && SessionKeptOrNew(suite, s, a, b, t1.peers[b])
  {
    var t1 := Handshaken(suite, t, f).value;
    if t.peers[f.sender].session.None? {
      EstablishedOk(suite, s, t, f);
    } else {
      assert t.peers[f.sender := t.peers[f.sender]] == t.peers;
    }
    hide Establish, KeyedFor, Inv, FrameOk;
  }

  lemma HandshakenOutcome(suite: Suite, s: Net, t: TunnelState, f: Frame)
    requires suite.Lawful() && Inv(suite, s) && FrameOk(suite, s, f) && Knows(s, f.target, f.sender)
    requires f.typ == HELLO || f.typ == HELLO_ACK
    requires ControlOutcome(suite, s, f.target, f.sender, t) && t.identity.Some?
    requires t.peers[f.sender].session == s.nodes[f.target].peers[f.sender].session
    requires Handshaken(suite, t, f).Ok?
    ensures var t1 := Handshaken(suite, t, f).value;
            && ControlOutcome(suite, s, f.target, f.sender, MarkConnected(t1, f.sender))
            && HandshakePayload(t1.peers[f.sender]) == HandshakePayload(t.peers[f.sender])
  {
    hide Inv, FrameOk, Handshaken, KeyedFor;
    HandshakenEntry(suite, s, t, f);
    var t1 := Handshaken(suite, t, f).value;
    PutOutcome(suite, s, f.target, f.sender, t1, t1.peers[f.sender].(state := Connected));
  }

  lemma NotePathKeeps(t: TunnelState, b: Id, src: Addr)
    requires b in t.peers
    ensures var t' := NotePath(t, b, src);
            && OnlyPeer(t, t', b) && t'.hasSink == t.hasSink
            && t'.peers[b] == t.peers[b].(remote := t'.peers[b].remote, relayed := t'.peers[b].relayed)
  {
  }

  /** A hello or helloAck leaves a control outcome and writes nothing but an acknowledgement and a ping. */
  lemma HandshakeFrameOutcome(suite: Suite, s: Net, f: Frame, src: Addr)
    requires suite.Lawful() && Inv(suite, s) && FrameOk(suite, s, f) && Knows(s, f.target, f.sender)
    requires f.typ == HELLO || f.typ == HELLO_ACK
    requires s.nodes[f.target].identity.Some? && s.nodes[f.target].myId == f.target
    ensures var a, b := f.target, f.sender;
            var e := HandleFrameStep(suite, s.nodes[a], f, src);
            && ControlOutcome(suite, s, a, b, e.tunnel) && e.sunk == []
            && forall d :: d in Written(e.sent) ==>
                 || Carries(d, Frame(HELLO_ACK, a, b, HandshakePayload(s.nodes[a].peers[b])))
                 || Carries(d, Frame(PING, a, b, []))
  {
    var a, b := f.target, f.sender;
    var t := NotePath(s.nodes[a], b, src);
    hide Inv, FrameOk, Carries, HelloStep, HelloAckStep, Handshaken, SessionKeptOrNew;
    NotePathOutcome(suite, s, a, b, src);
    NotePathKeeps(s.nodes[a], b, src);
    hide NotePath;
    if f.typ == HELLO { HelloShape(suite, t, f); } else { HelloAckShape(suite, t, f); }
    if Handshaken(suite, t, f).Ok? {
      HandshakenOutcome(suite, s, t, f);
    }
    hide ControlOutcome, MarkConnected, OnlyPeer;
  }

  /** Delivering a hello or helloAck keeps the invariant. */
  lemma DeliverHandshakeKeeps(suite: Suite, s: Net, f: Frame, src: Addr)
    requires suite.Lawful() && Inv(suite, s) && FrameOk(suite, s, f) && Knows(s, f.target, f.sender)
    requires f.typ == HELLO || f.typ == HELLO_ACK
    ensures var e := HandleFrameStep(suite, s.nodes[f.target], f, src);
            var s' := Put(s, f.target, e);
            Inv(suite, s') && Extends(s, s') && e.sunk == []
  {
    var a, b := f.target, f.sender;
    hide Inv, NodeOk, Extends, FrameOk, Carries, HandleFrameStep, ControlOutcome;
    hide HandshakePayload, Put, Written, Suite.Lawful;
    var e := HandleFrameStep(suite, s.nodes[a], f, src);
    NodeIsOk(suite, s, a);
    HandshakeFrameOutcome(suite, s, f, src);
    var ack, ping := Frame(HELLO_ACK, a, b, HandshakePayload(s.nodes[a].peers[b])), Frame(PING, a, b, []);
    EffectKeeps(suite, s, a, b, e, {ack, ping});
  }

  /** A ping is answered, a pong or unknown frame only noted. */
  lemma DeliverProbeKeeps(suite: Suite, s: Net, f: Frame, src: Addr)
    requires Inv(suite, s) && Knows(s, f.target, f.sender)
    requires f.typ != HELLO && f.typ != HELLO_ACK && f.typ != DATA
    ensures var e := HandleFrameStep(suite, s.nodes[f.target], f, src);
            var s' := Put(s, f.target, e);
            Inv(suite, s') && Extends(s, s') && e.sunk == []
  {
    var a, b := f.target, f.sender;
    var t := NotePath(s.nodes[a], b, src);
    hide Inv, NodeOk, Extends, Carries, SendStep, NotePath, ControlOutcome, Put;
    NodeIsOk(suite, s, a);
    NotePathOutcome(suite, s, a, b, src);
    if f.typ == PING { ControlFrame(suite, t, b, PONG, []); }
    EffectKeeps(suite, s, a, b, HandleFrameStep(suite, s.nodes[a], f, src), {Frame(PONG, a, b, [])});
  }

  /** Delivering a control frame keeps the invariant. */
  lemma DeliverControlKeeps(suite: Suite, s: Net, f: Frame, src: Addr)
    requires suite.Lawful() && Inv(suite, s) && FrameOk(suite, s, f) && Knows(s, f.target, f.sender)
    requires f.typ != DATA
    ensures var e := HandleFrameStep(suite, s.nodes[f.target], f, src);
            var s' := Put(s, f.target, e);
            Inv(suite, s') && Extends(s, s') && e.sunk == []
  {
    hide Inv, Extends, FrameOk, HandleFrameStep;
    if f.typ == HELLO || f.typ == HELLO_ACK {
      DeliverHandshakeKeeps(suite, s, f, src);
    } else {
      DeliverProbeKeeps(suite, s, f, src);
    }
  }

  // ---- data frames ----

  /** What a genuine data frame does: its packet is accepted if and only if the window admits its counter. */
  lemma GenuineDataOpens(suite: Suite, s: Net, f: Frame, n: nat)
    requires suite.Lawful() && Inv(suite, s) && f.typ == DATA
    requires HasSession(s, f.sender, f.target) && HasSession(s, f.target, f.sender) && Seals(suite, s, f, n)
    ensures var session := SessionOf(s, f.target, f.sender);
            && |f.payload| >= 8 && Counter(f.payload) == n % LIMIT64
            && OpenStep(suite, session, PeerAad(f.sender, f.target), f.payload) ==
                 match Receive(suite.replayWindow, session.window, n % LIMIT64)
                 case Ok(w) => Ok((session.(window := w), Sent(s, f.sender, f.target)[n]))
                 case Err(e) => Err(e)
  {
    KeyAgreement(suite, s, f.sender, f.target);
    hide Inv;
    OpenSealed(suite, SessionOf(s, f.target, f.sender), n % LIMIT64,
               PeerAad(f.sender, f.target), Sent(s, f.sender, f.target)[n]);
  }

  lemma CountersGrow(log: seq<Delivery>, d: Delivery)
    ensures Counters(log + [d]) == Counters(log) + {d.ctr}
  {
    var longer := log + [d];
    assert longer[|log|] == d;
    forall c | c in Counters(log) + {d.ctr}
      ensures c in Counters(longer)
    {
      if c != d.ctr {
        var i :| 0 <= i < |log| && log[i].ctr == c;
        assert longer[i].ctr == c;
      }
    }
  }

  /** One more delivery, at a counter that was new or 64 behind, keeps the account of repeats. */
  lemma RepeatsGrow(limit: nat, log: seq<Delivery>, window: Window, d: Delivery)
    requires limit <= 64 && RepeatsOnlyAtEdge(limit, log) && Tracks(window, Counters(log))
    requires Receive(limit, window, d.ctr).Ok?
    ensures RepeatsOnlyAtEdge(limit, log + [d])
  {
    var longer := log + [d];
    forall i, j | 0 <= i < j < |longer| && longer[i].ctr == longer[j].ctr
      ensures limit == 64 && IsHighest(longer[..j], longer[j].ctr as int + 64)
    {
      if j < |log| {
        assert longer[..j] == log[..j];
      } else {
        assert longer[..j] == log && log[i].ctr in Counters(log);
        AcceptedAgain(window, Counters(log), d.ctr);
        assert window.recv in Counters(log);
        forall k | 0 <= k < |log| ensures log[k].ctr <= window.recv {
          assert log[k].ctr in Counters(log);
        }
      }
    }
  }

  lemma TrafficAccepts(suite: Suite, s: Net, s': Net, a: Id, b: Id, d: Delivery, n: nat)
    requires suite.Lawful() && TrafficOk(suite, s, a, b) && HasSession(s, a, b) && HasSession(s', a, b)
    requires Receive(suite.replayWindow, SessionOf(s, a, b).window, d.ctr).Ok?
    requires SessionOf(s', a, b) ==
               SessionOf(s, a, b).(window := Receive(suite.replayWindow, SessionOf(s, a, b).window, d.ctr).value)
    requires Sent(s', a, b) == Sent(s, a, b) && Sent(s', b, a) == Sent(s, b, a)
    requires Received(s', b, a) == Received(s, b, a) + [d] && WasSent(d, Sent(s, b, a), n)
    ensures TrafficOk(suite, s', a, b)
  {
    var log, window := Received(s, b, a), SessionOf(s, a, b).window;
    CountersGrow(log, d);
    ReceiveRefines(suite.replayWindow, window, Counters(log), d.ctr);
    RepeatsGrow(suite.replayWindow, log, window, d);
    assert SentSomewhere(d, Sent(s, b, a));
  }

  /** The entry a data frame leaves behind: its path noted and its session's window moved. */
  ghost predicate DataOutcome(s: Net, a: Id, b: Id, t': TunnelState, window: Window)
    requires HasSession(s, a, b)
  {
    var p := s.nodes[a].peers[b];
    && OnlyPeer(s.nodes[a], t', b)
    && t'.peers[b].eph == p.eph && t'.peers[b].handshake == p.handshake && t'.peers[b].state == p.state
    && t'.peers[b].session == Some(p.session.value.(window := window))
  }

  lemma AcceptLogs(s: Net, s': Net, a: Id, b: Id, d: Delivery)
    requires s'.outbox == s.outbox && s'.inbox == s.inbox[(b, a) := Received(s, b, a) + [d]]
    ensures forall c, e :: Sent(s', c, e) == Sent(s, c, e)
    ensures Received(s', b, a) == Received(s, b, a) + [d]
    ensures forall c, e :: (c, e) != (b, a) ==> Received(s', c, e) == Received(s, c, e)
    ensures forall c, e :: Received(s, c, e) <= Received(s', c, e)
  {
  }

  lemma AcceptEntry(suite: Suite, s: Net, s': Net, a: Id, b: Id)
    requires Extends(s, s') && HasSession(s, a, b) && HasSession(s', a, b)
    requires s.nodes[a].identity.Some? && EntryOk(suite, s, a, b) && TrafficOk(suite, s', a, b)
    ensures s'.nodes[a].identity.Some? && PeerOk(suite, s', a, b) && LogsOk(s', a, b)
  {
    hide Extends, TrafficOk;
    EntryOkExtends(suite, s, s', a, b);
  }

  lemma AcceptKeeps(suite: Suite, s: Net, s': Net, a: Id, b: Id, d: Delivery, n: nat)
    requires suite.Lawful() && Inv(suite, s) && HasSession(s, a, b) && a in s'.nodes
    requires Receive(suite.replayWindow, SessionOf(s, a, b).window, d.ctr).Ok? && WasSent(d, Sent(s, b, a), n)
    requires s'.nodes == s.nodes[a := s'.nodes[a]] && s'.wire == s.wire && s'.outbox == s.outbox
    requires s'.inbox == s.inbox[(b, a) := Received(s, b, a) + [d]]
    requires DataOutcome(s, a, b, s'.nodes[a], Receive(suite.replayWindow, SessionOf(s, a, b).window, d.ctr).value)
    ensures Inv(suite, s') && Extends(s, s')
  {
    hide Inv, NodeOk, Receive, DatagramOk, KeyedFor, TrafficOk, EntryOk, Extends, Local, Sent, Received, Suite.Lawful;
    NodePeer(suite, s, a, b);
    AcceptLogs(s, s', a, b, d);
    assert Local(s, s', a, b) && Extends(s, s') by {
      LocalByNode(s, s', a, b);
      ExtendsByNode(s, s', a);
    }
    TrafficAccepts(suite, s, s', a, b, d, n);
    AcceptEntry(suite, s, s', a, b);
    hide PeerOk, LogsOk;
    InvLocal(suite, s, s', a, b);
  }

  lemma OpenedOutcome(suite: Suite, s: Net, f: Frame, src: Addr)
    requires f.typ == DATA && HasSession(s, f.target, f.sender)
    ensures var a, b := f.target, f.sender;
            var e := HandleFrameStep(suite, s.nodes[a], f, src);
            && e.sent == []
            && match OpenStep(suite, SessionOf(s, a, b), PeerAad(b, a), f.payload)
               case Ok((session, packet)) =>
                 (session == SessionOf(s, a, b).(window := session.window) ==>
                    DataOutcome(s, a, b, e.tunnel, session.window))
                 && e.sunk == ToSink(s.nodes[a], packet)
               case Err(_) => ControlOutcome(suite, s, a, b, e.tunnel) && e.sunk == []
  {
  }

  lemma DataFrameShape(suite: Suite, s: Net, f: Frame, src: Addr, n: nat)
    requires suite.Lawful() && Inv(suite, s) && f.typ == DATA
    requires HasSession(s, f.sender, f.target) && HasSession(s, f.target, f.sender) && Seals(suite, s, f, n)
    ensures var a, b := f.target, f.sender;
            var e := HandleFrameStep(suite, s.nodes[a], f, src);
            && n < |Sent(s, b, a)| && e.sent == []
            && match Receive(suite.replayWindow, SessionOf(s, a, b).window, n % LIMIT64)
               case Ok(w) => DataOutcome(s, a, b, e.tunnel, w) && e.sunk == ToSink(s.nodes[a], Sent(s, b, a)[n])
               case Err(_) => ControlOutcome(suite, s, a, b, e.tunnel) && e.sunk == []
  {
    GenuineDataOpens(suite, s, f, n);
    hide Inv, Suite.Lawful, HandleFrameStep, OpenStep, Receive, ControlOutcome, DataOutcome;
    OpenedOutcome(suite, s, f, src);
  }

  /** A data frame the window admits logs exactly the packet it was sealed for; any other changes only the path. */
  lemma DeliverDataKeeps(suite: Suite, s: Net, f: Frame, src: Addr, n: nat)
    requires suite.Lawful() && Inv(suite, s) && f.typ == DATA
    requires HasSession(s, f.sender, f.target) && HasSession(s, f.target, f.sender) && Seals(suite, s, f, n)
    ensures var a, b := f.target, f.sender;
            var e := HandleFrameStep(suite, s.nodes[a], f, src);
            var s' := Put(s, a, e);
            var d := Delivery(n % LIMIT64, Sent(s, b, a)[n]);
            if Receive(suite.replayWindow, SessionOf(s, a, b).window, n % LIMIT64).Ok? then
              var s'' := s'.(inbox := s.inbox[(b, a) := Received(s, b, a) + [d]]);
              Inv(suite, s'') && Extends(s, s'') && e.sunk == ToSink(s.nodes[a], d.packet)
            else Inv(suite, s') && Extends(s, s') && e.sunk == []
  {
    hide Inv, Extends, HandleFrameStep, Receive, Seals, Suite.Lawful, DataOutcome, ControlOutcome;
    var a, b := f.target, f.sender;
    var e := HandleFrameStep(suite, s.nodes[a], f, src);
    DataFrameShape(suite, s, f, src, n);
    if Receive(suite.replayWindow, SessionOf(s, a, b).window, n % LIMIT64).Ok? {
      var d := Delivery(n % LIMIT64, Sent(s, b, a)[n]);
      AcceptKeeps(suite, s, Put(s, a, e).(inbox := s.inbox[(b, a) := Received(s, b, a) + [d]]), a, b, d, n);
    } else {
      ControlKeeps(suite, s, Put(s, a, e), a, b, {});
    }
  }

  // ---- all steps together ----

  /** The sink gets the accepted packet and nothing else. */
  ghost predicate SinkGetsAccepted(suite: Suite, s: Net, a: Id, datagram: bytes, src: Addr)
    requires a in s.nodes
  {
    DatagramStep(suite, s.nodes[a], datagram, src).sunk ==
      match Accepted(suite, s.nodes[a], datagram)
      case None => []
      case Some((_, d)) => ToSink(s.nodes[a], d.packet)
  }

  /** Without a session a data frame is dropped; only its path is noted. */
  lemma NoSessionDrops(suite: Suite, s: Net, f: Frame, src: Addr)
    requires Inv(suite, s) && f.typ == DATA && Knows(s, f.target, f.sender) && !HasSession(s, f.target, f.sender)
    ensures var e := HandleFrameStep(suite, s.nodes[f.target], f, src);
            var s' := Put(s, f.target, e);
            Inv(suite, s') && Extends(s, s') && e.sunk == []
  {
    var a := f.target;
    var e := HandleFrameStep(suite, s.nodes[a], f, src);
    assert NodeOk(suite, s, a);
    NotePathOutcome(suite, s, a, f.sender, src);
    hide Inv, Extends;
    ControlKeeps(suite, s, Put(s, a, e), a, f.sender, {});
  }

  lemma DeliverDataFrame(suite: Suite, s: Net, datagram: bytes, f: Frame, src: Addr)
    requires suite.Lawful() && Inv(suite, s) && FrameOk(suite, s, f) && f.typ == DATA && Knows(s, f.target, f.sender)
    requires ParseFrame(datagram) == Some(f) && s.nodes[f.target].myId == f.target
    ensures var s' := StepDeliver(suite, s, f.target, datagram, src); Inv(suite, s') && Extends(s, s')
    ensures SinkGetsAccepted(suite, s, f.target, datagram, src)
  {
    hide Inv, Extends, HandleFrameStep, OpenStep, Receive, Seals, Suite.Lawful;
    if HasSession(s, f.target, f.sender) {
      var n :| Seals(suite, s, f, n);
      GenuineDataOpens(suite, s, f, n);
      DeliverDataKeeps(suite, s, f, src, n);
    } else {
      NoSessionDrops(suite, s, f, src);
    }
  }

  /** A datagram that is no frame, is meant for another connection, or comes from a stranger. */
  lemma DeliverNothing(suite: Suite, s: Net, a: Id, datagram: bytes, src: Addr)
    requires Inv(suite, s) && a in s.nodes && s.nodes[a].myId == a
    requires ParseFrame(datagram).None? || ParseFrame(datagram).value.target != a
             || ParseFrame(datagram).value.sender !in s.nodes[a].peers
    ensures var s' := StepDeliver(suite, s, a, datagram, src); Inv(suite, s') && Extends(s, s')
    ensures SinkGetsAccepted(suite, s, a, datagram, src)
  {
    hide Inv, Extends, DatagramOk;
    assert Written([]) == {};
    ReconfigureKeeps(suite, s, a, s.nodes[a], {});
  }

  lemma DeliverControlFrame(suite: Suite, s: Net, datagram: bytes, f: Frame, src: Addr)
    requires suite.Lawful() && Inv(suite, s) && FrameOk(suite, s, f) && f.typ != DATA && Knows(s, f.target, f.sender)
    requires ParseFrame(datagram) == Some(f) && s.nodes[f.target].myId == f.target
    ensures var s' := StepDeliver(suite, s, f.target, datagram, src); Inv(suite, s') && Extends(s, s')
    ensures SinkGetsAccepted(suite, s, f.target, datagram, src)
  {
    hide Inv, Extends, HandleFrameStep, FrameOk;
    DeliverControlKeeps(suite, s, f, src);
  }

  lemma DeliverKeeps(suite: Suite, s: Net, a: Id, datagram: bytes, src: Addr)
    requires suite.Lawful() && Inv(suite, s) && a in s.nodes && datagram in s.wire
    ensures var s' := StepDeliver(suite, s, a, datagram, src); Inv(suite, s') && Extends(s, s')
    ensures SinkGetsAccepted(suite, s, a, datagram, src)
  {
    assert DatagramOk(suite, s, datagram) && NodeOk(suite, s, a);
    var f := ParseFrame(datagram);
    if f.None? || f.value.target != a || f.value.sender !in s.nodes[a].peers {
      hide Inv, Extends, SinkGetsAccepted, StepDeliver, FrameOk;
      DeliverNothing(suite, s, a, datagram, src);
    } else {
      hide Inv, Extends, SinkGetsAccepted, StepDeliver, FrameOk, PeerOk, LogsOk;
      if f.value.typ == DATA {
        DeliverDataFrame(suite, s, datagram, f.value, src);
      } else {
        DeliverControlFrame(suite, s, datagram, f.value, src);
      }
    }
  }

  lemma PunchKeeps(suite: Suite, s: Net, a: Id, b: Id, viaRelay: bool)
    requires Inv(suite, s) && Knows(s, a, b)
    ensures var s' := Put(s, a, Effect(s.nodes[a], PunchRound(s.nodes[a], s.nodes[a].peers[b], b, viaRelay), []));
            Inv(suite, s') && Extends(s, s')
  {
    var t := s.nodes[a];
    var round := PunchRound(t, t.peers[b], b, viaRelay);
    var f := Frame(HELLO, a, b, HandshakePayload(t.peers[b]));
    assert NodeOk(suite, s, a);
    PunchCarries(t, t.peers[b], b, viaRelay);
    hide Carries, Inv, Extends, PunchRound, DatagramOk;
    forall d | d in Written(round)
      ensures DatagramOk(suite, s, d)
    {
      CarriedOk(suite, s, d, f);
    }
    ReconfigureKeeps(suite, s, a, t, Written(round));
  }

  lemma ExpiredOutcome(suite: Suite, s: Net, a: Id, b: Id, viaRelay: bool)
    requires Knows(s, a, b)
    ensures ControlOutcome(suite, s, a, b,
                           PutPeer(s.nodes[a], b, PunchExpired(s.nodes[a], s.nodes[a].peers[b], viaRelay)))
  {
  }

  lemma PunchDeadlineKeeps(suite: Suite, s: Net, a: Id, b: Id, viaRelay: bool)
    requires Inv(suite, s) && Knows(s, a, b)
    ensures var p' := PunchExpired(s.nodes[a], s.nodes[a].peers[b], viaRelay);
            var s' := Reconfigured(s, a, PutPeer(s.nodes[a], b, p'));
            Inv(suite, s') && Extends(s, s')
  {
    var s' := Reconfigured(s, a, PutPeer(s.nodes[a], b, PunchExpired(s.nodes[a], s.nodes[a].peers[b], viaRelay)));
    ExpiredOutcome(suite, s, a, b, viaRelay);
    hide Inv, Extends, ControlOutcome, HandshakePayload, Carries, PunchExpired;
    ControlKeeps(suite, s, s', a, b, {});
  }

  lemma ConfigureKeeps(suite: Suite, s: Net, a: Id, t': TunnelState)
    requires Inv(suite, s) && a in s.nodes
    requires var t := s.nodes[a]; t'.peers == t.peers && t'.identity == t.identity && t'.myId == t.myId
    ensures Inv(suite, Reconfigured(s, a, t')) && Extends(s, Reconfigured(s, a, t'))
  {
    hide Inv, Extends;
    assert s.wire + {} == s.wire;
    ReconfigureKeeps(suite, s, a, t', {});
  }

  lemma AnnounceKeeps(suite: Suite, s: Net, a: Id)
    requires Inv(suite, s) && a in s.nodes
    ensures var s' := Put(s, a, Effect(s.nodes[a], AnnounceStep(s.nodes[a]), [])); Inv(suite, s') && Extends(s, s')
  {
    hide Inv, Extends, DatagramOk;
    AnnounceCarriesNothing(suite, s, s.nodes[a]);
    ReconfigureKeeps(suite, s, a, s.nodes[a], Written(AnnounceStep(s.nodes[a])));
  }

  /** Every step of every kind keeps the invariant, and only ever adds to what is established. */
  lemma StepKeeps(suite: Suite, s: Net, action: Action)
    requires suite.Lawful() && Inv(suite, s)
    ensures Inv(suite, Step(suite, s, action)) && Extends(s, Step(suite, s, action))
  {
    hide Inv, Extends, Suite.Lawful, StepDeliver, StepSend, PunchRound;
    hide AnnounceStep, FriendKeys, BeginConnectStep, PunchExpired;
    NothingExtends(s);
    if action.Forward? {
      ForwardKeeps(suite, s, action.relayed);
    } else if action.node in s.nodes {
      var a, t := action.node, s.nodes[action.node];
      match action
      case SetFriends(_, keys) => ConfigureKeeps(suite, s, a, t.(friends := FriendKeys(keys)));
      case SetRelay(_, relay) => ConfigureKeeps(suite, s, a, t.(relayAddr := Some(relay)));
      case SetForceRelay(_, flag) => ConfigureKeeps(suite, s, a, t.(forceRelay := flag));
      case SetDataSink(_, flag) => ConfigureKeeps(suite, s, a, t.(hasSink := flag));
      case Connect(_, b, candidates, newKey) => ConnectKeeps(suite, s, a, b, candidates, newKey);
      case Punch(_, b, viaRelay) => if b in t.peers { PunchKeeps(suite, s, a, b, viaRelay); }
      case PunchDeadline(_, b, viaRelay) => if b in t.peers { PunchDeadlineKeeps(suite, s, a, b, viaRelay); }
      case Announce(_) => AnnounceKeeps(suite, s, a);
      case Send(_, b, payload) => SendKeeps(suite, s, a, b, payload);
      case Deliver(_, datagram, src) => if datagram in s.wire { DeliverKeeps(suite, s, a, datagram, src); }
    }
  }

  lemma {:induction false} RunKeeps(suite: Suite, s: Net, actions: seq<Action>)
    requires suite.Lawful() && Initial(s)
    ensures Inv(suite, Run(suite, s, actions))
  {
    if actions == [] {
    } else {
      RunKeeps(suite, s, actions[..|actions| - 1]);
      hide Inv, Extends, Step;
      StepKeeps(suite, Run(suite, s, actions[..|actions| - 1]), actions[|actions| - 1]);
    }
  }

  lemma {:induction false} RunExtends(suite: Suite, s: Net, actions: seq<Action>, i: nat)
    requires suite.Lawful() && Initial(s) && i <= |actions|
    ensures Extends(Run(suite, s, actions[..i]), Run(suite, s, actions))
  {
    if i == |actions| {
      assert actions[..i] == actions;
    } else {
      var init := actions[..|actions| - 1];
      assert init[..i] == actions[..i];
      RunExtends(suite, s, init, i);
      RunKeeps(suite, s, init);
      hide Inv, Extends, Step;
      StepKeeps(suite, Run(suite, s, init), actions[|actions| - 1]);
      ExtendsTransitive(Run(suite, s, actions[..i]), Run(suite, s, init), Run(suite, s, actions));
    }
  }

  // ---- what holds of every run ----

  /** However the connection came about, two ends that hold a session for each other hold the same key. */
  lemma SessionsAgree(suite: Suite, s: Net, actions: seq<Action>, a: Id, b: Id)
    requires suite.Lawful() && Initial(s)
    requires HasSession(Run(suite, s, actions), a, b) && HasSession(Run(suite, s, actions), b, a)
    ensures SessionOf(Run(suite, s, actions), a, b).key == SessionOf(Run(suite, s, actions), b, a).key
  {
    RunKeeps(suite, s, actions);
    KeyAgreement(suite, Run(suite, s, actions), a, b);
  }

  /**
   In every run, a session's key is made of the three agreements between its two ends, static with ephemeral both
   ways and ephemeral with ephemeral, and of their four public keys.
   */
  lemma SessionKeysAreMadeOf(suite: Suite, s: Net, actions: seq<Action>, a: Id, b: Id)
    requires suite.Lawful() && Initial(s) && HasSession(Run(suite, s, actions), a, b)
    ensures var now := Run(suite, s, actions);
            && now.nodes[a].identity.Some? && now.nodes[a].peers[b].eph.Some?
            && Knows(now, b, a) && now.nodes[b].identity.Some? && now.nodes[b].peers[a].eph.Some?
            && var (staticA, ephA) := (now.nodes[a].identity.value, now.nodes[a].peers[b].eph.value);
               var (staticB, ephB) := (now.nodes[b].identity.value, now.nodes[b].peers[a].eph.value);
               var (keyA, keyB) := (suite.publicKey(ephA), suite.publicKey(ephB));
               MadeOf(suite, SessionOf(now, a, b).key,
                 multiset{suite.dh(staticA, keyB), suite.dh(ephA, suite.publicKey(staticB)), suite.dh(ephA, keyB)},
                 multiset{keyA, suite.publicKey(staticA), keyB, suite.publicKey(staticB)})
  {
    var now := Run(suite, s, actions);
    RunKeeps(suite, s, actions);
    hide Run, Initial, Inv, Suite.Lawful, DeriveKey, MadeOf, TrafficOk;
    NodePeer(suite, now, a, b);
    KeyIsMadeOfThreeSecrets(suite, now.nodes[a].identity.value, now.nodes[a].peers[b].eph.value,
      HandshakeOf(suite, now.nodes[b].identity.value, now.nodes[b].peers[a].eph.value));
  }

  /** A session, once set, keeps its key; a connected peer has one and stays connected. */
  lemma ConnectionsLast(suite: Suite, s: Net, actions: seq<Action>, i: nat, a: Id, b: Id)
    requires suite.Lawful() && Initial(s) && i <= |actions|
    requires Knows(Run(suite, s, actions[..i]), a, b)
    ensures var early, late := Run(suite, s, actions[..i]), Run(suite, s, actions);
            && Knows(late, a, b)
            && (HasSession(early, a, b) ==>
                  HasSession(late, a, b) && SessionOf(late, a, b).key == SessionOf(early, a, b).key)
            && (early.nodes[a].peers[b].state == Connected ==>
                  HasSession(early, a, b) && late.nodes[a].peers[b].state == Connected)
  {
    RunKeeps(suite, s, actions[..i]);
    RunExtends(suite, s, actions, i);
    var early := Run(suite, s, actions[..i]);
    assert NodeOk(suite, early, a) && PeerOk(suite, early, a, b);
    hide Inv, Extends;
    ExtendsAt(early, Run(suite, s, actions), a, b);
  }

  /** Every data frame ever written, bare or wrapped for the relay, is sealed under its sender's session key. */
  lemma DataFramesAreSealed(suite: Suite, s: Net, actions: seq<Action>, d: bytes, f: Frame)
    requires suite.Lawful() && Initial(s) && d in Run(suite, s, actions).wire
    requires ParseFrame(d) == Some(f) || (ParseRelay(d).Some? && ParseFrame(ParseRelay(d).value.payload) == Some(f))
    requires f.typ == DATA
    ensures HasSession(Run(suite, s, actions), f.sender, f.target)
    ensures exists n :: Seals(suite, Run(suite, s, actions), f, n)
  {
    RunKeeps(suite, s, actions);
    assert DatagramOk(suite, Run(suite, s, actions), d);
  }

  lemma LastDeliverySent(suite: Suite, s: Net, s': Net, a: Id, b: Id, d: Delivery)
    requires Inv(suite, s') && a in s'.nodes && s'.outbox == s.outbox
    requires s'.inbox == s.inbox[(b, a) := Received(s, b, a) + [d]]
    ensures d.packet in Sent(s, b, a)
  {
    assert NodeOk(suite, s', a) && LogsOk(s', a, b);
    hide Inv;
    assert Received(s', b, a)[|Received(s, b, a)|] == d;
    assert Sent(s', b, a) == Sent(s, b, a);
    assert PeerOk(suite, s', a, b);
    assert SentSomewhere(d, Sent(s', b, a));
  }

  /** Every packet a sink is handed was passed to SendData, for this client, by the client it is attributed to. */
  lemma SinkPacketsWereSent(suite: Suite, s: Net, actions: seq<Action>, a: Id, datagram: bytes, src: Addr,
                            packet: bytes)
    requires suite.Lawful() && Initial(s)
    requires var now := Run(suite, s, actions);
             a in now.nodes && datagram in now.wire && packet in DatagramStep(suite, now.nodes[a], datagram, src).sunk
    ensures var now := Run(suite, s, actions);
            && ParseFrame(datagram).Some? && ParseFrame(datagram).value.target == a
            && packet in Sent(now, ParseFrame(datagram).value.sender, a)
  {
    var now := Run(suite, s, actions);
    RunKeeps(suite, s, actions);
    DeliverKeeps(suite, now, a, datagram, src);
    hide Run, Initial, Extends, DatagramStep, OpenStep, Suite.Lawful, Inv;
    var (b, d) := Accepted(suite, now.nodes[a], datagram).value;
    var next := StepDeliver(suite, now, a, datagram, src);
    LastDeliverySent(suite, now, next, a, b, d);
  }

  /** In every run the packets accepted from b were sent by b, and a counter repeats only 64 behind the highest. */
  lemma DeliveriesAreGenuine(suite: Suite, s: Net, actions: seq<Action>, a: Id, b: Id)
    requires suite.Lawful() && Initial(s) && a in s.nodes
    ensures var now := Run(suite, s, actions);
            Genuine(Received(now, b, a), Sent(now, b, a)) && RepeatsOnlyAtEdge(suite.replayWindow, Received(now, b, a))
  {
    RunKeeps(suite, s, actions);
    RunExtends(suite, s, actions, 0);
    var now := Run(suite, s, actions);
    assert actions[..0] == [];
    assert NodeOk(suite, now, a) && LogsOk(now, a, b);
    if HasSession(now, a, b) {
      assert PeerOk(suite, now, a, b);
    }
  }

  /** With a smaller age limit no counter, hence no packet sent, is accepted twice in any run. */
  lemma TightWindowDeliversOnce(suite: Suite, s: Net, actions: seq<Action>, a: Id, b: Id, i: nat, j: nat)
    requires suite.Lawful() && Initial(s) && a in s.nodes && suite.replayWindow < 64
    requires i < j < |Received(Run(suite, s, actions), b, a)|
    ensures var now := Run(suite, s, actions);
            var log := Received(now, b, a);
            && log[i].ctr != log[j].ctr
            && forall n :: !WasSent(log[i], Sent(now, b, a), n) || !WasSent(log[j], Sent(now, b, a), n)
  {
    hide Initial, Run, Suite.Lawful, Genuine, IsHighest, Received, Sent;
    DeliveriesAreGenuine(suite, s, actions, a, b);
  }

  lemma ArrivalIsReceive(suite: Suite, s: Net, datagram: bytes, f: Frame, src: Addr, n: nat)
    requires suite.Lawful() && Inv(suite, s) && f.typ == DATA && ParseFrame(datagram) == Some(f)
    requires HasSession(s, f.sender, f.target) && HasSession(s, f.target, f.sender) && Seals(suite, s, f, n)
    ensures n < |Sent(s, f.sender, f.target)|
    ensures DatagramStep(suite, s.nodes[f.target], datagram, src).sunk ==
              match Receive(suite.replayWindow, SessionOf(s, f.target, f.sender).window, n % LIMIT64)
              case Ok(_) => ToSink(s.nodes[f.target], Sent(s, f.sender, f.target)[n])
              case Err(_) => []
  {
    assert NodeOk(suite, s, f.target);
    hide Inv, Suite.Lawful, HandleFrameStep, Receive, Seals, EntryOk, TrafficOk;
    DataFrameShape(suite, s, f, src, n);
  }

  lemma PeerTracks(suite: Suite, s: Net, a: Id, b: Id)
    requires Inv(suite, s) && HasSession(s, a, b)
    ensures Tracks(SessionOf(s, a, b).window, Counters(Received(s, b, a)))
  {
    assert NodeOk(suite, s, a);
    hide EntryOk, Tracks;
  }

  lemma LawfulLimit(suite: Suite)
    requires suite.Lawful()
    ensures suite.replayWindow <= 64
  {
  }

  /** In a consistent state, a sealed frame yields its packet exactly when the counters accepted so far admit it. */
  lemma SealedFrameArrivesIff(suite: Suite, s: Net, datagram: bytes, f: Frame, src: Addr, n: nat)
    requires suite.Lawful() && Inv(suite, s) && f.typ == DATA && ParseFrame(datagram) == Some(f)
    requires HasSession(s, f.sender, f.target) && HasSession(s, f.target, f.sender) && Seals(suite, s, f, n)
    ensures n < |Sent(s, f.sender, f.target)|
    ensures DatagramStep(suite, s.nodes[f.target], datagram, src).sunk ==
              if Admissible(suite.replayWindow, SessionOf(s, f.target, f.sender).window.recv,
                            Counters(Received(s, f.sender, f.target)), n % LIMIT64)
              then ToSink(s.nodes[f.target], Sent(s, f.sender, f.target)[n])
              else []
  {
    hide *;
    LawfulLimit(suite);
    ArrivalIsReceive(suite, s, datagram, f, src, n);
    PeerTracks(suite, s, f.target, f.sender);
    ReceiveRefines(suite.replayWindow, SessionOf(s, f.target, f.sender).window,
                   Counters(Received(s, f.sender, f.target)), n % LIMIT64);
  }

  /**
   Nothing admissible is lost: a data frame delivered between two ends with sessions hands its
   packet to the sink exactly when the set of counters accepted so far admits it.
   */
  lemma AdmissiblePacketsArrive(suite: Suite, s: Net, actions: seq<Action>, datagram: bytes, f: Frame, src: Addr,
                                n: nat)
    requires suite.Lawful() && Initial(s)
    requires var now := Run(suite, s, actions);
             && HasSession(now, f.sender, f.target) && HasSession(now, f.target, f.sender)
             && f.typ == DATA && Seals(suite, now, f, n) && ParseFrame(datagram) == Some(f)
    ensures var now := Run(suite, s, actions);
            var t := now.nodes[f.target];
            var session := SessionOf(now, f.target, f.sender);
            DatagramStep(suite, t, datagram, src).sunk ==
              if Admissible(suite.replayWindow, session.window.recv, Counters(Received(now, f.sender, f.target)),
                            n % LIMIT64)
              then ToSink(t, Sent(now, f.sender, f.target)[n])
              else []
  {
    hide *;
    RunKeeps(suite, s, actions);
    SealedFrameArrivesIff(suite, Run(suite, s, actions), datagram, f, src, n);
  }

  /**
   A packet accepted before reaches the sink again exactly when the age limit is 64 and it is 64 behind the
   highest.
   */
  lemma RepeatedFrameArrivesIff(suite: Suite, s: Net, actions: seq<Action>, datagram: bytes, f: Frame, src: Addr,
                                n: nat)
    requires suite.Lawful() && Initial(s)
    requires var now := Run(suite, s, actions);
             && HasSession(now, f.sender, f.target) && HasSession(now, f.target, f.sender)
             && f.typ == DATA && Seals(suite, now, f, n) && ParseFrame(datagram) == Some(f)
             && n % LIMIT64 in Counters(Received(now, f.sender, f.target))
    ensures var now := Run(suite, s, actions);
            var t := now.nodes[f.target];
            DatagramStep(suite, t, datagram, src).sunk ==
              if suite.replayWindow == 64 && SessionOf(now, f.target, f.sender).window.recv == n % LIMIT64 + 64
              then ToSink(t, Sent(now, f.sender, f.target)[n])
              else []
  {
    var now := Run(suite, s, actions);
    var window := SessionOf(now, f.target, f.sender).window;
    hide *;
    LawfulLimit(suite);
    RunKeeps(suite, s, actions);
    PeerTracks(suite, now, f.target, f.sender);
    SealedFrameArrivesIff(suite, now, datagram, f, src, n);
    ReceiveRefines(suite.replayWindow, window, Counters(Received(now, f.sender, f.target)), n % LIMIT64);
    AcceptedAgain(window, Counters(Received(now, f.sender, f.target)), n % LIMIT64);
  }

  // ---- where packets go ----

  lemma RunAppends(suite: Suite, s: Net, actions: seq<Action>, action: Action)
    ensures Run(suite, s, actions + [action]) == Step(suite, Run(suite, s, actions), action)
  {
    assert (actions + [action])[..|actions|] == actions;
    hide Step;
  }

  lemma SameNodes(suite: Suite, s: Net, actions: seq<Action>, i: nat, a: Id)
    requires suite.Lawful() && Initial(s) && i <= |actions|
    ensures a in Run(suite, s, actions[..i]).nodes <==> a in Run(suite, s, actions).nodes
  {
    RunExtends(suite, s, actions, i);
    hide Run, PairExtends, Suite.Lawful, Initial;
  }

  /** At this step node a is handed a frame from b, whom it knows. */
  ghost predicate Hears(s: Net, action: Action, a: Id, b: Id)
  {
    && action.Deliver? && action.node == a && action.datagram in s.wire && Knows(s, a, b)
    && ParseFrame(action.datagram).Some?
    && ParseFrame(action.datagram).value.target == a && ParseFrame(action.datagram).value.sender == b
  }

  /** Action i of the run is the last at which a hears from b. */
  ghost predicate LastHeard(suite: Suite, s: Net, actions: seq<Action>, a: Id, b: Id, i: nat)
  {
    && i < |actions| && Hears(Run(suite, s, actions[..i]), actions[i], a, b)
    && forall j :: i < j < |actions| ==> !Hears(Run(suite, s, actions[..j]), actions[j], a, b)
  }

  /** The state and the path of a's entry for b. */
  function PathOf(s: Net, a: Id, b: Id): (PeerState, Option<Addr>, bool)
    requires a in s.nodes && b in s.nodes[a].peers
  {
    var p := s.nodes[a].peers[b];
    (p.state, p.remote, p.relayed)
  }

  lemma HearingSetsPath(suite: Suite, s: Net, action: Action, a: Id, b: Id)
    requires Hears(s, action, a, b) && s.nodes[a].myId == a && |a| == ID_LENGTH
    ensures var s' := Step(suite, s, action);
            && Knows(s', a, b) && s'.nodes[a].relayAddr == s.nodes[a].relayAddr
            && PathIs(s'.nodes[a], b, action.src, s.nodes[a].relayAddr == Some(action.src))
  {
    var f := ParseFrame(action.datagram).value;
    hide HandleFrameStep, Accepted, PathIs, Answers, CarryAll;
    AnswersGoBack(suite, s.nodes[a], f, action.src);
    FrameTouchesOne(suite, s.nodes[a], f, action.src);
  }

  lemma DeliveryElsewhere(suite: Suite, s: Net, action: Action, a: Id, b: Id)
    requires action.Deliver? && a in s.nodes && s.nodes[a].myId == a && !Hears(s, action, a, b)
    ensures var s' := Step(suite, s, action);
            && a in s'.nodes && s'.nodes[a].relayAddr == s.nodes[a].relayAddr
            && (Knows(s', a, b) ==> Knows(s, a, b) && s'.nodes[a].peers[b] == s.nodes[a].peers[b])
  {
    hide HandleFrameStep, Accepted;
    var f := ParseFrame(action.datagram);
    if action.node == a && f.Some? {
      FrameTouchesOne(suite, s.nodes[a], f.value, action.src);
    }
  }

  lemma SendKeepsPath(suite: Suite, s: Net, action: Action, a: Id, b: Id)
    requires action.Send? && a in s.nodes
    ensures var s' := Step(suite, s, action);
            && a in s'.nodes && s'.nodes[a].relayAddr == s.nodes[a].relayAddr
            && (Knows(s', a, b) ==> Knows(s, a, b) && PathOf(s', a, b) == PathOf(s, a, b))
  {
    hide SendDataStep;
    if action.node == a && SendDataStep(suite, s.nodes[a], action.peer, action.payload).Ok? {
      SendTouchesOne(suite, s.nodes[a], action.peer, action.payload);
    }
  }

  /**
   Nothing but a frame from b moves the path of a connected peer, or connects it; relays are replaced, not
   removed.
   */
  lemma OtherStepsKeepPath(suite: Suite, s: Net, action: Action, a: Id, b: Id)
    requires a in s.nodes && s.nodes[a].myId == a && !Hears(s, action, a, b)
    ensures var s' := Step(suite, s, action);
            && a in s'.nodes && (s.nodes[a].relayAddr.Some? ==> s'.nodes[a].relayAddr.Some?)
            && (Knows(s', a, b) && PathOf(s', a, b).0 == Connected ==>
                  Knows(s, a, b) && PathOf(s, a, b) == PathOf(s', a, b))
  {
    hide StepSend, StepDeliver, PunchRound, AnnounceStep, FriendKeys;
    if action.Deliver? {
      DeliveryElsewhere(suite, s, action, a, b);
    } else if action.Send? {
      SendKeepsPath(suite, s, action, a, b);
    }
  }

  lemma LastHeardStays(suite: Suite, s: Net, actions: seq<Action>, action: Action, a: Id, b: Id, i: nat)
    requires LastHeard(suite, s, actions, a, b, i) && !Hears(Run(suite, s, actions), action, a, b)
    ensures LastHeard(suite, s, actions + [action], a, b, i)
  {
    var longer := actions + [action];
    assert longer[..i] == actions[..i] && longer[..|actions|] == actions;
    hide Hears, Run;
    forall j | i < j < |longer| ensures !Hears(Run(suite, s, longer[..j]), longer[j], a, b) {
      if j < |actions| { assert longer[..j] == actions[..j]; }
    }
  }

  /** The path of a's entry for b leads where action i came from, by the relay if that was the relay's address. */
  ghost predicate LeadsBack(suite: Suite, s: Net, actions: seq<Action>, a: Id, b: Id, i: nat)
  {
    && i < |actions| && actions[i].Deliver?
    && Knows(Run(suite, s, actions), a, b) && a in Run(suite, s, actions[..i]).nodes
    && var t := Run(suite, s, actions).nodes[a];
       if Run(suite, s, actions[..i]).nodes[a].relayAddr == Some(actions[i].src) then
         t.peers[b].relayed && t.relayAddr.Some?
       else !t.peers[b].relayed && t.peers[b].remote == Some(actions[i].src)
  }

  lemma LeadsBackNow(suite: Suite, s: Net, actions: seq<Action>, action: Action, a: Id, b: Id)
    requires Hears(Run(suite, s, actions), action, a, b)
    requires Run(suite, s, actions).nodes[a].myId == a && |a| == ID_LENGTH
    ensures LastHeard(suite, s, actions + [action], a, b, |actions|)
    ensures LeadsBack(suite, s, actions + [action], a, b, |actions|)
  {
    assert (actions + [action])[..|actions|] == actions;
    RunAppends(suite, s, actions, action);
    HearingSetsPath(suite, Run(suite, s, actions), action, a, b);
    hide Hears, Run, Step;
  }

  lemma LeadsBackStill(suite: Suite, s: Net, actions: seq<Action>, action: Action, a: Id, b: Id, i: nat)
    requires LeadsBack(suite, s, actions, a, b, i) && Run(suite, s, actions).nodes[a].myId == a
    requires !Hears(Run(suite, s, actions), action, a, b)
    requires Knows(Run(suite, s, actions + [action]), a, b)
    requires PathOf(Run(suite, s, actions + [action]), a, b).0 == Connected
    ensures LeadsBack(suite, s, actions + [action], a, b, i)
  {
    assert (actions + [action])[..i] == actions[..i];
    RunAppends(suite, s, actions, action);
    OtherStepsKeepPath(suite, Run(suite, s, actions), action, a, b);
    hide Hears, Run, Step;
  }

  /** In every run, a connected peer's path leads where the last frame from it came from. */
  lemma {:induction false} ConnectedPathLeadsBack(suite: Suite, s: Net, actions: seq<Action>, a: Id, b: Id)
    requires suite.Lawful() && Initial(s) && Knows(Run(suite, s, actions), a, b)
    requires PathOf(Run(suite, s, actions), a, b).0 == Connected
    ensures exists i: nat :: LastHeard(suite, s, actions, a, b, i) && LeadsBack(suite, s, actions, a, b, i)
  {
    if actions != [] {
      var n := |actions| - 1;
      var init, last := actions[..n], actions[n];
      assert actions == init + [last];
      RunKeeps(suite, s, init);
      RunExtends(suite, s, init, 0);
      RunExtends(suite, s, actions, 0);
      hide Hears, LastHeard, LeadsBack, Inv, NodeOk, Extends, Suite.Lawful;
      SameNodes(suite, s, actions, n, a);
      NodeIsOk(suite, Run(suite, s, init), a);
      RunAppends(suite, s, init, last);
      if Hears(Run(suite, s, init), last, a, b) {
        LeadsBackNow(suite, s, init, last, a, b);
      } else {
        OtherStepsKeepPath(suite, Run(suite, s, init), last, a, b);
        ConnectedPathLeadsBack(suite, s, init, a, b);
        var i: nat :| LastHeard(suite, s, init, a, b, i) && LeadsBack(suite, s, init, a, b, i);
        LastHeardStays(suite, s, init, last, a, b, i);
        LeadsBackStill(suite, s, init, last, a, b, i);
      }
    }
  }

  /**
   In every run, a packet for a connected peer is written as exactly one datagram: bare, to where the last frame
   from that peer came from, or, if that was the relay, in a relay packet to the relay.
   */
  lemma DataGoesToLastSource(suite: Suite, s: Net, actions: seq<Action>, a: Id, b: Id, payload: bytes)
    requires suite.Lawful() && Initial(s) && Knows(Run(suite, s, actions), a, b)
    requires PathOf(Run(suite, s, actions), a, b).0 == Connected
    ensures var t := Run(suite, s, actions).nodes[a];
            && SendDataStep(suite, t, b, payload).Ok? && |SendDataStep(suite, t, b, payload).value.sent| == 1
    ensures exists i: nat :: LastHeard(suite, s, actions, a, b, i) && a in Run(suite, s, actions[..i]).nodes
              && var t := Run(suite, s, actions).nodes[a];
                 var d := SendDataStep(suite, t, b, payload).value.sent[0];
                 var f := Frame(DATA, a, b, Body(suite, t, b, payload));
                 if Run(suite, s, actions[..i]).nodes[a].relayAddr == Some(actions[i].src)
                 then t.relayAddr.Some? && CarriesTo(d, t.relayAddr.value, true, f)
                 else CarriesTo(d, actions[i].src, false, f)
  {
    ConnectedPathLeadsBack(suite, s, actions, a, b);
    var i: nat :| LastHeard(suite, s, actions, a, b, i) && LeadsBack(suite, s, actions, a, b, i);
    assert |b| == ID_LENGTH;
    RunKeeps(suite, s, actions);
    hide Run, Hears, Inv, NodeOk, SendDataStep, CarriesTo, Initial, Suite.Lawful, Body;
    NodeIsOk(suite, Run(suite, s, actions), a);
    SendDataFollowsPath(suite, Run(suite, s, actions).nodes[a], b, payload);
  }

  // ---- one key and one counter sequence for both directions ----

  /**
   In every run, packet n from a to b and packet n from b to a are encrypted under the same key, the same
   nonce and the same associated data.
   */
  lemma DirectionsShareNonces(suite: Suite, s: Net, actions: seq<Action>, f: Frame, g: Frame, n: nat)
    requires suite.Lawful() && Initial(s) && f.sender == g.target && f.target == g.sender
    requires var now := Run(suite, s, actions);
             && HasSession(now, f.sender, f.target) && HasSession(now, g.sender, g.target)
             && Seals(suite, now, f, n) && Seals(suite, now, g, n)
    ensures |f.payload| >= 8 && |g.payload| >= 8
    ensures var now, ctr := Run(suite, s, actions), n % LIMIT64;
            var key, aad := SessionOf(now, f.sender, f.target).key, PeerAad(f.sender, f.target);
            && f.payload[8..] == suite.aeadSeal(key, Nonce(ctr), aad, Sent(now, f.sender, f.target)[n])
            && g.payload[8..] == suite.aeadSeal(key, Nonce(ctr), aad, Sent(now, g.sender, g.target)[n])
  {
    SessionsAgree(suite, s, actions, f.sender, f.target);
    hide Run, Initial, Suite.Lawful, PeerAad, Nonce;
    PeerAadSymmetric(f.sender, f.target);
    FixedWidths(n % LIMIT64);
  }

  /** f turned around: its own payload, in a frame from its target to its sender. */
  function Reflected(f: Frame): Frame
  {
    Frame(f.typ, f.target, f.sender, f.payload)
  }

  lemma ReflectionOpens(suite: Suite, s: Net, f: Frame, n: nat)
    requires suite.Lawful() && HasSession(s, f.sender, f.target) && Seals(suite, s, f, n)
    ensures var session := SessionOf(s, f.sender, f.target);
            OpenStep(suite, session, PeerAad(f.target, f.sender), f.payload) ==
              match Receive(suite.replayWindow, session.window, n % LIMIT64)
              case Ok(w) => Ok((session.(window := w), Sent(s, f.sender, f.target)[n]))
              case Err(e) => Err(e)
  {
    PeerAadSymmetric(f.sender, f.target);
    OpenSealed(suite, SessionOf(s, f.sender, f.target), n % LIMIT64, PeerAad(f.sender, f.target),
               Sent(s, f.sender, f.target)[n]);
    hide Suite.Lawful, OpenStep, Receive;
  }

  lemma ReflectionIsReceive(suite: Suite, s: Net, datagram: bytes, f: Frame, src: Addr, n: nat)
    requires suite.Lawful() && Inv(suite, s) && f.typ == DATA && ParseFrame(datagram) == Some(Reflected(f))
    requires HasSession(s, f.sender, f.target) && Seals(suite, s, f, n)
    ensures DatagramStep(suite, s.nodes[f.sender], datagram, src).sunk ==
              match Receive(suite.replayWindow, SessionOf(s, f.sender, f.target).window, n % LIMIT64)
              case Ok(_) => ToSink(s.nodes[f.sender], Sent(s, f.sender, f.target)[n])
              case Err(_) => []
  {
    assert NodeOk(suite, s, f.sender);
    hide Inv, Suite.Lawful, HandleFrameStep, Receive, OpenStep, Seals, PeerOk, LogsOk;
    ReflectionOpens(suite, s, f, n);
    OpenedOutcome(suite, s, Reflected(f), src);
  }

  /**
   What excluding forgery excludes: in every run, a client handed one of its own sealed packets, in a frame
   that names its peer as the sender, takes it for the peer's exactly when the counters accepted so far admit it.
   */
  lemma ReflectedPacketArrivesIff(suite: Suite, s: Net, actions: seq<Action>, datagram: bytes, f: Frame, src: Addr,
                                  n: nat)
    requires suite.Lawful() && Initial(s)
    requires var now := Run(suite, s, actions);
             && HasSession(now, f.sender, f.target) && f.typ == DATA && Seals(suite, now, f, n)
             && ParseFrame(datagram) == Some(Reflected(f))
    ensures var now := Run(suite, s, actions);
            var t, window := now.nodes[f.sender], SessionOf(now, f.sender, f.target).window;
            DatagramStep(suite, t, datagram, src).sunk ==
              if Admissible(suite.replayWindow, window.recv, Counters(Received(now, f.target, f.sender)), n % LIMIT64)
              then ToSink(t, Sent(now, f.sender, f.target)[n])
              else []
  {
    var now := Run(suite, s, actions);
    hide *;
    LawfulLimit(suite);
    RunKeeps(suite, s, actions);
    ReflectionIsReceive(suite, now, datagram, f, src, n);
    PeerTracks(suite, now, f.sender, f.target);
    ReceiveRefines(suite.replayWindow, SessionOf(now, f.sender, f.target).window,
                   Counters(Received(now, f.target, f.sender)), n % LIMIT64);
  }

  // ---- connections come about ----

  /** What a needs to accept b's handshake: a key of its own, one of b's, b on its list, and no weak secret. */
  ghost predicate Accepts(suite: Suite, s: Net, a: Id, b: Id)
  {
    && Knows(s, a, b) && Knows(s, b, a)
    && s.nodes[a].identity.Some? && s.nodes[a].peers[b].eph.Some?
    && s.nodes[b].identity.Some? && s.nodes[b].peers[a].eph.Some?
    && (s.nodes[a].friends == {} || suite.publicKey(s.nodes[b].identity.value) in s.nodes[a].friends)
    && var (staticA, ephA) := (s.nodes[a].identity.value, s.nodes[a].peers[b].eph.value);
       var (staticB, ephB) := (s.nodes[b].identity.value, s.nodes[b].peers[a].eph.value);
       && suite.dh(staticA, suite.publicKey(ephB)) != ZERO_SECRET
       && suite.dh(ephA, suite.publicKey(staticB)) != ZERO_SECRET
       && suite.dh(ephA, suite.publicKey(ephB)) != ZERO_SECRET
  }

  lemma EstablishesIff(suite: Suite, s: Net, t: TunnelState, f: Frame)
    requires suite.Lawful() && Inv(suite, s) && FrameOk(suite, s, f) && Knows(s, f.target, f.sender)
    requires f.typ == HELLO || f.typ == HELLO_ACK
    requires t.identity == s.nodes[f.target].identity && t.identity.Some? && t.friends == s.nodes[f.target].friends
    requires f.sender in t.peers && t.peers[f.sender].eph == s.nodes[f.target].peers[f.sender].eph
    ensures Establish(suite, t, f.sender, f.payload).Ok? <==> Accepts(suite, s, f.target, f.sender)
  {
  }

  /** What a handshake frame leaves of the peer entry it is for. */
  lemma HandshakeEntry(suite: Suite, t: TunnelState, f: Frame, src: Addr)
    requires f.sender in t.peers && t.identity.Some? && (f.typ == HELLO || f.typ == HELLO_ACK)
    ensures f.sender in HandleFrameStep(suite, t, f, src).tunnel.peers
    ensures var t1 := NotePath(t, f.sender, src);
            var p' := HandleFrameStep(suite, t, f, src).tunnel.peers[f.sender];
            match Handshaken(suite, t1, f)
            case Err(_) => p' == t1.peers[f.sender]
            case Ok(t2) => p' == t2.peers[f.sender].(state := Connected)
  {
    hide Establish, NotePath, OpenStep, Framed;
  }

  lemma StateFollowsSession(suite: Suite, s: Net, a: Id, b: Id)
    requires Inv(suite, s) && Knows(s, a, b)
    ensures s.nodes[a].peers[b].state == Connected ==> HasSession(s, a, b)
  {
  }

  lemma ConnectsIff(suite: Suite, s: Net, f: Frame, src: Addr)
    requires suite.Lawful() && Inv(suite, s) && FrameOk(suite, s, f) && Knows(s, f.target, f.sender)
    requires (f.typ == HELLO || f.typ == HELLO_ACK) && s.nodes[f.target].identity.Some?
    ensures f.sender in HandleFrameStep(suite, s.nodes[f.target], f, src).tunnel.peers
    ensures var p' := HandleFrameStep(suite, s.nodes[f.target], f, src).tunnel.peers[f.sender];
            && (p'.session.Some? <==> HasSession(s, f.target, f.sender) || Accepts(suite, s, f.target, f.sender))
            && (p'.session.Some? ==> p'.state == Connected)
  {
    hide HandleFrameStep, Accepts, Inv, FrameOk, Suite.Lawful;
    var t := s.nodes[f.target];
    var t1 := NotePath(t, f.sender, src);
    HandshakeEntry(suite, t, f, src);
    NotePathKeeps(t, f.sender, src);
    EstablishesIff(suite, s, t1, f);
    StateFollowsSession(suite, s, f.target, f.sender);
    hide NotePath;
  }

  /**
   In every run, a hello or helloAck connects a peer without a session exactly when both have keys, the
   allowlist permits it and the secrets are sound; with a session, it always does.
   */
  lemma HandshakeConnectsIff(suite: Suite, s: Net, actions: seq<Action>, datagram: bytes, f: Frame, src: Addr)
    requires suite.Lawful() && Initial(s)
    requires var now := Run(suite, s, actions);
             datagram in now.wire && ParseFrame(datagram) == Some(f) && Knows(now, f.target, f.sender)
    requires f.typ == HELLO || f.typ == HELLO_ACK
    ensures var now := Run(suite, s, actions);
            var p' := DatagramStep(suite, now.nodes[f.target], datagram, src).tunnel.peers[f.sender];
            p'.state == Connected && p'.session.Some? <==>
              HasSession(now, f.target, f.sender) || Accepts(suite, now, f.target, f.sender)
  {
    hide Run, Initial, Inv, NodeOk, FrameOk, Accepts, HandleFrameStep, Suite.Lawful;
    var now := Run(suite, s, actions);
    RunKeeps(suite, s, actions);
    NodeIsOk(suite, now, f.target);
    WireIsOk(suite, now, datagram);
    ConnectsIff(suite, now, f, src);
    StateFollowsSession(suite, now, f.target, f.sender);
  }

  /** A frame as it is written toward src: bare, or wrapped when src is the relay. */
  function Reply(t: TunnelState, id: Id, src: Addr, frame: bytes): Option<bytes>
  {
    if t.relayAddr == Some(src) then BuildRelay(t.myId, id, frame) else Some(frame)
  }

  /**
   A hello that is accepted is answered, straight to where it came from or through the relay, with our own
   handshake.
   */
  lemma HelloIsAnswered(suite: Suite, t: TunnelState, f: Frame, src: Addr)
    requires f.sender in t.peers && f.typ == HELLO && t.identity.Some?
    requires |t.myId| == ID_LENGTH && |f.sender| == ID_LENGTH
    requires Handshaken(suite, NotePath(t, f.sender, src), f).Ok?
    ensures var ack := BuildFrame(HELLO_ACK, t.myId, f.sender, HandshakePayload(t.peers[f.sender]));
            && ack.Some? && Reply(t, f.sender, src, ack.value).Some?
            && Reply(t, f.sender, src, ack.value).value in Written(HandleFrameStep(suite, t, f, src).sent)
  {
    var t1 := NotePath(t, f.sender, src);
    var t2 := Handshaken(suite, t1, f).value;
    var ack := BuildFrame(HELLO_ACK, t.myId, f.sender, HandshakePayload(t.peers[f.sender])).value;
    assert t2.peers[f.sender] == t1.peers[f.sender].(session := t2.peers[f.sender].session);
    hide DeriveKey, CheckPeerStatic, BuildFrame, Unmarshal;
    var e1 := SendStep(suite, MarkConnected(t2, f.sender), f.sender, HELLO_ACK, HandshakePayload(t.peers[f.sender]));
    assert e1.sent == [Datagram(src, Reply(t, f.sender, src, ack).value)];
    assert (e1.sent + SendStep(suite, e1.tunnel, f.sender, PING, []).sent)[0] == e1.sent[0];
  }

  /** Unwrapping puts the frame inside a relay packet on the wire; a bare frame is on it already. */
  lemma ForwardUncovers(suite: Suite, s: Net, t: TunnelState, id: Id, src: Addr, f: Frame)
    requires var frame := BuildFrame(f.typ, f.sender, f.target, f.payload);
             && frame.Some? && Reply(t, id, src, frame.value).Some? && Reply(t, id, src, frame.value).value in s.wire
    ensures var frame := BuildFrame(f.typ, f.sender, f.target, f.payload).value;
            var s' := Step(suite, s, Forward(Reply(t, id, src, frame).value));
            s'.nodes == s.nodes && frame in s'.wire
  {
    var frame := BuildFrame(f.typ, f.sender, f.target, f.payload).value;
    ParseBuiltFrame(f.typ, f.sender, f.target, f.payload);
    hide BuildFrame, ParseFrame;
    if t.relayAddr == Some(src) { ParseBuiltRelay(t.myId, id, frame); }
  }

  lemma AcceptsPersists(suite: Suite, s: Net, s': Net, a: Id, b: Id)
    requires Accepts(suite, s, a, b) && Extends(s, s') && s'.nodes[a].friends == s.nodes[a].friends
    ensures Accepts(suite, s', a, b)
  {
    ExtendsAt(s, s', a, b);
    ExtendsAt(s, s', b, a);
    hide Extends;
  }

  lemma DeliverNodes(suite: Suite, s: Net, a: Id, datagram: bytes, f: Frame, src: Addr)
    requires a in s.nodes && datagram in s.wire && ParseFrame(datagram) == Some(f) && f.target == a == s.nodes[a].myId
    ensures var s', e := Step(suite, s, Deliver(a, datagram, src)), HandleFrameStep(suite, s.nodes[a], f, src);
            s'.nodes == s.nodes[a := e.tunnel] && Written(e.sent) <= s'.wire
  {
    hide HandleFrameStep, OpenStep;
  }

  lemma AcceptsKnows(suite: Suite, s: Net, a: Id, b: Id)
    requires Accepts(suite, s, a, b)
    ensures Knows(s, a, b) && Knows(s, b, a)
  {
  }

  /** Delivering an acceptable handshake frame to a connects a to its sender, and touches no other node. */
  lemma ConnectedNow(suite: Suite, s: Net, a: Id, datagram: bytes, f: Frame, src: Addr)
    requires suite.Lawful() && Inv(suite, s) && datagram in s.wire && ParseFrame(datagram) == Some(f)
    requires f.target == a && (f.typ == HELLO || f.typ == HELLO_ACK) && Accepts(suite, s, a, f.sender)
    ensures var s' := Step(suite, s, Deliver(a, datagram, src));
            && Inv(suite, s') && Extends(s, s') && HasSession(s', a, f.sender)
            && s'.nodes[a].peers[f.sender].state == Connected
            && s'.nodes == s.nodes[a := s'.nodes[a]]
            && Written(HandleFrameStep(suite, s.nodes[a], f, src).sent) <= s'.wire
  {
    assert NodeOk(suite, s, a) && DatagramOk(suite, s, datagram);
    hide Inv, Extends, Step, HandleFrameStep, Accepts, FrameOk, PeerOk, LogsOk;
    StepKeeps(suite, s, Deliver(a, datagram, src));
    assert Knows(s, a, f.sender) by { hide *; AcceptsKnows(suite, s, a, f.sender); }
    ConnectsIff(suite, s, f, src);
    DeliverNodes(suite, s, a, datagram, f, src);
    hide Suite.Lawful, NodeOk;
  }

  /** The answer of an accepted hello is on the wire. */
  lemma AnswerIsWritten(suite: Suite, s: Net, f: Frame, src: Addr)
    requires suite.Lawful() && Inv(suite, s) && FrameOk(suite, s, f) && f.typ == HELLO
    requires Accepts(suite, s, f.target, f.sender)
    ensures Knows(s, f.target, f.sender) && |f.sender| == ID_LENGTH && s.nodes[f.target].myId == f.target
    ensures var t := s.nodes[f.target];
            var ack := BuildFrame(HELLO_ACK, f.target, f.sender, HandshakePayload(t.peers[f.sender]));
            && ack.Some? && Reply(t, f.sender, src, ack.value).Some?
            && Reply(t, f.sender, src, ack.value).value in Written(HandleFrameStep(suite, t, f, src).sent)
  {
    var t := s.nodes[f.target];
    assert NodeOk(suite, s, f.target) && NodeOk(suite, s, f.sender);
    AcceptsKnows(suite, s, f.target, f.sender);
    hide Inv, Accepts, FrameOk, PeerOk, LogsOk, HandleFrameStep, Establish, Reply;
    NotePathKeeps(t, f.sender, src);
    EstablishesIff(suite, s, NotePath(t, f.sender, src), f);
    hide NotePath, Suite.Lawful, BuildFrame;
    HelloIsAnswered(suite, t, f, src);
  }

  /** b's acknowledgement of a's hello. */
  function AckFrame(s: Net, a: Id, b: Id): Option<bytes>
    requires Knows(s, b, a)
  {
    BuildFrame(HELLO_ACK, b, a, HandshakePayload(s.nodes[b].peers[a]))
  }

  /** The second half: the answer is unwrapped and delivered. */
  lemma AnswerConnects(suite: Suite, s1: Net, reply: bytes, ack: bytes, f: Frame, src: Addr)
    requires suite.Lawful() && Inv(suite, s1) && f.typ == HELLO_ACK && f.sender != f.target
    requires Accepts(suite, s1, f.target, f.sender) && HasSession(s1, f.sender, f.target)
    requires s1.nodes[f.sender].peers[f.target].state == Connected && ParseFrame(ack) == Some(f)
    requires var s2 := Step(suite, s1, Forward(reply)); s2.nodes == s1.nodes && ack in s2.wire
    ensures var s3 := Step(suite, Step(suite, s1, Forward(reply)), Deliver(f.target, ack, src));
            var a, b := f.target, f.sender;
            && HasSession(s3, a, b) && HasSession(s3, b, a)
            && s3.nodes[a].peers[b].state == Connected && s3.nodes[b].peers[a].state == Connected
            && SessionOf(s3, a, b).key == SessionOf(s3, b, a).key
  {
    hide Step, Inv, Extends, ParseFrame, HandleFrameStep;
    var s2 := Step(suite, s1, Forward(reply));
    StepKeeps(suite, s1, Forward(reply));
    assert Accepts(suite, s2, f.target, f.sender);
    hide Accepts;
    ConnectedNow(suite, s2, f.target, ack, f, src);
    KeyAgreement(suite, Step(suite, s2, Deliver(f.target, ack, src)), f.target, f.sender);
  }

  /**
   One hello and its answer connect both ends under one key, directly or through the relay: in every
   run, when both have keys, allow each other and share no weak secret, delivering a's hello to b puts
   b's answer on the wire, wrapped if the hello came from b's relay; and delivering that answer to a,
   unwrapped by the relay if need be, completes the connection.
   */
  lemma HelloExchangeConnects(suite: Suite, s: Net, actions: seq<Action>, hello: bytes, f: Frame, src: Addr, src': Addr)
    requires suite.Lawful() && Initial(s) && f.typ == HELLO && f.sender != f.target
    requires var now := Run(suite, s, actions);
             && hello in now.wire && ParseFrame(hello) == Some(f)
             && Accepts(suite, now, f.target, f.sender) && Accepts(suite, now, f.sender, f.target)
    ensures var now, a, b := Run(suite, s, actions), f.sender, f.target;
            && Knows(now, b, a) && AckFrame(now, a, b).Some?
            && var ack := AckFrame(now, a, b).value;
               var reply := Reply(now.nodes[b], a, src, ack);
               && reply.Some?
               && var s1 := Step(suite, now, Deliver(b, hello, src));
                  var s2 := Step(suite, s1, Forward(reply.value));
                  var s3 := Step(suite, s2, Deliver(a, ack, src'));
                  && reply.value in s1.wire && ack in s2.wire
                  && HasSession(s3, a, b) && HasSession(s3, b, a)
                  && s3.nodes[a].peers[b].state == Connected && s3.nodes[b].peers[a].state == Connected
                  && SessionOf(s3, a, b).key == SessionOf(s3, b, a).key
  {
    hide Run, Initial, Extends, Inv, Accepts, Step, BuildFrame, HandleFrameStep, HandshakePayload, Reply, Suite.Lawful;
    var now, a, b := Run(suite, s, actions), f.sender, f.target;
    RunKeeps(suite, s, actions);
    WireIsOk(suite, now, hello);
    var s1 := Step(suite, now, Deliver(b, hello, src));
    AcceptsKnows(suite, now, a, b);
    ConnectedNow(suite, now, b, hello, f, src);
    AnswerIsWritten(suite, now, f, src);
    AcceptsPersists(suite, now, s1, a, b);
    var fAck := Frame(HELLO_ACK, b, a, HandshakePayload(now.nodes[b].peers[a]));
    var ack := AckFrame(now, a, b).value;
    var reply := Reply(now.nodes[b], a, src, ack).value;
    ParseBuiltFrame(HELLO_ACK, b, a, HandshakePayload(now.nodes[b].peers[a]));
    hide ParseFrame, FrameOk;
    ForwardUncovers(suite, s1, now.nodes[b], a, src, fAck);
    AnswerConnects(suite, s1, reply, ack, fAck, src');
  }

  // ---- the allowlist ----

  /** At the step from s to s', a's session with b comes into being and b's static key is allowed. */
  ghost predicate BornAllowed(suite: Suite, s: Net, s': Net, a: Id, b: Id)
  {
    && !HasSession(s, a, b) && HasSession(s', a, b)
    && a in s.nodes && b in s.nodes && s.nodes[b].identity.Some?
    && var stat := suite.publicKey(s.nodes[b].identity.value);
       s.nodes[a].friends == {} || stat in s.nodes[a].friends
  }

  /** Only a delivered hello or helloAck creates a session. */
  lemma OtherStepsCreateNoSession(suite: Suite, s: Net, action: Action, a: Id, b: Id)
    requires !HasSession(s, a, b) && !(action.Deliver? && action.node == a)
    ensures !HasSession(Step(suite, s, action), a, b)
  {
    hide AnnounceStep, FriendKeys, SealStep, Framed, DatagramStep, Accepted, PunchRound;
    if action.Send? && action.node in s.nodes {
    } else if action.Deliver? && action.node in s.nodes {
    } else {
      hide StepSend, StepDeliver;
    }
  }

  lemma DeliveryCreatesSession(suite: Suite, t: TunnelState, datagram: bytes, src: Addr, b: Id)
    requires t.identity.Some? && !(b in t.peers && t.peers[b].session.Some?)
    requires var t' := DatagramStep(suite, t, datagram, src).tunnel; b in t'.peers && t'.peers[b].session.Some?
    ensures ParseFrame(datagram).Some?
    ensures var f := ParseFrame(datagram).value;
            && f.sender == b && f.target == t.myId && (f.typ == HELLO || f.typ == HELLO_ACK) && b in t.peers
            && Establish(suite, NotePath(t, b, src), b, f.payload).Ok?
  {
    var f := ParseFrame(datagram).value;
    if f.sender in t.peers {
      var t1 := NotePath(t, f.sender, src);
      NotePathKeeps(t, f.sender, src);
      if f.typ == HELLO {
        HelloShape(suite, t1, f);
      } else if f.typ == HELLO_ACK {
        HelloAckShape(suite, t1, f);
      }
      hide HelloStep, HelloAckStep, NotePath, OpenStep, DeriveKey, CheckPeerStatic, Unmarshal, Framed;
    }
  }

  lemma SessionBorn(suite: Suite, s: Net, action: Action, a: Id, b: Id)
    requires suite.Lawful() && Inv(suite, s)
    requires !HasSession(s, a, b) && HasSession(Step(suite, s, action), a, b)
    ensures BornAllowed(suite, s, Step(suite, s, action), a, b)
  {
    if !(action.Deliver? && action.node == a) {
      OtherStepsCreateNoSession(suite, s, action, a, b);
    } else {
      assert NodeOk(suite, s, a) && DatagramOk(suite, s, action.datagram);
      hide Inv, PeerOk, LogsOk, Establish, DatagramStep, Accepted;
      DeliveryCreatesSession(suite, s.nodes[a], action.datagram, action.src, b);
      EstablishedOk(suite, s, NotePath(s.nodes[a], b, action.src), ParseFrame(action.datagram).value);
    }
  }

  /** Action i of the run creates a's session with b, and the allowlist permits it at that moment. */
  ghost predicate BornAt(suite: Suite, s: Net, actions: seq<Action>, a: Id, b: Id, i: nat)
  {
    i < |actions| && BornAllowed(suite, Run(suite, s, actions[..i]), Run(suite, s, actions[..i + 1]), a, b)
  }

  lemma BornEarlier(suite: Suite, s: Net, actions: seq<Action>, n: nat, a: Id, b: Id, i: nat)
    requires n <= |actions| && BornAt(suite, s, actions[..n], a, b, i)
    ensures BornAt(suite, s, actions, a, b, i)
  {
    assert actions[..n][..i] == actions[..i] && actions[..n][..i + 1] == actions[..i + 1];
    hide BornAllowed, Run;
  }

  /** In every run, each session was created at a step where the allowlist was empty or held the peer's static key. */
  lemma {:induction false} SessionsWereAllowed(suite: Suite, s: Net, actions: seq<Action>, a: Id, b: Id)
    requires suite.Lawful() && Initial(s) && HasSession(Run(suite, s, actions), a, b)
    ensures exists i: nat :: BornAt(suite, s, actions, a, b, i)
  {
    if actions != [] {
      var n := |actions| - 1;
      var init := actions[..n];
      RunKeeps(suite, s, init);
      hide Inv, Extends, Step, BornAllowed, Initial, HasSession, Suite.Lawful;
      if HasSession(Run(suite, s, init), a, b) {
        SessionsWereAllowed(suite, s, init, a, b);
        var i: nat :| BornAt(suite, s, init, a, b, i);
        BornEarlier(suite, s, actions, n, a, b, i);
      } else {
        SessionBorn(suite, Run(suite, s, init), actions[n], a, b);
        assert actions[..n + 1] == actions;
        assert BornAt(suite, s, actions, a, b, n);
      }
    }
  }

  /**
   Changing the allowlist revokes nothing: in every run and for every list of keys, a frame sealed
   before the change still reaches the sink after it exactly when the counters accepted so far admit it.
   */
  lemma SetFriendsCutsNobodyOff(suite: Suite, s: Net, actions: seq<Action>, keys: seq<bytes>, datagram: bytes,
                                f: Frame, src: Addr, n: nat)
    requires suite.Lawful() && Initial(s)
    requires var now := Run(suite, s, actions);
             && HasSession(now, f.sender, f.target) && HasSession(now, f.target, f.sender)
             && f.typ == DATA && Seals(suite, now, f, n) && ParseFrame(datagram) == Some(f)
    ensures var now := Run(suite, s, actions);
            var session := SessionOf(now, f.target, f.sender);
            var later := Step(suite, now, SetFriends(f.target, keys));
            && later.nodes[f.target].friends == FriendKeys(keys)
            && DatagramStep(suite, later.nodes[f.target], datagram, src).sunk ==
                 if Admissible(suite.replayWindow, session.window.recv, Counters(Received(now, f.sender, f.target)),
                               n % LIMIT64)
                 then ToSink(now.nodes[f.target], Sent(now, f.sender, f.target)[n])
                 else []
  {
    var now := Run(suite, s, actions);
    var later := Step(suite, now, SetFriends(f.target, keys));
    RunAppends(suite, s, actions, SetFriends(f.target, keys));
    assert f.sender != f.target ==> later.nodes[f.sender] == now.nodes[f.sender];
    assert later.nodes[f.target] == now.nodes[f.target].(friends := FriendKeys(keys));
    hide Run, Initial, Step, Suite.Lawful, DatagramStep, Admissible;
    AdmissiblePacketsArrive(suite, s, actions + [SetFriends(f.target, keys)], datagram, f, src, n);
  }

  lemma RunOfNothing(suite: Suite, s: Net)
    ensures Run(suite, s, []) == s
  {
  }

  lemma RunAppendsThree(suite: Suite, s: Net, actions: seq<Action>, x: Action, y: Action, z: Action)
    ensures Run(suite, s, actions + [x] + [y] + [z]) ==
              Step(suite, Step(suite, Step(suite, Run(suite, s, actions), x), y), z)
  {
    hide *;
    RunAppends(suite, s, actions, x);
    RunAppends(suite, s, actions + [x], y);
    RunAppends(suite, s, actions + [x] + [y], z);
  }

  // ---- a run in which a session outlives the permission it was made under ----

  const ALICE: Id := [0, 0, 0, 0, 0, 0, 0, 1]
  const BOB: Id := [0, 0, 0, 0, 0, 0, 0, 2]
  const ALICE_KEY: bytes := [1]
  const BOB_KEY: bytes := [2]
  const ALICE_EPHEMERAL: bytes := [3]
  const BOB_EPHEMERAL: bytes := [4]
  const SOMEWHERE: Addr := Addr([10, 0, 0, 9], 4000)

  function Newborn(id: Id, identity: bytes): TunnelState
  {
    TunnelState(id, map[], None, false, true, Some(identity), {})
  }

  const TWO_NODES: Net :=
    Net(map[ALICE := Newborn(ALICE, ALICE_KEY), BOB := Newborn(BOB, BOB_KEY)], {}, map[], map[])
  const INTRODUCTIONS: seq<Action> :=
    [Connect(ALICE, BOB, [SOMEWHERE], Some(ALICE_EPHEMERAL)), Connect(BOB, ALICE, [], Some(BOB_EPHEMERAL)),
     Punch(ALICE, BOB, false)]

  /** Alice and Bob once each has been introduced to the other. */
  function AliceMeetsBob(suite: Suite): TunnelState
  {
    var t := Newborn(ALICE, ALICE_KEY);
    PutPeer(t, BOB, NewPeer(suite, t, [SOMEWHERE], Some(ALICE_EPHEMERAL)))
  }

  function BobMeetsAlice(suite: Suite): TunnelState
  {
    var t := Newborn(BOB, BOB_KEY);
    PutPeer(t, ALICE, NewPeer(suite, t, [], Some(BOB_EPHEMERAL)))
  }

  lemma TwoNodesStart()
    ensures ALICE != BOB && Initial(TWO_NODES)
  {
    assert ALICE[7] != BOB[7];
  }

  /** Where the introductions lead. */
  lemma IntroductionsRun(suite: Suite)
    ensures var now, alice := Run(suite, TWO_NODES, INTRODUCTIONS), AliceMeetsBob(suite);
            && now.nodes == map[ALICE := alice, BOB := BobMeetsAlice(suite)]
            && BOB in alice.peers && Written(PunchRound(alice, alice.peers[BOB], BOB, false)) <= now.wire
  {
    hide Run, NewPeer, PunchRound, StepSend, StepDeliver, AnnounceStep, FriendKeys, PunchExpired, Initial;
    TwoNodesStart();
    var s0, a0 := TWO_NODES, INTRODUCTIONS;
    assert [a0[0]] + [a0[1]] + [a0[2]] == a0 && [] + [a0[0]] == [a0[0]];
    RunOfNothing(suite, s0);
    RunAppends(suite, s0, [], a0[0]);
    RunAppends(suite, s0, [a0[0]], a0[1]);
    RunAppends(suite, s0, [a0[0]] + [a0[1]], a0[2]);
  }

  lemma HelloGoesOut(suite: Suite)
    ensures var alice := AliceMeetsBob(suite);
            && BOB in alice.peers
            && var hello := BuildFrame(HELLO, ALICE, BOB, HandshakePayload(alice.peers[BOB]));
               hello.Some? && hello.value in Written(PunchRound(alice, alice.peers[BOB], BOB, false))
  {
    var alice := AliceMeetsBob(suite);
    var hello := BuildFrame(HELLO, ALICE, BOB, HandshakePayload(alice.peers[BOB])).value;
    hide BuildFrame, HandshakePayload;
    assert PunchRound(alice, alice.peers[BOB], BOB, false)[0] == Datagram(SOMEWHERE, hello);
  }

  /** Introduced to each other and accepting each other, with a hello on the wire. */
  lemma IntroducedNodes(suite: Suite) returns (hello: bytes)
    requires suite.Lawful()
    requires ZERO_SECRET !in SharedSecrets(suite, ALICE_KEY, ALICE_EPHEMERAL,
                                           HandshakeOf(suite, BOB_KEY, BOB_EPHEMERAL))
    ensures var now := Run(suite, TWO_NODES, INTRODUCTIONS);
            && Accepts(suite, now, ALICE, BOB) && Accepts(suite, now, BOB, ALICE) && hello in now.wire
            && ParseFrame(hello) == Some(Frame(HELLO, ALICE, BOB, HandshakePayload(now.nodes[ALICE].peers[BOB])))
  {
    hide Run, Suite.Lawful, SharedSecrets, HandshakeOf, HandshakePayload, BuildFrame, ParseFrame, PunchRound;
    TwoNodesStart();
    SameSecrets(suite, ALICE_KEY, ALICE_EPHEMERAL, BOB_KEY, BOB_EPHEMERAL);
    SecretsApart(suite, ALICE_KEY, ALICE_EPHEMERAL, BOB_KEY, BOB_EPHEMERAL, ZERO_SECRET);
    SecretsApart(suite, BOB_KEY, BOB_EPHEMERAL, ALICE_KEY, ALICE_EPHEMERAL, ZERO_SECRET);
    IntroductionsRun(suite);
    HelloGoesOut(suite);
    var payload := HandshakePayload(AliceMeetsBob(suite).peers[BOB]);
    ParseBuiltFrame(HELLO, ALICE, BOB, payload);
    hello := BuildFrame(HELLO, ALICE, BOB, payload).value;
  }

  /** Hello, answer: the two nodes connect. */
  lemma ConnectedNodes(suite: Suite) returns (actions: seq<Action>)
    requires suite.Lawful()
    requires ZERO_SECRET !in SharedSecrets(suite, ALICE_KEY, ALICE_EPHEMERAL,
                                           HandshakeOf(suite, BOB_KEY, BOB_EPHEMERAL))
    ensures var now := Run(suite, TWO_NODES, actions); HasSession(now, ALICE, BOB) && HasSession(now, BOB, ALICE)
  {
    hide *;
    var hello := IntroducedNodes(suite);
    var now := Run(suite, TWO_NODES, INTRODUCTIONS);
    TwoNodesStart();
    AcceptsKnows(suite, now, ALICE, BOB);
    var f := Frame(HELLO, ALICE, BOB, HandshakePayload(now.nodes[ALICE].peers[BOB]));
    HelloExchangeConnects(suite, TWO_NODES, INTRODUCTIONS, hello, f, SOMEWHERE, SOMEWHERE);
    var ack := AckFrame(now, ALICE, BOB).value;
    var deliver, forward := Deliver(BOB, hello, SOMEWHERE), Forward(Reply(now.nodes[BOB], ALICE, SOMEWHERE, ack).value);
    actions := INTRODUCTIONS + [deliver] + [forward] + [Deliver(ALICE, ack, SOMEWHERE)];
    RunAppendsThree(suite, TWO_NODES, INTRODUCTIONS, deliver, forward, Deliver(ALICE, ack, SOMEWHERE));
  }

  lemma SetFriendsOnly(suite: Suite, s: Net, a: Id, b: Id, keys: seq<bytes>)
    requires HasSession(s, a, b) && HasSession(s, b, a) && a != b
    ensures var s' := Step(suite, s, SetFriends(a, keys));
            && HasSession(s', a, b) && HasSession(s', b, a)
            && s'.nodes[a].friends == FriendKeys(keys) && s'.nodes[b].identity == s.nodes[b].identity
  {
  }

  const STRANGER: bytes := seq(KEY_LENGTH, _ => 9)

  lemma IdentityStays(suite: Suite, s: Net, actions: seq<Action>, a: Id)
    requires suite.Lawful() && Initial(s) && a in s.nodes
    ensures var now := Run(suite, s, actions); a in now.nodes && now.nodes[a].identity == s.nodes[a].identity
  {
    hide Initial, Run, PairExtends, Suite.Lawful;
    RunExtends(suite, s, actions, 0);
    assert actions[..0] == [];
    assert Run(suite, s, []) == s by { RunOfNothing(suite, s); }
  }

  lemma HarmlessSuite() returns (suite: Suite)
    ensures suite.Lawful() && suite.replayWindow == REPLAY_WINDOW
    ensures ZERO_SECRET !in SharedSecrets(suite, ALICE_KEY, ALICE_EPHEMERAL, HandshakeOf(suite, BOB_KEY, BOB_EPHEMERAL))
    ensures suite.publicKey(ALICE_KEY) != suite.publicKey(BOB_KEY) && suite.publicKey(BOB_KEY) != STRANGER
  {
    suite := LawfulIsPossible();
    hide Suite.Lawful, ByteSum, Padded;
    SumHead(ALICE_KEY, BOB_EPHEMERAL);
    SumHead(ALICE_EPHEMERAL, BOB_KEY);
    SumHead(ALICE_EPHEMERAL, BOB_EPHEMERAL);
    SumHead(ALICE_KEY, ALICE_KEY);
    assert ZERO_SECRET[0] == 0 && STRANGER[0] == 9;
  }

  /**
   A reachable state of two clients with different keys in which both hold sessions although the peer's key
   is not on the non-empty list.
   */
  lemma SessionOffTheList() returns (suite: Suite, actions: seq<Action>)
    ensures suite.Lawful() && suite.replayWindow == REPLAY_WINDOW && Initial(TWO_NODES)
    ensures suite.publicKey(ALICE_KEY) != suite.publicKey(BOB_KEY)
    ensures var now := Run(suite, TWO_NODES, actions);
            && HasSession(now, ALICE, BOB) && HasSession(now, BOB, ALICE)
            && now.nodes[ALICE].identity == Some(ALICE_KEY) && now.nodes[BOB].identity == Some(BOB_KEY)
            && now.nodes[ALICE].friends != {} && suite.publicKey(BOB_KEY) !in now.nodes[ALICE].friends
  {
    suite := HarmlessSuite();
    assert FriendKeys([STRANGER]) == {STRANGER};
    assert TWO_NODES.nodes[ALICE].identity == Some(ALICE_KEY) && TWO_NODES.nodes[BOB].identity == Some(BOB_KEY);
    hide *;
    TwoNodesStart();
    var connected := ConnectedNodes(suite);
    var change := SetFriends(ALICE, [STRANGER]);
    actions := connected + [change];
    RunAppends(suite, TWO_NODES, connected, change);
    SetFriendsOnly(suite, Run(suite, TWO_NODES, connected), ALICE, BOB, [STRANGER]);
    IdentityStays(suite, TWO_NODES, actions, ALICE);
    IdentityStays(suite, TWO_NODES, actions, BOB);
  }
}
