/**
 One client's end of the peer-to-peer tunnel: the reaction to every received frame, to a request
 to connect, to outgoing packets and to the hole-punching timer, first as functions on the
 tunnel's state and then as the object that updates it.
 */
module Tunnels {
  import opened Wrappers
  import opened Bytes
  import opened Primitives
  import opened Sessions
  import opened KeyExchange
  import opened Frames

  datatype Addr = Addr(ip: bytes, port: nat)

  datatype PeerState = Connecting | Connected | Failed

  datatype Peer = Peer(
    state: PeerState,
    remote: Option<Addr>,            // working endpoint once a direct frame arrived
    relayed: bool,
    candidates: seq<Addr>,
    eph: Option<bytes>,              // our ephemeral private key for this connection
    handshake: Option<Handshake>,    // our public message for this connection
    session: Option<SessionState>)

  datatype TunnelState = TunnelState(
    myId: Id,
    peers: map<Id, Peer>,
    relayAddr: Option<Addr>,
    forceRelay: bool,
    hasSink: bool,
    identity: Option<bytes>,         // long-term private key; None is the legacy cleartext mode
    friends: set<bytes>)             // allowed static public keys; empty allows all

  datatype Datagram = Datagram(dst: Addr, data: bytes)

  /** What one locked section does: the new state, the datagrams written, the packets handed to the sink. */
  datatype Effect = Effect(tunnel: TunnelState, sent: seq<Datagram>, sunk: seq<bytes>)

  datatype HandshakeError = NoEphemeral | Malformed | NotAFriend | BadKeys(reason: KeyError)

  // ---- configuration and connection requests ----

  function FriendKeys(keys: seq<bytes>): set<bytes>
  {
    set k | k in keys && |k| == KEY_LENGTH
  }

  function NewPeer(suite: Suite, t: TunnelState, candidates: seq<Addr>, newKey: Option<bytes>): Peer
  {
    var eph := if t.identity.Some? then newKey else None;
    Peer(Connecting, None, t.forceRelay, candidates, eph,
         if eph.Some? then Some(HandshakeOf(suite, t.identity.value, eph.value)) else None,
         None)
  }

  /** `newKey` is the ephemeral key the generator produced, None when it failed. */
  function BeginConnectStep(suite: Suite, t: TunnelState, id: Id, candidates: seq<Addr>,
                            newKey: Option<bytes>): TunnelState
  {
    if id in t.peers then t
    else t.(peers := t.peers[id := NewPeer(suite, t, candidates, newKey)])
  }

  // ---- sending ----

  function Route(t: TunnelState, p: Peer, id: Id, data: bytes): seq<Datagram>
  {
    if p.relayed then
      if t.relayAddr.None? then []
      else
        match BuildRelay(t.myId, id, data)
        case None => []
        case Some(rp) => [Datagram(t.relayAddr.value, rp)]
    else if p.remote.None? then []
    else [Datagram(p.remote.value, data)]
  }

  function Framed(t: TunnelState, p: Peer, id: Id, typ: byte, payload: bytes): seq<Datagram>
  {
    match BuildFrame(typ, t.myId, id, payload)
    case None => []
    case Some(data) => Route(t, p, id, data)
  }

  /** sendLocked: data frames are sealed when a session exists, control frames never are. */
  function SendStep(suite: Suite, t: TunnelState, id: Id, typ: byte, payload: bytes): (e: Effect)
    requires id in t.peers
    ensures e.tunnel.peers.Keys == t.peers.Keys && e.sunk == []
  {
    var p := t.peers[id];
    if typ == DATA && p.session.Some? then
      var (s, sealed) := SealStep(suite, p.session.value, PeerAad(t.myId, id), payload);
      var p' := p.(session := Some(s));
      Effect(t.(peers := t.peers[id := p']), Framed(t, p', id, typ, sealed), [])
    else Effect(t, Framed(t, p, id, typ, payload), [])
  }

  datatype SendError = UnknownPeer | NotConnected

  function SendDataStep(suite: Suite, t: TunnelState, id: Id, payload: bytes): Result<Effect, SendError>
  {
    if id !in t.peers then Err(UnknownPeer)
    else if t.peers[id].state != Connected then Err(NotConnected)
    else Ok(SendStep(suite, t, id, DATA, payload))
  }

  /** SendData to each id of a list in turn, skipping those that are not connected. */
  function BroadcastStep(suite: Suite, t: TunnelState, order: seq<Id>, payload: bytes): (e: Effect)
    ensures e.sunk == []
  {
    if order == [] then Effect(t, [], [])
    else
      var e := BroadcastStep(suite, t, order[..|order| - 1], payload);
      match SendDataStep(suite, e.tunnel, order[|order| - 1], payload)
      case Err(_) => e
      case Ok(e') => Effect(e'.tunnel, e.sent + e'.sent, [])
  }

  lemma BroadcastNobody(suite: Suite, t: TunnelState, payload: bytes)
    ensures BroadcastStep(suite, t, [], payload) == Effect(t, [], [])
  {
  }

  lemma BroadcastOneMore(suite: Suite, t: TunnelState, order: seq<Id>, id: Id, payload: bytes)
    ensures var e := BroadcastStep(suite, t, order, payload);
            BroadcastStep(suite, t, order + [id], payload) ==
              match SendDataStep(suite, e.tunnel, id, payload)
              case Err(_) => e
              case Ok(e') => Effect(e'.tunnel, e.sent + e'.sent, [])
  {
  }

  function AnnounceStep(t: TunnelState): seq<Datagram>
  {
    match BuildRelay(t.myId, ZERO_ID, [])
    case None => []
    case Some(data) => if t.relayAddr.None? then [] else [Datagram(t.relayAddr.value, data)]
  }

  // ---- receiving ----

  function CheckPeerStatic(t: TunnelState, stat: bytes): bool
  {
    |stat| == KEY_LENGTH && (t.friends == {} || stat in t.friends)
  }

  function PutPeer(t: TunnelState, id: Id, p: Peer): TunnelState
  {
    t.(peers := t.peers[id := p])
  }

  /** Derives our side of the session with a peer from its handshake payload. */
  function Establish(suite: Suite, t: TunnelState, id: Id, payload: bytes): (r: Result<TunnelState, HandshakeError>)
    requires t.identity.Some? && id in t.peers
    ensures r.Ok? ==> id in r.value.peers && r.value.identity == t.identity
  {
    var p := t.peers[id];
    if p.eph.None? then Err(NoEphemeral)
    else
      match Unmarshal(payload)
      case None => Err(Malformed)
      case Some(h) =>
        if !CheckPeerStatic(t, h.stat) then Err(NotAFriend)
        else
          match DeriveKey(suite, t.identity.value, p.eph.value, h)
          case Err(e) => Err(BadKeys(e))
          case Ok(key) => Ok(PutPeer(t, id, p.(session := Some(SessionState(key, 0, EMPTY_WINDOW)))))
  }

  /** The session is derived from the first handshake payload and kept for retransmissions. */
  function Handshaken(suite: Suite, t: TunnelState, f: Frame): (r: Result<TunnelState, HandshakeError>)
    requires f.sender in t.peers
    ensures r.Ok? ==> f.sender in r.value.peers
  {
    if t.identity.None? || t.peers[f.sender].session.Some? then Ok(t)
    else Establish(suite, t, f.sender, f.payload)
  }

  /** A frame forwarded by the relay server switches replies to the relay; any other is a direct endpoint. */
  function NotePath(t: TunnelState, id: Id, addr: Addr): (t': TunnelState)
    requires id in t.peers
    ensures id in t'.peers
  {
    var p := t.peers[id];
    PutPeer(t, id, if t.relayAddr == Some(addr) then p.(relayed := true)
                   else p.(relayed := false, remote := Some(addr)))
  }

  function MarkConnected(t: TunnelState, id: Id): (t': TunnelState)
    requires id in t.peers
    ensures id in t'.peers
  {
    PutPeer(t, id, t.peers[id].(state := Connected))
  }

  function HandshakePayload(p: Peer): bytes
  {
    if p.handshake.Some? then Marshal(p.handshake.value) else []
  }

  function HelloStep(suite: Suite, t: TunnelState, f: Frame): Effect
    requires f.sender in t.peers
  {
    match Handshaken(suite, t, f)
    case Err(_) => Effect(t, [], [])
    case Ok(t1) =>
      var ack := if t1.identity.Some? then HandshakePayload(t1.peers[f.sender]) else [];
      var e1 := SendStep(suite, MarkConnected(t1, f.sender), f.sender, HELLO_ACK, ack);
      var e2 := SendStep(suite, e1.tunnel, f.sender, PING, []);
      Effect(e2.tunnel, e1.sent + e2.sent, [])
  }

  function HelloAckStep(suite: Suite, t: TunnelState, f: Frame): Effect
    requires f.sender in t.peers
  {
    match Handshaken(suite, t, f)
    case Err(_) => Effect(t, [], [])
    case Ok(t1) =>
      if t1.peers[f.sender].state == Connected then Effect(t1, [], [])
      else SendStep(suite, MarkConnected(t1, f.sender), f.sender, PING, [])
  }

  function ToSink(t: TunnelState, packet: bytes): seq<bytes>
  {
    if t.hasSink then [packet] else []
  }

  function DataStep(suite: Suite, t: TunnelState, f: Frame): Effect
    requires f.sender in t.peers
  {
    var p := t.peers[f.sender];
    if p.session.None? then Effect(t, [], if t.identity.Some? then [] else ToSink(t, f.payload))
    else
      match OpenStep(suite, p.session.value, PeerAad(f.sender, f.target), f.payload)
      case Err(_) => Effect(t, [], [])
      case Ok((s, packet)) => Effect(PutPeer(t, f.sender, p.(session := Some(s))), [], ToSink(t, packet))
  }

  function HandleFrameStep(suite: Suite, t: TunnelState, f: Frame, addr: Addr): Effect
  {
    if f.sender !in t.peers then Effect(t, [], [])
    else
      var t' := NotePath(t, f.sender, addr);
      if f.typ == HELLO then HelloStep(suite, t', f)
      else if f.typ == HELLO_ACK then HelloAckStep(suite, t', f)
      else if f.typ == PING then SendStep(suite, t', f.sender, PONG, [])
      else if f.typ == DATA then DataStep(suite, t', f)
      else Effect(t', [], [])
  }

  /** Run: parse, drop what is not a frame or is meant for another connection, handle the rest. */
  function DatagramStep(suite: Suite, t: TunnelState, buf: bytes, addr: Addr): Effect
  {
    match ParseFrame(buf)
    case None => Effect(t, [], [])
    case Some(f) => if f.target != t.myId then Effect(t, [], []) else HandleFrameStep(suite, t, f, addr)
  }

  // ---- hole punching ----

  /** The hello frames of one round, sent outside the lock from values read inside it. */
  function PunchRound(t: TunnelState, p: Peer, id: Id, viaRelay: bool): seq<Datagram>
  {
    match BuildFrame(HELLO, t.myId, id, HandshakePayload(p))
    case None => []
    case Some(data) =>
      if viaRelay then Route(t, p.(relayed := true), id, data)
      else seq(|p.candidates|, i requires 0 <= i < |p.candidates| => Datagram(p.candidates[i], data))
  }

  /** What the loop does once the deadline of its current path has passed. */
  function PunchExpired(t: TunnelState, p: Peer, viaRelay: bool): (p': Peer)
    ensures p' == p.(state := p'.state, relayed := p'.relayed)
  {
    if p.state != Connecting then p
    else if viaRelay then p.(state := Failed)
    else if p.relayed then p
    else if t.relayAddr.Some? then p.(relayed := true)
    else p.(state := Failed)
  }

  /** Milliseconds. */
  const PUNCH_INTERVAL: nat := 100
  const PUNCH_TIMEOUT: nat := 6000

  // ---- what goes where ----

  /** d carries the frame to dst: bare, or in a relay packet when it goes by way of the relay. */
  ghost predicate CarriesTo(d: Datagram, dst: Addr, viaRelay: bool, f: Frame)
  {
    && d.dst == dst
    && if viaRelay then
         && ParseFrame(d.data) == None && ParseRelay(d.data).Some?
         && ParseRelay(d.data).value.sender == f.sender && ParseRelay(d.data).value.target == f.target
         && ParseFrame(ParseRelay(d.data).value.payload) == Some(f)
       else ParseFrame(d.data) == Some(f) && ParseRelay(d.data) == None
  }

  lemma FramedCarriesTo(t: TunnelState, p: Peer, id: Id, typ: byte, payload: bytes)
    requires |t.myId| == ID_LENGTH && |id| == ID_LENGTH
    ensures var f, sent := Frame(typ, t.myId, id, payload), Framed(t, p, id, typ, payload);
            && (p.relayed && t.relayAddr.Some? ==> |sent| == 1 && CarriesTo(sent[0], t.relayAddr.value, true, f))
            && (!p.relayed && p.remote.Some? ==> |sent| == 1 && CarriesTo(sent[0], p.remote.value, false, f))
            && ((if p.relayed then t.relayAddr.None? else p.remote.None?) ==> sent == [])
  {
    ParseBuiltFrame(typ, t.myId, id, payload);
    var data := BuildFrame(typ, t.myId, id, payload).value;
    hide BuildFrame, ParseFrame, ParseRelay;
    ParseBuiltRelay(t.myId, id, data);
  }

  /** What a data frame carries: the packet sealed under the session, or as it is when there is none. */
  function Body(suite: Suite, t: TunnelState, id: Id, payload: bytes): bytes
    requires id in t.peers
  {
    match t.peers[id].session
    case None => payload
    case Some(s) => SealedPacket(suite, s.key, s.send, PeerAad(t.myId, id), payload)
  }

  /**
   A packet for a connected peer goes out as one data frame: by the relay when the peer is on it and there is
   one, straight to the address its last direct frame came from otherwise, and nowhere without a path. Packets
   for others are refused.
   */
  lemma SendDataFollowsPath(suite: Suite, t: TunnelState, id: Id, payload: bytes)
    requires |t.myId| == ID_LENGTH && |id| == ID_LENGTH
    ensures SendDataStep(suite, t, id, payload) == Err(UnknownPeer) <==> id !in t.peers
    ensures SendDataStep(suite, t, id, payload) == Err(NotConnected) <==>
              id in t.peers && t.peers[id].state != Connected
    ensures id in t.peers && t.peers[id].state == Connected ==>
              && SendDataStep(suite, t, id, payload).Ok?
              && var sent, p := SendDataStep(suite, t, id, payload).value.sent, t.peers[id];
              var f := Frame(DATA, t.myId, id, Body(suite, t, id, payload));
              && (p.relayed && t.relayAddr.Some? ==> |sent| == 1 && CarriesTo(sent[0], t.relayAddr.value, true, f))
              && (!p.relayed && p.remote.Some? ==> |sent| == 1 && CarriesTo(sent[0], p.remote.value, false, f))
              && ((if p.relayed then t.relayAddr.None? else p.remote.None?) ==> sent == [])
  {
    if id in t.peers && t.peers[id].state == Connected {
      var p := t.peers[id];
      var p' := match p.session
                case None => p
                case Some(s) => p.(session := Some(s.(send := (s.send + 1) % LIMIT64)));
      hide CarriesTo, Framed;
      FramedCarriesTo(t, p', id, DATA, Body(suite, t, id, payload));
    }
  }

  lemma ControlFollowsPath(suite: Suite, t: TunnelState, id: Id, typ: byte, payload: bytes)
    requires id in t.peers && typ != DATA && |t.myId| == ID_LENGTH && |id| == ID_LENGTH
    ensures var e, p, f := SendStep(suite, t, id, typ, payload), t.peers[id], Frame(typ, t.myId, id, payload);
            && e.tunnel == t
            && (p.relayed && t.relayAddr.Some? ==> |e.sent| == 1 && CarriesTo(e.sent[0], t.relayAddr.value, true, f))
            && (!p.relayed && p.remote.Some? ==> |e.sent| == 1 && CarriesTo(e.sent[0], p.remote.value, false, f))
  {
    hide CarriesTo, Framed;
    FramedCarriesTo(t, t.peers[id], id, typ, payload);
  }

  /** The datagrams carry exactly these frames to dst, in this order. */
  ghost predicate CarryAll(sent: seq<Datagram>, dst: Addr, viaRelay: bool, frames: seq<Frame>)
  {
    |sent| == |frames| && forall i :: 0 <= i < |sent| ==> CarriesTo(sent[i], dst, viaRelay, frames[i])
  }

  /** The peer's path leads back to src. */
  ghost predicate PathIs(t: TunnelState, id: Id, src: Addr, viaRelay: bool)
    requires id in t.peers
  {
    t.peers[id].relayed == viaRelay && if viaRelay then t.relayAddr == Some(src) else t.peers[id].remote == Some(src)
  }

  lemma CarryBoth(x: seq<Datagram>, y: seq<Datagram>, dst: Addr, viaRelay: bool, f: Frame, g: Frame)
    requires |x| == 1 && CarriesTo(x[0], dst, viaRelay, f) && |y| == 1 && CarriesTo(y[0], dst, viaRelay, g)
    ensures CarryAll(x + y, dst, viaRelay, [f, g])
  {
  }

  lemma HelloAnswers(suite: Suite, t: TunnelState, f: Frame, src: Addr, viaRelay: bool)
    requires |t.myId| == ID_LENGTH && |f.sender| == ID_LENGTH && f.sender in t.peers
             && PathIs(t, f.sender, src, viaRelay)
    ensures var e := HelloStep(suite, t, f);
            && f.sender in e.tunnel.peers && PathIs(e.tunnel, f.sender, src, viaRelay)
            && if Handshaken(suite, t, f).Err? then e.sent == []
               else
                 && e.tunnel.peers[f.sender].state == Connected
                 && CarryAll(e.sent, src, viaRelay,
                      [Frame(HELLO_ACK, t.myId, f.sender,
                             if t.identity.Some? then HandshakePayload(t.peers[f.sender]) else []),
                       Frame(PING, t.myId, f.sender, [])])
  {
    if Handshaken(suite, t, f).Ok? {
      var t1 := Handshaken(suite, t, f).value;
      assert t1.myId == t.myId && t1.relayAddr == t.relayAddr && t1.identity == t.identity;
      assert t1.peers[f.sender] == t.peers[f.sender].(session := t1.peers[f.sender].session);
      var t2 := MarkConnected(t1, f.sender);
      var ack := if t.identity.Some? then HandshakePayload(t.peers[f.sender]) else [];
      assert HandshakePayload(t1.peers[f.sender]) == HandshakePayload(t.peers[f.sender]);
      hide Handshaken, SendStep, CarriesTo, CarryAll, HandshakePayload;
      ControlFollowsPath(suite, t2, f.sender, HELLO_ACK, ack);
      ControlFollowsPath(suite, t2, f.sender, PING, []);
      CarryBoth(SendStep(suite, t2, f.sender, HELLO_ACK, ack).sent, SendStep(suite, t2, f.sender, PING, []).sent,
                src, viaRelay, Frame(HELLO_ACK, t.myId, f.sender, ack), Frame(PING, t.myId, f.sender, []));
    }
  }

  lemma HelloAckAnswers(suite: Suite, t: TunnelState, f: Frame, src: Addr, viaRelay: bool)
    requires |t.myId| == ID_LENGTH && |f.sender| == ID_LENGTH && f.sender in t.peers
             && PathIs(t, f.sender, src, viaRelay)
    ensures var e := HelloAckStep(suite, t, f);
            && f.sender in e.tunnel.peers && PathIs(e.tunnel, f.sender, src, viaRelay)
            && if Handshaken(suite, t, f).Err? then e.sent == []
               else
                 && e.tunnel.peers[f.sender].state == Connected
                 && CarryAll(e.sent, src, viaRelay,
                      if t.peers[f.sender].state == Connected then [] else [Frame(PING, t.myId, f.sender, [])])
  {
    if Handshaken(suite, t, f).Ok? {
      var t1 := Handshaken(suite, t, f).value;
      assert t1.myId == t.myId && t1.relayAddr == t.relayAddr;
      assert t1.peers[f.sender] == t.peers[f.sender].(session := t1.peers[f.sender].session);
      hide Handshaken, SendStep, CarriesTo;
      ControlFollowsPath(suite, MarkConnected(t1, f.sender), f.sender, PING, []);
    }
  }

  /** The frames a received one is answered with, when its handshake, if it carries one, is accepted. */
  function Answers(t: TunnelState, f: Frame): seq<Frame>
    requires f.sender in t.peers
  {
    if f.typ == HELLO then
      [Frame(HELLO_ACK, t.myId, f.sender, if t.identity.Some? then HandshakePayload(t.peers[f.sender]) else []),
       Frame(PING, t.myId, f.sender, [])]
    else if f.typ == HELLO_ACK && t.peers[f.sender].state != Connected then [Frame(PING, t.myId, f.sender, [])]
    else if f.typ == PING then [Frame(PONG, t.myId, f.sender, [])]
    else []
  }

  /** t' is t with at most the entry for b changed. */
  ghost predicate OnlyPeer(t: TunnelState, t': TunnelState, b: Id)
  {
    && t' == t.(peers := t'.peers)
    && t'.peers.Keys == t.peers.Keys
    && forall c :: c in t.peers && c != b ==> t'.peers[c] == t.peers[c]
  }

  lemma HandshakenTouchesOne(suite: Suite, t: TunnelState, f: Frame)
    requires f.sender in t.peers && Handshaken(suite, t, f).Ok?
    ensures OnlyPeer(t, MarkConnected(Handshaken(suite, t, f).value, f.sender), f.sender)
    ensures OnlyPeer(t, Handshaken(suite, t, f).value, f.sender)
  {
    hide DeriveKey, CheckPeerStatic, Unmarshal;
  }

  lemma SendStepTouchesOne(suite: Suite, t: TunnelState, id: Id, typ: byte, payload: bytes)
    requires id in t.peers
    ensures OnlyPeer(t, SendStep(suite, t, id, typ, payload).tunnel, id)
  {
    hide SealStep, Framed;
  }

  lemma NotePathTouchesOne(t: TunnelState, id: Id, src: Addr)
    requires id in t.peers
    ensures OnlyPeer(t, NotePath(t, id, src), id)
  {
  }

  lemma SameTunnel(t: TunnelState, id: Id)
    ensures OnlyPeer(t, t, id)
  {
  }

  lemma OnlyPeerTwice(t: TunnelState, t1: TunnelState, t2: TunnelState, id: Id)
    requires OnlyPeer(t, t1, id) && OnlyPeer(t1, t2, id)
    ensures OnlyPeer(t, t2, id)
  {
  }

  lemma HandshakeStepsTouchOne(suite: Suite, t: TunnelState, f: Frame)
    requires f.sender in t.peers
    ensures OnlyPeer(t, HelloStep(suite, t, f).tunnel, f.sender)
            && OnlyPeer(t, HelloAckStep(suite, t, f).tunnel, f.sender)
  {
    hide SendStep, Handshaken, MarkConnected, OnlyPeer;
    if Handshaken(suite, t, f).Ok? {
      var t1 := Handshaken(suite, t, f).value;
      var t2 := MarkConnected(t1, f.sender);
      HandshakenTouchesOne(suite, t, f);
      var ack := if t1.identity.Some? then HandshakePayload(t1.peers[f.sender]) else [];
      var t3 := SendStep(suite, t2, f.sender, HELLO_ACK, ack).tunnel;
      SendStepTouchesOne(suite, t2, f.sender, HELLO_ACK, ack);
      SendStepTouchesOne(suite, t3, f.sender, PING, []);
      SendStepTouchesOne(suite, t2, f.sender, PING, []);
      OnlyPeerTwice(t, t2, t3, f.sender);
      OnlyPeerTwice(t, t3, SendStep(suite, t3, f.sender, PING, []).tunnel, f.sender);
      OnlyPeerTwice(t, t2, SendStep(suite, t2, f.sender, PING, []).tunnel, f.sender);
    } else {
      assert OnlyPeer(t, t, f.sender) by { SameTunnel(t, f.sender); }
    }
  }

  lemma DataTouchesOne(suite: Suite, t: TunnelState, f: Frame)
    requires f.sender in t.peers
    ensures OnlyPeer(t, DataStep(suite, t, f).tunnel, f.sender)
  {
    hide OpenStep;
  }

  lemma KnownFrameTouchesOne(suite: Suite, t: TunnelState, f: Frame, src: Addr)
    requires f.sender in t.peers
    ensures OnlyPeer(t, HandleFrameStep(suite, t, f, src).tunnel, f.sender)
  {
    hide NotePath, SendStep, HelloStep, HelloAckStep, DataStep, OnlyPeer;
    var t1 := NotePath(t, f.sender, src);
    NotePathTouchesOne(t, f.sender, src);
    HandshakeStepsTouchOne(suite, t1, f);
    SendStepTouchesOne(suite, t1, f.sender, PONG, []);
    DataTouchesOne(suite, t1, f);
    SameTunnel(t1, f.sender);
    OnlyPeerTwice(t, t1, HandleFrameStep(suite, t, f, src).tunnel, f.sender);
  }

  lemma FrameTouchesOne(suite: Suite, t: TunnelState, f: Frame, src: Addr)
    ensures OnlyPeer(t, HandleFrameStep(suite, t, f, src).tunnel, f.sender)
  {
    if f.sender in t.peers { KnownFrameTouchesOne(suite, t, f, src); }
  }
  /**
   Everything a received frame is answered with goes back to where it came from, by the relay when that was the
   relay's address, and the peer's path leads there from then on. Only a handshake that is refused goes
   unanswered.
   */
  lemma AnswersGoBack(suite: Suite, t: TunnelState, f: Frame, src: Addr)
    requires |t.myId| == ID_LENGTH && |f.sender| == ID_LENGTH && f.sender in t.peers
    ensures var e, viaRelay := HandleFrameStep(suite, t, f, src), t.relayAddr == Some(src);
            && f.sender in e.tunnel.peers && PathIs(e.tunnel, f.sender, src, viaRelay)
            && if (f.typ == HELLO || f.typ == HELLO_ACK) && Handshaken(suite, NotePath(t, f.sender, src), f).Err?
               then e.sent == []
               else CarryAll(e.sent, src, viaRelay, Answers(t, f))
  {
    var viaRelay := t.relayAddr == Some(src);
    var t1 := NotePath(t, f.sender, src);
    assert t1.myId == t.myId && PathIs(t1, f.sender, src, viaRelay);
    assert HandshakePayload(t1.peers[f.sender]) == HandshakePayload(t.peers[f.sender]);
    hide HelloStep, HelloAckStep, CarriesTo, SendStep, OpenStep, NotePath, HandshakePayload;
    if f.typ == HELLO {
      HelloAnswers(suite, t1, f, src, viaRelay);
    } else if f.typ == HELLO_ACK {
      HelloAckAnswers(suite, t1, f, src, viaRelay);
    } else if f.typ == PING {
      ControlFollowsPath(suite, t1, f.sender, PONG, []);
    }
  }

  /** After a frame from a connected peer, the next packet for it goes where that frame came from. */
  lemma DataGoesBack(suite: Suite, t: TunnelState, f: Frame, src: Addr, payload: bytes)
    requires |t.myId| == ID_LENGTH && |f.sender| == ID_LENGTH && f.sender in t.peers
    requires HandleFrameStep(suite, t, f, src).tunnel.peers[f.sender].state == Connected
    ensures var t' := HandleFrameStep(suite, t, f, src).tunnel;
            var r := SendDataStep(suite, t', f.sender, payload);
            && r.Ok? && f.sender in t'.peers
            && CarryAll(r.value.sent, src, t.relayAddr == Some(src),
                        [Frame(DATA, t.myId, f.sender, Body(suite, t', f.sender, payload))])
  {
    hide HandleFrameStep, SendDataStep, CarriesTo, Answers, Body;
    var t' := HandleFrameStep(suite, t, f, src).tunnel;
    FrameTouchesOne(suite, t, f, src);
    assert t'.myId == t.myId && t'.relayAddr == t.relayAddr;
    AnswersGoBack(suite, t, f, src);
    SendDataFollowsPath(suite, t', f.sender, payload);
  }

  function SentTo(suite: Suite, t: TunnelState, id: Id, payload: bytes): seq<Datagram>
  {
    match SendDataStep(suite, t, id, payload)
    case Ok(e) => e.sent
    case Err(_) => []
  }

  /** What sending to each of them alone would write. */
  function SentToAll(suite: Suite, t: TunnelState, order: seq<Id>, payload: bytes): seq<Datagram>
  {
    if order == [] then []
    else SentToAll(suite, t, order[..|order| - 1], payload) + SentTo(suite, t, order[|order| - 1], payload)
  }

  lemma SentToReads(suite: Suite, t: TunnelState, t': TunnelState, id: Id, payload: bytes)
    requires t'.myId == t.myId && t'.relayAddr == t.relayAddr && t'.peers.Keys == t.peers.Keys
    requires id in t.peers ==> t'.peers[id] == t.peers[id]
    ensures SentTo(suite, t', id, payload) == SentTo(suite, t, id, payload)
  {
    hide SealStep, BuildFrame, BuildRelay;
  }

  lemma SendTouchesOne(suite: Suite, t: TunnelState, id: Id, payload: bytes)
    requires SendDataStep(suite, t, id, payload).Ok?
    ensures var t' := SendDataStep(suite, t, id, payload).value.tunnel;
            && id in t.peers && OnlyPeer(t, t', id)
            && t'.peers[id] == t.peers[id].(session := t'.peers[id].session)
  {
    hide SealStep, Framed;
  }

  /** A broadcast writes to each connected peer what SendData would write to it, and nothing else. */
  lemma {:induction false} BroadcastReachesEach(suite: Suite, t: TunnelState, order: seq<Id>, payload: bytes)
    requires forall i, j :: 0 <= i < j < |order| ==> order[i] != order[j]
    ensures var e := BroadcastStep(suite, t, order, payload);
            && e.sent == SentToAll(suite, t, order, payload)
            && e.tunnel.myId == t.myId && e.tunnel.relayAddr == t.relayAddr && e.tunnel.peers.Keys == t.peers.Keys
            && forall id :: id in t.peers && id !in order ==> e.tunnel.peers[id] == t.peers[id]
  {
    hide SendDataStep;
    if order == [] {
    } else {
      var init, last := order[..|order| - 1], order[|order| - 1];
      BroadcastReachesEach(suite, t, init, payload);
      var t1 := BroadcastStep(suite, t, init, payload).tunnel;
      assert last !in init;
      SentToReads(suite, t, t1, last, payload);
      if SendDataStep(suite, t1, last, payload).Ok? { SendTouchesOne(suite, t1, last, payload); }
    }
  }

  /** The relay learns a client's address from one packet that is addressed to nobody and carries nothing. */
  lemma AnnounceTellsRelay(t: TunnelState)
    requires |t.myId| == ID_LENGTH
    ensures match t.relayAddr
            case None => AnnounceStep(t) == []
            case Some(relay) =>
              && |AnnounceStep(t)| == 1 && AnnounceStep(t)[0].dst == relay
              && ParseRelay(AnnounceStep(t)[0].data) == Some(Envelope(t.myId, [0, 0, 0, 0, 0, 0, 0, 0], []))
  {
    ParseBuiltRelay(t.myId, ZERO_ID, []);
  }

  /** Without a session a data frame is taken as it is by a tunnel without identity, and dropped by any other. */
  lemma ClearDataOnlyWithoutIdentity(suite: Suite, t: TunnelState, f: Frame, src: Addr)
    requires f.typ == DATA && f.sender in t.peers && t.peers[f.sender].session.None?
    ensures HandleFrameStep(suite, t, f, src).sunk == if t.identity.None? && t.hasSink then [f.payload] else []
  {
  }

  /** A round by the relay is one hello to the relay; a direct round is one to each candidate, in order. */
  lemma PunchReachesEach(t: TunnelState, p: Peer, id: Id)
    requires |t.myId| == ID_LENGTH && |id| == ID_LENGTH
    ensures var f, direct := Frame(HELLO, t.myId, id, HandshakePayload(p)), PunchRound(t, p, id, false);
            && |direct| == |p.candidates|
            && forall i :: 0 <= i < |direct| ==> CarriesTo(direct[i], p.candidates[i], false, f)
    ensures var f, relayed := Frame(HELLO, t.myId, id, HandshakePayload(p)), PunchRound(t, p, id, true);
            match t.relayAddr
            case None => relayed == []
            case Some(relay) => |relayed| == 1 && CarriesTo(relayed[0], relay, true, f)
  {
    var payload := HandshakePayload(p);
    ParseBuiltFrame(HELLO, t.myId, id, payload);
    var data := BuildFrame(HELLO, t.myId, id, payload).value;
    hide BuildFrame, ParseFrame, ParseRelay, HandshakePayload;
    ParseBuiltRelay(t.myId, id, data);
  }

  /**
   A newly requested connection punches at every candidate it was given, or only through the relay when that is
   forced, with hellos that hold the public halves of the new ephemeral key and of the identity.
   */
  lemma NewPeerPunches(suite: Suite, t: TunnelState, id: Id, candidates: seq<Addr>, newKey: Option<bytes>)
    requires id !in t.peers && |t.myId| == ID_LENGTH && |id| == ID_LENGTH
    ensures var t' := BeginConnectStep(suite, t, id, candidates, newKey);
            && id in t'.peers
            && var p := t'.peers[id];
               var hello := Frame(HELLO, t.myId, id,
                 if t.identity.Some? && newKey.Some?
                 then suite.publicKey(newKey.value) + suite.publicKey(t.identity.value) else []);
               && p.state == Connecting && p.session.None? && p.remote.None?
               && p.relayed == t.forceRelay
               && var round := PunchRound(t', p, id, p.relayed);
                  if t.forceRelay then
                    match t.relayAddr
                    case None => round == []
                    case Some(relay) => CarryAll(round, relay, true, [hello])
                  else
                    && |round| == |candidates|
                    && forall i :: 0 <= i < |round| ==> CarriesTo(round[i], candidates[i], false, hello)
  {
    var t' := BeginConnectStep(suite, t, id, candidates, newKey);
    hide PunchRound, CarriesTo;
    PunchReachesEach(t', t'.peers[id], id);
  }

  // ---- the punch loop's clock ----

  /** What the loop reads: before its first round, and early and late in each round. */
  datatype Clock = Clock(begin: nat, early: nat -> nat, late: nat -> nat)
  {
    /** Time does not run backwards, and rounds are at least one sleep apart. */
    ghost predicate Ticks()
    {
      && begin <= early(0)
      && (forall k: nat :: early(k) <= late(k))
      && (forall k: nat {:trigger early(k + 1)} :: late(k) + PUNCH_INTERVAL <= early(k + 1))
    }
  }

  /** The relay's deadline is set in the first round on it. */
  function DeadlineAfter(p: Peer, early: nat, relayDeadline: Option<nat>): Option<nat>
  {
    if p.relayed && relayDeadline.None? then Some(early + PUNCH_TIMEOUT) else relayDeadline
  }

  function PathDeadline(p: Peer, directDeadline: nat, relayDeadline: Option<nat>): nat
  {
    if p.relayed && relayDeadline.Some? then relayDeadline.value else directDeadline
  }

  ghost predicate StillTrying(clock: Clock, deadline: nat, start: nat, n: nat)
  {
    forall k: nat :: start <= k < start + n ==> clock.late(k) <= deadline
  }

  /** n rounds from round `start` on: the last is the first to read a time past the deadline. */
  ghost predicate GaveUpOnTime(clock: Clock, deadline: nat, start: nat, n: nat)
  {
    && (n > 0 ==> clock.late(start + n - 1) > deadline)
    && StillTrying(clock, deadline, start, if n > 0 then n - 1 else 0)
  }

  lemma {:induction false} ClockAdvances(clock: Clock, i: nat, n: nat)
    requires clock.Ticks()
    ensures clock.early(i + n) >= clock.early(i) + PUNCH_INTERVAL * n
  {
    if n > 0 {
      ClockAdvances(clock, i, n - 1);
      var k := i + n - 1;
      assert clock.early(k) <= clock.late(k) && clock.late(k) + PUNCH_INTERVAL <= clock.early(k + 1);
    }
  }

  lemma FewTries(clock: Clock, deadline: nat, start: nat, n: nat)
    requires clock.Ticks() && deadline <= clock.early(start) + PUNCH_TIMEOUT
    requires StillTrying(clock, deadline, start, n)
    ensures n <= 61
  {
    if n > 0 {
      ClockAdvances(clock, start, n - 1);
      assert clock.early(start + (n - 1)) <= clock.late(start + (n - 1)) <= deadline;
    }
  }

  /** Where the punch loop stands after the given numbers of rounds on each path. */
  ghost predicate PunchPhase(clock: Clock, hasRelay: bool, startsRelayed: bool, p: Peer,
                             direct: nat, viaRelay: nat, relayDeadline: Option<nat>)
  {
    var directEnd, relayEnd := clock.begin + PUNCH_TIMEOUT, clock.early(direct) + PUNCH_TIMEOUT;
    && direct <= 62 && viaRelay <= 62
    && (direct == 0 ==> p.relayed == startsRelayed)
    && (startsRelayed ==> direct == 0 && p.relayed)
    && (p.relayed && !startsRelayed ==> hasRelay)
    && relayDeadline == (if viaRelay > 0 then Some(relayEnd) else None)
    && match p.state
       case Connected => false
       case Connecting =>
         if p.relayed then GaveUpOnTime(clock, directEnd, 0, direct) && StillTrying(clock, relayEnd, direct, viaRelay)
         else viaRelay == 0 && StillTrying(clock, directEnd, 0, direct)
       case Failed =>
         && GaveUpOnTime(clock, directEnd, 0, direct) && GaveUpOnTime(clock, relayEnd, direct, viaRelay)
         && (if p.relayed then viaRelay > 0 else viaRelay == 0 && direct > 0 && !hasRelay)
  }

  lemma SameRound(t: TunnelState, p: Peer, t': TunnelState, p': Peer, id: Id)
    requires t' == PutPeer(t, id, p') && p' == p.(relayed := p'.relayed)
    ensures PunchRound(t', p', id, false) == PunchRound(t, p, id, false)
    ensures PunchRound(t', p', id, true) == PunchRound(t, p, id, true)
  {
  }

  lemma PutReads(t: TunnelState, id: Id, p: Peer)
    ensures id in PutPeer(t, id, p).peers && PutPeer(t, id, p).peers[id] == p
            && PutPeer(t, id, p).relayAddr == t.relayAddr
    ensures id in t.peers && t.peers[id] == p ==> PutPeer(t, id, p) == t
  {
  }

  lemma PhaseStarts(clock: Clock, hasRelay: bool, p: Peer)
    requires p.state == Connecting
    ensures PunchPhase(clock, hasRelay, p.relayed, p, 0, 0, None)
  {
  }

  lemma PhaseEnds(clock: Clock, hasRelay: bool, startsRelayed: bool, p: Peer,
                  direct: nat, viaRelay: nat, relayDeadline: Option<nat>)
    requires PunchPhase(clock, hasRelay, startsRelayed, p, direct, viaRelay, relayDeadline) && p.state != Connecting
    ensures p.state == Failed && direct <= 62 && viaRelay <= 62
    ensures GaveUpOnTime(clock, clock.begin + PUNCH_TIMEOUT, 0, direct)
    ensures GaveUpOnTime(clock, clock.early(direct) + PUNCH_TIMEOUT, direct, viaRelay)
    ensures direct > 0 <==> !startsRelayed
    ensures viaRelay > 0 <==> p.relayed
    ensures p.relayed <==> startsRelayed || hasRelay
  {
  }

  /** The peer entry after a round that reads the clock at `late`. */
  function AfterRound(t: TunnelState, p: Peer, late: nat, directDeadline: nat, relayDeadline: Option<nat>): Peer
  {
    if late > PathDeadline(p, directDeadline, relayDeadline) then PunchExpired(t, p, p.relayed) else p
  }

  /** One more round on the current path keeps the account of the loop exact. */
  lemma PhaseAdvances(clock: Clock, t: TunnelState, startsRelayed: bool, p: Peer,
                      direct: nat, viaRelay: nat, relayDeadline: Option<nat>)
    requires clock.Ticks() && p.state == Connecting
    requires PunchPhase(clock, t.relayAddr.Some?, startsRelayed, p, direct, viaRelay, relayDeadline)
    ensures direct + viaRelay < 124 && (!p.relayed ==> viaRelay == 0)
    ensures var k := direct + viaRelay;
            var relayDeadline' := DeadlineAfter(p, clock.early(k), relayDeadline);
            var p' := AfterRound(t, p, clock.late(k), clock.begin + PUNCH_TIMEOUT, relayDeadline');
            PunchPhase(clock, t.relayAddr.Some?, startsRelayed, p',
                       if p.relayed then direct else direct + 1, if p.relayed then viaRelay + 1 else viaRelay,
                       relayDeadline')
  {
    if p.relayed {
      FewTries(clock, clock.early(direct) + PUNCH_TIMEOUT, direct, viaRelay);
    } else {
      FewTries(clock, clock.begin + PUNCH_TIMEOUT, 0, direct);
    }
    hide Clock.Ticks;
  }

  function Repeat<T>(s: seq<T>, n: nat): seq<T>
  {
    if n == 0 then [] else Repeat(s, n - 1) + s
  }

  /** What m direct rounds and then n relayed rounds send. */
  function Rounds<T>(d: seq<T>, r: seq<T>, m: nat, n: nat): seq<T>
  {
    Repeat(d, m) + Repeat(r, n)
  }

  lemma NoRounds<T>(log: seq<T>, d: seq<T>, r: seq<T>)
    ensures log + Rounds(d, r, 0, 0) == log
  {
  }

  lemma RoundsGrow<T>(log: seq<T>, d: seq<T>, r: seq<T>, m: nat, n: nat)
    ensures log + Rounds(d, r, m, n) + r == log + Rounds(d, r, m, n + 1)
    ensures n == 0 ==> log + Rounds(d, r, m, n) + d == log + Rounds(d, r, m + 1, n)
  {
  }

  /** What one round does to everything the loop keeps account of. */
  lemma RoundKeeps(clock: Clock, t0: TunnelState, p0: Peer, id: Id, p: Peer, log: seq<Datagram>,
                   direct: nat, viaRelay: nat, relayDeadline: Option<nat>)
    requires clock.Ticks() && p.state == p0.state == Connecting && p == p0.(relayed := p.relayed)
    requires PunchPhase(clock, t0.relayAddr.Some?, p0.relayed, p, direct, viaRelay, relayDeadline)
    ensures direct + viaRelay < 124
    ensures var t, k := PutPeer(t0, id, p), direct + viaRelay;
            var d, r := PunchRound(t0, p0, id, false), PunchRound(t0, p0, id, true);
            var m, n := if p.relayed then direct else direct + 1, if p.relayed then viaRelay + 1 else viaRelay;
            var relayDeadline' := DeadlineAfter(p, clock.early(k), relayDeadline);
            var p' := AfterRound(t, p, clock.late(k), clock.begin + PUNCH_TIMEOUT, relayDeadline');
            && PutPeer(t, id, p') == PutPeer(t0, id, p') && p' == p0.(state := p'.state, relayed := p'.relayed)
            && log + Rounds(d, r, direct, viaRelay) + PunchRound(t, p, id, p.relayed) == log + Rounds(d, r, m, n)
            && PunchPhase(clock, t0.relayAddr.Some?, p0.relayed, p', m, n, relayDeadline')
  {
    hide PunchPhase, PunchRound, Rounds, Clock.Ticks, PathDeadline, DeadlineAfter;
    var t := PutPeer(t0, id, p);
    PhaseAdvances(clock, t, p0.relayed, p, direct, viaRelay, relayDeadline);
    SameRound(t0, p0, t, p, id);
    RoundsGrow(log, PunchRound(t0, p0, id, false), PunchRound(t0, p0, id, true), direct, viaRelay);
  }

  // ---- the object ----

  class Tunnel {
    const suite: Suite
    const myId: Id
    var peers: map<Id, Peer>
    var relayAddr: Option<Addr>
    var forceRelay: bool
    var hasSink: bool
    var identity: Option<bytes>
    var friends: set<bytes>
    var sent: seq<Datagram>     // everything written to the socket, oldest first
    var sunk: seq<bytes>        // everything handed to the data sink, oldest first

    constructor (suite: Suite, myId: Id)
      ensures View() == TunnelState(myId, map[], None, false, false, None, {})
      ensures this.suite == suite && sent == [] && sunk == []
    {
      this.suite, this.myId := suite, myId;
      peers, relayAddr, forceRelay, hasSink := map[], None, false, false;
      identity, friends := None, {};
      sent, sunk := [], [];
    }

    function View(): TunnelState
      reads this
    {
      TunnelState(myId, peers, relayAddr, forceRelay, hasSink, identity, friends)
    }

    /** The object went through one step: its state and both its logs moved by e. */
    twostate predicate Performed(e: Effect)
      reads this
    {
      View() == e.tunnel && sent == old(sent) + e.sent && sunk == old(sunk) + e.sunk
    }

    method SetFriends(keys: seq<bytes>)
      modifies this
      ensures Performed(Effect(old(View()).(friends := FriendKeys(keys)), [], []))
    {
      friends := {};
      for i := 0 to |keys|
        invariant friends == FriendKeys(keys[..i])
        invariant View() == old(View()).(friends := friends) && sent == old(sent) && sunk == old(sunk)
      {
        assert keys[..i + 1] == keys[..i] + [keys[i]];
        if |keys[i]| != KEY_LENGTH {
          continue;
        }
        friends := friends + {keys[i]};
      }
      assert keys[..|keys|] == keys;
    }

    method BeginConnect(id: Id, candidates: seq<Addr>, newKey: Option<bytes>)
      modifies this
      ensures Performed(Effect(BeginConnectStep(suite, old(View()), id, candidates, newKey), [], []))
    {
      if id in peers {
        return;
      }
      var p := Peer(Connecting, None, false, candidates, None, None, None);
      if forceRelay {
        p := p.(relayed := true);
      }
      if identity.Some? && newKey.Some? {
        p := p.(eph := newKey, handshake := Some(HandshakeOf(suite, identity.value, newKey.value)));
      }
      peers := peers[id := p];
    }

    method SendLocked(id: Id, typ: byte, payload: bytes)
      requires id in peers
      modifies this
      ensures Performed(SendStep(suite, old(View()), id, typ, payload))
    {
      var p := peers[id];
      var body := payload;
      if typ == DATA && p.session.Some? {
        var (s, sealed) := SealStep(suite, p.session.value, PeerAad(myId, id), payload);
        p := p.(session := Some(s));
        peers := peers[id := p];
        body := sealed;
      }
      var data := FillFrame(typ, myId, id, body);
      if data.None? {
        return;
      }
      if p.relayed {
        if relayAddr.None? {
          return;
        }
        var rp := FillRelay(myId, id, data.value);
        if rp.None? {
          return;
        }
        sent := sent + [Datagram(relayAddr.value, rp.value)];
        return;
      }
      if p.remote.None? {
        return;
      }
      sent := sent + [Datagram(p.remote.value, data.value)];
    }

    method SendData(id: Id, payload: bytes) returns (r: Result<(), SendError>)
      modifies this
      ensures match SendDataStep(suite, old(View()), id, payload)
              case Ok(e) => r == Ok(()) && Performed(e)
              case Err(x) => r == Err(x) && Performed(Effect(old(View()), [], []))
    {
      if id !in peers {
        return Err(UnknownPeer);
      }
      if peers[id].state != Connected {
        return Err(NotConnected);
      }
      SendLocked(id, DATA, payload);
      return Ok(());
    }

    /** Sends to every peer, in whatever order the map is walked; returns that order. */
    method SendDataBroadcast(payload: bytes) returns (ghost order: seq<Id>)
      modifies this
      ensures forall id :: id in order <==> id in old(peers)
      ensures forall i, j :: 0 <= i < j < |order| ==> order[i] != order[j]
      ensures Performed(BroadcastStep(suite, old(View()), order, payload))
    {
      var todo := peers.Keys;
      order := [];
      hide SendStep, BroadcastStep;
      BroadcastNobody(suite, View(), payload);
      while todo != {}
        invariant todo <= peers.Keys == old(peers).Keys
        invariant forall id :: id in order <==> id in peers && id !in todo
        invariant forall i, j :: 0 <= i < j < |order| ==> order[i] != order[j]
        invariant Performed(BroadcastStep(suite, old(View()), order, payload))
        decreases todo
      {
        var id :| id in todo;
        todo := todo - {id};
        BroadcastOneMore(suite, old(View()), order, id, payload);
        if peers[id].state == Connected {
          SendLocked(id, DATA, payload);
        }
        order := order + [id];
      }
    }

    method Announce()
      modifies this
      ensures Performed(Effect(old(View()), AnnounceStep(old(View())), []))
    {
      if relayAddr.None? {
        return;
      }
      var data := FillRelay(myId, ZERO_ID, []);
      if data.None? {
        return;
      }
      sent := sent + [Datagram(relayAddr.value, data.value)];
    }

    /** responderHandshake and initiatorHandshake after their early exits: the session is stored only on success. */
    method EstablishSession(id: Id, payload: bytes) returns (ok: bool)
      requires id in peers && identity.Some?
      modifies this
      ensures match Establish(suite, old(View()), id, payload)
              case Ok(t) => ok && Performed(Effect(t, [], []))
              case Err(_) => !ok && Performed(Effect(old(View()), [], []))
    {
      hide MadeOf, DeriveKey, CheckPeerStatic, Unmarshal;
      var p := peers[id];
      if p.eph.None? {
        return false;
      }
      var h := Unmarshal(payload);
      if h.None? {
        return false;
      }
      if !CheckPeerStatic(View(), h.value.stat) {
        return false;
      }
      var session := NewSession(suite, identity.value, p.eph.value, h.value);
      if session.Err? {
        return false;
      }
      peers := peers[id := p.(session := Some(session.value))];
      return true;
    }

    method OnHello(f: Frame)
      requires f.sender in peers
      modifies this
      ensures Performed(HelloStep(suite, old(View()), f))
    {
      hide SendStep, Establish;
      var id := f.sender;
      var ack: bytes := [];
      if identity.Some? {
        if peers[id].session.None? {
          var ok := EstablishSession(id, f.payload);
          if !ok {
            return;
          }
        }
        ack := HandshakePayload(peers[id]);
      }
      assert Handshaken(suite, old(View()), f) == Ok(View());
      ghost var t1 := View();
      peers := peers[id := peers[id].(state := Connected)];
      assert View() == MarkConnected(t1, id);
      ghost var e1 := SendStep(suite, View(), id, HELLO_ACK, ack);
      SendLocked(id, HELLO_ACK, ack);
      ghost var e2 := SendStep(suite, View(), id, PING, []);
      SendLocked(id, PING, []);
      assert sent == old(sent) + (e1.sent + e2.sent);
      assert e2.tunnel == View();
    }

    method OnHelloAck(f: Frame)
      requires f.sender in peers
      modifies this
      ensures Performed(HelloAckStep(suite, old(View()), f))
    {
      hide SendStep, Establish;
      var id := f.sender;
      if identity.Some? && peers[id].session.None? {
        var ok := EstablishSession(id, f.payload);
        if !ok {
          return;
        }
      }
      assert Handshaken(suite, old(View()), f) == Ok(View());
      ghost var t1 := View();
      if peers[id].state != Connected {
        peers := peers[id := peers[id].(state := Connected)];
        assert View() == MarkConnected(t1, id);
        SendLocked(id, PING, []);
      }
    }

    method OnData(f: Frame)
      requires f.sender in peers
      modifies this
      ensures Performed(DataStep(suite, old(View()), f))
    {
      var id := f.sender;
      var p := peers[id];
      if identity.Some? && p.session.None? {
        return;
      }
      var packet := f.payload;
      if p.session.Some? {
        match OpenStep(suite, p.session.value, PeerAad(f.sender, f.target), f.payload)
        case Err(_) => return;
        case Ok((s, plaintext)) =>
          peers := peers[id := p.(session := Some(s))];
          packet := plaintext;
      }
      if hasSink {
        sunk := sunk + [packet];
      }
    }

    method HandleFrame(f: Frame, addr: Addr)
      modifies this
      ensures Performed(HandleFrameStep(suite, old(View()), f, addr))
    {
      hide HelloStep, HelloAckStep, DataStep, SendStep;
      if f.sender !in peers {
        return;
      }
      var id := f.sender;
      if relayAddr.Some? && addr == relayAddr.value {
        peers := peers[id := peers[id].(relayed := true)];
      } else {
        peers := peers[id := peers[id].(relayed := false, remote := Some(addr))];
      }
      assert View() == NotePath(old(View()), id, addr);
      if f.typ == HELLO {
        OnHello(f);
      } else if f.typ == HELLO_ACK {
        OnHelloAck(f);
      } else if f.typ == PING {
        SendLocked(id, PONG, []);
      } else if f.typ == DATA {
        OnData(f);
      }
    }

    /** One iteration of Run. */
    method OnDatagram(buf: bytes, addr: Addr)
      modifies this
      ensures Performed(DatagramStep(suite, old(View()), buf, addr))
    {
      var f := ParseFrame(buf);
      if f.None? || f.value.target != myId {
        return;
      }
      HandleFrame(f.value, addr);
    }

    /** The frames one round of the punch loop sends on its current path. */
    method SendPunchRound(id: Id, viaRelay: bool)
      requires id in peers
      modifies this
      ensures Performed(Effect(old(View()), PunchRound(old(View()), old(peers)[id], id, viaRelay), []))
    {
      var p := peers[id];
      var data := FillFrame(HELLO, myId, id, HandshakePayload(p));
      if data.None? {
        return;
      }
      if viaRelay {
        var rp := FillRelay(myId, id, data.value);
        if rp.None? || relayAddr.None? {
          return;
        }
        sent := sent + [Datagram(relayAddr.value, rp.value)];
      } else {
        var round := seq(|p.candidates|, i requires 0 <= i < |p.candidates| => Datagram(p.candidates[i], data.value));
        var i := 0;
        assert round[..0] == [];
        while i < |p.candidates|
          invariant 0 <= i <= |p.candidates|
          invariant View() == old(View()) && sunk == old(sunk)
          invariant sent == old(sent) + round[..i]
        {
          sent := sent + [Datagram(p.candidates[i], data.value)];
          assert round[..i + 1] == round[..i] + [round[i]];
          i := i + 1;
        }
        assert round[..i] == round;
      }
    }

    /**
     One iteration of the punch loop for a peer that is still connecting. It reads the clock at `early`
     when it starts on the relay, and at `late` to see whether its path's deadline has passed.
     */
    method PunchIteration(id: Id, early: nat, late: nat, directDeadline: nat, relayDeadline: Option<nat>)
      returns (relayDeadline': Option<nat>)
      requires id in peers && peers[id].state == Connecting
      modifies this
      ensures var t, p := old(View()), old(peers)[id];
              && relayDeadline' == DeadlineAfter(p, early, relayDeadline)
              && sunk == old(sunk) && sent == old(sent) + PunchRound(t, p, id, p.relayed)
              && View() == PutPeer(t, id, AfterRound(t, p, late, directDeadline, relayDeadline'))
    {
      relayDeadline' := relayDeadline;
      if peers[id].relayed {
        if relayDeadline'.None? {
          relayDeadline' := Some(early + PUNCH_TIMEOUT);
        }
        SendPunchRound(id, true);
        if late > relayDeadline'.value {
          peers := peers[id := peers[id].(state := Failed)];
        }
      } else {
        SendPunchRound(id, false);
        if late > directDeadline {
          if relayAddr.Some? {
            peers := peers[id := peers[id].(relayed := true)];
          } else {
            peers := peers[id := peers[id].(state := Failed)];
          }
        }
      }
      assert old(peers)[id := old(peers)[id]] == old(peers);
    }

    /**
     The whole punch loop when no frame ever arrives, by any clock on which the sleep between rounds
     lasts at least PUNCH_INTERVAL. Each path it tries is given up in the first round that reads a time
     past that path's deadline, at the latest its 62nd; the direct path comes first unless the peer
     starts out relayed, the relay path follows if there is one.
     */
    method PunchLoop(id: Id, clock: Clock) returns (direct: nat, viaRelay: nat)
      requires id in peers && peers[id].state == Connecting
      requires clock.Ticks()
      modifies this
      ensures var t, p := old(View()), old(peers)[id];
              && View() == PutPeer(t, id, p.(state := Failed, relayed := viaRelay > 0))
              && sent == old(sent) + Rounds(PunchRound(t, p, id, false), PunchRound(t, p, id, true), direct, viaRelay)
      ensures direct > 0 <==> !old(peers)[id].relayed
      ensures viaRelay > 0 <==> old(peers)[id].relayed || relayAddr.Some?
      ensures sunk == old(sunk)
      ensures direct <= 62 && viaRelay <= 62
      ensures GaveUpOnTime(clock, clock.begin + PUNCH_TIMEOUT, 0, direct)
      ensures GaveUpOnTime(clock, clock.early(direct) + PUNCH_TIMEOUT, direct, viaRelay)
    {
      hide PunchRound, PunchPhase, GaveUpOnTime, Clock.Ticks, Rounds, AfterRound, DeadlineAfter, PutPeer;
      ghost var t0, p0 := View(), peers[id];
      ghost var d, r := PunchRound(t0, p0, id, false), PunchRound(t0, p0, id, true);
      direct, viaRelay := 0, 0;
      var directDeadline := clock.begin + PUNCH_TIMEOUT;
      var relayDeadline: Option<nat> := None;
      NoRounds(sent, d, r);
      PutReads(t0, id, p0);
      PhaseStarts(clock, t0.relayAddr.Some?, p0);
      while peers[id].state == Connecting
        invariant id in peers && peers[id] == p0.(state := peers[id].state, relayed := peers[id].relayed)
        invariant View() == PutPeer(t0, id, peers[id])
        invariant sunk == old(sunk) && sent == old(sent) + Rounds(d, r, direct, viaRelay)
        invariant PunchPhase(clock, t0.relayAddr.Some?, p0.relayed, peers[id], direct, viaRelay, relayDeadline)
        decreases 124 - direct - viaRelay
      {
        ghost var p := peers[id];
        var viaRelayNow, k := peers[id].relayed, direct + viaRelay;
        RoundKeeps(clock, t0, p0, id, p, old(sent), direct, viaRelay, relayDeadline);
        ghost var nextDeadline := DeadlineAfter(p, clock.early(k), relayDeadline);
        PutReads(t0, id, AfterRound(View(), p, clock.late(k), directDeadline, nextDeadline));
        relayDeadline := PunchIteration(id, clock.early(k), clock.late(k), directDeadline, relayDeadline);
        if viaRelayNow {
          viaRelay := viaRelay + 1;
        } else {
          direct := direct + 1;
        }
      }
      PhaseEnds(clock, t0.relayAddr.Some?, p0.relayed, peers[id], direct, viaRelay, relayDeadline);
      PutReads(t0, id, peers[id]);
    }
  }
}
