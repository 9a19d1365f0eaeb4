/**
 The coordination server's handlers. One handler run is one step; what it sends is appended to the
 FIFO queue of each recipient's connection.
 */
module Servers {
  import opened Wrappers
  import opened Registries

  datatype Refusal =
    | NameMissing | KeyMissing
    | BadRequest(reason: RegistryError)
    | NotInARoom | PeerNotFound | ConnectToSelf | NotInYourRoom | NoCandidates

  /** Server to client. Lists are sent in no particular order; the model keeps them as sets. */
  datatype Message =
    | Registered(id: ClientId, virtualIp: Octet, peers: set<Peer>, room: Code)
    | PeersList(peers: set<Peer>)
    | ConnectCandidates(peerId: ClientId, peerName: string, candidates: seq<Candidate>)
    | RoomCreated(code: Code)
    | RoomJoined(code: Code, members: set<RoomMember>)
    | RoomUpdate(members: set<RoomMember>)
    | RoomLeft(code: Code)
    | Error(refusal: Refusal)

  type Queues = map<ClientId, seq<Message>>

  datatype Hub = Hub(reg: State, queues: Queues)

  /** Every online client has a connection. */
  ghost predicate Ready(h: Hub)
  {
    Sound(h.reg) && h.queues.Keys == h.reg.clients.Keys
  }

  function Push(q: Queues, id: ClientId, messages: seq<Message>): Queues
  {
    if id in q then q[id := q[id] + messages] else q
  }

  lemma PushTwice(q: Queues, id: ClientId, first: Message, second: Message)
    ensures Push(Push(q, id, [first]), id, [second]) == Push(q, id, [first, second])
  {
    if id in q { assert q[id] + [first] + [second] == q[id] + [first, second]; }
  }

  /** The peer list a client is sent. */
  function PeersMessage(reg: State, id: ClientId): Message
    requires id in reg.clients
  {
    PeersList(VisiblePeers(reg, id, reg.clients[id].keyFP))
  }

  /** broadcastPeers: one peer list to every client. */
  function Broadcast(reg: State, q: Queues): Queues
  {
    map id | id in q :: if id in reg.clients then q[id] + [PeersMessage(reg, id)] else q[id]
  }

  /** Broadcast, with the clients in todo still to be told. */
  function BroadcastBut(reg: State, q: Queues, todo: set<ClientId>): Queues
  {
    map id | id in q :: if id in reg.clients && id !in todo then q[id] + [PeersMessage(reg, id)] else q[id]
  }

  lemma BroadcastAll(reg: State, q: Queues)
    ensures BroadcastBut(reg, q, {}) == Broadcast(reg, q)
    ensures BroadcastBut(reg, q, reg.clients.Keys) == q
  {
    hide VisiblePeers;
  }

  lemma BroadcastButOne(reg: State, q: Queues, todo: set<ClientId>, id: ClientId)
    requires id in todo && id in reg.clients
    ensures BroadcastBut(reg, q, todo - {id}) == Push(BroadcastBut(reg, q, todo), id, [PeersMessage(reg, id)])
  {
    hide VisiblePeers;
  }

  function MembersOf(reg: State, code: Code): set<Fingerprint>
  {
    if code in reg.rooms then reg.rooms[code].members else {}
  }

  function Roster(reg: State, code: Code): set<RoomMember>
    requires Indexed(reg)
  {
    if code in reg.rooms then MemberList(reg, reg.rooms[code]) else {}
  }

  /** Whether notifyRoom reaches a client: it is the online holder of a member fingerprint. */
  predicate Notified(reg: State, code: Code, id: ClientId)
  {
    id in reg.clients && reg.clients[id].keyFP in MembersOf(reg, code)
    && reg.clients[id].keyFP in reg.byFP && reg.byFP[reg.clients[id].keyFP] == id
  }

  /** notifyRoom: the current member list to every online member. */
  function Notify(reg: State, code: Code, q: Queues): Queues
    requires Indexed(reg)
  {
    map id | id in q :: if Notified(reg, code, id) then q[id] + [RoomUpdate(Roster(reg, code))] else q[id]
  }

  /** Notify, with the members in todo still to be told. */
  function NotifiedBut(reg: State, code: Code, members: set<RoomMember>, q: Queues, todo: set<Fingerprint>): Queues
  {
    map id | id in q ::
      if Notified(reg, code, id) && reg.clients[id].keyFP !in todo then q[id] + [RoomUpdate(members)] else q[id]
  }

  lemma NotifiedAll(reg: State, code: Code, members: set<RoomMember>, q: Queues)
    requires Indexed(reg) && members == Roster(reg, code)
    ensures NotifiedBut(reg, code, members, q, {}) == Notify(reg, code, q)
    ensures NotifiedBut(reg, code, members, q, MembersOf(reg, code)) == q
  {
    hide Roster;
  }

  lemma NotifiedButOne(reg: State, code: Code, members: set<RoomMember>, q: Queues, todo: set<Fingerprint>,
                       fp: Fingerprint)
    requires Indexed(reg) && fp in todo && fp in MembersOf(reg, code)
    ensures NotifiedBut(reg, code, members, q, todo - {fp}) ==
              var q' := NotifiedBut(reg, code, members, q, todo);
              if fp in reg.byFP then Push(q', reg.byFP[fp], [RoomUpdate(members)]) else q'
  {
  }

  // ---- handlers ----

  /** Why a registration is turned down, if it is; the newcomer is told so on a connection that is then closed. */
  function RegisterRefusal(reg: State, id: ClientId, name: string, fp: Fingerprint): Option<Refusal>
  {
    if name == "" then Some(NameMissing)
    else if fp == "" then Some(KeyMissing)
    else
      match AddStep(reg, id, name, fp).1
      case Err(e) => Some(BadRequest(e))
      case Ok(_) => None
  }

  function RegisterStep(h: Hub, id: ClientId, name: string, fp: Fingerprint): Hub
  {
    if name == "" || fp == "" then h
    else
      match AddStep(h.reg, id, name, fp)
      case (reg, Err(_)) => h.(reg := reg)
      case (reg, Ok(c)) =>
        var hello := Registered(id, c.virtualIp, VisiblePeers(reg, id, fp), CodeOf(reg, fp));
        Hub(reg, Broadcast(reg, h.queues[id := [hello]]))
  }

  function ReportStep(h: Hub, id: ClientId, endpoint: Endpoint): Hub
  {
    var reg := EndpointStep(h.reg, id, endpoint);
    Hub(reg, Broadcast(reg, h.queues))
  }

  function ListStep(h: Hub, id: ClientId): Hub
    requires id in h.reg.clients
  {
    h.(queues := Push(h.queues, id, [PeersMessage(h.reg, id)]))
  }

  ghost function CreateStep(h: Hub, id: ClientId, code: Code): Hub
    requires Valid(h.reg) && id in h.reg.clients && code != "" && code !in h.reg.rooms
  {
    match CreateRoomStep(h.reg, h.reg.clients[id].keyFP, code)
    case Err(e) => h.(queues := Push(h.queues, id, [Error(BadRequest(e))]))
    case Ok(reg) =>
      CreateKeepsValid(h.reg, h.reg.clients[id].keyFP, code);
      Hub(reg, Push(h.queues, id, [RoomCreated(code), RoomJoined(code, Roster(reg, code))]))
  }

  ghost function JoinStep(h: Hub, id: ClientId, code: Code): Hub
    requires Valid(h.reg) && id in h.reg.clients
  {
    match JoinRoomStep(h.reg, h.reg.clients[id].keyFP, code)
    case Err(e) => h.(queues := Push(h.queues, id, [Error(BadRequest(e))]))
    case Ok(reg) =>
      JoinKeepsValid(h.reg, h.reg.clients[id].keyFP, code);
      var q := Push(h.queues, id, [RoomJoined(code, Roster(reg, code))]);
      Hub(reg, Broadcast(reg, Notify(reg, code, q)))
  }

  ghost function RoomLeaveStep(h: Hub, id: ClientId): Hub
    requires Valid(h.reg) && id in h.reg.clients
  {
    var fp := h.reg.clients[id].keyFP;
    var code := CodeOf(h.reg, fp);
    if code == "" then h.(queues := Push(h.queues, id, [Error(NotInARoom)]))
    else
      var reg := LeaveStep(h.reg, fp);
      LeaveKeepsValid(h.reg, fp);
      Hub(reg, Broadcast(reg, Notify(reg, code, Push(h.queues, id, [RoomLeft(code)]))))
  }

  ghost function DisconnectStep(h: Hub, id: ClientId): Hub
    requires Valid(h.reg) && id in h.reg.clients
  {
    var code := CodeOf(h.reg, h.reg.clients[id].keyFP);
    var reg := RemoveStep(h.reg, id);
    RemoveKeepsValid(h.reg, id);
    var q := h.queues - {id};
    Hub(reg, Broadcast(reg, if code != "" then Notify(reg, code, q) else q))
  }

  /** Why a connect request is turned down, if it is. */
  function ConnectRefusal(reg: State, id: ClientId, target: string): Option<Refusal>
    requires id in reg.clients
  {
    if target == "" || target !in reg.clients then Some(PeerNotFound)
    else if target == id then Some(ConnectToSelf)
    else if !VisibleTo(reg, reg.clients[id], reg.clients[target]) then Some(NotInYourRoom)
    else if reg.clients[id].endpoint.candidates == [] || reg.clients[target].endpoint.candidates == [] then
      Some(NoCandidates)
    else None
  }

  function Introduction(c: Client): Message
  {
    ConnectCandidates(c.id, c.name, c.endpoint.candidates)
  }

  function ConnectStep(h: Hub, id: ClientId, target: string): Hub
    requires id in h.reg.clients
  {
    match ConnectRefusal(h.reg, id, target)
    case Some(refusal) => h.(queues := Push(h.queues, id, [Error(refusal)]))
    case None =>
      h.(queues := Push(Push(h.queues, id, [Introduction(h.reg.clients[target])]), target,
                        [Introduction(h.reg.clients[id])]))
  }

  ghost predicate ShareRoom(reg: State, a: Fingerprint, b: Fingerprint)
  {
    exists code :: code in reg.rooms && a in reg.rooms[code].members && b in reg.rooms[code].members
  }

  lemma ShareRoomIffSameCode(reg: State, a: Fingerprint, b: Fingerprint)
    requires Linked(reg)
    ensures ShareRoom(reg, a, b) <==> CodeOf(reg, a) != "" && CodeOf(reg, b) == CodeOf(reg, a)
  {
  }

  /** Client id was told target's id, name and candidates, and nothing else. */
  predicate ToldOf(h: Hub, h': Hub, id: ClientId, target: ClientId)
  {
    && target in h.reg.clients && id in h.queues && id in h'.queues
    && var c := h.reg.clients[target];
       h'.queues[id] == h.queues[id] + [ConnectCandidates(target, c.name, c.endpoint.candidates)]
  }

  /** Both clients were told to punch toward each other. */
  predicate Introduced(h: Hub, h': Hub, id: ClientId, target: ClientId)
  {
    ToldOf(h, h', id, target) && ToldOf(h, h', target, id)
  }

  /** Why two clients are not introduced: the first reason that applies. */
  ghost function WhyNot(reg: State, id: ClientId, target: string): Option<Refusal>
    requires id in reg.clients
  {
    if target !in reg.clients then Some(PeerNotFound)
    else if target == id then Some(ConnectToSelf)
    else if !ShareRoom(reg, reg.clients[id].keyFP, reg.clients[target].keyFP) then Some(NotInYourRoom)
    else if reg.clients[id].endpoint.candidates == [] || reg.clients[target].endpoint.candidates == [] then
      Some(NoCandidates)
    else None
  }

  lemma RefusalIsWhyNot(reg: State, id: ClientId, target: string)
    requires Linked(reg) && Indexed(reg) && id in reg.clients
    ensures ConnectRefusal(reg, id, target) == WhyNot(reg, id, target)
  {
    if target in reg.clients {
      ShareRoomIffSameCode(reg, reg.clients[id].keyFP, reg.clients[target].keyFP);
    }
    hide ShareRoom, Linked;
  }

  lemma SoundParts(reg: State)
    requires Sound(reg)
    ensures Valid(reg) && Linked(reg) && Indexed(reg)
  {
    hide Linked, Indexed, Addressed, Numbered, Distinct, Live;
  }

  /** Two clients are told to punch toward each other exactly when they share a room and both have candidates. */
  lemma IntroducedIffSameRoom(h: Hub, id: ClientId, target: ClientId)
    requires Ready(h) && id in h.reg.clients
    ensures Introduced(h, ConnectStep(h, id, target), id, target) <==>
              && id != target && target in h.reg.clients
              && h.reg.clients[id].endpoint.candidates != [] && h.reg.clients[target].endpoint.candidates != []
              && ShareRoom(h.reg, h.reg.clients[id].keyFP, h.reg.clients[target].keyFP)
  {
    hide Sound, ShareRoom, Linked, ConnectRefusal;
    SoundParts(h.reg);
    RefusalIsWhyNot(h.reg, id, target);
    var h' := ConnectStep(h, id, target);
    if ConnectRefusal(h.reg, id, target).Some? {
      assert h'.queues[id][|h.queues[id]|].Error?;
    }
  }

  /** Otherwise the asker alone is told why, and nothing else happens. */
  lemma ConnectRefusals(h: Hub, id: ClientId, target: string)
    requires Ready(h) && id in h.reg.clients && WhyNot(h.reg, id, target).Some?
    ensures ConnectStep(h, id, target) ==
              h.(queues := h.queues[id := h.queues[id] + [Error(WhyNot(h.reg, id, target).value)]])
  {
    SoundParts(h.reg);
    hide Sound, Linked, Indexed, WhyNot, ConnectRefusal;
    RefusalIsWhyNot(h.reg, id, target);
  }

  /** A request that makes no sense is answered with one error to whoever made it, and nothing else happens. */
  lemma RoomRefusals(h: Hub, id: ClientId, code: Code)
    requires Ready(h) && Valid(h.reg) && id in h.reg.clients
    ensures var fp := h.reg.clients[id].keyFP;
            var told := (e: Refusal) => h.(queues := h.queues[id := h.queues[id] + [Error(e)]]);
            && (fp in h.reg.inRoom && code != "" && code !in h.reg.rooms ==>
                  CreateStep(h, id, code) == told(BadRequest(AlreadyInRoom)))
            && (fp in h.reg.inRoom ==> JoinStep(h, id, code) == told(BadRequest(AlreadyInRoom)))
            && (fp !in h.reg.inRoom && code !in h.reg.rooms ==> JoinStep(h, id, code) == told(BadRequest(NoSuchRoom)))
            && (fp !in h.reg.inRoom ==> RoomLeaveStep(h, id) == told(NotInARoom))
  {
    SoundParts(h.reg);
    CodeOfIsPlace(h.reg, h.reg.clients[id].keyFP);
    hide Sound, Valid, Linked, Indexed, CodeOf, LeaveStep, Notify, Broadcast, Roster;
  }

  /**
   In every run, two clients in one room whose last reports held candidates are told each other's, when either
   asks: exactly those reported, under each other's id and name.
   */
  lemma LastReportsAreExchanged(h: Hub, ops: seq<Operation>, id: ClientId, i: nat, target: ClientId, j: nat)
    requires Ready(h) && IsRun(ops) && h.reg == After(ops) && id != target
    requires ReportStands(ops, i, id) && ReportStands(ops, j, target)
    requires ops[i].endpoint.candidates != [] && ops[j].endpoint.candidates != []
    ensures id in h.reg.clients && target in h.reg.clients
    ensures ShareRoom(h.reg, h.reg.clients[id].keyFP, h.reg.clients[target].keyFP) ==>
              var h' := ConnectStep(h, id, target);
              && id in h.queues && id in h'.queues && target in h.queues && target in h'.queues
              && h'.queues[id] == h.queues[id]
                   + [ConnectCandidates(target, h.reg.clients[target].name, ops[j].endpoint.candidates)]
              && h'.queues[target] == h.queues[target]
                   + [ConnectCandidates(id, h.reg.clients[id].name, ops[i].endpoint.candidates)]
  {
    hide ConnectStep, Sound, ShareRoom, ReportStands, IsRun;
    ReporterIsOnline(ops, i, id);
    ReporterIsOnline(ops, j, target);
    EndpointIsLastReport(ops, id);
    EndpointIsLastReport(ops, target);
    IntroducedIffSameRoom(h, id, target);
  }

  /** A newcomer with a name and a key is turned down exactly when 253 clients are online, and then nothing changes. */
  lemma RegisterRefusedIffFull(h: Hub, id: ClientId, name: string, fp: Fingerprint)
    requires Valid(h.reg)
    ensures RegisterRefusal(h.reg, id, name, fp).Some? <==> name == "" || fp == "" || |h.reg.clients| == ADDRESSES
    ensures RegisterRefusal(h.reg, id, name, fp).Some? ==> RegisterStep(h, id, name, fp) == h
  {
    hide Valid, AllocFrom, IpTaken, VisiblePeers, CodeOf, Broadcast;
    RefusedIffFull(h.reg, id, name, fp);
    if AddStep(h.reg, id, name, fp).1.Err? { RefusalChangesNothing(h.reg, id, name, fp); }
    hide AddStep;
  }

  // ---- the object ----

  lemma CreateKeepsValidIfOk(s: State, fp: Fingerprint, code: Code)
    requires Valid(s) && code != "" && code !in s.rooms
    ensures CreateRoomStep(s, fp, code).Ok? ==> Valid(CreateRoomStep(s, fp, code).value)
  {
    if CreateRoomStep(s, fp, code).Ok? { CreateKeepsValid(s, fp, code); }
  }

  class Server {
    const reg: Registry
    var queues: Queues

    constructor (normal: Code -> Code)
      ensures View() == Hub(EMPTY, map[]) && fresh(reg) && reg.normal == normal
    {
      reg := new Registry(normal);
      queues := map[];
    }

    function View(): Hub
      reads this, reg
    {
      Hub(reg.View(), queues)
    }

    method SendClient(id: ClientId, message: Message)
      modifies this
      ensures queues == Push(old(queues), id, [message])
    {
      if id in queues {
        queues := queues[id := queues[id] + [message]];
      }
    }

    method BroadcastPeers()
      modifies this
      ensures queues == Broadcast(reg.View(), old(queues))
    {
      ghost var before := queues;
      var todo := reg.clients.Keys;
      BroadcastAll(reg.View(), before);
      hide Broadcast, BroadcastBut, VisiblePeers;
      while todo != {}
        invariant todo <= reg.clients.Keys
        invariant queues == BroadcastBut(reg.View(), before, todo)
        decreases todo
      {
        var id :| id in todo;
        BroadcastButOne(reg.View(), before, todo, id);
        todo := todo - {id};
        var peers := reg.ListVisiblePeers(id, reg.clients[id].keyFP);
        SendClient(id, PeersList(peers));
      }
    }

    method NotifyRoom(code: Code)
      requires Indexed(reg.View())
      modifies this
      ensures queues == Notify(reg.View(), code, old(queues))
    {
      if code !in reg.rooms {
        assert forall id :: !Notified(reg.View(), code, id);
        return;
      }
      ghost var before := queues;
      var room := reg.rooms[code];
      var list := reg.ListMembers(room);
      var members := Elems(list);
      NotifiedAll(reg.View(), code, members, before);
      hide Notify, NotifiedBut, MemberList;
      var todo := room.members;
      while todo != {}
        invariant todo <= room.members
        invariant queues == NotifiedBut(reg.View(), code, members, before, todo)
        decreases todo
      {
        var fp :| fp in todo;
        NotifiedButOne(reg.View(), code, members, before, todo, fp);
        todo := todo - {fp};
        if fp in reg.byFP {
          SendClient(reg.byFP[fp], RoomUpdate(members));
        }
      }
    }

    /** Returns the error the newcomer is sent before its connection is closed. */
    method HandleRegister(id: ClientId, name: string, fp: Fingerprint) returns (refusal: Option<Refusal>)
      modifies this, reg
      ensures View() == RegisterStep(old(View()), id, name, fp)
      ensures refusal == RegisterRefusal(old(reg.View()), id, name, fp)
    {
      if name == "" {
        return Some(NameMissing);
      }
      if fp == "" {
        return Some(KeyMissing);
      }
      var c := reg.Add(id, name, fp);
      if c.Err? {
        return Some(BadRequest(c.error));
      }
      var peers := reg.ListVisiblePeers(id, fp);
      queues := queues[id := [Registered(id, c.value.virtualIp, peers, CodeOf(reg.View(), fp))]];
      BroadcastPeers();
      return None;
    }

    method HandleReport(id: ClientId, endpoint: Endpoint)
      modifies this, reg
      ensures View() == ReportStep(old(View()), id, endpoint)
      ensures Indexed(reg.View()) ==> Does(old(reg.View()), Report(id, endpoint), reg.View())
    {
      hide Does, Indexed;
      reg.UpdateEndpoint(id, endpoint);
      BroadcastPeers();
    }

    method HandleListPeers(id: ClientId)
      requires id in reg.clients
      modifies this
      ensures View() == ListStep(old(View()), id)
    {
      var peers := reg.ListVisiblePeers(id, reg.clients[id].keyFP);
      SendClient(id, PeersList(peers));
    }

    method HandleRoomCreate(id: ClientId, code: Code)
      requires Valid(reg.View()) && id in reg.clients && code != "" && code !in reg.rooms
      modifies this, reg
      ensures View() == CreateStep(old(View()), id, code)
    {
      var fp := reg.clients[id].keyFP;
      CreateKeepsValidIfOk(reg.View(), fp, code);
      var r := reg.CreateRoom(fp, code);
      if r.Err? {
        SendClient(id, Error(BadRequest(r.error)));
        return;
      }
      SendClient(id, RoomCreated(code));
      var list := reg.ListMembers(reg.rooms[code]);
      var members := Elems(list);
      SendClient(id, RoomJoined(code, members));
      PushTwice(old(queues), id, RoomCreated(code), RoomJoined(code, members));
    }

    method HandleRoomJoin(id: ClientId, typed: Code)
      requires Valid(reg.View()) && id in reg.clients
      modifies this, reg
      ensures View() == JoinStep(old(View()), id, reg.normal(typed))
    {
      var r := reg.JoinRoom(reg.clients[id].keyFP, typed);
      if r.Err? {
        SendClient(id, Error(BadRequest(r.error)));
        return;
      }
      var code := reg.normal(typed);
      SendClient(id, RoomJoined(code, Elems(r.value)));
      NotifyRoom(code);
      BroadcastPeers();
    }

    method HandleRoomLeave(id: ClientId)
      requires Valid(reg.View()) && id in reg.clients
      modifies this, reg
      ensures View() == RoomLeaveStep(old(View()), id)
    {
      var fp := reg.clients[id].keyFP;
      LeaveKeepsValid(reg.View(), fp);
      var code := reg.RemoveFromRoom(fp);
      if code == "" {
        SendClient(id, Error(NotInARoom));
        return;
      }
      SendClient(id, RoomLeft(code));
      NotifyRoom(code);
      BroadcastPeers();
    }

    /** The room is noted before the client is removed, and its remaining members told afterwards. */
    method HandleDisconnect(id: ClientId)
      requires Valid(reg.View()) && id in reg.clients
      modifies this, reg
      ensures View() == DisconnectStep(old(View()), id)
    {
      var code := CodeOf(reg.View(), reg.clients[id].keyFP);
      RemoveKeepsValid(reg.View(), id);
      reg.Remove(id);
      queues := queues - {id};
      if code != "" {
        NotifyRoom(code);
      }
      BroadcastPeers();
    }

    method HandleConnectRequest(id: ClientId, target: string)
      requires id in reg.clients
      modifies this
      ensures View() == ConnectStep(old(View()), id, target)
    {
      if target == "" || target !in reg.clients {
        SendClient(id, Error(PeerNotFound));
        return;
      }
      var src, dst := reg.clients[id], reg.clients[target];
      if target == id {
        SendClient(id, Error(ConnectToSelf));
        return;
      }
      if !VisibleTo(reg.View(), src, dst) {
        SendClient(id, Error(NotInYourRoom));
        return;
      }
      if src.endpoint.candidates == [] || dst.endpoint.candidates == [] {
        SendClient(id, Error(NoCandidates));
        return;
      }
      SendClient(id, Introduction(dst));
      SendClient(target, Introduction(src));
    }
  }
}
