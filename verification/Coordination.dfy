/**
 The server and all its clients together: whatever the clients do and however slowly they read,
 each client that has read its queue agrees with the server about its room, its allowlist and its
 routes.
 */
module Coordination {
  import opened Wrappers
  import opened Bytes
  import opened Registries
  import opened Servers
  import opened Agents
  import Tunnels

  datatype World = World(hub: Hub, agents: map<ClientId, AgentState>)

  datatype Event =
    | ClientRegisters(newId: ClientId, name: string, fp: Fingerprint)
    | ClientReports(id: ClientId, endpoint: Endpoint)
    | ClientLists(id: ClientId)
    | ClientCreates(id: ClientId, newCode: Code)
    | ClientJoins(id: ClientId, code: Code)
    | ClientLeaves(id: ClientId)
    | ClientDisconnects(id: ClientId)
    | ClientConnects(id: ClientId, target: string)
    | ClientReads(id: ClientId)

  /**
   Random ids are fresh and room codes drawn until unused, a client registers under a fingerprint that
   is not online, and only online clients speak.
   */
  predicate Enabled(w: World, e: Event)
  {
    match e
    case ClientRegisters(id, _, fp) => id !in w.hub.reg.clients && fp !in w.hub.reg.byFP
    case ClientCreates(id, code) => id in w.hub.reg.clients && code != "" && code !in w.hub.reg.rooms
    case ClientReads(id) => id in w.hub.reg.clients && id in w.hub.queues && w.hub.queues[id] != [] && id in w.agents
    case _ => e.id in w.hub.reg.clients
  }

  ghost function Happens(parse: Parser, w: World, e: Event): World
    requires Valid(w.hub.reg) && Enabled(w, e)
  {
    match e
    case ClientRegisters(id, name, fp) =>
      var hub := RegisterStep(w.hub, id, name, fp);
      World(hub, if id in hub.reg.clients then w.agents[id := NewAgent(fp)] else w.agents)
    case ClientReports(id, endpoint) => w.(hub := ReportStep(w.hub, id, endpoint))
    case ClientLists(id) => w.(hub := ListStep(w.hub, id))
    case ClientCreates(id, code) => w.(hub := CreateStep(w.hub, id, code))
    case ClientJoins(id, code) => w.(hub := JoinStep(w.hub, id, code))
    case ClientLeaves(id) => w.(hub := RoomLeaveStep(w.hub, id))
    case ClientDisconnects(id) => World(DisconnectStep(w.hub, id), w.agents - {id})
    case ClientConnects(id, target) => w.(hub := ConnectStep(w.hub, id, target))
    case ClientReads(id) =>
      var q := w.hub.queues[id];
      World(w.hub.(queues := w.hub.queues[id := q[1..]]), w.agents[id := AgentStep(parse, w.agents[id], q[0])])
  }

  ghost predicate Step(parse: Parser, w: World, e: Event, w': World)
  {
    Valid(w.hub.reg) && Enabled(w, e) && w' == Happens(parse, w, e)
  }

  // ---- what a client should believe ----

  ghost function RoomView(reg: State, fp: Fingerprint): Option<RoomState>
    requires Indexed(reg)
  {
    if CodeOf(reg, fp) == "" then None else Some(RoomState(CodeOf(reg, fp), Roster(reg, CodeOf(reg, fp))))
  }

  ghost predicate RoomAgrees(parse: Parser, reg: State, fp: Fingerprint, a: AgentState)
    requires Indexed(reg)
  {
    && a.self == fp
    && a.room == RoomView(reg, fp)
    && a.friends == (if a.room.Some? then FriendsAmong(parse, fp, a.room.value.members) else {})
    && a.allowed == Some(AllowKeys(a.friends))
  }

  /** a agrees with the server about client id. */
  ghost predicate Agrees(parse: Parser, reg: State, id: ClientId, a: AgentState)
    requires Indexed(reg) && id in reg.clients
  {
    && RoomAgrees(parse, reg, reg.clients[id].keyFP, a)
    && a.routes == RoutesTo(VisiblePeers(reg, id, reg.clients[id].keyFP))
  }

  ghost function Eventually(parse: Parser, w: World, id: ClientId): AgentState
    requires id in w.agents && id in w.hub.queues
  {
    Replay(parse, w.agents[id], w.hub.queues[id])
  }

  ghost predicate InSync(parse: Parser, w: World)
  {
    && Ready(w.hub) && w.agents.Keys == w.hub.reg.clients.Keys
    && forall id :: id in w.agents ==> Agrees(parse, w.hub.reg, id, Eventually(parse, w, id))
  }

  // ---- the effect of single messages ----

  lemma RoutesAfterPeers(parse: Parser, reg: State, id: ClientId, a: AgentState)
    requires Indexed(reg) && id in reg.clients && RoomAgrees(parse, reg, reg.clients[id].keyFP, a)
    ensures Agrees(parse, reg, id, AgentStep(parse, a, PeersMessage(reg, id)))
  {
  }

  /** A member told of the new roster agrees about its room again. */
  lemma RoomAfterUpdate(parse: Parser, reg: State, reg': State, fp: Fingerprint, a: AgentState)
    requires Indexed(reg) && Indexed(reg') && RoomAgrees(parse, reg, fp, a)
    requires CodeOf(reg, fp) != "" && CodeOf(reg', fp) == CodeOf(reg, fp)
    ensures RoomAgrees(parse, reg', fp, AgentStep(parse, a, RoomUpdate(Roster(reg', CodeOf(reg', fp)))))
  {
  }

  lemma ReplayOne(parse: Parser, a: AgentState, queue: seq<Message>, m: Message)
    ensures Replay(parse, a, queue + [m]) == AgentStep(parse, Replay(parse, a, queue), m)
  {
  }

  // ---- rosters change only where members do ----

  /** The same members resolve to the same clients, so the roster is the same. */
  lemma RosterSame(reg: State, reg': State, code: Code)
    requires Indexed(reg) && Indexed(reg') && code in reg.rooms && code in reg'.rooms
    requires reg'.rooms[code] == reg.rooms[code]
    requires forall fp :: fp in reg.rooms[code].members ==>
               fp in reg.byFP && fp in reg'.byFP
               && MemberOf(reg', reg.rooms[code], fp) == MemberOf(reg, reg.rooms[code], fp)
    ensures Roster(reg', code) == Roster(reg, code)
  {
  }

  /** The server state changed, but not what client fp's room looks like. */
  ghost predicate RoomUntouched(reg: State, reg': State, fp: Fingerprint)
    requires Indexed(reg) && Indexed(reg')
  {
    CodeOf(reg', fp) == CodeOf(reg, fp) && RoomView(reg', fp) == RoomView(reg, fp)
  }

  // ---- broadcasts ----

  /** After a broadcast a client agrees with the new state if its room messages already brought it there. */
  lemma AgreesAfterBroadcast(parse: Parser, reg: State, q: Queues, a: AgentState, id: ClientId)
    requires Indexed(reg) && id in reg.clients && id in q
    requires RoomAgrees(parse, reg, reg.clients[id].keyFP, Replay(parse, a, q[id]))
    ensures Agrees(parse, reg, id, Replay(parse, a, Broadcast(reg, q)[id]))
  {
  }

  /** Notifying a room brings each online member, and nobody else, up to date with its roster. */
  lemma RoomAgreesAfterNotify(parse: Parser, reg: State, reg': State, code: Code, q: Queues, a: AgentState,
                              id: ClientId)
    requires Sound(reg') && Indexed(reg) && id in reg'.clients && id in q && code != ""
    requires var fp := reg'.clients[id].keyFP;
             && RoomAgrees(parse, reg, fp, Replay(parse, a, q[id]))
             && CodeOf(reg', fp) == CodeOf(reg, fp)
             && (CodeOf(reg', fp) != code ==> RoomUntouched(reg, reg', fp))
    ensures RoomAgrees(parse, reg', reg'.clients[id].keyFP, Replay(parse, a, Notify(reg', code, q)[id]))
  {
    var fp := reg'.clients[id].keyFP;
    if CodeOf(reg', fp) == code {
      assert fp in reg'.rooms[code].members && Notified(reg', code, id);
      ReplayOne(parse, a, q[id], RoomUpdate(Roster(reg', code)));
      RoomAfterUpdate(parse, reg, reg', fp, Replay(parse, a, q[id]));
    } else {
      assert !Notified(reg', code, id);
    }
  }

  /** Every client's room and allowlist will be the server's once it has read q. */
  ghost predicate RoomsCaughtUp(parse: Parser, reg: State, q: Queues, agents: map<ClientId, AgentState>)
    requires Indexed(reg)
  {
    forall id :: id in reg.clients ==>
      id in q && id in agents && RoomAgrees(parse, reg, reg.clients[id].keyFP, Replay(parse, agents[id], q[id]))
  }

  lemma EachCaughtUp(parse: Parser, reg: State, q: Queues, agents: map<ClientId, AgentState>)
    requires Indexed(reg) && q.Keys == agents.Keys == reg.clients.Keys
    requires forall id :: id in reg.clients ==>
               RoomAgrees(parse, reg, reg.clients[id].keyFP, Replay(parse, agents[id], q[id]))
    ensures RoomsCaughtUp(parse, reg, q, agents)
  {
    hide Indexed, RoomAgrees, Replay;
  }

  lemma BroadcastSyncs(parse: Parser, reg: State, q: Queues, agents: map<ClientId, AgentState>)
    requires Sound(reg) && q.Keys == agents.Keys == reg.clients.Keys && RoomsCaughtUp(parse, reg, q, agents)
    ensures InSync(parse, World(Hub(reg, Broadcast(reg, q)), agents))
  {
    assert Indexed(reg);
    var w := World(Hub(reg, Broadcast(reg, q)), agents);
    assert Ready(w.hub) by {
      hide Sound;
    }
    hide Sound, Ready, Agrees, RoomAgrees, Replay, Indexed, VisiblePeers;
    forall id | id in agents
      ensures Agrees(parse, reg, id, Replay(parse, agents[id], Broadcast(reg, q)[id]))
    {
      AgreesAfterBroadcast(parse, reg, q, agents[id], id);
    }
  }

  /** Client fp agrees with the new state already, or will once the members of room `code` are told. */
  ghost predicate AwaitsNotice(parse: Parser, reg: State, reg': State, code: Code, fp: Fingerprint, a: AgentState)
    requires Indexed(reg) && Indexed(reg')
  {
    || RoomAgrees(parse, reg', fp, a)
    || (RoomAgrees(parse, reg, fp, a) && CodeOf(reg', fp) == CodeOf(reg, fp)
        && (CodeOf(reg', fp) != code ==> RoomUntouched(reg, reg', fp)))
  }

  lemma NoticeCatchesUp(parse: Parser, reg: State, reg': State, code: Code, q: Queues,
                        agents: map<ClientId, AgentState>)
    requires Sound(reg') && Indexed(reg) && code != "" && q.Keys == agents.Keys == reg'.clients.Keys
    requires forall id :: id in reg'.clients ==>
               AwaitsNotice(parse, reg, reg', code, reg'.clients[id].keyFP, Replay(parse, agents[id], q[id]))
    ensures RoomsCaughtUp(parse, reg', Notify(reg', code, q), agents)
  {
    hide RoomAgrees, Replay;
    forall id | id in reg'.clients
      ensures RoomAgrees(parse, reg', reg'.clients[id].keyFP, Replay(parse, agents[id], Notify(reg', code, q)[id]))
    {
      var fp := reg'.clients[id].keyFP;
      if RoomAgrees(parse, reg', fp, Replay(parse, agents[id], q[id])) {
        RoomAgreesAfterNotify(parse, reg', reg', code, q, agents[id], id);
      } else {
        RoomAgreesAfterNotify(parse, reg, reg', code, q, agents[id], id);
      }
    }
  }

  /** The index leads to the same client, as far as a member list shows it. */
  predicate SameClient(reg: State, reg': State, fp: Fingerprint)
    requires Indexed(reg) && Indexed(reg') && fp in reg.byFP
  {
    && fp in reg'.byFP
    && var c, c' := reg.clients[reg.byFP[fp]], reg'.clients[reg'.byFP[fp]];
       c'.name == c.name && c'.virtualIp == c.virtualIp
  }

  /** Rooms, and the index of their members, stay as they are: no member sees a difference. */
  lemma SameRoomsUntouched(reg: State, reg': State, fp: Fingerprint)
    requires Sound(reg) && Indexed(reg') && reg'.rooms == reg.rooms && reg'.inRoom == reg.inRoom
    requires forall q :: q in reg.byFP ==> SameClient(reg, reg', q)
    ensures RoomUntouched(reg, reg', fp)
  {
    if CodeOf(reg, fp) != "" {
      RosterSame(reg, reg', CodeOf(reg, fp));
    }
  }

  lemma CaughtUpIfUntouched(parse: Parser, reg: State, reg': State, fp: Fingerprint, a: AgentState)
    requires Indexed(reg) && Indexed(reg') && RoomAgrees(parse, reg, fp, a) && RoomUntouched(reg, reg', fp)
    ensures RoomAgrees(parse, reg', fp, a)
  {
  }

  // ---- every event keeps the agreement ----

  lemma RoomedAreOnline(reg: State, fp: Fingerprint)
    requires Sound(reg)
    ensures CodeOf(reg, fp) != "" ==> fp in reg.byFP
  {
  }

  /** A fresh agent that reads the greeting of a client without a room agrees with it. */
  lemma GreetingAgrees(parse: Parser, reg: State, fp: Fingerprint, hello: Message)
    requires Indexed(reg) && CodeOf(reg, fp) == "" && hello.Registered?
    ensures RoomAgrees(parse, reg, fp, Replay(parse, NewAgent(fp), [hello]))
  {
  }

  /** Nobody's room looks different, so whoever agreed about its room still does. */
  lemma StaysCaughtUp(parse: Parser, w: World, reg': State, id: ClientId)
    requires InSync(parse, w) && Indexed(reg') && id in w.hub.reg.clients
    requires RoomUntouched(w.hub.reg, reg', w.hub.reg.clients[id].keyFP)
    ensures RoomAgrees(parse, reg', w.hub.reg.clients[id].keyFP, Eventually(parse, w, id))
  {
    assert Agrees(parse, w.hub.reg, id, Eventually(parse, w, id));
    hide Ready, Replay, RoomAgrees, RoomUntouched;
    CaughtUpIfUntouched(parse, w.hub.reg, reg', w.hub.reg.clients[id].keyFP, Eventually(parse, w, id));
  }

  lemma AddTouchesNoRoom(reg: State, id: ClientId, name: string, fp: Fingerprint)
    requires Sound(reg) && id !in reg.clients && fp !in reg.byFP && fp != "" && AddStep(reg, id, name, fp).1.Ok?
    ensures var reg' := AddStep(reg, id, name, fp).0;
            && Sound(reg') && CodeOf(reg', fp) == ""
            && forall q :: RoomUntouched(reg, reg', q)
  {
    var reg' := AddStep(reg, id, name, fp).0;
    AddKeepsDistinctIff(reg, id, name, fp);
    RoomedAreOnline(reg, fp);
    hide Live, AllocFrom, RoomUntouched;
    forall q ensures RoomUntouched(reg, reg', q) {
      SameRoomsUntouched(reg, reg', q);
    }
  }

  /** Either the newcomer with its greeting, or someone else whose room looks the same. */
  lemma GreetedAgrees(parse: Parser, w: World, reg': State, id: ClientId, c: Client, hello: Message, i: ClientId)
    requires InSync(parse, w) && Indexed(reg') && reg'.clients == w.hub.reg.clients[id := c]
    requires hello.Registered? && CodeOf(reg', c.keyFP) == "" && i in reg'.clients
    requires i != id ==> RoomUntouched(w.hub.reg, reg', reg'.clients[i].keyFP)
    ensures var q, agents := w.hub.queues[id := [hello]], w.agents[id := NewAgent(c.keyFP)];
            i in q && i in agents && RoomAgrees(parse, reg', reg'.clients[i].keyFP, Replay(parse, agents[i], q[i]))
  {
    if i == id {
      GreetingAgrees(parse, reg', c.keyFP, hello);
    } else {
      StaysCaughtUp(parse, w, reg', i);
    }
    hide Agrees, RoomUntouched, RoomAgrees, Replay, Indexed, Sound, CodeOf, NewAgent;
  }

  lemma KeysAgree(parse: Parser, w: World)
    requires InSync(parse, w)
    ensures w.hub.queues.Keys == w.agents.Keys == w.hub.reg.clients.Keys
  {
    hide Sound, Agrees;
  }

  lemma GreetedSync(parse: Parser, w: World, reg': State, id: ClientId, c: Client, hello: Message)
    requires InSync(parse, w) && Sound(reg') && reg'.clients == w.hub.reg.clients[id := c] && id !in w.hub.reg.clients
    requires hello.Registered? && Indexed(reg') && CodeOf(reg', c.keyFP) == ""
    requires Indexed(w.hub.reg) && forall q :: RoomUntouched(w.hub.reg, reg', q)
    ensures InSync(parse, World(Hub(reg', Broadcast(reg', w.hub.queues[id := [hello]])),
                                w.agents[id := NewAgent(c.keyFP)]))
  {
    var q, agents := w.hub.queues[id := [hello]], w.agents[id := NewAgent(c.keyFP)];
    hide InSync, Sound, Indexed, RoomUntouched, RoomAgrees, Replay, CodeOf, NewAgent;
    KeysAgree(parse, w);
    assert q.Keys == agents.Keys == reg'.clients.Keys;
    forall i | i in reg'.clients
      ensures i in q && i in agents && RoomAgrees(parse, reg', reg'.clients[i].keyFP, Replay(parse, agents[i], q[i]))
    {
      GreetedAgrees(parse, w, reg', id, c, hello, i);
    }
    assert RoomsCaughtUp(parse, reg', q, agents);
    hide *;
    BroadcastSyncs(parse, reg', q, agents);
  }

  lemma RegisterKeeps(parse: Parser, w: World, id: ClientId, name: string, fp: Fingerprint, w': World)
    requires InSync(parse, w) && Step(parse, w, ClientRegisters(id, name, fp), w')
    ensures InSync(parse, w')
  {
    var reg := w.hub.reg;
    var (reg', r) := AddStep(reg, id, name, fp);
    AllocFailsIffFull(reg.clients, reg.nextIp);
    if name != "" && fp != "" && r.Ok? {
      AddTouchesNoRoom(reg, id, name, fp);
      var hello := Registered(id, r.value.virtualIp, VisiblePeers(reg', id, fp), CodeOf(reg', fp));
      GreetedSync(parse, w, reg', id, r.value, hello);
      hide InSync, AllocFrom, Broadcast, Sound, RoomUntouched, VisiblePeers;
    } else {
      assert w' == w;
    }
  }

  lemma ReportSameClients(reg: State, id: ClientId, endpoint: Endpoint)
    requires Indexed(reg)
    ensures var reg' := EndpointStep(reg, id, endpoint);
            Indexed(reg') && forall q :: q in reg.byFP ==> SameClient(reg, reg', q)
  {
  }

  lemma ReportTouchesNoRoom(reg: State, id: ClientId, endpoint: Endpoint, fp: Fingerprint)
    requires Sound(reg) && Indexed(reg)
    ensures var reg' := EndpointStep(reg, id, endpoint);
            Sound(reg') && Indexed(reg') && RoomUntouched(reg, reg', fp)
  {
    hide Sound, Indexed, SameClient, RoomUntouched;
    EndpointKeepsSound(reg, id, endpoint);
    ReportSameClients(reg, id, endpoint);
    SameRoomsUntouched(reg, EndpointStep(reg, id, endpoint), fp);
  }

  lemma ReportCaughtUp(parse: Parser, w: World, id: ClientId, endpoint: Endpoint, i: ClientId)
    requires InSync(parse, w) && i in w.hub.reg.clients
    ensures var reg' := EndpointStep(w.hub.reg, id, endpoint);
            && Sound(reg') && i in reg'.clients && reg'.clients[i].keyFP == w.hub.reg.clients[i].keyFP
            && RoomAgrees(parse, reg', reg'.clients[i].keyFP, Eventually(parse, w, i))
            && i in w.agents && i in w.hub.queues
            && RoomAgrees(parse, reg', reg'.clients[i].keyFP, Replay(parse, w.agents[i], w.hub.queues[i]))
  {
    ReportTouchesNoRoom(w.hub.reg, id, endpoint, w.hub.reg.clients[i].keyFP);
    StaysCaughtUp(parse, w, EndpointStep(w.hub.reg, id, endpoint), i);
    hide Sound, Agrees, RoomAgrees, RoomUntouched, Replay;
  }

  lemma ReportUnfolds(parse: Parser, w: World, id: ClientId, endpoint: Endpoint, w': World)
    requires Step(parse, w, ClientReports(id, endpoint), w')
    ensures var reg' := EndpointStep(w.hub.reg, id, endpoint);
            && w' == World(Hub(reg', Broadcast(reg', w.hub.queues)), w.agents)
            && reg'.clients.Keys == w.hub.reg.clients.Keys
  {
    hide Valid, Broadcast;
  }

  lemma ValidIsIndexed(reg: State)
    requires Valid(reg)
    ensures Indexed(reg) && Linked(reg)
  {
    hide Indexed, Linked, Addressed, Numbered;
  }

  lemma SyncIsSound(parse: Parser, w: World)
    requires InSync(parse, w)
    ensures Sound(w.hub.reg)
  {
    hide Sound, Agrees;
  }

  lemma SyncFacts(parse: Parser, w: World, id: ClientId)
    requires InSync(parse, w) && id in w.hub.reg.clients
    ensures var reg := w.hub.reg;
            && Ready(w.hub) && Sound(reg) && Valid(reg) && Distinct(reg) && Linked(reg) && Indexed(reg)
            && reg.clients[id].keyFP in reg.byFP
    ensures id in w.agents && id in w.hub.queues
  {
  }

  lemma ReportKeeps(parse: Parser, w: World, id: ClientId, endpoint: Endpoint, w': World)
    requires InSync(parse, w) && id in w.hub.reg.clients && Step(parse, w, ClientReports(id, endpoint), w')
    ensures InSync(parse, w')
  {
    var reg' := EndpointStep(w.hub.reg, id, endpoint);
    hide *;
    SyncFacts(parse, w, id);
    KeysAgree(parse, w);
    ReportUnfolds(parse, w, id, endpoint, w');
    ReportSameClients(w.hub.reg, id, endpoint);
    forall i | i in reg'.clients
      ensures RoomAgrees(parse, reg', reg'.clients[i].keyFP, Replay(parse, w.agents[i], w.hub.queues[i]))
    {
      ReportCaughtUp(parse, w, id, endpoint, i);
    }
    ReportCaughtUp(parse, w, id, endpoint, id);
    EachCaughtUp(parse, reg', w.hub.queues, w.agents);
    BroadcastSyncs(parse, reg', w.hub.queues, w.agents);
  }

  lemma NoticeSyncs(parse: Parser, reg: State, reg': State, code: Code, q: Queues, agents: map<ClientId, AgentState>)
    requires Sound(reg') && Indexed(reg) && code != "" && q.Keys == agents.Keys == reg'.clients.Keys
    requires forall id :: id in reg'.clients ==>
               AwaitsNotice(parse, reg, reg', code, reg'.clients[id].keyFP, Replay(parse, agents[id], q[id]))
    ensures InSync(parse, World(Hub(reg', Broadcast(reg', Notify(reg', code, q))), agents))
  {
    NoticeCatchesUp(parse, reg, reg', code, q, agents);
    hide Sound, RoomsCaughtUp, AwaitsNotice, Broadcast, Indexed;
    BroadcastSyncs(parse, reg', Notify(reg', code, q), agents);
  }

  /** Only the members of room `code` have anything to be told, fp apart. */
  ghost predicate ChangesOnlyRoom(reg: State, reg': State, code: Code, fp: Fingerprint)
    requires Indexed(reg) && Indexed(reg')
  {
    forall q :: q != fp && q in reg'.byFP ==>
      CodeOf(reg', q) == CodeOf(reg, q) && (CodeOf(reg', q) != code ==> RoomUntouched(reg, reg', q))
  }

  lemma MembersElsewhere(reg: State, fp: Fingerprint, code: Code, c: Code)
    requires Linked(reg) && Live(reg) && (CodeOf(reg, fp) == "" || CodeOf(reg, fp) == code)
    requires c in reg.rooms && c != code
    ensures forall q :: q in reg.rooms[c].members ==> q != fp && q in reg.byFP
  {
  }

  /** Only room `code`, and only fp's place in it, differ; the clients look the same to everyone but fp. */
  ghost predicate OnlyMoves(reg: State, reg': State, fp: Fingerprint, code: Code)
    requires Indexed(reg) && Indexed(reg')
  {
    && (CodeOf(reg, fp) == "" || CodeOf(reg, fp) == code)
    && (forall q :: q != fp ==> CodeOf(reg', q) == CodeOf(reg, q))
    && (forall c :: c in reg.rooms && c != code ==> c in reg'.rooms && reg'.rooms[c] == reg.rooms[c])
    && (forall q :: q != fp && q in reg.byFP ==> q in reg'.byFP && SameClient(reg, reg', q))
  }

  lemma SoundIsLinked(reg: State)
    requires Sound(reg)
    ensures Indexed(reg) && Linked(reg) && Live(reg)
  {
    hide Indexed, Linked, Live, Addressed, Numbered, Distinct;
  }

  lemma OtherRoomUntouched(reg: State, reg': State, code: Code, fp: Fingerprint, q: Fingerprint)
    requires Linked(reg) && Live(reg) && Indexed(reg) && Indexed(reg') && OnlyMoves(reg, reg', fp, code)
    requires q != fp && CodeOf(reg', q) != code
    ensures RoomUntouched(reg, reg', q)
  {
    var c := CodeOf(reg, q);
    if c != "" {
      assert c in reg.rooms;
      MembersElsewhere(reg, fp, code, c);
      hide Linked, Live, Indexed;
      RosterSame(reg, reg', c);
    }
  }

  lemma OtherRoomsUntouched(reg: State, reg': State, code: Code, fp: Fingerprint)
    requires Sound(reg) && Indexed(reg) && Indexed(reg') && OnlyMoves(reg, reg', fp, code)
    ensures ChangesOnlyRoom(reg, reg', code, fp)
  {
    hide Sound, Indexed, Linked, Live, RoomUntouched, SameClient;
    SoundIsLinked(reg);
    forall q | q != fp && q in reg'.byFP && CodeOf(reg', q) != code
      ensures RoomUntouched(reg, reg', q)
    {
      OtherRoomUntouched(reg, reg', code, fp, q);
    }
  }

  /** The client that acted has been told already; the others await notice of the room. */
  lemma AwaitsOneByOne(parse: Parser, w: World, reg': State, id: ClientId, code: Code, i: ClientId)
    requires InSync(parse, w) && id in w.hub.reg.clients && i in w.hub.reg.clients && i != id && Sound(reg')
    requires i in reg'.clients && reg'.clients[i] == w.hub.reg.clients[i]
             && ChangesOnlyRoom(w.hub.reg, reg', code, w.hub.reg.clients[id].keyFP)
    ensures i in w.agents && AwaitsNotice(parse, w.hub.reg, reg', code, reg'.clients[i].keyFP, Eventually(parse, w, i))
  {
    assert Agrees(parse, w.hub.reg, i, Eventually(parse, w, i));
    hide RoomAgrees, Replay, RoomUntouched, Live, Linked;
  }

  lemma AlreadyAgrees(parse: Parser, reg: State, reg': State, code: Code, fp: Fingerprint, a: AgentState)
    requires Indexed(reg) && Indexed(reg') && RoomAgrees(parse, reg', fp, a)
    ensures AwaitsNotice(parse, reg, reg', code, fp, a)
  {
    hide RoomAgrees, Indexed;
  }

  lemma PushKeys(q: Queues, id: ClientId, messages: seq<Message>)
    ensures Push(q, id, messages).Keys == q.Keys
  {
  }

  lemma ActorAndOthers(parse: Parser, w: World, reg': State, id: ClientId, code: Code, mail: seq<Message>)
    requires InSync(parse, w) && id in w.hub.reg.clients && Sound(reg') && code != ""
    requires reg'.clients == w.hub.reg.clients
    requires ChangesOnlyRoom(w.hub.reg, reg', code, w.hub.reg.clients[id].keyFP)
    requires RoomAgrees(parse, reg', w.hub.reg.clients[id].keyFP, Replay(parse, w.agents[id], w.hub.queues[id] + mail))
    ensures InSync(parse, World(Hub(reg', Broadcast(reg', Notify(reg', code, Push(w.hub.queues, id, mail)))), w.agents))
  {
    var reg, q := w.hub.reg, Push(w.hub.queues, id, mail);
    hide InSync, Sound, Valid, ChangesOnlyRoom, RoomAgrees, Replay, AwaitsNotice;
    SyncFacts(parse, w, id);
    SoundIsLinked(reg');
    KeysAgree(parse, w);
    PushKeys(w.hub.queues, id, mail);
    hide Indexed, Linked, Live, Ready;
    forall i | i in reg'.clients
      ensures AwaitsNotice(parse, reg, reg', code, reg'.clients[i].keyFP, Replay(parse, w.agents[i], q[i]))
    {
      if i != id {
        AwaitsOneByOne(parse, w, reg', id, code, i);
      } else {
        AlreadyAgrees(parse, reg, reg', code, reg.clients[id].keyFP, Replay(parse, w.agents[id], q[id]));
      }
    }
    hide *;
    NoticeSyncs(parse, reg, reg', code, q, w.agents);
  }

  lemma JoinMoves(reg: State, fp: Fingerprint, code: Code)
    requires Linked(reg) && Indexed(reg) && JoinRoomStep(reg, fp, code).Ok?
    ensures var reg' := JoinRoomStep(reg, fp, code).value;
            && code != "" && CodeOf(reg', fp) == code && reg'.clients == reg.clients
            && Indexed(reg') && OnlyMoves(reg, reg', fp, code)
  {
  }

  /** Told that it joined, a client agrees about its room. */
  lemma JoinedAgrees(parse: Parser, reg: State, fp: Fingerprint, a: AgentState)
    requires Indexed(reg) && a.self == fp && a.allowed.Some? && CodeOf(reg, fp) != ""
    ensures RoomAgrees(parse, reg, fp, AgentStep(parse, a, RoomJoined(CodeOf(reg, fp), Roster(reg, CodeOf(reg, fp)))))
  {
  }

  lemma MemberSpeaks(parse: Parser, reg: State, fp: Fingerprint, a: AgentState)
    requires Indexed(reg) && RoomAgrees(parse, reg, fp, a)
    ensures a.self == fp && a.allowed.Some?
  {
  }

  lemma JoinedInSync(parse: Parser, w: World, id: ClientId, code: Code, reg': State)
    requires InSync(parse, w) && id in w.hub.reg.clients && Indexed(w.hub.reg) && Indexed(reg')
    requires var fp := w.hub.reg.clients[id].keyFP;
             code != "" && CodeOf(reg', fp) == code && ChangesOnlyRoom(w.hub.reg, reg', code, fp)
    requires reg'.clients == w.hub.reg.clients && Sound(reg')
    ensures var q := Push(w.hub.queues, id, [RoomJoined(code, Roster(reg', code))]);
            InSync(parse, World(Hub(reg', Broadcast(reg', Notify(reg', code, q))), w.agents))
  {
    hide Sound, ChangesOnlyRoom, RoomAgrees, Replay, Broadcast, Notify, Roster, CodeOf, Indexed;
    var fp, mail := w.hub.reg.clients[id].keyFP, RoomJoined(code, Roster(reg', code));
    assert RoomAgrees(parse, w.hub.reg, fp, Eventually(parse, w, id)) by {
      assert Agrees(parse, w.hub.reg, id, Eventually(parse, w, id));
    }
    ReplayOne(parse, w.agents[id], w.hub.queues[id], mail);
    MemberSpeaks(parse, w.hub.reg, fp, Eventually(parse, w, id));
    JoinedAgrees(parse, reg', fp, Eventually(parse, w, id));
    hide InSync, AgentStep;
    ActorAndOthers(parse, w, reg', id, code, [mail]);
  }

  lemma JoinUnfolds(parse: Parser, w: World, id: ClientId, code: Code, w': World)
    requires Step(parse, w, ClientJoins(id, code), w')
    ensures match JoinRoomStep(w.hub.reg, w.hub.reg.clients[id].keyFP, code)
            case Err(e) => w' == w.(hub := w.hub.(queues := Push(w.hub.queues, id, [Error(BadRequest(e))])))
            case Ok(reg') =>
              && Indexed(reg')
              && var q := Push(w.hub.queues, id, [RoomJoined(code, Roster(reg', code))]);
                 w' == World(Hub(reg', Broadcast(reg', Notify(reg', code, q))), w.agents)
  {
  }

  lemma AgreedRoom(parse: Parser, w: World, id: ClientId)
    requires InSync(parse, w) && id in w.hub.reg.clients
    ensures Indexed(w.hub.reg) && id in w.agents && id in w.hub.queues
    ensures Agrees(parse, w.hub.reg, id, Eventually(parse, w, id))
    ensures RoomAgrees(parse, w.hub.reg, w.hub.reg.clients[id].keyFP, Eventually(parse, w, id))
  {
  }

  lemma AllAgree(parse: Parser, reg: State, q: Queues, agents: map<ClientId, AgentState>)
    requires Sound(reg) && Indexed(reg) && q.Keys == agents.Keys == reg.clients.Keys
    requires forall i :: i in reg.clients ==> Agrees(parse, reg, i, Replay(parse, agents[i], q[i]))
    ensures InSync(parse, World(Hub(reg, q), agents))
  {
    hide Sound, Indexed, Agrees, Replay;
  }

  /** A message that leaves its reader in agreement can be sent at any time. */
  lemma PushSyncs(parse: Parser, w: World, id: ClientId, m: Message)
    requires InSync(parse, w) && id in w.hub.reg.clients
    requires Agrees(parse, w.hub.reg, id, AgentStep(parse, Eventually(parse, w, id), m))
    ensures InSync(parse, w.(hub := w.hub.(queues := Push(w.hub.queues, id, [m]))))
  {
    hide InSync, Sound, Indexed, Agrees, RoomAgrees, Replay, AgentStep;
    SyncFacts(parse, w, id);
    KeysAgree(parse, w);
    ReplayOne(parse, w.agents[id], w.hub.queues[id], m);
    forall i | i in w.hub.reg.clients
      ensures Agrees(parse, w.hub.reg, i, Replay(parse, w.agents[i], Push(w.hub.queues, id, [m])[i]))
    {
      if i != id { AgreedRoom(parse, w, i); }
    }
    AllAgree(parse, w.hub.reg, Push(w.hub.queues, id, [m]), w.agents);
  }

  /** Refusals and introductions change nothing the server and its clients must agree on. */
  lemma IdleMailSyncs(parse: Parser, w: World, id: ClientId, m: Message)
    requires InSync(parse, w) && id in w.hub.reg.clients && (m.Error? || m.ConnectCandidates?)
    ensures InSync(parse, w.(hub := w.hub.(queues := Push(w.hub.queues, id, [m]))))
  {
    SyncFacts(parse, w, id);
    assert Agrees(parse, w.hub.reg, id, Eventually(parse, w, id));
    hide Sound, Agrees, Replay;
    PushSyncs(parse, w, id, m);
  }

  lemma JoinKeeps(parse: Parser, w: World, id: ClientId, code: Code, w': World)
    requires InSync(parse, w) && id in w.hub.reg.clients && Step(parse, w, ClientJoins(id, code), w')
    ensures InSync(parse, w')
  {
    var reg, fp := w.hub.reg, w.hub.reg.clients[id].keyFP;
    hide InSync, Ready, Sound, Valid, Linked, ChangesOnlyRoom, OnlyMoves, Step;
    hide Broadcast, Notify, Roster, CodeOf, Indexed, JoinRoomStep, Push;
    SyncFacts(parse, w, id);
    JoinUnfolds(parse, w, id, code, w');
    match JoinRoomStep(reg, fp, code)
    case Ok(reg') =>
      JoinMoves(reg, fp, code);
      JoinKeepsSound(reg, fp, code);
      OtherRoomsUntouched(reg, reg', code, fp);
      JoinedInSync(parse, w, id, code, reg');
    case Err(e) =>
      IdleMailSyncs(parse, w, id, Error(BadRequest(e)));
  }

  lemma LeaveMoves(reg: State, fp: Fingerprint)
    requires Linked(reg) && Indexed(reg) && CodeOf(reg, fp) != ""
    ensures var reg' := LeaveStep(reg, fp);
            && CodeOf(reg', fp) == "" && reg'.clients == reg.clients
            && Indexed(reg') && OnlyMoves(reg, reg', fp, CodeOf(reg, fp))
  {
  }

  lemma LeaveUnfolds(parse: Parser, w: World, id: ClientId, w': World)
    requires Indexed(w.hub.reg) && Linked(w.hub.reg) && Step(parse, w, ClientLeaves(id), w')
    ensures var fp := w.hub.reg.clients[id].keyFP;
            var code := CodeOf(w.hub.reg, fp);
            if code == "" then w' == w.(hub := w.hub.(queues := Push(w.hub.queues, id, [Error(NotInARoom)])))
            else
              var reg' := LeaveStep(w.hub.reg, fp);
              && Indexed(reg')
              && var q := Push(w.hub.queues, id, [RoomLeft(code)]);
                 w' == World(Hub(reg', Broadcast(reg', Notify(reg', code, q))), w.agents)
  {
  }

  /** Told that it left, a client agrees that it has no room. */
  lemma LeftAgrees(parse: Parser, reg: State, fp: Fingerprint, a: AgentState, code: Code)
    requires Indexed(reg) && a.self == fp && a.allowed.Some? && CodeOf(reg, fp) == ""
    ensures RoomAgrees(parse, reg, fp, AgentStep(parse, a, RoomLeft(code)))
  {
  }

  lemma LeaveKeeps(parse: Parser, w: World, id: ClientId, w': World)
    requires InSync(parse, w) && id in w.hub.reg.clients && Step(parse, w, ClientLeaves(id), w')
    ensures InSync(parse, w')
  {
    var reg, fp := w.hub.reg, w.hub.reg.clients[id].keyFP;
    var code, a := CodeOf(reg, fp), Eventually(parse, w, id);
    SyncFacts(parse, w, id);
    hide InSync, Ready, Sound, Valid, Linked, ChangesOnlyRoom, OnlyMoves, Step;
    hide Broadcast, Notify, CodeOf, Indexed, LeaveStep, Push, RoomAgrees, Replay, AgentStep;
    LeaveUnfolds(parse, w, id, w');
    if code != "" {
      var reg' := LeaveStep(reg, fp);
      LeaveMoves(reg, fp);
      LeaveKeepsSound(reg, fp);
      OtherRoomsUntouched(reg, reg', code, fp);
      AgreedRoom(parse, w, id);
      MemberSpeaks(parse, reg, fp, a);
      LeftAgrees(parse, reg', fp, a, code);
      ReplayOne(parse, w.agents[id], w.hub.queues[id], RoomLeft(code));
      ActorAndOthers(parse, w, reg', id, code, [RoomLeft(code)]);
    } else {
      IdleMailSyncs(parse, w, id, Error(NotInARoom));
    }
  }

  lemma UnindexedStillLinked(reg: State, fp: Fingerprint)
    requires Linked(reg) && Indexed(reg)
    ensures Indexed(Unindexed(reg, fp)) && Linked(Unindexed(reg, fp))
  {
  }

  lemma DisconnectMoves(reg: State, id: ClientId)
    requires Linked(reg) && Indexed(reg) && Distinct(reg) && id in reg.clients
    ensures var reg', fp := RemoveStep(reg, id), reg.clients[id].keyFP;
            reg'.clients == reg.clients - {id} && Indexed(reg') && OnlyMoves(reg, reg', fp, CodeOf(reg, fp))
  {
    var fp := reg.clients[id].keyFP;
    UnindexedStillLinked(reg, fp);
    LeaveFrame(Unindexed(reg, fp), fp);
  }

  lemma DisconnectUnfolds(parse: Parser, w: World, id: ClientId, w': World)
    requires Indexed(w.hub.reg) && Linked(w.hub.reg) && Step(parse, w, ClientDisconnects(id), w')
    ensures var reg', code := RemoveStep(w.hub.reg, id), CodeOf(w.hub.reg, w.hub.reg.clients[id].keyFP);
            && Indexed(reg')
            && var q := w.hub.queues - {id};
               w' == World(Hub(reg', Broadcast(reg', if code != "" then Notify(reg', code, q) else q)), w.agents - {id})
  {
    hide Valid, Linked, Broadcast, Notify, CodeOf, Indexed, RemoveStep;
    RemoveKeepsValid(w.hub.reg, id);
    ValidIsIndexed(RemoveStep(w.hub.reg, id));
  }

  /** When the room in question is none, nobody has anything to wait for. */
  lemma NobodyWaits(parse: Parser, reg: State, reg': State, q: Queues, agents: map<ClientId, AgentState>)
    requires Indexed(reg) && Indexed(reg') && q.Keys == agents.Keys == reg'.clients.Keys
    requires forall i :: i in reg'.clients ==>
               AwaitsNotice(parse, reg, reg', "", reg'.clients[i].keyFP, Replay(parse, agents[i], q[i]))
    ensures RoomsCaughtUp(parse, reg', q, agents)
  {
  }

  /** reg' is reg without client id, which only members of its room notice. */
  ghost predicate LeftBehind(reg: State, reg': State, id: ClientId)
  {
    && id in reg.clients && Indexed(reg) && Indexed(reg') && Sound(reg') && reg'.clients == reg.clients - {id}
    && ChangesOnlyRoom(reg, reg', CodeOf(reg, reg.clients[id].keyFP), reg.clients[id].keyFP)
  }

  lemma LeftBehindHolds(reg: State, reg': State, id: ClientId)
    requires id in reg.clients && Indexed(reg) && Indexed(reg') && Sound(reg') && reg'.clients == reg.clients - {id}
    requires ChangesOnlyRoom(reg, reg', CodeOf(reg, reg.clients[id].keyFP), reg.clients[id].keyFP)
    ensures LeftBehind(reg, reg', id)
  {
    hide Indexed, Sound, ChangesOnlyRoom, CodeOf;
  }

  lemma AwaitsDeparture(parse: Parser, w: World, reg': State, id: ClientId, i: ClientId)
    requires InSync(parse, w) && LeftBehind(w.hub.reg, reg', id) && i in reg'.clients
    ensures Indexed(w.hub.reg) && Indexed(reg') && i in w.hub.queues - {id} && i in w.agents - {id}
    ensures AwaitsNotice(parse, w.hub.reg, reg', CodeOf(w.hub.reg, w.hub.reg.clients[id].keyFP), reg'.clients[i].keyFP,
                         Replay(parse, (w.agents - {id})[i], (w.hub.queues - {id})[i]))
  {
    hide InSync, Sound, Indexed, ChangesOnlyRoom, AwaitsNotice, CodeOf, Replay;
    KeysAgree(parse, w);
    AwaitsOneByOne(parse, w, reg', id, CodeOf(w.hub.reg, w.hub.reg.clients[id].keyFP), i);
  }

  /** After a disconnect everyone else awaits notice of the room, if there was one. */
  lemma OthersAwait(parse: Parser, w: World, reg': State, id: ClientId)
    requires InSync(parse, w) && LeftBehind(w.hub.reg, reg', id) && Indexed(w.hub.reg) && Indexed(reg')
    ensures id in w.hub.reg.clients && (w.hub.queues - {id}).Keys == (w.agents - {id}).Keys == reg'.clients.Keys
    ensures forall i :: i in reg'.clients ==>
              AwaitsNotice(parse, w.hub.reg, reg', CodeOf(w.hub.reg, w.hub.reg.clients[id].keyFP),
                           reg'.clients[i].keyFP, Replay(parse, (w.agents - {id})[i], (w.hub.queues - {id})[i]))
  {
    assert id in w.hub.reg.clients && reg'.clients == w.hub.reg.clients - {id} by {
      hide InSync, Sound, Indexed, ChangesOnlyRoom;
    }
    hide *;
    KeysAgree(parse, w);
    forall i | i in reg'.clients
      ensures AwaitsNotice(parse, w.hub.reg, reg', CodeOf(w.hub.reg, w.hub.reg.clients[id].keyFP),
                           reg'.clients[i].keyFP, Replay(parse, (w.agents - {id})[i], (w.hub.queues - {id})[i]))
    {
      AwaitsDeparture(parse, w, reg', id, i);
    }
  }

  /** Notice, if it is due, and the broadcast bring everyone up to date. */
  lemma DepartureSyncs(parse: Parser, reg: State, reg': State, code: Code, q: Queues, agents: map<ClientId, AgentState>)
    requires Sound(reg') && Indexed(reg) && Indexed(reg') && q.Keys == agents.Keys == reg'.clients.Keys
    requires forall i :: i in reg'.clients ==>
               AwaitsNotice(parse, reg, reg', code, reg'.clients[i].keyFP, Replay(parse, agents[i], q[i]))
    ensures InSync(parse, World(Hub(reg', Broadcast(reg', if code != "" then Notify(reg', code, q) else q)), agents))
  {
    hide *;
    if code != "" {
      NoticeSyncs(parse, reg, reg', code, q, agents);
    } else {
      NobodyWaits(parse, reg, reg', q, agents);
      BroadcastSyncs(parse, reg', q, agents);
    }
  }

  lemma DisconnectKeeps(parse: Parser, w: World, id: ClientId, w': World)
    requires InSync(parse, w) && id in w.hub.reg.clients && Step(parse, w, ClientDisconnects(id), w')
    ensures InSync(parse, w')
  {
    var reg, fp := w.hub.reg, w.hub.reg.clients[id].keyFP;
    hide *;
    SyncFacts(parse, w, id);
    KeysAgree(parse, w);
    DisconnectUnfolds(parse, w, id, w');
    DisconnectMoves(reg, id);
    RemoveKeepsSound(reg, id);
    OtherRoomsUntouched(reg, RemoveStep(reg, id), CodeOf(reg, fp), fp);
    LeftBehindHolds(reg, RemoveStep(reg, id), id);
    OthersAwait(parse, w, RemoveStep(reg, id), id);
    DepartureSyncs(parse, reg, RemoveStep(reg, id), CodeOf(reg, fp), w.hub.queues - {id}, w.agents - {id});
  }

  /** A new room changes nobody's peers: its founder is alone in it. */
  lemma CreateShowsNobody(reg: State, fp: Fingerprint, code: Code, i: ClientId)
    requires Indexed(reg) && Linked(reg) && Distinct(reg) && fp in reg.byFP && i in reg.clients
    requires code != "" && code !in reg.rooms && CreateRoomStep(reg, fp, code).Ok?
    ensures var k := reg.clients[i].keyFP;
            VisiblePeers(CreateRoomStep(reg, fp, code).value, i, k) == VisiblePeers(reg, i, k)
  {
  }

  lemma CreateMoves(reg: State, fp: Fingerprint, code: Code)
    requires Indexed(reg) && Linked(reg) && code != "" && code !in reg.rooms && CreateRoomStep(reg, fp, code).Ok?
    ensures var reg' := CreateRoomStep(reg, fp, code).value;
            && CodeOf(reg', fp) == code && reg'.clients == reg.clients && reg'.byFP == reg.byFP
            && Indexed(reg') && OnlyMoves(reg, reg', fp, code)
            && forall q :: q != fp ==> CodeOf(reg', q) != code
  {
  }

  lemma CreateUnfolds(parse: Parser, w: World, id: ClientId, code: Code, w': World)
    requires Step(parse, w, ClientCreates(id, code), w')
    ensures code != "" && code !in w.hub.reg.rooms && id in w.hub.reg.clients
    ensures match CreateRoomStep(w.hub.reg, w.hub.reg.clients[id].keyFP, code)
            case Err(e) => w' == w.(hub := w.hub.(queues := Push(w.hub.queues, id, [Error(BadRequest(e))])))
            case Ok(reg') =>
              && Indexed(reg')
              && var mail := [RoomCreated(code), RoomJoined(code, Roster(reg', code))];
                 w' == World(Hub(reg', Push(w.hub.queues, id, mail)), w.agents)
  {
  }

  /** Agreement about the room, together with unchanged peers, is agreement. */
  lemma SamePeersAgree(parse: Parser, reg: State, reg': State, i: ClientId, a: AgentState, a': AgentState)
    requires Indexed(reg) && Indexed(reg') && i in reg.clients && i in reg'.clients
    requires reg'.clients[i].keyFP == reg.clients[i].keyFP && Agrees(parse, reg, i, a)
    requires RoomAgrees(parse, reg', reg.clients[i].keyFP, a') && a'.routes == a.routes
    requires VisiblePeers(reg', i, reg.clients[i].keyFP) == VisiblePeers(reg, i, reg.clients[i].keyFP)
    ensures Agrees(parse, reg', i, a')
  {
    hide RoomAgrees, VisiblePeers, RoutesTo;
  }

  lemma ReplayTwo(parse: Parser, a: AgentState, queue: seq<Message>, m: Message, n: Message)
    ensures Replay(parse, a, queue + [m, n]) == AgentStep(parse, AgentStep(parse, Replay(parse, a, queue), m), n)
  {
    hide *;
    ReplayOne(parse, a, queue, m);
    ReplayOne(parse, a, queue + [m], n);
    assert queue + [m, n] == (queue + [m]) + [n];
  }

  /** Nobody sees anyone new, and nobody but client id is in room `code`. */
  ghost predicate NoNewPeers(reg: State, reg': State, id: ClientId, code: Code)
  {
    forall i :: i in reg'.clients ==>
      && VisiblePeers(reg', i, reg'.clients[i].keyFP) == VisiblePeers(reg, i, reg'.clients[i].keyFP)
      && (i != id ==> CodeOf(reg', reg'.clients[i].keyFP) != code)
  }

  /** The founder agrees once it has read both messages. */
  lemma FounderAgrees(parse: Parser, reg: State, reg': State, id: ClientId, code: Code, a: AgentState,
                      queue: seq<Message>)
    requires Indexed(reg) && Indexed(reg') && id in reg.clients && reg'.clients == reg.clients && code != ""
    requires CodeOf(reg', reg.clients[id].keyFP) == code
    requires NoNewPeers(reg, reg', id, code) && Agrees(parse, reg, id, Replay(parse, a, queue))
    ensures Agrees(parse, reg', id, Replay(parse, a, queue + [RoomCreated(code), RoomJoined(code, Roster(reg', code))]))
  {
    var m, mid := RoomJoined(code, Roster(reg', code)), Replay(parse, a, queue);
    ReplayTwo(parse, a, queue, RoomCreated(code), m);
    assert RoomAgrees(parse, reg, reg.clients[id].keyFP, mid);
    hide RoomAgrees, Replay, VisiblePeers, Indexed, Roster, CodeOf, FriendsAmong;
    MemberSpeaks(parse, reg, reg.clients[id].keyFP, mid);
    JoinedAgrees(parse, reg', reg.clients[id].keyFP, mid);
    SamePeersAgree(parse, reg, reg', id, mid, AgentStep(parse, mid, m));
  }

  lemma OnlineDistinct(reg: State, id: ClientId, i: ClientId)
    requires Sound(reg) && id in reg.clients && i in reg.clients && i != id
    ensures reg.clients[i].keyFP != reg.clients[id].keyFP && reg.clients[i].keyFP in reg.byFP
  {
    hide Valid, Live;
  }

  /** Somebody else's room and peers look the same. */
  lemma BystanderAgrees(parse: Parser, w: World, reg': State, id: ClientId, code: Code, i: ClientId)
    requires InSync(parse, w) && id in w.hub.reg.clients && i in w.hub.reg.clients && i != id
    requires Indexed(w.hub.reg) && Indexed(reg') && Sound(reg') && reg'.clients == w.hub.reg.clients
    requires ChangesOnlyRoom(w.hub.reg, reg', code, w.hub.reg.clients[id].keyFP)
    requires NoNewPeers(w.hub.reg, reg', id, code)
    ensures i in w.agents && i in w.hub.queues && Agrees(parse, reg', i, Eventually(parse, w, i))
  {
    AgreedRoom(parse, w, i);
    OnlineDistinct(reg', id, i);
    var a, reg, k := Eventually(parse, w, i), w.hub.reg, w.hub.reg.clients[i].keyFP;
    hide InSync, Ready, Sound, RoomAgrees, Agrees, Replay, VisiblePeers, Indexed, CodeOf, RoomUntouched;
    CaughtUpIfUntouched(parse, reg, reg', k, a);
    SamePeersAgree(parse, reg, reg', i, a, a);
  }

  lemma FoundedAgrees(parse: Parser, w: World, reg': State, id: ClientId, code: Code, i: ClientId)
    requires i in w.hub.reg.clients
    requires InSync(parse, w) && id in w.hub.reg.clients && Indexed(w.hub.reg) && Indexed(reg') && Sound(reg')
    requires reg'.clients == w.hub.reg.clients && code != ""
    requires var fp := w.hub.reg.clients[id].keyFP;
             CodeOf(reg', fp) == code && ChangesOnlyRoom(w.hub.reg, reg', code, fp)
    requires NoNewPeers(w.hub.reg, reg', id, code)
    ensures var q := Push(w.hub.queues, id, [RoomCreated(code), RoomJoined(code, Roster(reg', code))]);
            i in w.agents && i in q && Agrees(parse, reg', i, Replay(parse, w.agents[i], q[i]))
  {
    hide InSync, Ready, Sound, Indexed, CodeOf, ChangesOnlyRoom, Agrees, Replay, Roster, RoomAgrees, NoNewPeers;
    AgreedRoom(parse, w, i);
    if i == id {
      FounderAgrees(parse, w.hub.reg, reg', id, code, w.agents[id], w.hub.queues[id]);
    } else {
      BystanderAgrees(parse, w, reg', id, code, i);
    }
  }

  lemma FoundedSync(parse: Parser, w: World, reg': State, id: ClientId, code: Code)
    requires InSync(parse, w) && id in w.hub.reg.clients && Indexed(w.hub.reg) && Indexed(reg') && Sound(reg')
    requires reg'.clients == w.hub.reg.clients && code != ""
    requires var fp := w.hub.reg.clients[id].keyFP;
             CodeOf(reg', fp) == code && ChangesOnlyRoom(w.hub.reg, reg', code, fp)
    requires NoNewPeers(w.hub.reg, reg', id, code)
    ensures var q := Push(w.hub.queues, id, [RoomCreated(code), RoomJoined(code, Roster(reg', code))]);
            InSync(parse, World(Hub(reg', q), w.agents))
  {
    var q := Push(w.hub.queues, id, [RoomCreated(code), RoomJoined(code, Roster(reg', code))]);
    hide InSync, Ready, Sound, Indexed, CodeOf, ChangesOnlyRoom, Agrees, Replay, Roster, NoNewPeers;
    KeysAgree(parse, w);
    PushKeys(w.hub.queues, id, [RoomCreated(code), RoomJoined(code, Roster(reg', code))]);
    hide *;
    forall i | i in reg'.clients
      ensures i in w.agents && i in q && Agrees(parse, reg', i, Replay(parse, w.agents[i], q[i]))
    {
      FoundedAgrees(parse, w, reg', id, code, i);
    }
    AllAgree(parse, reg', q, w.agents);
  }

  lemma CreateShowsNobodyNew(reg: State, id: ClientId, code: Code)
    requires Sound(reg) && Indexed(reg) && Linked(reg) && Distinct(reg) && id in reg.clients
             && reg.clients[id].keyFP in reg.byFP
    requires code != "" && code !in reg.rooms && CreateRoomStep(reg, reg.clients[id].keyFP, code).Ok?
    ensures NoNewPeers(reg, CreateRoomStep(reg, reg.clients[id].keyFP, code).value, id, code)
  {
    var fp := reg.clients[id].keyFP;
    CreateMoves(reg, fp, code);
    hide Sound, Indexed, Linked, Distinct, CreateRoomStep, VisiblePeers, OnlyMoves, CodeOf;
    forall i | i in reg.clients
      ensures VisiblePeers(CreateRoomStep(reg, fp, code).value, i, reg.clients[i].keyFP) ==
                VisiblePeers(reg, i, reg.clients[i].keyFP)
      ensures i != id ==> CodeOf(CreateRoomStep(reg, fp, code).value, reg.clients[i].keyFP) != code
    {
      CreateShowsNobody(reg, fp, code, i);
      if i != id { OnlineDistinct(reg, id, i); }
    }
  }

  lemma CreateKeeps(parse: Parser, w: World, id: ClientId, code: Code, w': World)
    requires InSync(parse, w) && id in w.hub.reg.clients && Step(parse, w, ClientCreates(id, code), w')
    ensures InSync(parse, w')
  {
    var reg, fp := w.hub.reg, w.hub.reg.clients[id].keyFP;
    SyncFacts(parse, w, id);
    assert Distinct(reg);
    hide InSync, Ready, Sound, Valid, Linked, Indexed, Distinct, ChangesOnlyRoom, OnlyMoves, Step, RoomsCaughtUp;
    hide Roster, CodeOf, CreateRoomStep, Agrees, Replay, VisiblePeers, Push, NoNewPeers;
    CreateUnfolds(parse, w, id, code, w');
    match CreateRoomStep(reg, fp, code)
    case Ok(reg') =>
      CreateMoves(reg, fp, code);
      CreateKeepsSound(reg, fp, code);
      OtherRoomsUntouched(reg, reg', code, fp);
      CreateShowsNobodyNew(reg, id, code);
      FoundedSync(parse, w, reg', id, code);
    case Err(e) =>
      IdleMailSyncs(parse, w, id, Error(BadRequest(e)));
  }

  lemma ListUnfolds(parse: Parser, w: World, id: ClientId, w': World)
    requires Step(parse, w, ClientLists(id), w')
    ensures id in w.hub.reg.clients
    ensures w' == w.(hub := w.hub.(queues := Push(w.hub.queues, id, [PeersMessage(w.hub.reg, id)])))
  {
    hide Valid, VisiblePeers, Push;
  }

  lemma ListKeeps(parse: Parser, w: World, id: ClientId, w': World)
    requires InSync(parse, w) && id in w.hub.reg.clients && Step(parse, w, ClientLists(id), w')
    ensures InSync(parse, w')
  {
    hide InSync, Step, Sound, Valid, Indexed, RoomAgrees, Agrees, Replay, AgentStep, PeersMessage, Push;
    ListUnfolds(parse, w, id, w');
    AgreedRoom(parse, w, id);
    RoutesAfterPeers(parse, w.hub.reg, id, Eventually(parse, w, id));
    PushSyncs(parse, w, id, PeersMessage(w.hub.reg, id));
  }

  lemma ConnectKeeps(parse: Parser, w: World, id: ClientId, target: string, w': World)
    requires InSync(parse, w) && id in w.hub.reg.clients && Step(parse, w, ClientConnects(id, target), w')
    ensures InSync(parse, w')
  {
    hide InSync, Valid;
    match ConnectRefusal(w.hub.reg, id, target)
    case Some(refusal) =>
      IdleMailSyncs(parse, w, id, Error(refusal));
    case None =>
      var c, c' := w.hub.reg.clients[id], w.hub.reg.clients[target];
      IdleMailSyncs(parse, w, id, Introduction(c'));
      var w1 := w.(hub := w.hub.(queues := Push(w.hub.queues, id, [Introduction(c')])));
      IdleMailSyncs(parse, w1, target, Introduction(c));
  }

  lemma ReadUnfolds(parse: Parser, w: World, id: ClientId, w': World)
    requires w.hub.queues.Keys == w.agents.Keys && Step(parse, w, ClientReads(id), w')
    ensures id in w.agents && w'.hub.reg == w.hub.reg && w'.agents.Keys == w.agents.Keys
            && w'.hub.queues.Keys == w.hub.queues.Keys
    ensures forall i :: i in w.agents ==> Eventually(parse, w', i) == Eventually(parse, w, i)
  {
    ReplayFirst(parse, w.agents[id], w.hub.queues[id]);
    hide Valid, Replay, AgentStep;
  }

  lemma ReadKeeps(parse: Parser, w: World, id: ClientId, w': World)
    requires InSync(parse, w) && Step(parse, w, ClientReads(id), w')
    ensures InSync(parse, w')
  {
    KeysAgree(parse, w);
    ReadUnfolds(parse, w, id, w');
    hide Step, Sound, Agrees, Eventually;
  }

  // ---- every run ----

  const NOBODY := World(Hub(EMPTY, map[]), map[])

  /** Handlers run one at a time; clients act, and read their queues, in any interleaving. */
  ghost predicate IsHistory(parse: Parser, events: seq<Event>, worlds: seq<World>)
  {
    && |worlds| == |events| + 1 && worlds[0] == NOBODY
    && forall i :: 0 <= i < |events| ==> Step(parse, worlds[i], events[i], worlds[i + 1])
  }

  lemma StepKeepsInSync(parse: Parser, w: World, e: Event, w': World)
    requires InSync(parse, w) && Step(parse, w, e, w')
    ensures InSync(parse, w')
  {
    assert e.ClientRegisters? || e.id in w.hub.reg.clients by {
      hide InSync, Valid;
    }
    hide InSync, Step;
    match e
    case ClientRegisters(id, name, fp) => RegisterKeeps(parse, w, id, name, fp, w');
    case ClientReports(id, endpoint) => ReportKeeps(parse, w, id, endpoint, w');
    case ClientLists(id) => ListKeeps(parse, w, id, w');
    case ClientCreates(id, code) => CreateKeeps(parse, w, id, code, w');
    case ClientJoins(id, code) => JoinKeeps(parse, w, id, code, w');
    case ClientLeaves(id) => LeaveKeeps(parse, w, id, w');
    case ClientDisconnects(id) => DisconnectKeeps(parse, w, id, w');
    case ClientConnects(id, target) => ConnectKeeps(parse, w, id, target, w');
    case ClientReads(id) => ReadKeeps(parse, w, id, w');
  }

  /**
   In every reachable state, a client that reads its whole queue ends up with exactly the server's
   view of its room, of its allowlist and of its routes.
   */
  lemma {:induction false} AlwaysInSync(parse: Parser, events: seq<Event>, worlds: seq<World>, n: nat)
    requires IsHistory(parse, events, worlds) && n < |worlds|
    ensures InSync(parse, worlds[n])
  {
    if n == 0 {
    } else {
      AlwaysInSync(parse, events, worlds, n - 1);
      hide InSync, Step;
      StepKeepsInSync(parse, worlds[n - 1], events[n - 1], worlds[n]);
    }
  }

  /** What an event asks of the registry. */
  function Asked(w: World, e: Event): seq<Operation>
    requires Enabled(w, e)
  {
    match e
    case ClientRegisters(id, name, fp) => if name == "" || fp == "" then [] else [Add(id, name, fp)]
    case ClientReports(id, endpoint) => [Report(id, endpoint)]
    case ClientCreates(id, code) => [Create(w.hub.reg.clients[id].keyFP, code)]
    case ClientJoins(id, code) => [Join(w.hub.reg.clients[id].keyFP, code)]
    case ClientLeaves(id) => [Leave(w.hub.reg.clients[id].keyFP)]
    case ClientDisconnects(id) => [Remove(id)]
    case _ => []
  }

  /** Everything the first n events of a history ask of the registry. */
  ghost function AskedSoFar(parse: Parser, events: seq<Event>, worlds: seq<World>, n: nat): seq<Operation>
    requires IsHistory(parse, events, worlds) && n <= |events|
  {
    if n == 0 then []
    else
      assert Step(parse, worlds[n - 1], events[n - 1], worlds[n - 1 + 1]);
      AskedSoFar(parse, events, worlds, n - 1) + Asked(worlds[n - 1], events[n - 1])
  }

  lemma LeavingNothing(reg: State, fp: Fingerprint)
    requires Valid(reg) && CodeOf(reg, fp) == ""
    ensures LeaveStep(reg, fp) == reg
  {
  }

  lemma StepIsOperation(parse: Parser, w: World, e: Event, w': World)
    requires Step(parse, w, e, w')
    ensures Valid(w.hub.reg) && Enabled(w, e)
    ensures var ops := Asked(w, e);
            if ops == [] then w'.hub.reg == w.hub.reg
            else ops == [ops[0]] && Possible(w.hub.reg, ops[0]) && w'.hub.reg == Apply(w.hub.reg, ops[0])
  {
    hide Valid, Roster, Broadcast, Notify, VisiblePeers, LeaveStep, RemoveStep;
    hide AllocFrom, ConnectRefusal, AgentStep, CodeOf;
    if e.ClientLeaves? && CodeOf(w.hub.reg, w.hub.reg.clients[e.id].keyFP) == "" {
      LeavingNothing(w.hub.reg, w.hub.reg.clients[e.id].keyFP);
    }
  }

  lemma SyncIsReady(parse: Parser, w: World)
    requires InSync(parse, w)
    ensures Ready(w.hub)
  {
    hide Ready, Agrees;
  }

  /**
   Every history of the server is a run of its registry, so that whatever holds of every run, about hosts,
   members, endpoints and addresses, holds of every reachable state of the system.
   */
  lemma {:induction false} HistoryIsRun(parse: Parser, events: seq<Event>, worlds: seq<World>, n: nat)
    requires IsHistory(parse, events, worlds) && n <= |events|
    ensures Ready(worlds[n].hub)
    ensures IsRun(AskedSoFar(parse, events, worlds, n))
    ensures After(AskedSoFar(parse, events, worlds, n)) == worlds[n].hub.reg
  {
    hide InSync, Ready, Step, Asked, Apply, Possible, Valid, Enabled;
    AlwaysInSync(parse, events, worlds, n);
    SyncIsReady(parse, worlds[n]);
    if n == 0 {
    } else {
      assert Step(parse, worlds[n - 1], events[n - 1], worlds[n - 1 + 1]);
      HistoryIsRun(parse, events, worlds, n - 1);
      StepIsOperation(parse, worlds[n - 1], events[n - 1], worlds[n]);
      var ops, more := AskedSoFar(parse, events, worlds, n - 1), Asked(worlds[n - 1], events[n - 1]);
      if more == [] {
        assert ops + more == ops;
      } else {
        RunAppends(ops, more[0]);
      }
    }
  }

  /** The members of the room fp is in, itself included; none when it is in no room. */
  ghost function Roommates(reg: State, fp: Fingerprint): set<Fingerprint>
    requires Linked(reg)
  {
    if fp in reg.inRoom then reg.rooms[reg.inRoom[fp]].members else {}
  }

  /** Every member is listed, under its own fingerprint, and nobody else. */
  lemma RosterNamesMembers(reg: State, code: Code)
    requires Sound(reg) && Indexed(reg) && code in reg.rooms
    ensures forall m :: m in Roster(reg, code) ==> m.keyFP in reg.rooms[code].members
    ensures forall q :: q in reg.rooms[code].members ==> exists m :: m in Roster(reg, code) && m.keyFP == q
  {
    forall q | q in reg.rooms[code].members ensures exists m :: m in Roster(reg, code) && m.keyFP == q {
      assert q in reg.byFP;
      assert MemberOf(reg, reg.rooms[code], q) in Roster(reg, code);
    }
  }

  /** The 32-byte keys that the fingerprints of the other members of fp's room parse to. */
  ghost function RoommateKeys(parse: Parser, reg: State, fp: Fingerprint): set<bytes>
    requires Linked(reg)
  {
    set q | q in Roommates(reg, fp) && q != fp && parse(q).Some? && |parse(q).value| == 32 :: parse(q).value
  }

  /** The keys of the listed members are the keys of the members. */
  lemma RosterKeys(parse: Parser, reg: State, fp: Fingerprint, code: Code)
    requires Sound(reg) && Indexed(reg) && Linked(reg) && code in reg.rooms && fp in reg.inRoom
             && reg.inRoom[fp] == code
    ensures AllowKeys(FriendsAmong(parse, fp, Roster(reg, code))) == RoommateKeys(parse, reg, fp)
  {
    RosterNamesMembers(reg, code);
    hide Sound, Indexed, Roster;
    var friends := FriendsAmong(parse, fp, Roster(reg, code));
    forall k | k in RoommateKeys(parse, reg, fp) ensures k in friends {
      var q :| q in Roommates(reg, fp) && q != fp && parse(q) == Some(k);
      var m :| m in Roster(reg, code) && m.keyFP == q;
    }
  }

  lemma NobodyListed(parse: Parser, reg: State, fp: Fingerprint)
    requires Linked(reg) && CodeOf(reg, fp) == ""
    ensures RoommateKeys(parse, reg, fp) == {}
  {
  }

  /** Whoever agrees with the server allows the keys of the other members of its room. */
  lemma AgreedAllowlist(parse: Parser, reg: State, fp: Fingerprint, a: AgentState)
    requires Sound(reg) && Indexed(reg) && Linked(reg) && RoomAgrees(parse, reg, fp, a)
    ensures a.allowed == Some(RoommateKeys(parse, reg, fp))
  {
    if CodeOf(reg, fp) != "" {
      RosterKeys(parse, reg, fp, CodeOf(reg, fp));
    } else {
      NobodyListed(parse, reg, fp);
      assert AllowKeys({}) == {};
    }
  }

  /** The list of a client with nothing left to read holds the 32-byte keys of the other members of its room. */
  lemma IdleClientListsRoommates(parse: Parser, w: World, id: ClientId)
    requires InSync(parse, w) && id in w.agents && w.hub.queues[id] == []
    ensures id in w.hub.reg.clients && Linked(w.hub.reg)
    ensures w.agents[id].allowed == Some(RoommateKeys(parse, w.hub.reg, w.hub.reg.clients[id].keyFP))
  {
    hide Sound, Valid, Indexed, Linked, RoomAgrees;
    AgreedRoom(parse, w, id);
    SyncFacts(parse, w, id);
    assert w.agents[id] == Eventually(parse, w, id);
    AgreedAllowlist(parse, w.hub.reg, w.hub.reg.clients[id].keyFP, w.agents[id]);
  }

  lemma MemberAllowsFriends(parse: Parser, reg: State, fp: Fingerprint, a: AgentState)
    requires Indexed(reg) && RoomAgrees(parse, reg, fp, a)
    ensures a.allowed == Some(AllowKeys(a.friends))
  {
  }

  lemma AllowedAreFriends(parse: Parser, w: World, id: ClientId)
    requires InSync(parse, w) && id in w.agents && w.hub.queues[id] == []
    ensures w.agents[id].allowed == Some(AllowKeys(w.agents[id].friends))
  {
    hide InSync, Sound, Indexed, RoomAgrees;
    KeysAgree(parse, w);
    AgreedRoom(parse, w, id);
    assert w.agents[id] == Eventually(parse, w, id);
    MemberAllowsFriends(parse, w.hub.reg, w.hub.reg.clients[id].keyFP, w.agents[id]);
  }

  /** What handing the friends to SetFriends leaves in the tunnel. */
  lemma TunnelTakesAllowKeys(keys: seq<bytes>)
    ensures Tunnels.FriendKeys(keys) == AllowKeys(Elems(keys))
  {
  }

  /** The tunnel's test against a list of 32-byte keys: exactly those, unless there are none. */
  lemma ListAdmitsExactlyIff(t: Tunnels.TunnelState, keys: set<bytes>)
    requires t.friends == keys && forall k :: k in keys ==> |k| == 32
    ensures (forall k :: Tunnels.CheckPeerStatic(t, k) <==> k in keys) <==> keys != {}
    ensures keys == {} ==> forall k :: Tunnels.CheckPeerStatic(t, k) <==> |k| == 32
  {
    var zeros: bytes := seq(32, _ => 0);
    assert keys == {} ==> Tunnels.CheckPeerStatic(t, zeros) && zeros !in keys;
  }

  /**
   A tunnel that was handed the friends of a client with nothing left to read admits exactly the 32-byte
   keys of its roommates if and only if there are any; without any it admits every 32-byte key.
   */
  lemma IdleClientAdmitsOnlyRoommatesIff(parse: Parser, w: World, id: ClientId, keys: seq<bytes>,
                                         t: Tunnels.TunnelState)
    requires InSync(parse, w) && id in w.agents && w.hub.queues[id] == []
    requires t.friends == Tunnels.FriendKeys(keys) && Elems(keys) == w.agents[id].friends
    ensures id in w.hub.reg.clients && Linked(w.hub.reg)
    ensures var roommates := RoommateKeys(parse, w.hub.reg, w.hub.reg.clients[id].keyFP);
            && ((forall k :: Tunnels.CheckPeerStatic(t, k) <==> k in roommates) <==> roommates != {})
            && (roommates == {} ==> forall k :: Tunnels.CheckPeerStatic(t, k) <==> |k| == 32)
  {
    hide InSync, Sound, Linked, Roommates, RoommateKeys;
    IdleClientListsRoommates(parse, w, id);
    AllowedAreFriends(parse, w, id);
    TunnelTakesAllowKeys(keys);
    ListAdmitsExactlyIff(t, RoommateKeys(parse, w.hub.reg, w.hub.reg.clients[id].keyFP));
  }

  /** An admitted newcomer is stored under its fingerprint, and nobody's room is touched, whoever shares it. */
  lemma AdmittedNewcomer(h: Hub, id: ClientId, name: string, fp: Fingerprint)
    requires Valid(h.reg) && id !in h.reg.clients && RegisterRefusal(h.reg, id, name, fp).None?
    ensures var reg' := AddStep(h.reg, id, name, fp).0;
            && AddStep(h.reg, id, name, fp).1.Ok? && Valid(reg') && Indexed(reg')
            && reg'.rooms == h.reg.rooms && reg'.inRoom == h.reg.inRoom
            && reg'.clients.Keys == h.reg.clients.Keys + {id} && reg'.clients[id].keyFP == fp
            && RegisterStep(h, id, name, fp) ==
                 var hello := Registered(id, reg'.clients[id].virtualIp, VisiblePeers(reg', id, fp), CodeOf(reg', fp));
                 Hub(reg', Broadcast(reg', h.queues[id := [hello]]))
  {
    AddKeepsValid(h.reg, id, name, fp);
    ValidIsIndexed(AddStep(h.reg, id, name, fp).0);
    hide Valid, Indexed, VisiblePeers, Broadcast, AllocFrom, CodeOf;
  }

  lemma RegisterUnfolds(parse: Parser, w: World, id: ClientId, name: string, fp: Fingerprint, w': World)
    requires Step(parse, w, ClientRegisters(id, name, fp), w')
    ensures Valid(w.hub.reg) && id !in w.hub.reg.clients && fp !in w.hub.reg.byFP
    ensures w'.hub == RegisterStep(w.hub, id, name, fp)
  {
    hide Valid, RegisterStep;
  }

  lemma RefusedIsAbsent(h: Hub, id: ClientId, name: string, fp: Fingerprint)
    requires Valid(h.reg) && id !in h.reg.clients && RegisterRefusal(h.reg, id, name, fp).Some?
    ensures id !in RegisterStep(h, id, name, fp).reg.clients
  {
    hide Valid, RegisterRefusal, RegisterStep;
    RegisterRefusedIffFull(h, id, name, fp);
  }

  lemma NewcomerHasNoRoom(parse: Parser, w: World, id: ClientId, name: string, fp: Fingerprint, w': World)
    requires InSync(parse, w) && Step(parse, w, ClientRegisters(id, name, fp), w') && id in w'.hub.reg.clients
    ensures CodeOf(w'.hub.reg, w'.hub.reg.clients[id].keyFP) == ""
  {
    hide InSync, Step, Sound, Valid, Indexed, RegisterRefusal, RegisterStep, AddStep;
    RegisterUnfolds(parse, w, id, name, fp, w');
    SyncIsSound(parse, w);
    RoomedAreOnline(w.hub.reg, fp);
    if RegisterRefusal(w.hub.reg, id, name, fp).None? {
      AdmittedNewcomer(w.hub, id, name, fp);
    } else {
      RefusedIsAbsent(w.hub, id, name, fp);
    }
  }

  lemma LeaverHasNoRoom(parse: Parser, w: World, id: ClientId, w': World)
    requires InSync(parse, w) && Step(parse, w, ClientLeaves(id), w') && id in w.hub.reg.clients
    ensures id in w'.hub.reg.clients && CodeOf(w'.hub.reg, w'.hub.reg.clients[id].keyFP) == ""
  {
    hide *;
    SyncFacts(parse, w, id);
    LeaveUnfolds(parse, w, id, w');
    if CodeOf(w.hub.reg, w.hub.reg.clients[id].keyFP) != "" { LeaveMoves(w.hub.reg, w.hub.reg.clients[id].keyFP); }
  }

  /** A client that has just registered, or just left its room, admits every 32-byte key once it has read its queue. */
  lemma RoomlessAdmitsAnyone(parse: Parser, w: World, e: Event, w': World, id: ClientId, keys: seq<bytes>,
                             t: Tunnels.TunnelState)
    requires InSync(parse, w) && Step(parse, w, e, w') && id in w'.hub.reg.clients
    requires (e.ClientRegisters? && e.newId == id) || (e == ClientLeaves(id) && id in w.hub.reg.clients)
    ensures id in w'.agents && id in w'.hub.queues
    ensures t.friends == Tunnels.FriendKeys(keys) && Elems(keys) == Eventually(parse, w', id).friends ==>
              forall k :: Tunnels.CheckPeerStatic(t, k) <==> |k| == 32
  {
    hide InSync, Step, Sound, Valid, Indexed, Linked, RoomAgrees, CodeOf, Eventually;
    StepKeepsInSync(parse, w, e, w');
    if e.ClientRegisters? {
      NewcomerHasNoRoom(parse, w, id, e.name, e.fp, w');
    } else {
      LeaverHasNoRoom(parse, w, id, w');
    }
    AgreedRoom(parse, w', id);
    SyncFacts(parse, w', id);
    AgreedAllowlist(parse, w'.hub.reg, w'.hub.reg.clients[id].keyFP, Eventually(parse, w', id));
    NobodyListed(parse, w'.hub.reg, w'.hub.reg.clients[id].keyFP);
    MemberAllowsFriends(parse, w'.hub.reg, w'.hub.reg.clients[id].keyFP, Eventually(parse, w', id));
    TunnelTakesAllowKeys(keys);
    if t.friends == Tunnels.FriendKeys(keys) && Elems(keys) == Eventually(parse, w', id).friends {
      ListAdmitsExactlyIff(t, {});
    }
  }

  const FIRST: ClientId := "1"

  lemma NothingIsValid()
    ensures Valid(EMPTY)
  {
  }

  /** The first client of all: its hub, with its greeting and its first peer list waiting. */
  lemma FirstClientArrives(parse: Parser)
    ensures Valid(EMPTY) && RegisterRefusal(EMPTY, FIRST, "alice", "fp").None?
    ensures var hub := RegisterStep(NOBODY.hub, FIRST, "alice", "fp");
            && Valid(hub.reg) && hub.reg.clients.Keys == {FIRST} && hub.reg.clients[FIRST].keyFP == "fp"
            && hub.reg.rooms == map[] && hub.reg.inRoom == map[]
            && hub.queues.Keys == {FIRST} && |hub.queues[FIRST]| == 2
  {
    NothingIsValid();
    hide Valid, Indexed, AddStep, VisiblePeers, RegisterRefusal, RegisterStep, PeersMessage, CodeOf;
    RegisterRefusedIffFull(NOBODY.hub, FIRST, "alice", "fp");
    AdmittedNewcomer(NOBODY.hub, FIRST, "alice", "fp");
  }

  lemma NobodyInSync(parse: Parser)
    ensures InSync(parse, NOBODY)
  {
  }

  /** A run of three events after which a lone client has nothing to read and its tunnel admits every 32-byte key. */
  lemma LoneClientAdmitsAnyone(parse: Parser) returns (events: seq<Event>, worlds: seq<World>)
    ensures IsHistory(parse, events, worlds) && |events| == 3
    ensures FIRST in worlds[3].agents && FIRST in worlds[3].hub.queues && worlds[3].hub.queues[FIRST] == []
    ensures forall t: Tunnels.TunnelState, k :: Some(t.friends) == worlds[3].agents[FIRST].allowed ==>
              (Tunnels.CheckPeerStatic(t, k) <==> |k| == 32)
  {
    hide InSync, Valid, RegisterStep, RegisterRefusal, AgentStep, Replay;
    FirstClientArrives(parse);
    NobodyInSync(parse);
    var read := ClientReads(FIRST);
    events := [ClientRegisters(FIRST, "alice", "fp"), read, read];
    var w1 := Happens(parse, NOBODY, events[0]);
    RegisterKeeps(parse, NOBODY, FIRST, "alice", "fp", w1);
    KeysAgree(parse, w1);
    SyncFacts(parse, w1, FIRST);
    var w2 := Happens(parse, w1, read);
    ReadKeeps(parse, w1, FIRST, w2);
    ReadUnfolds(parse, w1, FIRST, w2);
    SyncFacts(parse, w2, FIRST);
    var w3 := Happens(parse, w2, read);
    ReadKeeps(parse, w2, FIRST, w3);
    ReadUnfolds(parse, w2, FIRST, w3);
    worlds := [NOBODY, w1, w2, w3];
    NewcomerHasNoRoom(parse, NOBODY, FIRST, "alice", "fp", w1);
    IdleClientListsRoommates(parse, w3, FIRST);
    NobodyListed(parse, w3.hub.reg, w3.hub.reg.clients[FIRST].keyFP);
  }

  /** The peer lists the server sends never show one address twice, so their order cannot matter. */
  lemma SightsAreDistinct(reg: State, id: ClientId, fp: Fingerprint)
    requires Valid(reg)
    ensures DistinctPeerAddresses(VisiblePeers(reg, id, fp))
    ensures forall p :: p in VisiblePeers(reg, id, fp) ==> InRange(p.virtualIp)
  {
    hide Linked, Numbered;
  }

  lemma RoommateIsOnline(reg: State, fp: Fingerprint, q: Fingerprint)
    requires Linked(reg) && Live(reg) && q in Roommates(reg, fp)
    ensures q in reg.byFP && CodeOf(reg, q) == CodeOf(reg, fp) != ""
  {
  }

  lemma RoommatesAreVisible(reg: State, id: ClientId, q: Fingerprint)
    requires Indexed(reg) && Linked(reg) && Live(reg) && id in reg.clients
    requires q in Roommates(reg, reg.clients[id].keyFP) && q != reg.clients[id].keyFP
    ensures q in reg.byFP && reg.byFP[q] != id
    ensures PeerOf(reg.clients[reg.byFP[q]]) in VisiblePeers(reg, id, reg.clients[id].keyFP)
  {
    hide Linked, Live, Roommates, PeerOf, CodeOf;
    RoommateIsOnline(reg, reg.clients[id].keyFP, q);
    assert reg.clients[reg.byFP[q]].id != id;
  }

  lemma VisibleAreRoommates(reg: State, id: ClientId, p: Peer)
    requires Indexed(reg) && Linked(reg) && Distinct(reg) && id in reg.clients
    requires p in VisiblePeers(reg, id, reg.clients[id].keyFP)
    ensures exists q :: q in Roommates(reg, reg.clients[id].keyFP) && q != reg.clients[id].keyFP
                        && q in reg.byFP && PeerOf(reg.clients[reg.byFP[q]]) == p
  {
    var i :| i in reg.clients && i != id
             && CodeOf(reg, reg.clients[i].keyFP) == CodeOf(reg, reg.clients[id].keyFP) != ""
             && PeerOf(reg.clients[i]) == p;
    assert reg.clients[i].keyFP in Roommates(reg, reg.clients[id].keyFP);
  }

  lemma IdleRoutes(parse: Parser, w: World, id: ClientId)
    requires InSync(parse, w) && id in w.agents && w.hub.queues[id] == []
    ensures id in w.hub.reg.clients
    ensures w.agents[id].routes == RoutesTo(VisiblePeers(w.hub.reg, id, w.hub.reg.clients[id].keyFP))
  {
    AgreedRoom(parse, w, id);
    hide InSync, Indexed, RoomAgrees, VisiblePeers, RoutesTo;
    assert w.agents[id] == Eventually(parse, w, id);
  }

  lemma RouteLeadsTo(peers: set<Peer>, p: Peer)
    requires DistinctPeerAddresses(peers) && p in peers && p.virtualIp != 0
    ensures p.virtualIp in RoutesTo(peers) && RoutesTo(peers)[p.virtualIp] == p.id
  {
    assert p.virtualIp in Addresses(peers) && PeerAt(peers, p.virtualIp) == p;
  }

  lemma RouteComesFrom(peers: set<Peer>, ip: Octet) returns (p: Peer)
    requires ip in RoutesTo(peers)
    ensures p in peers && p.virtualIp == ip
  {
    p := PeerAt(peers, ip);
  }

  /** A client with nothing left to read routes exactly its roommates' addresses, each to the client that holds it. */
  lemma IdleClientRoutesToRoommates(parse: Parser, w: World, id: ClientId)
    requires InSync(parse, w) && id in w.agents && w.hub.queues[id] == []
    ensures id in w.hub.reg.clients && Indexed(w.hub.reg) && Linked(w.hub.reg)
    ensures var reg, routes := w.hub.reg, w.agents[id].routes;
            var others := Roommates(reg, reg.clients[id].keyFP) - {reg.clients[id].keyFP};
            && (forall q :: q in others ==> q in reg.byFP)
            && routes.Keys == (set q | q in others :: reg.clients[reg.byFP[q]].virtualIp)
            && forall q :: q in others ==> routes[reg.clients[reg.byFP[q]].virtualIp] == reg.byFP[q]
  {
    hide InSync, Ready, Sound, Valid, Indexed, Distinct, Live, VisiblePeers, Linked, Roommates, CodeOf, RoutesTo;
    IdleRoutes(parse, w, id);
    SyncFacts(parse, w, id);
    var reg, fp, a := w.hub.reg, w.hub.reg.clients[id].keyFP, w.agents[id];
    var peers := VisiblePeers(reg, id, fp);
    SoundIsLinked(reg);
    SightsAreDistinct(reg, id, fp);
    var others := Roommates(reg, fp) - {fp};
    forall q | q in others
      ensures q in reg.byFP && reg.clients[reg.byFP[q]].virtualIp in a.routes
              && a.routes[reg.clients[reg.byFP[q]].virtualIp] == reg.byFP[q]
    {
      RoommatesAreVisible(reg, id, q);
      RouteLeadsTo(peers, PeerOf(reg.clients[reg.byFP[q]]));
    }
    forall ip | ip in a.routes ensures exists q :: q in others && reg.clients[reg.byFP[q]].virtualIp == ip {
      var p := RouteComesFrom(peers, ip);
      VisibleAreRoommates(reg, id, p);
    }
  }

  // ---- why a client must not register under a fingerprint that is online ----

  /** What a fresh agent makes of its greeting and the first peer list. */
  lemma GreetedView(parse: Parser, reg: State, id: ClientId, fp: Fingerprint, hello: Message)
    requires Indexed(reg) && id in reg.clients && reg.clients[id].keyFP == fp && hello.Registered?
    ensures var a := Replay(parse, NewAgent(fp), [hello] + [PeersMessage(reg, id)]);
            && a.room.None?
            && (Agrees(parse, reg, id, a) <==> CodeOf(reg, fp) == "")
            && (a.room == RoomView(reg, fp) <==> CodeOf(reg, fp) == "")
  {
    hide VisiblePeers, RoutesTo, Indexed, Roster, CodeOf, FriendsAmong, AllowKeys;
    ReplayOne(parse, NewAgent(fp), [hello], PeersMessage(reg, id));
    assert [hello] == [] + [hello];
    ReplayOne(parse, NewAgent(fp), [], hello);
    assert Replay(parse, NewAgent(fp), []) == NewAgent(fp);
    hide Replay;
  }

  /**
   Whether or not the fingerprint is online: a client that is admitted and has read its queue agrees with
   the server if and only if nobody with its fingerprint was in a room; and it is the room they disagree on.
   */
  lemma NewcomerAgreesIff(parse: Parser, h: Hub, id: ClientId, name: string, fp: Fingerprint)
    requires Valid(h.reg) && id !in h.reg.clients && RegisterRefusal(h.reg, id, name, fp).None?
    ensures var h' := RegisterStep(h, id, name, fp);
            && id in h'.reg.clients && id in h'.queues && Indexed(h'.reg)
            && var a := Replay(parse, NewAgent(fp), h'.queues[id]);
               && (Agrees(parse, h'.reg, id, a) <==> CodeOf(h.reg, fp) == "")
               && (a.room == RoomView(h'.reg, fp) <==> CodeOf(h.reg, fp) == "")
  {
    var reg' := AddStep(h.reg, id, name, fp).0;
    hide Valid, Indexed, RegisterRefusal, RegisterStep, AddStep, VisiblePeers, Replay, Agrees, RoomView, PeersMessage;
    AdmittedNewcomer(h, id, name, fp);
    var hello := Registered(id, reg'.clients[id].virtualIp, VisiblePeers(reg', id, fp), CodeOf(reg', fp));
    GreetedView(parse, reg', id, fp, hello);
  }

  /** A client in a room that reconnects before its old connection is noticed is not told about the room it is in. */
  lemma ReconnectDisagrees(parse: Parser) returns (h: Hub)
    ensures var h1 := RegisterStep(NOBODY.hub, FIRST, "alice", "fp");
            && Valid(h1.reg) && FIRST in h1.reg.clients && "ROOM" !in h1.reg.rooms && h == CreateStep(h1, FIRST, "ROOM")
    ensures Valid(h.reg) && "2" !in h.reg.clients
    ensures var h2 := RegisterStep(h, "2", "alice", "fp");
            && "2" in h2.reg.clients && "2" in h2.queues && Indexed(h2.reg)
            && !Agrees(parse, h2.reg, "2", Replay(parse, NewAgent("fp"), h2.queues["2"]))
  {
    hide Valid, RegisterStep, RegisterRefusal, Roster, Agrees, Replay;
    FirstClientArrives(parse);
    var h1 := RegisterStep(NOBODY.hub, FIRST, "alice", "fp");
    h := CreateStep(h1, FIRST, "ROOM");
    CreateKeepsValid(h1.reg, "fp", "ROOM");
    assert FIRST[0] != "2"[0];
    assert |h.reg.clients.Keys| == 1 && |h.reg.clients| == |h.reg.clients.Keys|;
    RegisterRefusedIffFull(h, "2", "alice", "fp");
    NewcomerAgreesIff(parse, h, "2", "alice", "fp");
  }
}
