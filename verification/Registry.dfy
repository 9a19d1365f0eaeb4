/**
 The coordination server's registry: connected clients, their virtual addresses, and the rooms
 that decide who may see whom.
 */
module Registries {
  import opened Wrappers

  /** A connection's random id; never empty. */
  type ClientId = s: string | s != "" witness "0"

  /** A client's public-key fingerprint, its identity across connections. */
  type Fingerprint = string

  type Code = string

  /** The last octet of an address 10.0.0.x. */
  type Octet = nat

  const FIRST_CLIENT_IP: Octet := 2
  const LAST_CLIENT_IP: Octet := 254
  const ADDRESSES: nat := 253

  datatype Candidate = Candidate(ip: string, port: int, kind: string)

  datatype Endpoint = Endpoint(publicIp: string, publicPort: int, natType: string, candidates: seq<Candidate>)

  const NO_ENDPOINT := Endpoint("", 0, "", [])

  datatype Client = Client(
    id: ClientId, name: string, keyFP: Fingerprint, virtualIp: Octet,
    serial: nat,                 // registration order
    endpoint: Endpoint)

  datatype Room = Room(code: Code, host: Fingerprint, members: set<Fingerprint>)

  datatype State = State(
    clients: map<ClientId, Client>,
    byFP: map<Fingerprint, ClientId>,
    nextIp: Octet,
    serial: nat,
    rooms: map<Code, Room>,
    inRoom: map<Fingerprint, Code>)

  const EMPTY := State(map[], map[], FIRST_CLIENT_IP, 0, map[], map[])

  /** How other clients see a client. */
  datatype Peer = Peer(id: ClientId, name: string, virtualIp: Octet, publicIp: string, publicPort: int, natType: string)

  datatype RoomMember = RoomMember(username: string, keyFP: Fingerprint, virtualIp: Octet, host: bool)

  datatype RegistryError = NetworkFull | AlreadyInRoom | NoSuchRoom

  // ---- virtual addresses ----

  predicate IpTaken(clients: map<ClientId, Client>, ip: Octet)
  {
    exists id :: id in clients && clients[id].virtualIp == ip
  }

  function Advance(ip: Octet): Octet
  {
    if ip + 1 > LAST_CLIENT_IP then FIRST_CLIENT_IP else ip + 1
  }

  /** The first free address among the next `tries` ones, and where the search goes on from. */
  function AllocFrom(clients: map<ClientId, Client>, next: Octet, tries: nat): (Option<Octet>, Octet)
    decreases tries
  {
    if tries == 0 then (None, next)
    else if !IpTaken(clients, next) then (Some(next), Advance(next))
    else AllocFrom(clients, Advance(next), tries - 1)
  }

  predicate InRange(ip: Octet)
  {
    FIRST_CLIENT_IP <= ip <= LAST_CLIENT_IP
  }

  /** The address k places after `next` in the cycle. */
  function Nth(next: Octet, k: nat): Octet
    requires InRange(next)
  {
    FIRST_CLIENT_IP + (next - FIRST_CLIENT_IP + k) % ADDRESSES
  }

  lemma NthAdvances(next: Octet, k: nat)
    requires InRange(next)
    ensures InRange(Advance(next)) && Nth(Advance(next), k) == Nth(next, k + 1)
  {
  }

  /** The search returns the first free address in cyclic order, and fails only when all it tried are taken. */
  lemma {:induction false} AllocIsNextFit(clients: map<ClientId, Client>, next: Octet, tries: nat)
    requires InRange(next)
    ensures var (ip, next') := AllocFrom(clients, next, tries);
            && InRange(next')
            && match ip
               case None => next' == Nth(next, tries) && forall k :: 0 <= k < tries ==> IpTaken(clients, Nth(next, k))
               case Some(ip) =>
                 && InRange(ip) && !IpTaken(clients, ip) && next' == Advance(ip)
                 && exists k :: 0 <= k < tries && ip == Nth(next, k)
                                && forall j :: 0 <= j < k ==> IpTaken(clients, Nth(next, j))
    decreases tries
  {
    if tries == 0 {
    } else if !IpTaken(clients, next) {
      assert Nth(next, 0) == next;
    } else {
      var rest := AllocFrom(clients, Advance(next), tries - 1);
      NthAdvances(next, tries - 1);
      AllocIsNextFit(clients, Advance(next), tries - 1);
      assert Nth(next, 0) == next;
      if rest.0.Some? {
        var k :| 0 <= k < tries - 1 && rest.0.value == Nth(Advance(next), k)
                 && forall j :: 0 <= j < k ==> IpTaken(clients, Nth(Advance(next), j));
        NthAdvances(next, k);
        forall j | 0 <= j < k + 1 ensures IpTaken(clients, Nth(next, j)) {
          if j > 0 { NthAdvances(next, j - 1); assert IpTaken(clients, Nth(Advance(next), j - 1)); }
        }
        assert rest.0.value == Nth(next, k + 1);
      } else {
        forall j | 0 <= j < tries ensures IpTaken(clients, Nth(next, j)) {
          if j > 0 { NthAdvances(next, j - 1); assert IpTaken(clients, Nth(Advance(next), j - 1)); }
        }
      }
    }
  }

  lemma NthReaches(next: Octet, ip: Octet)
    requires InRange(next) && InRange(ip)
    ensures exists k :: 0 <= k < ADDRESSES && Nth(next, k) == ip
  {
    var k := if ip >= next then ip - next else ip - next + ADDRESSES;
    assert Nth(next, k) == ip;
  }

  /** Allocation fails exactly when every client address is taken. */
  lemma AllocFailsIffFull(clients: map<ClientId, Client>, next: Octet)
    requires InRange(next)
    ensures AllocFrom(clients, next, ADDRESSES).0 == None <==> forall ip :: InRange(ip) ==> IpTaken(clients, ip)
    ensures AllocFrom(clients, next, ADDRESSES).0 == None ==> AllocFrom(clients, next, ADDRESSES).1 == next
  {
    AllocIsNextFit(clients, next, ADDRESSES);
    if AllocFrom(clients, next, ADDRESSES).0 == None {
      forall ip | InRange(ip) ensures IpTaken(clients, ip) {
        NthReaches(next, ip);
      }
    }
  }

  /** Every client address from lo up to, but not including, hi is taken. */
  predicate AllTaken(clients: map<ClientId, Client>, lo: Octet, hi: Octet)
  {
    forall ip :: lo <= ip < hi ==> IpTaken(clients, ip)
  }

  lemma NthBetween(next: Octet, ip: Octet, k: nat, x: Octet) returns (j: nat)
    requires InRange(next) && InRange(ip) && InRange(x) && k < ADDRESSES && Nth(next, k) == ip
    requires if next <= ip then next <= x < ip else next <= x || x < ip
    ensures j < k && Nth(next, j) == x
  {
    j := if x >= next then x - next else x - next + ADDRESSES;
  }

  /** The address handed out is the lowest free one exactly when all below nextIP, or all from it on, are taken. */
  lemma AllocIsLowestIff(clients: map<ClientId, Client>, next: Octet, ip: Octet)
    requires InRange(next) && AllocFrom(clients, next, ADDRESSES).0 == Some(ip)
    ensures AllTaken(clients, FIRST_CLIENT_IP, ip) <==>
              AllTaken(clients, FIRST_CLIENT_IP, next) || AllTaken(clients, next, LAST_CLIENT_IP + 1)
  {
    AllocIsNextFit(clients, next, ADDRESSES);
    var k: nat :| k < ADDRESSES && ip == Nth(next, k) && forall j :: 0 <= j < k ==> IpTaken(clients, Nth(next, j));
    hide IpTaken, AllocFrom;
    forall x: Octet | InRange(x) && (if next <= ip then next <= x < ip else next <= x || x < ip)
      ensures IpTaken(clients, x)
    {
      var j := NthBetween(next, ip, k, x);
    }
  }

  // ---- reading the state ----

  function CodeOf(s: State, fp: Fingerprint): Code
  {
    if fp in s.inRoom then s.inRoom[fp] else ""
  }

  function PeerOf(c: Client): Peer
  {
    Peer(c.id, c.name, c.virtualIp, c.endpoint.publicIp, c.endpoint.publicPort, c.endpoint.natType)
  }

  /** The clients a client sees: the others in its room. */
  function VisiblePeers(s: State, exclude: ClientId, fp: Fingerprint): set<Peer>
  {
    var code := CodeOf(s, fp);
    if code == "" then {}
    else set id | id in s.clients && s.clients[id].id != exclude && CodeOf(s, s.clients[id].keyFP) == code
                :: PeerOf(s.clients[id])
  }

  predicate VisibleTo(s: State, src: Client, dst: Client)
  {
    src.id != dst.id && CodeOf(s, src.keyFP) != "" && CodeOf(s, dst.keyFP) == CodeOf(s, src.keyFP)
  }

  /** Each index entry leads to a client of that fingerprint, and each client sits under its own id. */
  predicate Indexed(s: State)
  {
    && (forall id :: id in s.clients ==> s.clients[id].id == id)
    && (forall fp :: fp in s.byFP ==> fp != "" && s.byFP[fp] in s.clients && s.clients[s.byFP[fp]].keyFP == fp)
  }

  function MemberOf(s: State, room: Room, fp: Fingerprint): RoomMember
    requires Indexed(s) && fp in s.byFP
  {
    var c := s.clients[s.byFP[fp]];
    RoomMember(c.name, c.keyFP, c.virtualIp, fp == room.host)
  }

  /** The member list sent to clients: the members that resolve to an online client. */
  function MemberList(s: State, room: Room): set<RoomMember>
    requires Indexed(s)
  {
    set fp | fp in room.members && fp in s.byFP :: MemberOf(s, room, fp)
  }

  lemma ListedOneMore(s: State, room: Room, fps: set<Fingerprint>, fp: Fingerprint)
    requires Indexed(s) && fp !in fps
    ensures var listed := MemberList(s, room.(members := fps));
            && MemberList(s, room.(members := fps + {fp})) ==
                 listed + (if fp in s.byFP then {MemberOf(s, room, fp)} else {})
            && (fp in s.byFP ==> MemberOf(s, room, fp) !in listed)
  {
  }

  // ---- the order of member lists ----

  /** Go's < on strings. */
  predicate NameLess(a: string, b: string)
  {
    b != "" && (a == "" || a[0] < b[0] || (a[0] == b[0] && NameLess(a[1..], b[1..])))
  }

  lemma {:induction false} NameLessIsStrict(a: string, b: string)
    requires NameLess(a, b)
    ensures !NameLess(b, a)
  {
    if a != "" && a[0] == b[0] { NameLessIsStrict(a[1..], b[1..]); }
  }

  lemma {:induction false} NameLessIsTransitive(a: string, b: string, c: string)
    requires !NameLess(b, a) && !NameLess(c, b)
    ensures !NameLess(c, a)
  {
    if a != "" && b != "" && c != "" && a[0] == b[0] == c[0] { NameLessIsTransitive(a[1..], b[1..], c[1..]); }
  }

  predicate SortedByName(list: seq<RoomMember>)
  {
    forall i, j :: 0 <= i < j < |list| ==> !NameLess(list[j].username, list[i].username)
  }

  /** m goes behind the first k entries, of which the last is not above it, and before the rest, which are. */
  lemma InsertedIsSorted(list: seq<RoomMember>, k: nat, m: RoomMember)
    requires SortedByName(list) && k <= |list|
    requires k > 0 ==> !NameLess(m.username, list[k - 1].username)
    requires forall j :: k <= j < |list| ==> NameLess(m.username, list[j].username)
    ensures SortedByName(list[..k] + [m] + list[k..])
  {
    var out := list[..k] + [m] + list[k..];
    forall j | 0 <= j < k ensures !NameLess(m.username, list[j].username) {
      if j < k - 1 { NameLessIsTransitive(list[j].username, list[k - 1].username, m.username); }
    }
    forall j | k <= j < |list| ensures !NameLess(list[j].username, m.username) {
      NameLessIsStrict(m.username, list[j].username);
    }
    assert forall j :: 0 <= j < |out| ==> out[j] == if j < k then list[j] else if j == k then m else list[j - 1];
    hide NameLess;
  }

  lemma SameElems<T>(s: seq<T>, t: seq<T>)
    requires multiset(s) == multiset(t)
    ensures Elems(s) == Elems(t)
  {
    assert forall x :: x in s <==> x in multiset(s);
    assert forall x :: x in t <==> x in multiset(t);
  }

  lemma ElemsAppend<T>(s: seq<T>, x: T)
    ensures Elems(s + [x]) == Elems(s) + {x}
  {
  }

  lemma InsertedElems<T>(list: seq<T>, k: nat, m: T)
    requires k <= |list|
    ensures multiset(list[..k] + [m] + list[k..]) == multiset(list) + multiset{m}
  {
    assert list == list[..k] + list[k..];
  }

  lemma ElemsGrow<T>(list: seq<T>, i: nat)
    requires i < |list|
    ensures multiset(list[..i + 1]) == multiset(list[..i]) + multiset{list[i]}
  {
    assert list[..i + 1] == list[..i] + [list[i]];
  }

  /** Behind how many entries m belongs. */
  method PlaceOf(sorted: seq<RoomMember>, m: RoomMember) returns (k: nat)
    ensures k <= |sorted| && (k > 0 ==> !NameLess(m.username, sorted[k - 1].username))
    ensures forall j :: k <= j < |sorted| ==> NameLess(m.username, sorted[j].username)
  {
    k := |sorted|;
    while k > 0 && NameLess(m.username, sorted[k - 1].username)
      invariant k <= |sorted|
      invariant forall j :: k <= j < |sorted| ==> NameLess(m.username, sorted[j].username)
    {
      k := k - 1;
    }
  }

  method SortByName(list: seq<RoomMember>) returns (sorted: seq<RoomMember>)
    ensures multiset(sorted) == multiset(list) && |sorted| == |list| && SortedByName(sorted)
  {
    sorted := [];
    for i := 0 to |list|
      invariant multiset(sorted) == multiset(list[..i]) && |sorted| == i && SortedByName(sorted)
    {
      hide NameLess, SortedByName;
      var k := PlaceOf(sorted, list[i]);
      InsertedIsSorted(sorted, k, list[i]);
      InsertedElems(sorted, k, list[i]);
      ElemsGrow(list, i);
      sorted := sorted[..k] + [list[i]] + sorted[k..];
    }
    assert list[..|list|] == list;
  }

  // ---- invariants ----

  /** inRoom and the member sets are inverse to each other, and no room is empty. */
  ghost predicate RoomsLinked(rooms: map<Code, Room>, inRoom: map<Fingerprint, Code>)
  {
    && (forall fp :: fp in inRoom ==> inRoom[fp] in rooms && fp in rooms[inRoom[fp]].members)
    && (forall code, fp :: code in rooms && fp in rooms[code].members ==> fp in inRoom && inRoom[fp] == code)
    && (forall code :: code in rooms ==> code != "" && rooms[code].code == code && rooms[code].members != {})
  }

  ghost predicate Linked(s: State)
  {
    RoomsLinked(s.rooms, s.inRoom)
  }

  ghost predicate DistinctAddresses(clients: map<ClientId, Client>)
  {
    && (forall id :: id in clients ==> InRange(clients[id].virtualIp))
    && (forall id, id' :: id in clients && id' in clients && id != id' ==>
          clients[id].virtualIp != clients[id'].virtualIp)
  }

  ghost predicate Addressed(s: State)
  {
    InRange(s.nextIp) && DistinctAddresses(s.clients)
  }

  ghost predicate Numbered(s: State)
  {
    && (forall id :: id in s.clients ==> 1 <= s.clients[id].serial <= s.serial)
    && (forall id, id' :: id in s.clients && id' in s.clients && id != id' ==>
          s.clients[id].serial != s.clients[id'].serial)
  }

  ghost predicate Valid(s: State)
  {
    Indexed(s) && Linked(s) && Addressed(s) && Numbered(s)
  }

  /** No two online clients share a fingerprint: the index finds every client. */
  ghost predicate Distinct(s: State)
  {
    forall id :: id in s.clients ==> s.clients[id].keyFP in s.byFP && s.byFP[s.clients[id].keyFP] == id
  }

  /** Every host is a member, and every member, except perhaps those in `gone`, is online. */
  ghost predicate RoomsLive(rooms: map<Code, Room>, online: set<Fingerprint>, gone: set<Fingerprint>)
  {
    forall code :: code in rooms ==> rooms[code].host in rooms[code].members && rooms[code].members <= online + gone
  }

  /** Every member of every room is online, and its host is one of them. */
  ghost predicate Live(s: State)
  {
    RoomsLive(s.rooms, s.byFP.Keys, {})
  }

  // ---- host succession ----

  /** fp belongs to the longest-registered online client among the members. */
  ghost predicate IsOldest(s: State, members: set<Fingerprint>, fp: Fingerprint)
    requires Indexed(s)
  {
    && fp in members && fp in s.byFP
    && forall q :: q in members && q in s.byFP ==> s.clients[s.byFP[fp]].serial <= s.clients[s.byFP[q]].serial
  }

  lemma {:induction false} OldestExists(s: State, members: set<Fingerprint>, q: Fingerprint)
    requires Indexed(s) && q in members && q in s.byFP
    ensures exists fp :: IsOldest(s, members, fp)
    decreases s.clients[s.byFP[q]].serial
  {
    if p :| p in members && p in s.byFP && s.clients[s.byFP[p]].serial < s.clients[s.byFP[q]].serial {
      OldestExists(s, members, p);
    } else {
      assert IsOldest(s, members, q);
    }
  }

  /** Two walks of the member map, in whatever order, settle on the same successor. */
  lemma OldestIsUnique(s: State, members: set<Fingerprint>, fp: Fingerprint, fp': Fingerprint)
    requires Indexed(s) && Numbered(s) && IsOldest(s, members, fp) && IsOldest(s, members, fp')
    ensures fp == fp'
  {
  }

  /** The successor host: the oldest online member, or nobody when no member is online. */
  ghost function Oldest(s: State, members: set<Fingerprint>): Fingerprint
    requires Indexed(s)
  {
    if fp :| IsOldest(s, members, fp) then fp else ""
  }

  lemma OldestFrame(s: State, s': State, members: set<Fingerprint>)
    requires Indexed(s) && Numbered(s) && s'.clients == s.clients && s'.byFP == s.byFP
    ensures Indexed(s') && Oldest(s', members) == Oldest(s, members)
  {
    if fp :| IsOldest(s, members, fp) {
      assert IsOldest(s', members, fp);
      assert IsOldest(s, members, Oldest(s', members));
      OldestIsUnique(s, members, Oldest(s, members), Oldest(s', members));
    } else {
      assert forall fp :: IsOldest(s', members, fp) ==> IsOldest(s, members, fp);
    }
  }

  // ---- operations ----

  function AddStep(s: State, id: ClientId, name: string, fp: Fingerprint): (State, Result<Client, RegistryError>)
  {
    match AllocFrom(s.clients, s.nextIp, ADDRESSES)
    case (None, next) => (s.(nextIp := next), Err(NetworkFull))
    case (Some(ip), next) =>
      var c := Client(id, name, fp, ip, s.serial + 1, NO_ENDPOINT);
      (State(s.clients[id := c], if fp != "" then s.byFP[fp := id] else s.byFP, next, s.serial + 1, s.rooms, s.inRoom),
       Ok(c))
  }

  function EndpointStep(s: State, id: ClientId, endpoint: Endpoint): State
  {
    if id in s.clients then s.(clients := s.clients[id := s.clients[id].(endpoint := endpoint)]) else s
  }

  function CreateRoomStep(s: State, fp: Fingerprint, code: Code): Result<State, RegistryError>
  {
    if CodeOf(s, fp) != "" then Err(AlreadyInRoom)
    else Ok(s.(rooms := s.rooms[code := Room(code, fp, {fp})], inRoom := s.inRoom[fp := code]))
  }

  function JoinRoomStep(s: State, fp: Fingerprint, code: Code): Result<State, RegistryError>
  {
    if CodeOf(s, fp) != "" then Err(AlreadyInRoom)
    else if code !in s.rooms then Err(NoSuchRoom)
    else
      var room := s.rooms[code];
      Ok(s.(rooms := s.rooms[code := room.(members := room.members + {fp})], inRoom := s.inRoom[fp := room.code]))
  }

  /** The room after fp's departure; None when it was the last member. */
  ghost function Departed(s: State, room: Room, fp: Fingerprint): Option<Room>
    requires Indexed(s)
  {
    var rest := room.members - {fp};
    if rest == {} then None
    else Some(room.(members := rest, host := if room.host == fp then Oldest(s, rest) else room.host))
  }

  ghost function LeaveStep(s: State, fp: Fingerprint): State
    requires Indexed(s) && Linked(s)
  {
    var code := CodeOf(s, fp);
    if code == "" then s
    else
      s.(inRoom := s.inRoom - {fp},
         rooms := match Departed(s, s.rooms[code], fp)
                  case None => s.rooms - {code}
                  case Some(room) => s.rooms[code := room])
  }

  ghost function RemoveStep(s: State, id: ClientId): State
    requires Indexed(s) && Linked(s)
  {
    if id !in s.clients then s
    else
      var fp := s.clients[id].keyFP;
      var s' := if fp != "" then LeaveStep(s.(byFP := s.byFP - {fp}), fp) else s;
      s'.(clients := s'.clients - {id})
  }

  // ---- every operation keeps the registry consistent ----

  lemma AllocatedIsFree(clients: map<ClientId, Client>, next: Octet)
    requires InRange(next)
    ensures var (ip, next') := AllocFrom(clients, next, ADDRESSES);
            && InRange(next')
            && (ip.Some? ==> InRange(ip.value) && forall id :: id in clients ==> clients[id].virtualIp != ip.value)
  {
    AllocIsNextFit(clients, next, ADDRESSES);
    hide AllocFrom;
  }

  lemma AddKeepsIndexed(s: State, s': State, id: ClientId, c: Client)
    requires Indexed(s) && id !in s.clients && c.id == id && s'.clients == s.clients[id := c]
    requires s'.byFP == if c.keyFP != "" then s.byFP[c.keyFP := id] else s.byFP
    ensures Indexed(s')
  {
  }

  lemma StillIndexed(s: State, s': State)
    requires Indexed(s) && Numbered(s) && s' == s.(nextIp := s'.nextIp)
    ensures Indexed(s') && Numbered(s')
  {
  }

  lemma AddKeepsAddresses(clients: map<ClientId, Client>, id: ClientId, c: Client)
    requires DistinctAddresses(clients) && id !in clients && InRange(c.virtualIp)
    requires forall i :: i in clients ==> clients[i].virtualIp != c.virtualIp
    ensures DistinctAddresses(clients[id := c])
  {
  }

  lemma AddKeepsNumbered(s: State, s': State, id: ClientId, c: Client)
    requires Numbered(s) && id !in s.clients && s'.clients == s.clients[id := c]
    requires c.serial == s'.serial == s.serial + 1
    ensures Numbered(s')
  {
  }

  lemma AddKeepsValid(s: State, id: ClientId, name: string, fp: Fingerprint)
    requires Valid(s) && id !in s.clients
    ensures Valid(AddStep(s, id, name, fp).0)
  {
    var (s', r) := AddStep(s, id, name, fp);
    AllocatedIsFree(s.clients, s.nextIp);
    hide AllocFrom, InRange, RoomsLinked, Indexed, Numbered, DistinctAddresses;
    if r.Ok? {
      AddKeepsIndexed(s, s', id, r.value);
      AddKeepsAddresses(s.clients, id, r.value);
      AddKeepsNumbered(s, s', id, r.value);
    } else {
      StillIndexed(s, s');
    }
  }

  lemma SameClientsKept(s: State, s': State)
    requires Indexed(s) && Addressed(s) && Numbered(s)
    requires s'.clients == s.clients && s'.byFP == s.byFP && s'.nextIp == s.nextIp && s'.serial == s.serial
    ensures Indexed(s') && Addressed(s') && Numbered(s')
  {
  }

  lemma CreateKeepsValid(s: State, fp: Fingerprint, code: Code)
    requires Valid(s) && code != "" && code !in s.rooms && CreateRoomStep(s, fp, code).Ok?
    ensures Valid(CreateRoomStep(s, fp, code).value)
  {
  }

  lemma JoinKeepsLinked(s: State, fp: Fingerprint, code: Code)
    requires Linked(s) && JoinRoomStep(s, fp, code).Ok?
    ensures Linked(JoinRoomStep(s, fp, code).value)
  {
    var s' := JoinRoomStep(s, fp, code).value;
    assert fp in s'.rooms[code].members;
  }

  lemma JoinKeepsValid(s: State, fp: Fingerprint, code: Code)
    requires Valid(s) && JoinRoomStep(s, fp, code).Ok?
    ensures Valid(JoinRoomStep(s, fp, code).value)
  {
    var s' := JoinRoomStep(s, fp, code).value;
    SameClientsKept(s, s');
    hide Indexed, Addressed, Numbered;
    JoinKeepsLinked(s, fp, code);
  }

  lemma EndpointKeepsValid(s: State, id: ClientId, endpoint: Endpoint)
    requires Valid(s)
    ensures Valid(EndpointStep(s, id, endpoint))
  {
  }

  lemma LeaveKeepsValid(s: State, fp: Fingerprint)
    requires Valid(s)
    ensures Valid(LeaveStep(s, fp))
  {
  }

  /** The state without the client's index entry. */
  function Unindexed(s: State, fp: Fingerprint): State
  {
    s.(byFP := s.byFP - {fp})
  }

  function WithoutClient(s: State, id: ClientId): State
  {
    s.(clients := s.clients - {id})
  }

  lemma LeaveFrame(s: State, fp: Fingerprint)
    requires Indexed(s) && Linked(s)
    ensures var s' := LeaveStep(s, fp);
            s'.clients == s.clients && s'.byFP == s.byFP && s'.nextIp == s.nextIp && s'.serial == s.serial
  {
  }

  lemma DropClientKeepsValid(s: State, id: ClientId)
    requires Valid(s) && forall fp :: fp in s.byFP ==> s.byFP[fp] != id
    ensures Valid(WithoutClient(s, id))
  {
  }

  lemma RemoveKeepsValid(s: State, id: ClientId)
    requires Valid(s)
    ensures Valid(RemoveStep(s, id))
  {
    if id in s.clients {
      var fp := s.clients[id].keyFP;
      var s1 := if fp != "" then LeaveStep(Unindexed(s, fp), fp) else s;
      assert forall q :: q in s.byFP && s.byFP[q] == id ==> q == fp;
      if fp != "" {
        assert Valid(Unindexed(s, fp));
        LeaveKeepsValid(Unindexed(s, fp), fp);
        LeaveFrame(Unindexed(s, fp), fp);
      }
      hide Valid, LeaveStep;
      DropClientKeepsValid(s1, id);
    }
  }

  // ---- with distinct fingerprints, rooms hold online clients and always have a host ----

  ghost predicate Sound(s: State)
  {
    Valid(s) && Distinct(s) && Live(s)
  }

  lemma AddIndexes(s: State, id: ClientId, c: Client, s': State)
    requires Indexed(s) && Distinct(s) && Live(s) && id !in s.clients
    requires s'.clients == s.clients[id := c] && s'.rooms == s.rooms
    requires s'.byFP == if c.keyFP != "" then s.byFP[c.keyFP := id] else s.byFP
    ensures Distinct(s') && Live(s') <==> c.keyFP != "" && c.keyFP !in s.byFP
  {
    var fp := c.keyFP;
    if fp in s.byFP {
      assert s.byFP[fp] in s'.clients && s'.clients[s.byFP[fp]].keyFP == fp;
    } else if fp == "" {
      assert s'.clients[id].keyFP == "";
    }
  }

  /** The index stays complete exactly when the newcomer's fingerprint is not already online. */
  lemma AddKeepsDistinctIff(s: State, id: ClientId, name: string, fp: Fingerprint)
    requires Sound(s) && id !in s.clients && AddStep(s, id, name, fp).1.Ok?
    ensures Sound(AddStep(s, id, name, fp).0) <==> fp != "" && fp !in s.byFP
  {
    AddKeepsValid(s, id, name, fp);
    assert Indexed(s);
    hide Valid, Indexed, Distinct, Live, AllocFrom;
    AddIndexes(s, id, AddStep(s, id, name, fp).1.value, AddStep(s, id, name, fp).0);
  }

  /**
   Why fingerprints must be distinct: when one of two clients that share one goes, the other loses its room
   and its index entry.
   */
  lemma RemovalEvictsTwin(s: State, id: ClientId, twin: ClientId)
    requires Valid(s) && id in s.clients && twin in s.clients && id != twin
    requires s.clients[twin].keyFP == s.clients[id].keyFP != ""
    ensures var s', fp := RemoveStep(s, id), s.clients[id].keyFP;
            && twin in s'.clients && s'.clients[twin].keyFP == fp
            && CodeOf(s', fp) == "" && fp !in s'.byFP && VisiblePeers(s', twin, fp) == {} && !Distinct(s')
  {
  }

  lemma CreateKeepsLive(s: State, fp: Fingerprint, code: Code)
    requires Live(s) && fp in s.byFP && CreateRoomStep(s, fp, code).Ok?
    ensures Live(CreateRoomStep(s, fp, code).value)
  {
  }

  lemma CreateKeepsSound(s: State, fp: Fingerprint, code: Code)
    requires Sound(s) && fp in s.byFP && code != "" && code !in s.rooms && CreateRoomStep(s, fp, code).Ok?
    ensures Sound(CreateRoomStep(s, fp, code).value)
  {
    hide Valid, Live;
    CreateKeepsValid(s, fp, code);
    CreateKeepsLive(s, fp, code);
  }

  lemma JoinKeepsLive(s: State, fp: Fingerprint, code: Code)
    requires Live(s) && fp in s.byFP && JoinRoomStep(s, fp, code).Ok?
    ensures Live(JoinRoomStep(s, fp, code).value)
  {
  }

  lemma JoinKeepsSound(s: State, fp: Fingerprint, code: Code)
    requires Sound(s) && fp in s.byFP && JoinRoomStep(s, fp, code).Ok?
    ensures Sound(JoinRoomStep(s, fp, code).value)
  {
    hide Valid, Live;
    JoinKeepsValid(s, fp, code);
    JoinKeepsLive(s, fp, code);
  }

  /** A departing host is succeeded by the one remaining member who registered first. */
  lemma SuccessorIsOldest(s: State, room: Room, fp: Fingerprint)
    requires Indexed(s) && Numbered(s) && room.host == fp && room.members - {fp} != {}
    requires forall q :: q in room.members - {fp} ==> q in s.byFP
    ensures var room' := Departed(s, room, fp).value;
            && IsOldest(s, room'.members, room'.host)
            && forall q :: IsOldest(s, room'.members, q) ==> q == room'.host
  {
    var rest := room.members - {fp};
    var q :| q in rest;
    OldestExists(s, rest, q);
    var host := Oldest(s, rest);
    forall p | IsOldest(s, rest, p) ensures p == host { OldestIsUnique(s, rest, p, host); }
  }

  lemma OnlyOwnRoom(s: State, fp: Fingerprint)
    requires Linked(s)
    ensures CodeOf(s, fp) != "" ==> CodeOf(s, fp) in s.rooms
    ensures forall c :: c in s.rooms && c != CodeOf(s, fp) ==> fp !in s.rooms[c].members
  {
  }

  /** Whoever remains in the room is online, and its host is one of them. */
  lemma DepartedIsLive(s: State, room: Room, fp: Fingerprint)
    requires Indexed(s) && Numbered(s) && room.host in room.members && room.members <= s.byFP.Keys + {fp}
    ensures var d := Departed(s, room, fp);
            d.Some? ==> d.value.host in d.value.members && d.value.members <= s.byFP.Keys
  {
    if room.members - {fp} != {} && room.host == fp { SuccessorIsOldest(s, room, fp); }
  }

  lemma LeaveKeepsLive(s: State, fp: Fingerprint)
    requires Valid(s) && RoomsLive(s.rooms, s.byFP.Keys, {fp})
    ensures Live(LeaveStep(s, fp))
  {
    assert Indexed(s) && Linked(s) && Numbered(s);
    hide Valid, Indexed, Linked, Numbered, CodeOf, Departed;
    OnlyOwnRoom(s, fp);
    if CodeOf(s, fp) != "" {
      DepartedIsLive(s, s.rooms[CodeOf(s, fp)], fp);
    }
  }

  lemma LeaveKeepsSound(s: State, fp: Fingerprint)
    requires Sound(s)
    ensures Sound(LeaveStep(s, fp))
  {
    LeaveKeepsValid(s, fp);
    LeaveKeepsLive(s, fp);
  }

  lemma DropClientKeepsSound(s: State, s': State, id: ClientId)
    requires Distinct(s) && id in s.clients && Valid(WithoutClient(s', id)) && Live(s')
    requires s'.clients == s.clients && s'.byFP == s.byFP - {s.clients[id].keyFP}
    ensures Sound(WithoutClient(s', id))
  {
    hide Valid;
  }

  /** Taking a client out of the index leaves only its own membership dangling. */
  lemma UnindexedIsReady(s: State, id: ClientId)
    requires Sound(s) && id in s.clients
    ensures var fp := s.clients[id].keyFP;
            var s1 := Unindexed(s, fp);
            fp != "" && Distinct(s) && Valid(s1) && Indexed(s1) && Linked(s1) && RoomsLive(s1.rooms, s1.byFP.Keys, {fp})
  {
    hide RoomsLinked, DistinctAddresses;
  }

  lemma RemoveKeepsSound(s: State, id: ClientId)
    requires Sound(s)
    ensures Sound(RemoveStep(s, id))
  {
    hide Valid, Indexed, Linked, Distinct, Live, RoomsLive, LeaveStep;
    RemoveKeepsValid(s, id);
    if id in s.clients {
      var fp := s.clients[id].keyFP;
      var s1 := Unindexed(s, fp);
      UnindexedIsReady(s, id);
      LeaveKeepsLive(s1, fp);
      LeaveFrame(s1, fp);
      DropClientKeepsSound(s, LeaveStep(s1, fp), id);
    }
  }

  lemma EndpointKeepsSound(s: State, id: ClientId, endpoint: Endpoint)
    requires Sound(s)
    ensures Sound(EndpointStep(s, id, endpoint))
  {
  }

  // ---- capacity ----

  /** The octets in use. */
  function Octets(clients: map<ClientId, Client>): set<Octet>
  {
    set id | id in clients :: clients[id].virtualIp
  }

  lemma OctetsSplit(clients: map<ClientId, Client>, id: ClientId)
    requires id in clients
    ensures Octets(clients) == Octets(clients - {id}) + {clients[id].virtualIp}
  {
    var rest := clients - {id};
    forall ip | ip in Octets(clients) ensures ip in Octets(rest) + {clients[id].virtualIp} {
      var i :| i in clients && clients[i].virtualIp == ip;
      if i != id { assert i in rest; }
    }
    forall ip | ip in Octets(rest) ensures ip in Octets(clients) {
      var i :| i in rest && rest[i].virtualIp == ip;
      assert i in clients;
    }
  }

  lemma {:induction false} OctetsCount(clients: map<ClientId, Client>)
    requires forall id, id' :: id in clients && id' in clients && id != id' ==>
               clients[id].virtualIp != clients[id'].virtualIp
    ensures |Octets(clients)| == |clients|
    decreases |clients|
  {
    if clients == map[] {
      assert Octets(clients) == {};
    } else {
      var id :| id in clients;
      var rest := clients - {id};
      OctetsCount(rest);
      OctetsSplit(clients, id);
      assert clients.Keys == rest.Keys + {id};
      assert clients[id].virtualIp !in Octets(rest);
    }
  }

  /** The first n client addresses. */
  function Pool(n: nat): (pool: set<Octet>)
    ensures forall ip :: ip in pool <==> FIRST_CLIENT_IP <= ip < FIRST_CLIENT_IP + n
    ensures |pool| == n
  {
    if n == 0 then {} else Pool(n - 1) + {FIRST_CLIENT_IP + n - 1}
  }

  lemma {:induction false} SubsetSize<T>(a: set<T>, b: set<T>)
    requires a <= b
    ensures |a| <= |b|
  {
    if x :| x in a { SubsetSize(a - {x}, b - {x}); }
  }

  lemma SubsetOfSameSize<T>(a: set<T>, b: set<T>)
    requires a <= b && |a| == |b|
    ensures a == b
  {
    if x :| x in b && x !in a {
      SubsetSize(a, b - {x});
    }
  }

  lemma UsedIffTaken(clients: map<ClientId, Client>)
    ensures forall ip :: ip in Octets(clients) <==> IpTaken(clients, ip)
  {
  }

  /** At most n addresses are in use, and n clients use all of them. */
  lemma ClientsFit(s: State, n: nat)
    requires Addressed(s) && n == ADDRESSES
    ensures |s.clients| <= n
    ensures |s.clients| == n <==> forall ip :: InRange(ip) ==> IpTaken(s.clients, ip)
  {
    var used, pool := Octets(s.clients), Pool(n);
    OctetsCount(s.clients);
    UsedIffTaken(s.clients);
    assert used <= pool;
    hide IpTaken, Octets, Addressed;
    SubsetSize(used, pool);
    if |s.clients| == n {
      SubsetOfSameSize(used, pool);
    } else if pool <= used {
      SubsetSize(pool, used);
    }
    assert pool <= used <==> forall ip :: InRange(ip) ==> ip in used;
  }

  /** A newcomer is refused exactly when 253 clients are online. */
  lemma RefusedIffFull(s: State, id: ClientId, name: string, fp: Fingerprint)
    requires Valid(s)
    ensures AddStep(s, id, name, fp).1 == Err(NetworkFull) <==> |s.clients| == ADDRESSES
    ensures |s.clients| <= ADDRESSES
  {
    AllocFailsIffFull(s.clients, s.nextIp);
    ClientsFit(s, ADDRESSES);
    hide Valid, IpTaken, AllocFrom;
  }

  lemma RefusalChangesNothing(s: State, id: ClientId, name: string, fp: Fingerprint)
    requires Valid(s) && AddStep(s, id, name, fp).1.Err?
    ensures AddStep(s, id, name, fp) == (s, Err(NetworkFull))
  {
    AllocFailsIffFull(s.clients, s.nextIp);
    hide Valid, IpTaken, AllocFrom;
  }

  // ---- every run ----

  datatype Operation =
    | Add(id: ClientId, name: string, fp: Fingerprint)
    | Remove(gone: ClientId)
    | Report(reporter: ClientId, endpoint: Endpoint)
    | Create(creator: Fingerprint, newCode: Code)
    | Join(joiner: Fingerprint, code: Code)
    | Leave(leaver: Fingerprint)

  /**
   Random ids are assumed fresh and room codes are drawn until unused; anything else may be asked at any time,
   by anyone.
   */
  predicate Possible(s: State, op: Operation)
  {
    match op
    case Add(id, _, _) => id !in s.clients
    case Create(_, code) => code != "" && code !in s.rooms
    case _ => true
  }

  ghost function Apply(s: State, op: Operation): State
    requires Valid(s)
  {
    match op
    case Add(id, name, fp) => AddStep(s, id, name, fp).0
    case Remove(id) => RemoveStep(s, id)
    case Report(id, endpoint) => EndpointStep(s, id, endpoint)
    case Create(fp, code) => (match CreateRoomStep(s, fp, code) case Ok(s') => s' case Err(_) => s)
    case Join(fp, code) => (match JoinRoomStep(s, fp, code) case Ok(s') => s' case Err(_) => s)
    case Leave(fp) => LeaveStep(s, fp)
  }

  ghost predicate IsRun(ops: seq<Operation>)
    decreases |ops|, 0
  {
    ops == [] || (IsRun(ops[..|ops| - 1]) && Possible(After(ops[..|ops| - 1]), ops[|ops| - 1]))
  }

  lemma ApplyKeepsValid(s: State, op: Operation)
    requires Valid(s) && Possible(s, op)
    ensures Valid(Apply(s, op))
  {
    hide Valid;
    match op
    case Add(id, name, fp) => AddKeepsValid(s, id, name, fp);
    case Remove(id) => RemoveKeepsValid(s, id);
    case Report(id, endpoint) => EndpointKeepsValid(s, id, endpoint);
    case Create(fp, code) => if CreateRoomStep(s, fp, code).Ok? { CreateKeepsValid(s, fp, code); }
    case Join(fp, code) => if JoinRoomStep(s, fp, code).Ok? { JoinKeepsValid(s, fp, code); }
    case Leave(fp) => LeaveKeepsValid(s, fp);
  }

  /** Whatever is asked, even with shared fingerprints, the indexes, rooms and addresses stay consistent. */
  ghost function After(ops: seq<Operation>): (s: State)
    requires IsRun(ops)
    ensures Valid(s)
    decreases |ops|, 1
  {
    if ops == [] then EMPTY
    else
      var s := After(ops[..|ops| - 1]);
      ApplyKeepsValid(s, ops[|ops| - 1]);
      Apply(s, ops[|ops| - 1])
  }

  lemma RunAppends(ops: seq<Operation>, op: Operation)
    requires IsRun(ops) && Possible(After(ops), op)
    ensures IsRun(ops + [op]) && After(ops + [op]) == Apply(After(ops), op)
  {
    assert (ops + [op])[..|ops|] == ops;
    hide Apply, Possible;
  }

  // ---- what single operations do ----

  /** At this operation fp leaves its room, if it is in one: by itself, or because its client goes. */
  predicate Goes(s: State, op: Operation, fp: Fingerprint)
  {
    || op == Leave(fp)
    || (op.Remove? && fp != "" && op.gone in s.clients && s.clients[op.gone].keyFP == fp)
  }

  /** At this operation fp, in no room, enters room `code`. */
  predicate Enters(s: State, op: Operation, fp: Fingerprint, code: Code)
  {
    fp !in s.inRoom && (op == Create(fp, code) || (op == Join(fp, code) && code in s.rooms))
  }

  /** A host by succession: the longest-registered online member, or nobody when no member is online. */
  ghost predicate IsSuccessor(s: State, members: set<Fingerprint>, host: Fingerprint)
    requires Indexed(s)
  {
    if exists q :: q in members && q in s.byFP then IsOldest(s, members, host) else host == ""
  }

  lemma OldestSucceeds(s: State, members: set<Fingerprint>)
    requires Indexed(s)
    ensures IsSuccessor(s, members, Oldest(s, members))
  {
    if q :| q in members && q in s.byFP {
      OldestExists(s, members, q);
    }
  }

  /** What a departure does, with everything it leaves alone. */
  ghost predicate Left(s: State, s': State, fp: Fingerprint)
    requires Indexed(s')
  {
    if fp !in s.inRoom || s.inRoom[fp] !in s.rooms then s'.rooms == s.rooms && s'.inRoom == s.inRoom
    else
      var code, room := s.inRoom[fp], s.rooms[s.inRoom[fp]];
      && s'.inRoom == s.inRoom - {fp}
      && if room.members == {fp} then s'.rooms == s.rooms - {code}
         else
           && code in s'.rooms && s'.rooms == s.rooms[code := s'.rooms[code]]
           && s'.rooms[code].code == room.code && s'.rooms[code].members == room.members - {fp}
           && if room.host == fp then IsSuccessor(s', s'.rooms[code].members, s'.rooms[code].host)
              else s'.rooms[code].host == room.host
  }

  /** Succession looks only at the clients the index leads to. */
  lemma SuccessorInBoth(s: State, s': State, members: set<Fingerprint>, host: Fingerprint)
    requires Indexed(s) && Indexed(s') && s'.byFP == s.byFP && IsSuccessor(s, members, host)
    requires forall q :: q in s.byFP ==> s'.clients[s.byFP[q]] == s.clients[s.byFP[q]]
    ensures IsSuccessor(s', members, host)
  {
  }

  lemma LeaveIsLeft(s: State, fp: Fingerprint)
    requires Valid(s)
    ensures Indexed(LeaveStep(s, fp)) && Left(s, LeaveStep(s, fp), fp)
  {
    LeaveFrame(s, fp);
    var s' := LeaveStep(s, fp);
    if fp in s.inRoom {
      var rest := s.rooms[s.inRoom[fp]].members - {fp};
      OldestSucceeds(s, rest);
      hide IsOldest, Oldest, Addressed, Numbered;
      if s.rooms[s.inRoom[fp]].host == fp { SuccessorInBoth(s, s', rest, Oldest(s, rest)); }
    }
  }

  lemma IndexAvoids(s: State, id: ClientId)
    requires Indexed(s) && Indexed(WithoutClient(s, id))
    ensures forall q :: q in s.byFP ==> s.byFP[q] in s.clients && s.byFP[q] != id
  {
    var s' := WithoutClient(s, id);
    forall q | q in s.byFP ensures s.byFP[q] in s.clients && s.byFP[q] != id {
      assert q in s'.byFP;
    }
  }

  lemma LeftWithoutClient(s: State, s1: State, fp: Fingerprint, id: ClientId)
    requires Indexed(s1) && Left(s, s1, fp) && Indexed(WithoutClient(s1, id))
    ensures Left(s, WithoutClient(s1, id), fp)
  {
    hide IsSuccessor, Indexed;
    var s' := WithoutClient(s1, id);
    forall members, host | IsSuccessor(s1, members, host) ensures IsSuccessor(s', members, host) {
      assert forall q :: q in s1.byFP ==> s'.clients[s1.byFP[q]] == s1.clients[s1.byFP[q]] by { IndexAvoids(s1, id); }
      SuccessorInBoth(s1, s', members, host);
    }
  }

  lemma ValidParts(s: State)
    requires Valid(s)
    ensures Indexed(s) && Linked(s) && Addressed(s) && Numbered(s)
  {
    hide Indexed, Linked, Addressed, Numbered;
  }

  /** The client and its index entry go, and its fingerprint leaves its room. */
  lemma UnindexedIsValid(s: State, fp: Fingerprint)
    requires Valid(s)
    ensures Valid(Unindexed(s, fp)) && Indexed(Unindexed(s, fp)) && Linked(Unindexed(s, fp))
  {
  }

  lemma SameRoomsLeft(s: State, s1: State, s': State, fp: Fingerprint)
    requires Indexed(s') && Left(s1, s', fp) && s1.rooms == s.rooms && s1.inRoom == s.inRoom
    ensures Left(s, s', fp)
  {
    hide IsSuccessor, Indexed;
  }

  lemma RemoveIsLeft(s: State, id: ClientId)
    requires Valid(s)
    ensures var s' := RemoveStep(s, id);
            && Valid(s') && Indexed(s')
            && s'.clients == s.clients - {id} && s'.nextIp == s.nextIp && s'.serial == s.serial
            && if id in s.clients && s.clients[id].keyFP != "" then
                 s'.byFP == s.byFP - {s.clients[id].keyFP} && Left(s, s', s.clients[id].keyFP)
               else s'.byFP == s.byFP && s'.rooms == s.rooms && s'.inRoom == s.inRoom
  {
    RemoveKeepsValid(s, id);
    if id in s.clients && s.clients[id].keyFP != "" {
      var fp := s.clients[id].keyFP;
      var s1 := Unindexed(s, fp);
      UnindexedIsValid(s, fp);
      hide Valid, Indexed, Linked, Left, LeaveStep;
      ValidParts(RemoveStep(s, id));
      LeaveFrame(s1, fp);
      LeaveIsLeft(s1, fp);
      LeftWithoutClient(s1, LeaveStep(s1, fp), fp, id);
      SameRoomsLeft(s, s1, RemoveStep(s, id), fp);
    }
  }

  /** What an operation does to the registry, fields it leaves alone included. */
  ghost predicate Does(s: State, op: Operation, s': State)
    requires Indexed(s')
  {
    match op
    case Add(id, name, fp) =>
      && s'.rooms == s.rooms && s'.inRoom == s.inRoom
      && if |s.clients| == 253 then s' == s
         else
           && id in s'.clients && s'.clients == s.clients[id := s'.clients[id]]
           && s'.byFP == (if fp != "" then s.byFP[fp := id] else s.byFP)
           && var c := s'.clients[id];
              && c.id == id && c.name == name && c.keyFP == fp && c.endpoint == Endpoint("", 0, "", [])
              && 2 <= c.virtualIp <= 254
              && forall i :: i in s.clients ==> s.clients[i].virtualIp != c.virtualIp && s.clients[i].serial < c.serial
    case Remove(id) =>
      && s'.clients == s.clients - {id} && s'.nextIp == s.nextIp && s'.serial == s.serial
      && if id in s.clients && s.clients[id].keyFP != "" then
           s'.byFP == s.byFP - {s.clients[id].keyFP} && Left(s, s', s.clients[id].keyFP)
         else s'.byFP == s.byFP && s'.rooms == s.rooms && s'.inRoom == s.inRoom
    case Report(id, endpoint) =>
      && s' == s.(clients := s'.clients) && s'.clients.Keys == s.clients.Keys
      && forall i :: i in s.clients ==>
           s'.clients[i] == if i == id then s.clients[i].(endpoint := endpoint) else s.clients[i]
    case Create(fp, code) =>
      if fp in s.inRoom then s' == s
      else s' == s.(rooms := s.rooms[code := Room(code, fp, {fp})], inRoom := s.inRoom[fp := code])
    case Join(fp, code) =>
      if fp in s.inRoom || code !in s.rooms then s' == s
      else
        var joined := Room(code, s.rooms[code].host, s.rooms[code].members + {fp});
        s' == s.(rooms := s.rooms[code := joined], inRoom := s.inRoom[fp := code])
    case Leave(fp) =>
      && s'.clients == s.clients && s'.byFP == s.byFP && s'.nextIp == s.nextIp && s'.serial == s.serial
      && Left(s, s', fp)
  }

  lemma CodeOfIsPlace(s: State, fp: Fingerprint)
    requires Linked(s)
    ensures CodeOf(s, fp) != "" <==> fp in s.inRoom
    ensures forall code :: code in s.rooms ==> s.rooms[code].code == code
  {
  }

  lemma CountersBound(s: State)
    requires Addressed(s) && Numbered(s)
    ensures InRange(s.nextIp) && forall i :: i in s.clients ==> s.clients[i].serial <= s.serial
  {
  }

  lemma AddRefused(s: State, id: ClientId, name: string, fp: Fingerprint)
    requires Valid(s)
    ensures AddStep(s, id, name, fp).1.Err? <==> |s.clients| == 253
    ensures AddStep(s, id, name, fp).1.Err? ==> AddStep(s, id, name, fp).0 == s
  {
    RefusedIffFull(s, id, name, fp);
    ValidParts(s);
    CountersBound(s);
    AllocFailsIffFull(s.clients, s.nextIp);
    hide Valid, Indexed, Linked, Addressed, Numbered, AllocFrom, IpTaken;
  }

  lemma AddAdmitted(s: State, id: ClientId, name: string, fp: Fingerprint)
    requires InRange(s.nextIp) && AddStep(s, id, name, fp).1.Ok?
    ensures var (s', r) := AddStep(s, id, name, fp);
            && s'.rooms == s.rooms && s'.inRoom == s.inRoom && s'.clients == s.clients[id := r.value]
            && s'.byFP == (if fp != "" then s.byFP[fp := id] else s.byFP)
            && r.value == Client(id, name, fp, r.value.virtualIp, s.serial + 1, NO_ENDPOINT)
            && InRange(r.value.virtualIp)
            && forall i :: i in s.clients ==> s.clients[i].virtualIp != r.value.virtualIp
  {
    AllocatedIsFree(s.clients, s.nextIp);
    hide AllocFrom, InRange;
  }

  lemma AddDoes(s: State, id: ClientId, name: string, fp: Fingerprint)
    requires Valid(s) && id !in s.clients
    ensures Indexed(AddStep(s, id, name, fp).0) && Does(s, Add(id, name, fp), AddStep(s, id, name, fp).0)
  {
    hide Valid, Indexed, Linked, Addressed, Numbered, AddStep;
    AddKeepsValid(s, id, name, fp);
    ValidParts(s);
    ValidParts(AddStep(s, id, name, fp).0);
    CountersBound(s);
    AddRefused(s, id, name, fp);
    if AddStep(s, id, name, fp).1.Ok? { AddAdmitted(s, id, name, fp); }
  }

  lemma ReportDoes(s: State, id: ClientId, endpoint: Endpoint)
    requires Indexed(EndpointStep(s, id, endpoint))
    ensures Does(s, Report(id, endpoint), EndpointStep(s, id, endpoint))
  {
    hide Indexed;
  }

  lemma CreateDoes(s: State, fp: Fingerprint, code: Code)
    requires Linked(s) && Indexed(s)
    ensures match CreateRoomStep(s, fp, code)
            case Ok(s') => Indexed(s') && Does(s, Create(fp, code), s')
            case Err(_) => Does(s, Create(fp, code), s)
  {
    CodeOfIsPlace(s, fp);
    hide Linked, CodeOf;
  }

  lemma JoinDoes(s: State, fp: Fingerprint, code: Code)
    requires Linked(s) && Indexed(s)
    ensures match JoinRoomStep(s, fp, code)
            case Ok(s') => Indexed(s') && Does(s, Join(fp, code), s')
            case Err(_) => Does(s, Join(fp, code), s)
  {
    CodeOfIsPlace(s, fp);
    hide Linked, CodeOf;
  }

  lemma RemoveDoes(s: State, id: ClientId)
    requires Valid(s)
    ensures Indexed(RemoveStep(s, id)) && Does(s, Remove(id), RemoveStep(s, id))
  {
    RemoveIsLeft(s, id);
    hide Valid, Indexed, Left, RemoveStep;
  }

  lemma LeaveDoes(s: State, fp: Fingerprint)
    requires Valid(s)
    ensures Indexed(LeaveStep(s, fp)) && Does(s, Leave(fp), LeaveStep(s, fp))
  {
    LeaveIsLeft(s, fp);
    LeaveFrame(s, fp);
    hide Valid, Indexed, Left, LeaveStep;
  }

  lemma ApplyDoes(s: State, op: Operation)
    requires Valid(s) && Possible(s, op)
    ensures Indexed(Apply(s, op)) && Does(s, op, Apply(s, op))
  {
    hide Valid, Indexed, Linked, Does, AddStep, LeaveStep, RemoveStep, EndpointStep, CreateRoomStep, JoinRoomStep;
    ApplyKeepsValid(s, op);
    ValidParts(s);
    ValidParts(Apply(s, op));
    match op
    case Add(id, name, fp) => AddDoes(s, id, name, fp);
    case Remove(id) => RemoveDoes(s, id);
    case Report(id, endpoint) => ReportDoes(s, id, endpoint);
    case Create(fp, code) => CreateDoes(s, fp, code);
    case Join(fp, code) => JoinDoes(s, fp, code);
    case Leave(fp) => LeaveDoes(s, fp);
  }

  /** After every run, every operation does that. */
  lemma OperationsDo(ops: seq<Operation>, op: Operation)
    requires IsRun(ops + [op]) && IsRun(ops)
    ensures Indexed(After(ops + [op])) && Does(After(ops), op, After(ops + [op]))
  {
    assert (ops + [op])[..|ops|] == ops;
    hide Apply, Does, Indexed, Valid;
    ApplyDoes(After(ops), op);
  }

  // ---- what clients are shown ----

  /** fp is in room `code`. */
  predicate IsIn(s: State, fp: Fingerprint, code: Code)
  {
    fp in s.inRoom && s.inRoom[fp] == code
  }

  /** A peer list shows exactly the other clients in the same room, each with its own data. */
  lemma PeersShow(s: State, id: ClientId, fp: Fingerprint, p: Peer)
    requires Valid(s)
    ensures p in VisiblePeers(s, id, fp) <==>
              && fp in s.inRoom && p.id in s.clients && p.id != id
              && var c := s.clients[p.id];
                 && IsIn(s, c.keyFP, s.inRoom[fp]) && p.name == c.name && p.virtualIp == c.virtualIp
                 && p.publicIp == c.endpoint.publicIp && p.publicPort == c.endpoint.publicPort
                 && p.natType == c.endpoint.natType
  {
    CodeOfIsPlace(s, fp);
    hide Addressed, Numbered;
    if p.id in s.clients { CodeOfIsPlace(s, s.clients[p.id].keyFP); }
    if fp in s.inRoom && p.id in s.clients { assert s.clients[p.id].id == p.id; }
  }

  /** A member list shows exactly the members that are online, each with its own data, and marks the host. */
  lemma RosterShows(s: State, room: Room, m: RoomMember)
    requires Indexed(s)
    ensures m in MemberList(s, room) <==>
              && m.keyFP in room.members && m.keyFP in s.byFP
              && m.username == s.clients[s.byFP[m.keyFP]].name && m.virtualIp == s.clients[s.byFP[m.keyFP]].virtualIp
              && (m.host <==> m.keyFP == room.host)
  {
  }

  // ---- rooms, hosts and endpoints over whole runs ----

  /** The state before operation i, or after the last one. */
  ghost function At(ops: seq<Operation>, i: nat): State
    requires i <= |ops|
  {
    if IsRun(ops[..i]) then After(ops[..i]) else EMPTY
  }

  lemma AtIsAfter(ops: seq<Operation>, i: nat)
    requires i <= |ops| && IsRun(ops[..i])
    ensures At(ops, i) == After(ops[..i])
  {
    hide IsRun;
  }

  lemma RunWithoutLast(ops: seq<Operation>, init: seq<Operation>)
    requires IsRun(ops) && ops != [] && init == ops[..|ops| - 1]
    ensures IsRun(init) && Possible(After(init), ops[|ops| - 1])
  {
    hide Possible, Valid;
  }

  lemma AtEnd(ops: seq<Operation>)
    requires IsRun(ops) && ops != []
    ensures IsRun(ops[..|ops| - 1]) && At(ops, |ops| - 1) == After(ops[..|ops| - 1]) && At(ops, |ops|) == After(ops)
    ensures Possible(At(ops, |ops| - 1), ops[|ops| - 1])
    ensures Indexed(At(ops, |ops|)) && Does(At(ops, |ops| - 1), ops[|ops| - 1], At(ops, |ops|))
  {
    hide *;
    var init, op := ops[..|ops| - 1], ops[|ops| - 1];
    assert ops == init + [op] && ops[..|ops|] == ops;
    RunWithoutLast(ops, init);
    AtIsAfter(ops, |ops| - 1);
    AtIsAfter(ops, |ops|);
    OperationsDo(init, op);
  }

  lemma AtPrefix(ops: seq<Operation>, n: nat, i: nat)
    requires i <= n <= |ops|
    ensures At(ops[..n], i) == At(ops, i)
  {
    assert ops[..n][..i] == ops[..i];
  }

  lemma LeftMoves(s: State, s': State, gone: Fingerprint, fp: Fingerprint, code: Code)
    requires Linked(s) && Indexed(s') && Left(s, s', gone)
    ensures IsIn(s', fp, code) <==> IsIn(s, fp, code) && fp != gone
  {
    hide IsSuccessor;
  }

  /** Nobody's place changes but by entering a room or going. */
  lemma PlaceMoves(s: State, op: Operation, s': State, fp: Fingerprint, code: Code)
    requires Linked(s) && Indexed(s') && Does(s, op, s')
    ensures IsIn(s', fp, code) <==> Enters(s, op, fp, code) || (IsIn(s, fp, code) && !Goes(s, op, fp))
  {
    hide Left, Indexed, Linked;
    match op
    case Leave(gone) => LeftMoves(s, s', gone, fp, code);
    case Remove(id) =>
      if id in s.clients && s.clients[id].keyFP != "" { LeftMoves(s, s', s.clients[id].keyFP, fp, code); }
    case _ =>
  }

  /** Operation i took fp into room `code`, and it has not gone since. */
  ghost predicate EnteredAndStayed(ops: seq<Operation>, i: nat, fp: Fingerprint, code: Code)
  {
    && i < |ops| && Enters(At(ops, i), ops[i], fp, code)
    && forall j :: i < j < |ops| ==> !Goes(At(ops, j), ops[j], fp)
  }

  lemma StayedInPrefix(ops: seq<Operation>, i: nat, fp: Fingerprint, code: Code)
    requires ops != [] && i < |ops| - 1
    ensures EnteredAndStayed(ops, i, fp, code) <==>
              EnteredAndStayed(ops[..|ops| - 1], i, fp, code) && !Goes(At(ops, |ops| - 1), ops[|ops| - 1], fp)
  {
    var n := |ops| - 1;
    hide At, Goes, Enters;
    forall j | i <= j < n ensures At(ops[..n], j) == At(ops, j) && ops[..n][j] == ops[j] { AtPrefix(ops, n, j); }
  }

  lemma NoneAtFirst(fp: Fingerprint, code: Code)
    ensures !IsIn(After([]), fp, code) && !exists i :: EnteredAndStayed([], i, fp, code)
  {
  }

  lemma EnteredOrStayed(ops: seq<Operation>, fp: Fingerprint, code: Code)
    requires ops != []
    ensures var n := |ops| - 1;
            (exists i :: EnteredAndStayed(ops, i, fp, code)) <==>
              || Enters(At(ops, n), ops[n], fp, code)
              || ((exists i :: EnteredAndStayed(ops[..n], i, fp, code)) && !Goes(At(ops, n), ops[n], fp))
  {
    hide At, Goes, Enters;
    var n := |ops| - 1;
    assert EnteredAndStayed(ops, n, fp, code) <==> Enters(At(ops, n), ops[n], fp, code);
    forall i: nat | i < n ensures EnteredAndStayed(ops, i, fp, code) <==>
        EnteredAndStayed(ops[..n], i, fp, code) && !Goes(At(ops, n), ops[n], fp)
    {
      StayedInPrefix(ops, i, fp, code);
    }
  }

  /**
   In every run, fp is a member of a room exactly when it founded or joined it, being in none, and has not
   gone since.
   */
  lemma {:induction false} MembersEnteredAndStayed(ops: seq<Operation>, fp: Fingerprint, code: Code)
    requires IsRun(ops)
    ensures IsIn(After(ops), fp, code) <==> exists i :: EnteredAndStayed(ops, i, fp, code)
  {
    hide At, Does, Goes, Enters, Valid, Linked, Indexed, Apply, EnteredAndStayed;
    if ops == [] {
      NoneAtFirst(fp, code);
    } else {
      hide IsIn;
      var n := |ops| - 1;
      AtEnd(ops);
      MembersEnteredAndStayed(ops[..n], fp, code);
      ValidParts(After(ops[..n]));
      PlaceMoves(After(ops[..n]), ops[n], After(ops), fp, code);
      EnteredOrStayed(ops, fp, code);
    }
  }

  /** The member sets say the same. */
  lemma MembersAreIn(s: State, fp: Fingerprint, code: Code)
    requires Valid(s)
    ensures IsIn(s, fp, code) <==> code in s.rooms && fp in s.rooms[code].members
  {
    hide Indexed, Addressed, Numbered;
  }

  lemma LeftHost(s: State, s': State, fp: Fingerprint, code: Code)
    requires Linked(s) && Indexed(s') && Left(s, s', fp) && code in s.rooms && code in s'.rooms
    ensures var host, room' := s.rooms[code].host, s'.rooms[code];
            if fp == host && IsIn(s, host, code) then IsSuccessor(s', room'.members, room'.host) else room'.host == host
  {
    hide IsSuccessor, Indexed;
  }

  lemma OthersKeepHost(s: State, op: Operation, s': State, code: Code)
    requires Indexed(s') && Does(s, op, s') && Possible(s, op) && !op.Leave? && !op.Remove?
    requires code in s.rooms && code in s'.rooms
    ensures s'.rooms[code].host == s.rooms[code].host
  {
    hide Left, Indexed;
  }

  /** The host of a room that stays changes only when the host goes, and then its successor takes over. */
  lemma HostMoves(s: State, op: Operation, s': State, code: Code)
    requires Linked(s) && Indexed(s') && Does(s, op, s') && Possible(s, op) && code in s.rooms && code in s'.rooms
    ensures var host, room' := s.rooms[code].host, s'.rooms[code];
            if Goes(s, op, host) && IsIn(s, host, code) then IsSuccessor(s', room'.members, room'.host)
            else room'.host == host
  {
    hide Left, IsSuccessor, Indexed, Linked, IsIn;
    match op
    case Leave(fp) => LeftHost(s, s', fp, code);
    case Remove(id) =>
      if id in s.clients && s.clients[id].keyFP != "" { LeftHost(s, s', s.clients[id].keyFP, code); }
    case _ =>
      hide Does;
      OthersKeepHost(s, op, s', code);
  }

  lemma RoomIsBorn(s: State, op: Operation, s': State, code: Code)
    requires Linked(s) && Indexed(s') && Does(s, op, s') && code !in s.rooms && code in s'.rooms
    ensures op.Create? && op == Create(op.creator, code) && op.creator !in s.inRoom
    ensures s'.rooms[code] == Room(code, op.creator, {op.creator})
  {
    hide IsSuccessor, Indexed;
  }

  /** Over any operation of a run, a room's host changes only when the host of that moment goes. */
  lemma HostChangesOnlyWhenHostGoes(ops: seq<Operation>, code: Code)
    requires IsRun(ops) && ops != []
    ensures var n := |ops| - 1;
            && IsRun(ops[..n]) && Indexed(After(ops))
            && var s, s', op := After(ops[..n]), After(ops), ops[n];
               code in s.rooms && code in s'.rooms ==>
                 var host, room' := s.rooms[code].host, s'.rooms[code];
                 if Goes(s, op, host) && IsIn(s, host, code) then IsSuccessor(s', room'.members, room'.host)
                 else room'.host == host
  {
    var n := |ops| - 1;
    AtEnd(ops);
    ValidParts(After(ops[..n]));
    hide At, Does, Goes, IsIn, IsSuccessor, Valid, Linked, Indexed, Apply, Possible;
    if code in After(ops[..n]).rooms && code in After(ops).rooms {
      HostMoves(After(ops[..n]), ops[n], After(ops), code);
    }
  }

  /** Operation i founded the room for fp, and the room has been there since. */
  ghost predicate Founded(ops: seq<Operation>, i: nat, code: Code, fp: Fingerprint)
  {
    && i < |ops| && ops[i] == Create(fp, code) && fp !in At(ops, i).inRoom && code !in At(ops, i).rooms
    && forall j :: i < j <= |ops| ==> code in At(ops, j).rooms
  }

  /** Operation j took the room's host fp away. */
  ghost predicate HostWent(ops: seq<Operation>, j: nat, code: Code, fp: Fingerprint)
  {
    j < |ops| && code in At(ops, j).rooms && At(ops, j).rooms[code].host == fp && Goes(At(ops, j), ops[j], fp)
  }

  /** Operation i founded the room for fp, who hosts it still, unless it has gone while host. */
  ghost predicate HostedSince(ops: seq<Operation>, i: nat, code: Code, fp: Fingerprint)
  {
    && Founded(ops, i, code, fp) && code in At(ops, |ops|).rooms
    && (At(ops, |ops|).rooms[code].host == fp || exists j: nat :: i < j && HostWent(ops, j, code, fp))
  }

  lemma FoundedStays(ops: seq<Operation>, i: nat, code: Code, fp: Fingerprint)
    requires ops != [] && Founded(ops[..|ops| - 1], i, code, fp) && code in At(ops, |ops|).rooms
    ensures Founded(ops, i, code, fp)
  {
    var n := |ops| - 1;
    hide At;
    forall j | i <= j <= n ensures At(ops[..n], j) == At(ops, j) { AtPrefix(ops, n, j); }
  }

  lemma FoundedBefore(ops: seq<Operation>, i: nat, code: Code, fp: Fingerprint)
    requires Founded(ops, i, code, fp)
    ensures i < |ops|
  {
    hide At;
  }

  lemma HostedStill(ops: seq<Operation>, i: nat, code: Code, fp: Fingerprint, s: State, s': State)
    requires ops != [] && s == At(ops, |ops| - 1) && s' == At(ops, |ops|) && code in s.rooms && code in s'.rooms
    requires s'.rooms[code].host == s.rooms[code].host || Goes(s, ops[|ops| - 1], s.rooms[code].host)
    requires HostedSince(ops[..|ops| - 1], i, code, fp)
    ensures HostedSince(ops, i, code, fp)
  {
    var n := |ops| - 1;
    hide At, Founded, Goes;
    FoundedStays(ops, i, code, fp);
    AtPrefix(ops, n, n);
    if s.rooms[code].host == fp {
      assert s'.rooms[code].host != fp ==> HostWent(ops, n, code, fp);
      assert i < n by { FoundedBefore(ops[..n], i, code, fp); }
    } else {
      var j: nat :| i < j && HostWent(ops[..n], j, code, fp);
      AtPrefix(ops, n, j);
      assert HostWent(ops, j, code, fp);
    }
  }

  lemma HostedFromNow(ops: seq<Operation>, code: Code, fp: Fingerprint)
    requires ops != [] && ops[|ops| - 1] == Create(fp, code)
    requires fp !in At(ops, |ops| - 1).inRoom && code !in At(ops, |ops| - 1).rooms
    requires code in At(ops, |ops|).rooms && At(ops, |ops|).rooms[code].host == fp
    ensures HostedSince(ops, |ops| - 1, code, fp)
  {
    hide At;
  }

  /** In every run, a room is hosted by its founder, unless the founder, while host, has gone. */
  lemma {:induction false} HostIsFounder(ops: seq<Operation>, code: Code)
    requires IsRun(ops) && code in After(ops).rooms
    ensures At(ops, |ops|) == After(ops) && exists i: nat, fp :: HostedSince(ops, i, code, fp)
  {
    hide At, Does, Goes, IsIn, IsSuccessor, Valid, Linked, Indexed, Apply, Possible, Founded, HostedSince;
    assert ops != [];
    var n := |ops| - 1;
    AtEnd(ops);
    ValidParts(After(ops[..n]));
    var s, s', op := After(ops[..n]), After(ops), ops[n];
    if code in s.rooms {
      HostIsFounder(ops[..n], code);
      var i: nat, fp :| HostedSince(ops[..n], i, code, fp);
      HostMoves(s, op, s', code);
      HostedStill(ops, i, code, fp, s, s');
    } else {
      RoomIsBorn(s, op, s', code);
      HostedFromNow(ops, code, op.creator);
    }
  }

  /** The operation reports for client id, or ends its connection. */
  predicate Settles(op: Operation, id: ClientId)
  {
    op == Remove(id) || (op.Report? && op.reporter == id)
  }

  /** Report i of client id, made while online, is its last, and it has not gone since. */
  ghost predicate ReportStands(ops: seq<Operation>, i: nat, id: ClientId)
  {
    && i < |ops| && ops[i].Report? && ops[i].reporter == id && id in At(ops, i).clients
    && forall j :: i < j < |ops| ==> !Settles(ops[j], id)
  }

  lemma OnlineStays(s: State, op: Operation, s': State, id: ClientId)
    requires Indexed(s') && Does(s, op, s') && id in s.clients && op != Remove(id)
    ensures id in s'.clients
  {
    hide Left, Indexed;
  }

  lemma EndpointMoves(s: State, op: Operation, s': State, id: ClientId)
    requires Indexed(s') && Does(s, op, s') && Possible(s, op) && id in s'.clients
    ensures s'.clients[id].endpoint ==
              if op.Report? && op.reporter == id then op.endpoint
              else if id in s.clients then s.clients[id].endpoint else Endpoint("", 0, "", [])
    ensures op.Report? && op.reporter == id ==> id in s.clients
    ensures op != Remove(id)
  {
    hide Left, Indexed;
  }

  lemma StandsInPrefix(ops: seq<Operation>, i: nat, id: ClientId)
    requires ops != [] && i < |ops| - 1
    ensures ReportStands(ops, i, id) <==>
              ReportStands(ops[..|ops| - 1], i, id) && !Settles(ops[|ops| - 1], id)
  {
    var n := |ops| - 1;
    hide At, Settles;
    AtPrefix(ops, n, i);
    forall j | i <= j < n ensures ops[..n][j] == ops[j] {}
  }

  lemma {:induction false} ReporterIsOnline(ops: seq<Operation>, i: nat, id: ClientId)
    requires IsRun(ops) && ReportStands(ops, i, id)
    ensures id in After(ops).clients
  {
    var n := |ops| - 1;
    hide At, Does, Valid, Indexed, Apply, Possible;
    AtEnd(ops);
    if i < n {
      StandsInPrefix(ops, i, id);
      ReporterIsOnline(ops[..n], i, id);
    }
    OnlineStays(After(ops[..n]), ops[n], After(ops), id);
  }

  /** The last operation is a report by id: no earlier one stands. */
  lemma LastReportStands(ops: seq<Operation>, id: ClientId)
    requires ops != [] && ops[|ops| - 1].Report? && ops[|ops| - 1].reporter == id && id in At(ops, |ops| - 1).clients
    ensures ReportStands(ops, |ops| - 1, id)
    ensures forall i: nat :: ReportStands(ops, i, id) ==> i == |ops| - 1
  {
    hide At;
    assert Settles(ops[|ops| - 1], id);
  }

  lemma OthersStand(ops: seq<Operation>, id: ClientId)
    requires ops != [] && !Settles(ops[|ops| - 1], id)
    ensures forall i: nat :: ReportStands(ops, i, id) <==> ReportStands(ops[..|ops| - 1], i, id)
    ensures forall i: nat :: ReportStands(ops, i, id) ==> i < |ops| - 1 && ops[..|ops| - 1][i] == ops[i]
  {
    var n := |ops| - 1;
    hide At;
    forall i: nat ensures ReportStands(ops, i, id) <==> ReportStands(ops[..n], i, id) {
      if i < n { hide Settles, ReportStands; StandsInPrefix(ops, i, id); }
    }
  }

  /** endpoint is the one of the report that stands, or none if none does. */
  ghost predicate AsReported(ops: seq<Operation>, id: ClientId, endpoint: Endpoint)
  {
    && (forall i: nat :: ReportStands(ops, i, id) ==> endpoint == ops[i].endpoint)
    && ((forall i: nat :: !ReportStands(ops, i, id)) ==> endpoint == Endpoint("", 0, "", []))
  }

  lemma StillAsReported(ops: seq<Operation>, id: ClientId, endpoint: Endpoint)
    requires ops != [] && !Settles(ops[|ops| - 1], id) && AsReported(ops[..|ops| - 1], id, endpoint)
    ensures AsReported(ops, id, endpoint)
  {
    var init := ops[..|ops| - 1];
    OthersStand(ops, id);
    hide ReportStands, Settles;
    if forall i: nat :: !ReportStands(ops, i, id) {
      forall i: nat ensures !ReportStands(init, i, id) { assert !ReportStands(ops, i, id); }
    }
  }

  lemma NothingReported(ops: seq<Operation>, id: ClientId)
    requires IsRun(ops) && id !in After(ops).clients
    ensures AsReported(ops, id, Endpoint("", 0, "", []))
  {
    hide ReportStands;
    forall i: nat ensures !ReportStands(ops, i, id) {
      if ReportStands(ops, i, id) { ReporterIsOnline(ops, i, id); }
    }
  }

  lemma JustReported(ops: seq<Operation>, id: ClientId)
    requires ops != [] && ops[|ops| - 1].Report? && ops[|ops| - 1].reporter == id && id in At(ops, |ops| - 1).clients
    ensures AsReported(ops, id, ops[|ops| - 1].endpoint)
  {
    LastReportStands(ops, id);
    hide ReportStands;
  }

  /**
   In every run, the endpoint kept for an online client is the one it reported last, or none if it has not
   reported.
   */
  lemma {:induction false} EndpointIsLastReport(ops: seq<Operation>, id: ClientId)
    requires IsRun(ops) && id in After(ops).clients
    ensures AsReported(ops, id, After(ops).clients[id].endpoint)
  {
    hide At, Does, Valid, Indexed, Apply, Possible, AsReported;
    var n := |ops| - 1;
    AtEnd(ops);
    var s, s', op := After(ops[..n]), After(ops), ops[n];
    EndpointMoves(s, op, s', id);
    if op.Report? && op.reporter == id {
      JustReported(ops, id);
    } else {
      if id in s.clients {
        EndpointIsLastReport(ops[..n], id);
      } else {
        NothingReported(ops[..n], id);
      }
      StillAsReported(ops, id, s'.clients[id].endpoint);
    }
  }

  const COME_AND_GO: seq<Operation> := [Add("a", "Ann", "K"), Remove("a")]

  /** After one client came and left, the next is given 10.0.0.3 although 10.0.0.2 is free. */
  lemma LowestFreeIsPassedOver()
    ensures IsRun(COME_AND_GO)
    ensures var s := After(COME_AND_GO);
            && !IpTaken(s.clients, 2)
            && AddStep(s, "b", "Bob", "L").1.Ok? && AddStep(s, "b", "Bob", "L").1.value.virtualIp == 3
  {
    assert IsRun([]) && After([]) == EMPTY;
    RunAppends([], COME_AND_GO[0]);
    RunAppends([COME_AND_GO[0]], COME_AND_GO[1]);
    assert [] + [COME_AND_GO[0]] == [COME_AND_GO[0]] && [COME_AND_GO[0]] + [COME_AND_GO[1]] == COME_AND_GO;
    var s1, s := After([COME_AND_GO[0]]), After(COME_AND_GO);
    assert AllocFrom(EMPTY.clients, 2, ADDRESSES) == (Some(2), 3);
    assert s1 == AddStep(EMPTY, "a", "Ann", "K").0 && s == RemoveStep(s1, "a");
    LeaveFrame(Unindexed(s1, "K"), "K");
    assert s.clients == map[] && s.nextIp == 3;
    assert AllocFrom(s.clients, 3, ADDRESSES) == (Some(3), 4);
  }

  // ---- the object ----

  class Registry {
    const normal: Code -> Code      // trims and upper-cases a typed room code; any function will do
    var clients: map<ClientId, Client>
    var byFP: map<Fingerprint, ClientId>
    var nextIp: Octet
    var serial: nat
    var rooms: map<Code, Room>
    var inRoom: map<Fingerprint, Code>

    constructor (normal: Code -> Code)
      ensures View() == EMPTY && this.normal == normal
    {
      this.normal := normal;
      clients, byFP, nextIp, serial, rooms, inRoom := map[], map[], FIRST_CLIENT_IP, 0, map[], map[];
    }

    function View(): State
      reads this
    {
      State(clients, byFP, nextIp, serial, rooms, inRoom)
    }

    method IsTaken(ip: Octet) returns (taken: bool)
      ensures taken == IpTaken(clients, ip)
    {
      var todo := clients.Keys;
      while todo != {}
        invariant todo <= clients.Keys
        invariant forall id :: id in clients && id !in todo ==> clients[id].virtualIp != ip
        decreases todo
      {
        var id :| id in todo;
        if clients[id].virtualIp == ip {
          return true;
        }
        todo := todo - {id};
      }
      return false;
    }

    method AllocVirtualIP() returns (ip: Option<Octet>)
      modifies this`nextIp
      ensures (ip, nextIp) == AllocFrom(clients, old(nextIp), ADDRESSES)
    {
      for i := 0 to ADDRESSES
        invariant AllocFrom(clients, nextIp, ADDRESSES - i) == AllocFrom(clients, old(nextIp), ADDRESSES)
      {
        var addr := nextIp;
        nextIp := nextIp + 1;
        if nextIp > LAST_CLIENT_IP {
          nextIp := FIRST_CLIENT_IP;
        }
        var taken := IsTaken(addr);
        if !taken {
          return Some(addr);
        }
      }
      return None;
    }

    /** id is the random id drawn for the connection. */
    method Add(id: ClientId, name: string, fp: Fingerprint) returns (r: Result<Client, RegistryError>)
      modifies this
      ensures (View(), r) == AddStep(old(View()), id, name, fp)
      ensures old(Valid(View()) && id !in clients) ==>
                Indexed(View()) && Does(old(View()), Operation.Add(id, name, fp), View())
    {
      if Valid(View()) && id !in clients { AddDoes(View(), id, name, fp); }
      hide Does, Valid, Indexed;
      var ip := AllocVirtualIP();
      if ip.None? {
        return Err(NetworkFull);
      }
      serial := serial + 1;
      var c := Client(id, name, fp, ip.value, serial, NO_ENDPOINT);
      clients := clients[id := c];
      if fp != "" {
        byFP := byFP[fp := id];
      }
      return Ok(c);
    }

    /** Walks the members in any order, keeping the earliest registered so far. */
    method OldestMember(members: set<Fingerprint>) returns (oldest: Fingerprint)
      requires Indexed(View()) && Numbered(View())
      ensures oldest == Oldest(View(), members)
    {
      oldest := "";
      var oldestSerial := 0;
      var todo := members;
      while todo != {}
        invariant todo <= members
        invariant oldest == "" ==> forall q :: q in members && q !in todo ==> q !in byFP
        invariant oldest != "" ==>
                    IsOldest(View(), members - todo, oldest) && oldestSerial == clients[byFP[oldest]].serial
        decreases todo
      {
        var fp :| fp in todo;
        todo := todo - {fp};
        if fp !in byFP {
          continue;
        }
        var c := clients[byFP[fp]];
        if oldest == "" || c.serial < oldestSerial {
          oldest := fp;
          oldestSerial := c.serial;
        }
      }
      assert members - todo == members;
      if oldest != "" {
        OldestIsUnique(View(), members, oldest, Oldest(View(), members));
      }
    }

    /** Returns the code of the affected room. */
    method RemoveFromRoom(fp: Fingerprint) returns (code: Code)
      requires Valid(View())
      modifies this
      ensures View() == LeaveStep(old(View()), fp) && code == CodeOf(old(View()), fp)
      ensures Indexed(View()) && Does(old(View()), Leave(fp), View())
    {
      LeaveDoes(View(), fp);
      hide Does;
      code := CodeOf(View(), fp);
      if code == "" {
        return;
      }
      var room := rooms[code];
      room := room.(members := room.members - {fp});
      inRoom := inRoom - {fp};
      if room.members == {} {
        rooms := rooms - {code};
        return;
      }
      if room.host == fp {
        var host := OldestMember(room.members);
        OldestFrame(old(View()), View(), room.members);
        room := room.(host := host);
      }
      rooms := rooms[code := room];
    }

    method Remove(id: ClientId)
      requires Valid(View())
      modifies this
      ensures View() == RemoveStep(old(View()), id)
      ensures Indexed(View()) && Does(old(View()), Operation.Remove(id), View())
    {
      RemoveDoes(View(), id);
      hide Does;
      if id in clients {
        var fp := clients[id].keyFP;
        if fp != "" {
          byFP := byFP - {fp};
          assert View() == Unindexed(old(View()), fp);
          var _ := RemoveFromRoom(fp);
        }
      }
      clients := clients - {id};
      assert old(View()).clients - {id} == if id in old(clients) then old(clients) - {id} else old(clients);
    }

    method UpdateEndpoint(id: ClientId, endpoint: Endpoint)
      modifies this
      ensures View() == EndpointStep(old(View()), id, endpoint)
      ensures Indexed(View()) ==> Does(old(View()), Report(id, endpoint), View())
    {
      if Indexed(EndpointStep(View(), id, endpoint)) { ReportDoes(View(), id, endpoint); }
      hide Does, Indexed;
      if id in clients {
        clients := clients[id := clients[id].(endpoint := endpoint)];
      }
    }

    method ListVisiblePeers(exclude: ClientId, fp: Fingerprint) returns (peers: set<Peer>)
      ensures peers == VisiblePeers(View(), exclude, fp)
    {
      var code := CodeOf(View(), fp);
      peers := {};
      if code == "" {
        return;
      }
      var todo := clients.Keys;
      while todo != {}
        invariant todo <= clients.Keys
        invariant peers == set id | id in clients && id !in todo && clients[id].id != exclude
                                   && CodeOf(View(), clients[id].keyFP) == code :: PeerOf(clients[id])
        decreases todo
      {
        var id :| id in todo;
        todo := todo - {id};
        if clients[id].id != exclude && CodeOf(View(), clients[id].keyFP) == code {
          peers := peers + {PeerOf(clients[id])};
        }
      }
    }

    /** `code` is the first drawn room code that is not in use. */
    method CreateRoom(fp: Fingerprint, code: Code) returns (r: Result<(), RegistryError>)
      modifies this
      ensures match CreateRoomStep(old(View()), fp, code)
              case Ok(s) => r == Ok(()) && View() == s
              case Err(e) => r == Err(e) && View() == old(View())
      ensures old(Linked(View()) && Indexed(View())) ==> Indexed(View()) && Does(old(View()), Create(fp, code), View())
    {
      if Linked(View()) && Indexed(View()) { CreateDoes(View(), fp, code); }
      hide Does, Linked, Indexed;
      if CodeOf(View(), fp) != "" {
        return Err(AlreadyInRoom);
      }
      rooms := rooms[code := Room(code, fp, {fp})];
      inRoom := inRoom[fp := code];
      return Ok(());
    }

    /** The members that resolve to an online client, each once, by name. */
    method ListMembers(room: Room) returns (list: seq<RoomMember>)
      requires Indexed(View())
      ensures Elems(list) == MemberList(View(), room) && |list| == |MemberList(View(), room)| && SortedByName(list)
    {
      hide NameLess, SortedByName;
      var out := [];
      var todo := room.members;
      assert room.(members := room.members - {}) == room && room.members - todo == {};
      while todo != {}
        invariant todo <= room.members
        invariant Elems(out) == MemberList(View(), room.(members := room.members - todo)) && |out| == |Elems(out)|
        decreases todo
      {
        hide MemberList, Elems;
        var fp :| fp in todo;
        ListedOneMore(View(), room, room.members - todo, fp);
        assert room.members - (todo - {fp}) == room.members - todo + {fp};
        todo := todo - {fp};
        if fp !in byFP {
          continue;
        }
        var c := clients[byFP[fp]];
        ElemsAppend(out, MemberOf(View(), room, fp));
        out := out + [RoomMember(c.name, c.keyFP, c.virtualIp, fp == room.host)];
      }
      hide MemberList, Elems;
      assert room.members - todo == room.members;
      list := SortByName(out);
      SameElems(list, out);
    }

    /** `typed` is the code as the client sent it. */
    method JoinRoom(fp: Fingerprint, typed: Code) returns (r: Result<seq<RoomMember>, RegistryError>)
      requires Valid(View())
      modifies this
      ensures match JoinRoomStep(old(View()), fp, normal(typed))
              case Ok(s) =>
                && View() == s && Indexed(s) && normal(typed) in s.rooms
                && r.Ok? && Elems(r.value) == MemberList(s, s.rooms[normal(typed)]) && SortedByName(r.value)
              case Err(e) => r == Err(e) && View() == old(View())
      ensures Indexed(View()) && Does(old(View()), Join(fp, normal(typed)), View())
      ensures r == Err(AlreadyInRoom) <==> fp in old(inRoom)
      ensures r == Err(NoSuchRoom) <==> fp !in old(inRoom) && normal(typed) !in old(rooms)
    {
      JoinDoes(View(), fp, normal(typed));
      CodeOfIsPlace(View(), fp);
      hide Does;
      if CodeOf(View(), fp) != "" {
        return Err(AlreadyInRoom);
      }
      var code := normal(typed);
      if code !in rooms {
        return Err(NoSuchRoom);
      }
      var room := rooms[code];
      rooms := rooms[code := room.(members := room.members + {fp})];
      inRoom := inRoom[fp := room.code];
      var members := ListMembers(rooms[code]);
      return Ok(members);
    }
  }
}
