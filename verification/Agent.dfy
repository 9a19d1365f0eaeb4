/**
 The client's reaction to the server's messages: its room, the allowlist it gives the tunnel, and
 the virtual-address routes.
 */
module Agents {
  import opened Wrappers
  import opened Bytes
  import opened Registries
  import opened Servers

  datatype RoomState = RoomState(code: Code, members: set<RoomMember>)

  /** Parses a fingerprint to a public key; any function will do. */
  type Parser = Fingerprint -> Option<bytes>

  datatype AgentState = AgentState(
    self: Fingerprint,
    room: Option<RoomState>,
    friends: set<bytes>,                 // keys of the other members
    allowed: Option<set<bytes>>,         // the tunnel's allowlist, once there is a tunnel
    routes: map<Octet, ClientId>)

  function NewAgent(self: Fingerprint): AgentState
  {
    AgentState(self, None, {}, None, map[])
  }

  // ---- the allowlist ----

  /** The keys of every member but oneself, as far as they parse. */
  function FriendsAmong(parse: Parser, self: Fingerprint, members: set<RoomMember>): set<bytes>
  {
    set m | m in members && m.keyFP != self && parse(m.keyFP).Some? :: parse(m.keyFP).value
  }

  /** What SetFriends keeps of a key list. */
  function AllowKeys(friends: set<bytes>): set<bytes>
  {
    set k | k in friends && |k| == 32
  }

  function SyncStep(a: AgentState, friends: set<bytes>): AgentState
  {
    a.(friends := friends, allowed := if a.allowed.Some? then Some(AllowKeys(friends)) else None)
  }

  // ---- routes ----

  /** The table a peer list asks for; a later peer with the same address wins. */
  function Want(peers: seq<Peer>): map<Octet, ClientId>
  {
    if peers == [] then map[]
    else
      var p := peers[|peers| - 1];
      var m := Want(peers[..|peers| - 1]);
      if p.virtualIp != 0 then m[p.virtualIp := p.id] else m
  }

  ghost predicate DistinctPeerAddresses(peers: set<Peer>)
  {
    forall p, q :: p in peers && q in peers && p.virtualIp == q.virtualIp ==> p == q
  }

  function Addresses(peers: set<Peer>): set<Octet>
  {
    set p | p in peers && p.virtualIp != 0 :: p.virtualIp
  }

  ghost function PeerAt(peers: set<Peer>, ip: Octet): Peer
    requires ip in Addresses(peers)
  {
    var p :| p in peers && p.virtualIp == ip;
    p
  }

  /** Virtual address to client id, for a set of peers. */
  ghost function RoutesTo(peers: set<Peer>): map<Octet, ClientId>
  {
    map ip | ip in Addresses(peers) :: PeerAt(peers, ip).id
  }

  lemma {:induction false} WantAddresses(peers: seq<Peer>)
    ensures Want(peers).Keys == Addresses(Elems(peers))
    ensures forall ip :: ip in Want(peers) ==> exists p :: p in peers && p.virtualIp == ip && p.id == Want(peers)[ip]
  {
    if peers == [] {
    } else {
      var init, p := peers[..|peers| - 1], peers[|peers| - 1];
      WantAddresses(init);
      assert peers == init + [p];
      assert Elems(peers) == Elems(init) + {p};
      assert Addresses(Elems(peers)) == Addresses(Elems(init)) + if p.virtualIp != 0 then {p.virtualIp} else {};
    }
  }

  /** When no two peers share an address, the order of the list does not matter. */
  lemma WantForgetsOrder(peers: seq<Peer>)
    requires DistinctPeerAddresses(Elems(peers))
    ensures Want(peers) == RoutesTo(Elems(peers))
  {
  }

  // ---- messages ----

  ghost function AgentStep(parse: Parser, a: AgentState, m: Message): AgentState
  {
    match m
    case Registered(_, _, peers, _) => a.(allowed := Some(AllowKeys(a.friends)), routes := RoutesTo(peers))
    case PeersList(peers) => a.(routes := RoutesTo(peers))
    case RoomJoined(code, members) =>
      SyncStep(a.(room := Some(RoomState(code, members))), FriendsAmong(parse, a.self, members))
    case RoomUpdate(members) =>
      if a.room.None? then a
      else SyncStep(a.(room := Some(a.room.value.(members := members))), FriendsAmong(parse, a.self, members))
    case RoomLeft(_) => SyncStep(a.(room := None, routes := map[]), {})
    case ConnectCandidates(_, _, _) => a
    case RoomCreated(_) => a
    case Error(_) => a
  }

  /** The state after the whole queue has been read, oldest message first. */
  ghost function Replay(parse: Parser, a: AgentState, queue: seq<Message>): AgentState
  {
    if queue == [] then a
    else AgentStep(parse, Replay(parse, a, queue[..|queue| - 1]), queue[|queue| - 1])
  }

  lemma {:induction false} ReplayAppend(parse: Parser, a: AgentState, queue: seq<Message>, more: seq<Message>)
    ensures Replay(parse, a, queue + more) == Replay(parse, Replay(parse, a, queue), more)
  {
    if more == [] {
      assert queue + more == queue;
    } else {
      var n := |more| - 1;
      assert (queue + more)[..|queue| + n] == queue + more[..n];
      ReplayAppend(parse, a, queue, more[..n]);
    }
  }

  /** Reading the oldest message early changes nothing about where the queue leads. */
  lemma ReplayFirst(parse: Parser, a: AgentState, queue: seq<Message>)
    requires queue != []
    ensures Replay(parse, AgentStep(parse, a, queue[0]), queue[1..]) == Replay(parse, a, queue)
  {
    ReplayAppend(parse, a, [queue[0]], queue[1..]);
    assert queue == [queue[0]] + queue[1..];
    assert Replay(parse, a, [queue[0]]) == AgentStep(parse, a, queue[0]) by {
      assert [queue[0]][..0] == [];
    }
  }

  // ---- host routes ----

  datatype RouteCommand = AddRoute(ip: Octet) | DeleteRoute(gone: Octet)

  /** The host routes in place after a sequence of commands. */
  function Installed(commands: seq<RouteCommand>): set<Octet>
  {
    if commands == [] then {}
    else
      match commands[|commands| - 1]
      case AddRoute(ip) => Installed(commands[..|commands| - 1]) + {ip}
      case DeleteRoute(ip) => Installed(commands[..|commands| - 1]) - {ip}
  }

  function AddCommands(ips: seq<Octet>): seq<RouteCommand>
  {
    seq(|ips|, i requires 0 <= i < |ips| => AddRoute(ips[i]))
  }

  function DeleteCommands(ips: seq<Octet>): seq<RouteCommand>
  {
    seq(|ips|, i requires 0 <= i < |ips| => DeleteRoute(ips[i]))
  }

  lemma {:induction false} InstalledAfterAdds(commands: seq<RouteCommand>, ips: seq<Octet>)
    ensures Installed(commands + AddCommands(ips)) == Installed(commands) + Elems(ips)
  {
    if ips == [] {
      assert commands + AddCommands(ips) == commands;
    } else {
      var init := ips[..|ips| - 1];
      InstalledAfterAdds(commands, init);
      assert commands + AddCommands(ips) == (commands + AddCommands(init)) + [AddRoute(ips[|ips| - 1])];
      assert ips == init + [ips[|ips| - 1]];
    }
  }

  lemma {:induction false} InstalledAfterDeletes(commands: seq<RouteCommand>, ips: seq<Octet>)
    ensures Installed(commands + DeleteCommands(ips)) == Installed(commands) - Elems(ips)
  {
    if ips == [] {
      assert commands + DeleteCommands(ips) == commands;
    } else {
      var init := ips[..|ips| - 1];
      InstalledAfterDeletes(commands, init);
      assert commands + DeleteCommands(ips) == (commands + DeleteCommands(init)) + [DeleteRoute(ips[|ips| - 1])];
      assert ips == init + [ips[|ips| - 1]];
    }
  }

  lemma AddedOne(before: map<Octet, ClientId>, want: map<Octet, ClientId>, todo: set<Octet>, ip: Octet)
    requires ip in want && ip in todo
    ensures before + (want - (todo - {ip})) == (before + (want - todo))[ip := want[ip]]
  {
  }

  /** The peers of a list that will be asked for a connection: punchable and never asked before. */
  function FreshIds(peers: seq<Peer>, attempted: set<ClientId>): seq<ClientId>
  {
    if peers == [] then []
    else
      var p := peers[0];
      if p.publicIp != "" && p.id !in attempted then [p.id] + FreshIds(peers[1..], attempted + {p.id})
      else FreshIds(peers[1..], attempted)
  }

  lemma FreshIdsStep(peers: seq<Peer>, i: nat, attempted: set<ClientId>)
    requires i < |peers|
    ensures FreshIds(peers[i..], attempted) ==
              if peers[i].publicIp != "" && peers[i].id !in attempted
              then [peers[i].id] + FreshIds(peers[i + 1..], attempted + {peers[i].id})
              else FreshIds(peers[i + 1..], attempted)
  {
    assert peers[i..][1..] == peers[i + 1..];
  }

  function Punchable(peers: seq<Peer>): set<ClientId>
  {
    set p | p in peers && p.publicIp != "" :: p.id
  }

  ghost predicate NoRepeats<T>(s: seq<T>)
  {
    forall i, j :: 0 <= i < j < |s| ==> s[i] != s[j]
  }

  lemma AppendsOnce<T>(s: seq<T>, x: T)
    requires NoRepeats(s) && x !in s
    ensures NoRepeats(s + [x]) && forall y :: y in s + [x] <==> y in s || y == x
  {
  }

  /** Each fresh id occurs once, is new, and together with the old ones they cover every punchable peer. */
  lemma {:induction false} FreshIdsOnce(peers: seq<Peer>, attempted: set<ClientId>)
    ensures var f := FreshIds(peers, attempted);
            NoRepeats(f) && Elems(f) !! attempted && Elems(f) + attempted == Punchable(peers) + attempted
  {
    if peers == [] {
    } else {
      var p, rest := peers[0], peers[1..];
      assert peers == [p] + rest;
      assert Punchable(peers) == Punchable(rest) + if p.publicIp != "" then {p.id} else {};
      if p.publicIp != "" && p.id !in attempted {
        var f := FreshIds(rest, attempted + {p.id});
        FreshIdsOnce(rest, attempted + {p.id});
        assert Elems([p.id] + f) == {p.id} + Elems(f);
        assert forall i :: 0 <= i < |f| ==> f[i] in Elems(f);
      } else {
        FreshIdsOnce(rest, attempted);
      }
    }
  }

  // ---- the object ----

  lemma AppendNoRepeats<T>(s: seq<T>, t: seq<T>)
    requires NoRepeats(s) && NoRepeats(t) && Elems(s) !! Elems(t)
    ensures NoRepeats(s + t) && Elems(s + t) == Elems(s) + Elems(t)
  {
    assert forall i :: 0 <= i < |s| ==> s[i] in Elems(s);
    assert forall i :: 0 <= i < |t| ==> t[i] in Elems(t);
    forall i, j | 0 <= i < j < |s + t| ensures (s + t)[i] != (s + t)[j] {
      if i < |s| <= j { assert t[j - |s|] in Elems(t) && s[i] in Elems(s); }
    }
    assert forall x :: x in s + t <==> x in s || x in t;
  }

  class Agent {
    const parse: Parser
    const self: Fingerprint
    var room: Option<RoomState>
    var roomFP: seq<bytes>
    var friends: seq<bytes>
    var tunnel: Option<set<bytes>>      // the tunnel's allowlist
    var routes: map<Octet, ClientId>
    var commands: seq<RouteCommand>     // route commands run so far
    var attempted: set<ClientId>
    var requests: seq<ClientId>         // connect requests sent so far

    constructor (parse: Parser, self: Fingerprint)
      ensures View() == NewAgent(self) && this.parse == parse && Consistent()
    {
      this.parse, this.self := parse, self;
      room, roomFP, friends, tunnel, routes := None, [], [], None, map[];
      commands, attempted, requests := [], {}, [];
    }

    function View(): AgentState
      reads this
    {
      AgentState(self, room, Elems(friends), tunnel, routes)
    }

    /** The host routes are those of the table, the allowlist has no duplicates, and no peer was asked twice. */
    ghost predicate Consistent()
      reads this
    {
      && Installed(commands) == routes.Keys
      && NoRepeats(friends) && NoRepeats(requests) && Elems(requests) == attempted
    }

    method MemberFPs(members: seq<RoomMember>) returns (out: seq<bytes>)
      ensures Elems(out) == FriendsAmong(parse, self, Elems(members))
    {
      out := [];
      for i := 0 to |members|
        invariant Elems(out) == FriendsAmong(parse, self, Elems(members[..i]))
      {
        var m := members[i];
        assert members[..i + 1] == members[..i] + [m];
        assert Elems(members[..i + 1]) == Elems(members[..i]) + {m};
        if m.keyFP == self {
          continue;
        }
        var raw := parse(m.keyFP);
        if raw.Some? {
          ghost var shorter := out;
          out := out + [raw.value];
          assert Elems(out) == Elems(shorter) + {raw.value};
        }
      }
      assert members[..|members|] == members;
    }

    method DedupFP(list: seq<bytes>) returns (out: seq<bytes>)
      ensures Elems(out) == Elems(list) && NoRepeats(out)
    {
      out := [];
      var seen: set<bytes> := {};
      for i := 0 to |list|
        invariant Elems(out) == Elems(list[..i]) == seen && NoRepeats(out)
      {
        assert list[..i + 1] == list[..i] + [list[i]];
        assert Elems(list[..i + 1]) == Elems(list[..i]) + {list[i]};
        if list[i] in seen {
          continue;
        }
        seen := seen + {list[i]};
        assert forall k :: 0 <= k < |out| ==> out[k] in Elems(out);
        ghost var shorter := out;
        out := out + [list[i]];
        assert Elems(out) == Elems(shorter) + {list[i]};
      }
      assert list[..|list|] == list;
    }

    method SyncWhitelist()
      modifies this`friends, this`tunnel
      ensures View() == SyncStep(old(View()), Elems(roomFP)) && NoRepeats(friends)
    {
      friends := DedupFP(roomFP);
      if tunnel.Some? {
        tunnel := Some(AllowKeys(Elems(friends)));
      }
    }

    method SetRoom(code: Code, members: seq<RoomMember>)
      requires Consistent()
      modifies this
      ensures View() == AgentStep(parse, old(View()), RoomJoined(code, Elems(members))) && Consistent()
    {
      room := Some(RoomState(code, Elems(members)));
      roomFP := MemberFPs(members);
      SyncWhitelist();
    }

    method UpdateRoomMembers(members: seq<RoomMember>)
      requires Consistent()
      modifies this
      ensures View() == AgentStep(parse, old(View()), RoomUpdate(Elems(members))) && Consistent()
    {
      if room.None? {
        return;
      }
      room := Some(room.value.(members := Elems(members)));
      roomFP := MemberFPs(members);
      SyncWhitelist();
    }

    /** The keys of a map, each once, in whatever order it is walked. */
    method KeyList(keys: set<Octet>) returns (list: seq<Octet>)
      ensures Elems(list) == keys && NoRepeats(list)
    {
      list := [];
      var todo := keys;
      while todo != {}
        invariant todo <= keys && Elems(list) == keys - todo && NoRepeats(list)
        decreases todo
      {
        var ip :| ip in todo;
        todo := todo - {ip};
        assert forall k :: 0 <= k < |list| ==> list[k] in Elems(list);
        ghost var shorter := list;
        list := list + [ip];
        assert Elems(list) == Elems(shorter) + {ip};
      }
    }

    method ClearRoom(code: Code)
      requires Consistent()
      modifies this
      ensures View() == AgentStep(parse, old(View()), RoomLeft(code)) && Consistent()
      ensures Installed(commands) == {}
    {
      room := None;
      roomFP := [];
      var del := KeyList(routes.Keys);
      routes := map[];
      assert Elems(roomFP) == {};
      SyncWhitelist();
      InstalledAfterDeletes(commands, del);
      commands := commands + DeleteCommands(del);
    }

    /** The table wanted by a peer list. */
    method WantedRoutes(peers: seq<Peer>) returns (want: map<Octet, ClientId>)
      ensures want == Want(peers)
    {
      want := map[];
      for i := 0 to |peers|
        invariant want == Want(peers[..i])
      {
        assert peers[..i + 1] == peers[..i] + [peers[i]];
        if peers[i].virtualIp != 0 {
          want := want[peers[i].virtualIp := peers[i].id];
        }
      }
      assert peers[..|peers|] == peers;
    }

    /** Adds the routes that are missing or lead elsewhere. */
    method AddRoutes(want: map<Octet, ClientId>) returns (added: seq<Octet>)
      modifies this`routes
      ensures routes == old(routes) + want
      ensures NoRepeats(added)
      ensures forall ip :: ip in added <==> ip in want && !(ip in old(routes) && old(routes)[ip] == want[ip])
    {
      added := [];
      var todo := want.Keys;
      assert NoRepeats(added);
      hide NoRepeats;
      while todo != {}
        invariant todo <= want.Keys && NoRepeats(added)
        invariant routes == old(routes) + (want - todo)
        invariant forall ip :: ip in added <==>
                    ip in want && ip !in todo && !(ip in old(routes) && old(routes)[ip] == want[ip])
        decreases todo
      {
        var ip :| ip in todo;
        ghost var before, todo0 := routes, todo;
        todo := todo - {ip};
        assert ip in routes <==> ip in old(routes);
        if !(ip in routes && routes[ip] == want[ip]) {
          AppendsOnce(added, ip);
          routes := routes[ip := want[ip]];
          added := added + [ip];
        }
        assert routes == before[ip := want[ip]];
        AddedOne(old(routes), want, todo0, ip);
      }
      assert want - {} == want;
    }

    /** Drops the routes the list no longer asks for. */
    method DropRoutes(want: map<Octet, ClientId>) returns (dropped: seq<Octet>)
      modifies this`routes
      ensures forall ip :: ip in routes <==> ip in old(routes) && ip in want && want[ip] == old(routes)[ip]
      ensures forall ip :: ip in routes ==> routes[ip] == old(routes)[ip]
      ensures NoRepeats(dropped)
      ensures forall ip :: ip in dropped <==> ip in old(routes) && !(ip in want && want[ip] == old(routes)[ip])
    {
      dropped := [];
      var todo := routes.Keys;
      assert NoRepeats(dropped);
      hide NoRepeats;
      while todo != {}
        invariant todo <= old(routes).Keys && NoRepeats(dropped)
        invariant forall ip :: ip in routes <==>
                    ip in old(routes) && (ip in todo || (ip in want && want[ip] == old(routes)[ip]))
        invariant forall ip :: ip in routes ==> routes[ip] == old(routes)[ip]
        invariant forall ip :: ip in dropped <==>
                    ip in old(routes) && ip !in todo && !(ip in want && want[ip] == old(routes)[ip])
        decreases todo
      {
        var ip :| ip in todo;
        todo := todo - {ip};
        if !(ip in want && want[ip] == routes[ip]) {
          AppendsOnce(dropped, ip);
          routes := routes - {ip};
          dropped := dropped + [ip];
        }
      }
    }

    method RequestFresh(peers: seq<Peer>) returns (sent: seq<ClientId>)
      modifies this`attempted
      ensures sent == FreshIds(peers, old(attempted)) && attempted == old(attempted) + Elems(sent)
    {
      sent := [];
      for i := 0 to |peers|
        invariant attempted == old(attempted) + Elems(sent)
        invariant FreshIds(peers, old(attempted)) == sent + FreshIds(peers[i..], attempted)
      {
        hide FreshIds;
        var p := peers[i];
        FreshIdsStep(peers, i, attempted);
        if p.publicIp != "" && p.id !in attempted {
          attempted := attempted + {p.id};
          ghost var shorter := sent;
          sent := sent + [p.id];
          assert Elems(sent) == Elems(shorter) + {p.id};
          assert forall rest: seq<ClientId> :: shorter + ([p.id] + rest) == sent + rest;
        }
      }
    }

    /**
     Reconciles the route table with a peer list and asks for the connections not asked for yet.
     `added` and `dropped` are the host routes it installs and removes.
     */
    method AutoConnect(peers: seq<Peer>) returns (added: seq<Octet>, dropped: seq<Octet>)
      requires Consistent()
      modifies this`routes, this`commands, this`attempted, this`requests
      ensures View() == old(View()).(routes := Want(peers))
      ensures commands == old(commands) + AddCommands(added) + DeleteCommands(dropped)
      ensures Elems(added) !! Elems(dropped)
      ensures forall ip :: ip in added <==>
                ip in Want(peers) && !(ip in old(routes) && old(routes)[ip] == Want(peers)[ip])
      ensures forall ip :: ip in dropped <==> ip in old(routes) && ip !in Want(peers)
      ensures requests == old(requests) + FreshIds(peers, old(attempted))
      ensures attempted == old(attempted) + Punchable(peers)
      ensures Consistent()
    {
      var want := WantedRoutes(peers);
      added := AddRoutes(want);
      dropped := DropRoutes(want);
      assert routes == want;
      InstalledAfterAdds(commands, added);
      InstalledAfterDeletes(commands + AddCommands(added), dropped);
      commands := commands + AddCommands(added) + DeleteCommands(dropped);
      assert Elems(added) !! Elems(dropped);
      assert Installed(commands) == routes.Keys;
      var sent := RequestFresh(peers);
      FreshIdsOnce(peers, old(attempted));
      AppendNoRepeats(requests, sent);
      requests := requests + sent;
    }

    /** One message of the loop; its lists arrive in some order. */
    method OnMessage(m: Message, peers: seq<Peer>, members: seq<RoomMember>)
      requires Consistent()
      requires m.Registered? || m.PeersList? ==> Elems(peers) == m.peers && DistinctPeerAddresses(m.peers)
      requires m.RoomJoined? || m.RoomUpdate? ==> Elems(members) == m.members
      modifies this
      ensures View() == AgentStep(parse, old(View()), m) && Consistent()
    {
      match m
      case Registered(_, _, _, _) =>
        WantForgetsOrder(peers);
        tunnel := Some(AllowKeys(Elems(friends)));
        var _, _ := AutoConnect(peers);
      case PeersList(_) =>
        WantForgetsOrder(peers);
        var _, _ := AutoConnect(peers);
      case RoomJoined(code, _) => SetRoom(code, members);
      case RoomUpdate(_) => UpdateRoomMembers(members);
      case RoomLeft(code) => ClearRoom(code);
      case _ =>
    }
  }
}
