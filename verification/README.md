# Eliauk-Link, verified

Eliauk-Link joins the machines of a few players into one virtual LAN. A coordination server hands out
virtual addresses 10.0.0.x and keeps rooms; clients punch holes toward each other and exchange IP
packets in sealed UDP frames, directly or through a relay; Minecraft's LAN advertisements are carried
across; and the launcher's server list is edited in its own binary format. This project models that
logic in Dafny and proves what it keeps.

`dafny verify dfyconfig.toml` checks everything.

## What is modelled

- **Sessions, key exchange, frames** (`Session`, `KeyExchange`, `Frames`, over `Bytes`, `Words`,
  `Primitives`). X25519, SHA-256, HKDF and AES-GCM are an arbitrary record of functions of which only
  commutativity, lengths and "open undoes seal" are assumed (`Lawful`); `LawfulIsPossible` exhibits one.
  The age limit of the replay window is a parameter too, at most the program's 64.
  64-bit words are numbers below 2^64 with wrap-around and shifts written out.
- **The tunnel and the network** (`Tunnel`, `TunnelNetwork`, `Relay`). Each locked section of a tunnel
  is a function from state and frame to state, datagrams written and packets handed to the sink, and a
  method of the class `Tunnel` proved against it. The network theorems range over every finite run of
  any number of tunnels: any datagram written so far may be delivered at any time, to any node, from
  any source address, any number of times or never, and any written relay packet may be unwrapped.
- **Server and agents** (`Registry`, `Server`, `Agent`, `Coordination`). One handler run is one atomic
  step; what it sends goes to the end of each recipient's FIFO queue; clients act and read in any
  interleaving.
- **The server list** (`Nbt`, `ServerList`): reader, writer and merge over all 12 tag types.
- **LAN discovery** (`Lan`, `Discovery`): the packet helpers, the checksum, and any number of agents
  echoing each other's broadcasts.
- **STUN** (`Stun`): the request, and the walk over the attributes of the answer.

Where the source updates state step by step the model is a class or a method with loops, proved equal to
a specification function; the theorems are about those functions.

## Where the code differs from its comments

- The replay window accepts a counter exactly 64 behind the highest and does not record it
  (`internal/crypto/crypto.go:275`, `:287`): `ReplayOnlyAtEdge` says when a counter is taken twice,
  `EdgeReplays` shows it, and `TightWindowAcceptsOnce` proves the repaired test. Over the network,
  `RepeatedFrameArrivesIff` says when a packet reaches the sink again, and `TightWindowDeliversOnce` that
  with a smaller limit none is accepted twice.
- The virtual address is the next free one in cyclic order, not the lowest free one
  (`internal/server/registry.go:242`): `AllocIsNextFit`. `LowestFreeIsPassedOver` is a run that hands out
  3 while 2 is free, and `AllocIsLowestIff` says exactly when the lowest free address is handed out.
- Two online clients with one fingerprint share an index entry; when either goes, the other loses its
  room: `AddKeepsDistinctIff`, `RemovalEvictsTwin`. A client that comes back before its old connection is
  given up agrees with the server iff its fingerprint was in no room: `NewcomerAgreesIff`, with
  `ReconnectDisagrees` as an instance. The agreement theorem therefore lets a client register only under a
  fingerprint that is not online.
- An empty allowlist allows everyone: `HandshakeConnectsIff`. The agent hands its tunnel the keys of its
  roommates, so the tunnel admits exactly the roommates iff there are any, and everyone when the client is
  alone in its room or in none: `IdleClientAdmitsOnlyRoommatesIff`, `RoomlessAdmitsAnyone`, and
  `LoneClientAdmitsAnyone` for a run.
- Changing the allowlist revokes nothing: `SessionsWereAllowed`, `SetFriendsCutsNobodyOff`, and
  `SessionOffTheList` for a reachable session the list no longer permits.
- Both directions of a session use one key and both count from 0, so packet n of each is encrypted under the
  same nonce (`DirectionsShareNonces`), and a client's own packet, turned around, opens as its peer's
  (`ReflectedPacketArrivesIff`); the runs contain no such frame, because the network forges nothing.
- An empty list tag is rewritten with element type 0: `RewriteReproducesIffStrict`, with
  `EmptyListIsRetyped` as an instance.
- With IP options the discovery loop guard can fail for the first echo: `EchoDroppedIff`,
  `OptionsDefeatTheGuard`. `QuietIff` says exactly when nothing is sent around again, and
  `RelaysAreNotRelayed` holds regardless.
- The STUN loop never ends on an answer with a short IPv6 address: `HangsIff`, `AnswerThatHangs`. It does
  not skip padding: `PaddedAnswerReadIff` says exactly when a padded answer is read, `PaddingHidesAddress`
  is one that is not. (Behind a misread attribute other than the last, the walk can land anywhere, so no
  condition on lengths alone decides longer lists.)

## Model

| member | source | states |
|---|---|---|
| Sessions.ReceiveRefines | internal/crypto/crypto.go:261-294 | The bitmap window refines the set of accepted counters: a counter is accepted iff it is above the highest, or 0 to 63 behind and never accepted, or exactly 64 behind (with the wrap of the age test near 2^64), and afterwards the bitmap again tracks the set. |
| Sessions.RunTracks | internal/crypto/crypto.go:261-294 | After any run of counters, bit i of the bitmap is set iff the highest counter minus i was accepted, for every age limit up to 64. |
| Sessions.ReplayOnlyAtEdge | internal/crypto/crypto.go:271-291 | In any run a counter already accepted is accepted again iff it is exactly 64 behind the highest at that moment. |
| Sessions.TightWindowAcceptsOnce | internal/crypto/crypto.go:271-291 | With the age limit lowered by one or more, no counter is accepted twice in any run. |
| Sessions.EdgeReplays | internal/crypto/crypto.go:271-291 | The run 0, 64, 0, 0 is accepted throughout: counter 0 is delivered three times. |
| Sessions.OpenSealed | internal/crypto/crypto.go:244-294 | Opening a packet sealed under the same key returns its plaintext exactly when the window admits its counter, and otherwise changes nothing. |
| Sessions.SealedPacketSpellsCounter | internal/crypto/crypto.go:244-256 | A packet is the counter in eight bytes and the plaintext encrypted under four zero bytes and those eight, so that no two counters share a nonce. |
| Sessions.Session.Seal | internal/crypto/crypto.go:244-256 | The object's send counter advances modulo 2^64 and the packet is the one sealed under the old counter. |
| Sessions.Session.Open | internal/crypto/crypto.go:261-294 | The object's counters move only on packets that authenticate and are admitted; any error leaves them alone. |
| KeyExchange.CanonicalIffSameKeys | internal/crypto/crypto.go:185-238 | Two lists have the same sorted arrangement iff they are permutations of each other. |
| KeyExchange.TranscriptBindsKeys | internal/crypto/crypto.go:185-238 | The concatenated sorted transcript determines the multiset of 32-byte keys that went into it, and is determined by it. |
| KeyExchange.BothSidesDeriveSameKey | internal/crypto/crypto.go:185-238 | Two sides that hold each other's handshake derive the same key or refuse with the same error, whichever of them sent first. |
| KeyExchange.HandshakeRoundTrip | internal/crypto/crypto.go:136-152 | A handshake of two 32-byte keys survives Marshal and Unmarshal, and whatever Unmarshal takes is rebuilt byte for byte. |
| KeyExchange.SortSlices | internal/crypto/crypto.go:208-224 | The in-place sort turns an array of byte strings into its canonical arrangement. |
| KeyExchange.NewSession | internal/crypto/crypto.go:185-238 | The derivation with its slices and loops computes the specified key or error; a key is made of the three agreements and the four public keys written out. |
| KeyExchange.KeyIsMadeOfThreeSecrets | internal/crypto/crypto.go:185-238 | A key comes about iff both of the peer's keys have 32 bytes and none of static x ephemeral, ephemeral x static and ephemeral x ephemeral is zero; then it is the key derivation over an ascending arrangement of those three, salted with the hash of an ascending arrangement of the four public keys. |
| KeyExchange.EqualKeysMeanEqualParts | internal/crypto/crypto.go:185-238 | Over functions without collisions, two derivations with the same key agreed on the same three secrets and saw the same four public keys. |
| Bytes.LessIsLexicographic | internal/crypto/crypto.go:208-224 | The order they are sorted by is bytes.Compare: less at the first difference, or a proper beginning. |
| Frames.ParseBuiltFrame | internal/p2p/tunnel.go:620-650 | A built frame parses back to its parts and is never taken for a relay packet. |
| Frames.BuildParsedFrame | internal/p2p/tunnel.go:620-650 | A parsed frame, rebuilt, is the datagram it came from. |
| Frames.ParseBuiltRelay | internal/p2p/tunnel.go:652-667 | A relay packet unwraps to its ids and its payload, and is no frame. |
| Frames.FillFrame | internal/p2p/tunnel.go:620-636 | The buffer is filled with exactly the specified frame; ids of the wrong length are refused. |
| Frames.FillRelay | internal/p2p/tunnel.go:652-667 | The same for relay packets. |
| Frames.Layouts | internal/p2p/tunnel.go:620-667 | Frame and relay packet byte by byte: "ELK1", type, ids, payload; "ELKR", ids, frame. |
| Frames.PeerAadNamesThePair | internal/p2p/tunnel.go:524-529 | Equal associated data means the same unordered pair of clients. |
| Frames.PeerAadSymmetric | internal/p2p/tunnel.go:524-529 | Both ends of a pair use the same associated data. |
| Tunnels.Tunnel.SetFriends | internal/p2p/tunnel.go:140-150 | The allowlist becomes the 32-byte keys of the list; nothing else changes. |
| Tunnels.Tunnel.BeginConnect | internal/p2p/tunnel.go:155-184 | A new peer starts connecting with a fresh ephemeral key and its handshake; a known peer is left alone. |
| Tunnels.NewPeerPunches | internal/p2p/tunnel.go:155-184 | The first round for a new peer is a hello to each candidate, or one to the relay when that is forced, holding the public halves of the new ephemeral key and the identity. |
| Tunnels.Tunnel.SendLocked | internal/p2p/tunnel.go:539-574 | The object performs the send step: data frames of a peer with a session are sealed and counted, frames go where the path leads (next rows). |
| Tunnels.SendDataFollowsPath | internal/p2p/tunnel.go:219-231 | A packet for a connected peer is one data frame, in a relay packet to the relay if the peer is on it, otherwise bare to the address its last direct frame came from, and none without such a path; unknown and unconnected peers are refused. |
| Tunnels.AnswersGoBack | internal/p2p/tunnel.go:351-444 | Whatever a received frame is answered with (helloAck and ping, ping, pong) goes back to where it came from, wrapped if that is the relay, and the peer's path leads there afterwards; only a refused handshake goes unanswered. |
| Tunnels.DataGoesBack | internal/p2p/tunnel.go:351-574 | The packet sent right after a frame from a connected peer goes where that frame came from. |
| Tunnels.Tunnel.SendData | internal/p2p/tunnel.go:219-231 | Refuses unknown and unconnected peers without effect, and otherwise sends one data frame. |
| Tunnels.Tunnel.SendDataBroadcast | internal/p2p/tunnel.go:237-247 | In whatever order the map is walked, the effect is SendData to each peer once. |
| Tunnels.BroadcastReachesEach | internal/p2p/tunnel.go:237-247 | A broadcast writes to each connected peer what SendData alone would write to it, and nothing else. |
| Tunnels.Tunnel.Announce | internal/p2p/tunnel.go:258-272 | Writes one relay packet addressed to nobody, if there is a relay. |
| Tunnels.AnnounceTellsRelay | internal/p2p/tunnel.go:258-272 | It goes to the relay, names the client as sender and eight zero bytes as target, and is empty. |
| Tunnels.Tunnel.EstablishSession | internal/p2p/tunnel.go:456-500 | Responder and initiator derive and store the session, or leave the peer unchanged on each error. |
| Tunnels.Tunnel.OnHello | internal/p2p/tunnel.go:375-401 | The reaction to a hello: session once, connected, acknowledgement and ping. |
| Tunnels.Tunnel.OnHelloAck | internal/p2p/tunnel.go:402-416 | The reaction to a helloAck: session once, connected and a ping unless it was already. |
| Tunnels.Tunnel.OnData | internal/p2p/tunnel.go:422-443 | The sink gets what opened, or cleartext only in the legacy mode without identity or session. |
| Tunnels.ClearDataOnlyWithoutIdentity | internal/p2p/tunnel.go:422-443 | Without a session a data frame is taken as it is by a tunnel without identity and dropped by any other. |
| Tunnels.Tunnel.HandleFrame | internal/p2p/tunnel.go:351-444 | The whole dispatch, including the path noted from the source address. |
| Tunnels.Tunnel.OnDatagram | internal/p2p/tunnel.go:109-127 | Anything that is no frame or is meant for another connection has no effect. |
| Tunnels.Tunnel.PunchIteration | internal/p2p/tunnel.go:299-348 | One round: hello on the current path, the relay deadline set on its first round, and the switch to the relay or to failure once the second clock reading is past the deadline. |
| Tunnels.PunchReachesEach | internal/p2p/tunnel.go:311-332 | A direct round is one hello to each candidate in order, a round by the relay one hello to the relay. |
| Tunnels.Tunnel.PunchLoop | internal/p2p/tunnel.go:295-349 | With no frames received and any clock that does not run backwards and advances by the sleep between rounds, the loop ends in Failed after at most 62 rounds on each path: direct first unless the peer starts relayed, relay iff there is one, each path given up in the first round past its deadline, and exactly those hellos sent. |
| TunnelNetwork.StepKeeps | internal/p2p/tunnel.go:109-574 | The network invariant is kept by every step, and no step takes back a key, a connection or a log entry. |
| TunnelNetwork.SessionsAgree | internal/p2p/tunnel.go:375-500 | In every run, two tunnels that hold sessions for each other hold the same key, whichever of hello or helloAck created either. |
| TunnelNetwork.SessionKeysAreMadeOf | internal/p2p/tunnel.go:456-500 | In every run, a session's key is made of the three agreements between the static and ephemeral keys of its two ends and of their four public keys. |
| TunnelNetwork.ConnectionsLast | internal/p2p/tunnel.go:375-443 | In every run, Connected implies a session, is never left, and a session never changes its key. |
| TunnelNetwork.ConnectedPathLeadsBack | internal/p2p/tunnel.go:366-373 | In every run, a connected peer's path leads where the last frame from it came from. |
| TunnelNetwork.DataGoesToLastSource | internal/p2p/tunnel.go:219-574 | In every run, a packet for a connected peer is exactly one datagram: bare, to the source of the last frame from that peer, or in a relay packet to the relay if that was the relay. |
| TunnelNetwork.DataFramesAreSealed | internal/p2p/tunnel.go:539-574 | Every data frame ever written, bare or wrapped for the relay, is a packet passed to SendData sealed under the sender's session key and its own counter. |
| TunnelNetwork.SinkPacketsWereSent | internal/p2p/tunnel.go:422-443 | In every run, every packet a sink is handed was passed to SendData, for this client, by the client the frame names. |
| TunnelNetwork.DeliveriesAreGenuine | internal/p2p/tunnel.go:219-443 | Per direction, each accepted packet is packet n of those sent, under counter n modulo 2^64, and a counter occurs twice only when the age limit is 64 and it was exactly 64 behind the highest accepted. |
| TunnelNetwork.TightWindowDeliversOnce | internal/crypto/crypto.go:271-291 | With an age limit below 64, in every run no counter is accepted twice, and so no packet passed to SendData is. |
| TunnelNetwork.RepeatedFrameArrivesIff | internal/crypto/crypto.go:271-291 | In every run, a frame whose counter was accepted before reaches the sink again iff the age limit is 64 and it is exactly 64 behind the highest. |
| TunnelNetwork.DirectionsShareNonces | internal/crypto/crypto.go:226-256 | In every run, packet n from a to b and packet n from b to a are encrypted under the same key, nonce and associated data. |
| TunnelNetwork.ReflectedPacketArrivesIff | internal/p2p/tunnel.go:422-443 | In every run, a client given its own sealed packet in a frame with the ids swapped takes it for its peer's iff the counters accepted so far admit it; excluding forgery excludes such frames. |
| TunnelNetwork.AdmissiblePacketsArrive | internal/p2p/tunnel.go:422-443 | A sealed frame delivered between two ends with sessions reaches the sink iff the set of counters accepted so far admits it. |
| TunnelNetwork.HandshakeConnectsIff | internal/p2p/tunnel.go:375-518 | In every run, a delivered hello or helloAck leaves the peer connected with a session iff it had one, or both sides have keys, the allowlist permits the peer and no shared secret is weak. |
| TunnelNetwork.HelloExchangeConnects | internal/p2p/tunnel.go:375-416 | From every reachable state in which both ends accept each other, a hello and its answer leave both connected under one key: the answer is on the wire, wrapped if the hello came from the relay, and unwrapping and delivering it completes the connection. |
| TunnelNetwork.SessionsWereAllowed | internal/p2p/tunnel.go:456-518 | In every run, each session was created at a step where the allowlist was empty or held the peer's static key. |
| TunnelNetwork.SetFriendsCutsNobodyOff | internal/p2p/tunnel.go:140-150 | In every run in which two ends hold sessions and for every new key list, a frame sealed by the peer still reaches the sink after the change iff the counters accepted before it admit it. |
| TunnelNetwork.SessionOffTheList | internal/p2p/tunnel.go:140-150 | A run of two clients with different keys after which both hold sessions although one's list is not empty and lacks the other's key. |
| Relays.ForwardsWrappedFrame | internal/server/relay.go:71-91 | A wrapped frame comes out unchanged at the target's last address, and the sender's address is learned first. |
| Relays.LearnsLastAddress | internal/server/relay.go:71-91 | After any run a client's learned address is the source of the last relay packet naming it as sender, and it is unknown iff there was none. |
| Relays.RelayIsForward | internal/server/relay.go:71-91 | Whatever the relay writes is covered by the network's step that unwraps a written relay packet. |
| Relays.Relay.Handle | internal/server/relay.go:71-91 | The handler learns, drops, announces or forwards exactly as specified, with its errors. |
| Registries.AllocIsNextFit | internal/server/registry.go:243-264 | The search returns the first free address in cyclic order from nextIP, and nextIP stays in 2 to 254. |
| Registries.AllocIsLowestIff | internal/server/registry.go:242-264 | The address handed out is the lowest free one iff every address below nextIP, or every address from it on, is taken. |
| Registries.LowestFreeIsPassedOver | internal/server/registry.go:242-264 | A run of one arrival and one departure after which 3 is handed out while 2 is free. |
| Registries.AllocFailsIffFull | internal/server/registry.go:243-264 | Allocation fails iff all 253 addresses are taken, and then leaves nextIP where it was. |
| Registries.OperationsDo | internal/server/registry.go:82-134 | After every run, each of the six operations does exactly what is written out for it, fields and rooms it leaves alone included: a join adds the member under the old code and host, a report is stored whole, a departure takes one member and hands on the host only if it was the host. |
| Registries.MembersEnteredAndStayed | internal/server/rooms.go:30-94 | In every run, a client is in a room iff it founded or joined it, being in none, and has neither left nor disconnected since. |
| Registries.MembersAreIn | internal/server/rooms.go:30-94 | In a consistent state, the two records of membership agree: the code kept with a client names a room iff that room's member set holds the client. |
| Registries.HostIsFounder | internal/server/rooms.go:30-112 | In every run, a room is hosted by its founder, unless the founder, while host, has left or disconnected. |
| Registries.HostChangesOnlyWhenHostGoes | internal/server/rooms.go:76-112 | Over any operation of a run a room's host stays, unless it is the host that goes; then the longest-registered online member takes over. |
| Registries.EndpointIsLastReport | internal/server/registry.go:127-137 | In every run, the endpoint kept for an online client is that of its last report, candidates included, or empty if it made none. |
| Registries.PeersShow | internal/server/registry.go:161-178 | A peer list shows exactly the other clients in the same room, each with its own name, address and reported endpoint. |
| Registries.RosterShows | internal/server/rooms.go:146-161 | A member list shows exactly the online members, each with its own name and address, and marks the host. |
| Registries.RefusedIffFull | internal/server/registry.go:82-108 | In every consistent state at most 253 clients are online, and a newcomer is refused iff there are 253. |
| Registries.ApplyKeepsValid | internal/server/registry.go:82-123 | Every operation, in any state and for any caller, keeps inRoom and the member sets inverse to each other, rooms non-empty, addresses distinct and in range, and registration numbers distinct. |
| Registries.After | internal/server/rooms.go:30-112 | Hence the state after every run of operations from the empty registry is consistent, shared fingerprints or not. |
| Registries.AddKeepsDistinctIff | internal/server/registry.go:82-108 | Registering keeps every member online, every host a member and the index complete iff the fingerprint is not empty and not already online. |
| Registries.RemovalEvictsTwin | internal/server/registry.go:113-123 | When one of two clients sharing a fingerprint goes, the other stays online without room, peers or index entry. |
| Registries.RemoveKeepsSound | internal/server/registry.go:113-123 | With distinct fingerprints, a disconnect leaves every room with online members and a host among them. |
| Registries.LeaveKeepsSound | internal/server/rooms.go:65-94 | The same for leaving a room. |
| Registries.JoinKeepsSound | internal/server/rooms.go:48-62 | The same for joining. |
| Registries.CreateKeepsSound | internal/server/rooms.go:30-45 | The same for creating a room. |
| Registries.SuccessorIsOldest | internal/server/rooms.go:76-112 | A departing host is succeeded by the one remaining member with the least Seq. |
| Registries.OldestIsUnique | internal/server/rooms.go:98-112 | The successor does not depend on the order in which the member map is walked. |
| Registries.Registry.AllocVirtualIP | internal/server/registry.go:243-255 | The loop performs the specified search and moves nextIP accordingly. |
| Registries.Registry.Add | internal/server/registry.go:82-108 | The whole new state and the new client, or the refusal. |
| Registries.Registry.Remove | internal/server/registry.go:113-123 | The client, its index entry and its membership are gone; nothing else changes. |
| Registries.Registry.ListVisiblePeers | internal/server/registry.go:161-178 | Exactly the other clients in the same room. |
| Registries.Registry.CreateRoom | internal/server/rooms.go:30-45 | A new room of one, or a refusal without effect. |
| Registries.Registry.JoinRoom | internal/server/rooms.go:48-62 | The member is added to the room of the normalised code, whose code and host stay, and the ordered list returned; or one of the two refusals, each iff it applies, without effect. The normalisation may be any function. |
| Registries.Registry.RemoveFromRoom | internal/server/rooms.go:76-94 | The member leaves, an empty room goes, a departing host is replaced. |
| Registries.Registry.OldestMember | internal/server/rooms.go:98-112 | The loop over an unordered map finds the successor. |
| Registries.Registry.ListMembers | internal/server/rooms.go:146-161 | Exactly the members that resolve to an online client, each once, the host marked, in order of their names. |
| Registries.SortByName | internal/server/rooms.go:159 | The same entries, no name before a lesser one. |
| Servers.IntroducedIffSameRoom | internal/server/handler.go:167-203 | Two clients are each told the other's id, name and candidates iff they are different, online, in one room and both have candidates. |
| Servers.ConnectRefusals | internal/server/handler.go:167-190 | Otherwise the asker alone is told why, by the first reason that applies, and nothing else happens. |
| Servers.LastReportsAreExchanged | internal/server/handler.go:140-203 | In every run, two clients in one room whose last reports held candidates are told exactly those of each other when either asks. |
| Servers.RoomRefusals | internal/server/handler.go:206-249 | Creating or joining while in a room, joining a room that does not exist and leaving none is each answered with that error to the asker alone. |
| Servers.Server.BroadcastPeers | internal/server/handler.go:275-279 | Every connection gets one peer list at the end of its queue. |
| Servers.Server.NotifyRoom | internal/server/handler.go:252-259 | Every online member, and nobody else, gets the member list. |
| Servers.RegisterRefusedIffFull | internal/server/handler.go:56-76 | A registration is refused iff the name or the key is missing or 253 clients are online, and then nothing changes. |
| Servers.Server.HandleRegister | internal/server/handler.go:56-132 | Registration, greeting and broadcast as one step, or the refusal the newcomer is sent. |
| Servers.Server.HandleReport | internal/server/handler.go:140-147 | The endpoint is stored whole for that client and no other, and everybody sent a peer list. |
| Servers.Server.HandleListPeers | internal/server/handler.go:148-149 | The asker gets its peer list. |
| Servers.Server.HandleRoomCreate | internal/server/handler.go:206-216 | Creation with its two replies, or the refusal. |
| Servers.Server.HandleRoomJoin | internal/server/handler.go:219-234 | Join, reply, notice to the room and broadcast, or the refusal. |
| Servers.Server.HandleRoomLeave | internal/server/handler.go:239-249 | Departure, reply, notice and broadcast, or the refusal. |
| Servers.Server.HandleDisconnect | internal/server/handler.go:77-89 | The cleanup: removal, notice to the remaining members, broadcast. |
| Servers.Server.HandleConnectRequest | internal/server/handler.go:167-203 | The introduction, or one of the refusals in the order the handler tests them. |
| Agents.WantForgetsOrder | internal/agent/agent.go:690-704 | When no two peers share an address the wanted table does not depend on the order of the list. |
| Agents.ReplayFirst | internal/agent/agent.go:411-462 | Reading the oldest message early changes nothing about where the queue leads. |
| Agents.FreshIdsOnce | internal/agent/agent.go:716-737 | The ids requested for a list are distinct, new, and with the old ones cover every punchable peer. |
| Agents.Agent.MemberFPs | internal/agent/agent.go:396-407 | The keys of exactly the members other than oneself, as far as they parse. |
| Agents.Agent.DedupFP | internal/agent/agent.go:296-312 | The same keys, each once. |
| Agents.Agent.SetRoom | internal/agent/agent.go:354-360 | Room, friends and allowlist follow the list received. |
| Agents.Agent.UpdateRoomMembers | internal/agent/agent.go:363-372 | The same for an update, which is ignored without a room. |
| Agents.Agent.ClearRoom | internal/agent/agent.go:377-392 | Room, friends, table and installed host routes are all empty afterwards. |
| Agents.Agent.AutoConnect | internal/agent/agent.go:690-737 | The table becomes the wanted one; added and dropped routes are disjoint and exactly the differences; the installed host routes equal the table's domain; over any run no peer is asked twice. |
| Agents.Agent.OnMessage | internal/agent/agent.go:411-462 | Each message moves the agent as the replay function says and keeps its routes and requests consistent. |
| Coordination.AlwaysInSync | internal/server/handler.go:77-279 | In every reachable state, replaying any client's pending queue into its agent gives exactly the server's view: room and member list, allowlist equal to the other members' keys, routes equal to the visible peers. |
| Coordination.HistoryIsRun | internal/server/handler.go:56-279 | Every history of the server is a run of the registry, so that the results about members, hosts, endpoints and addresses hold in every reachable state. |
| Coordination.StepKeepsInSync | internal/server/handler.go:77-279 | Every event, of any client, keeps that agreement for all clients. |
| Coordination.IdleClientListsRoommates | internal/agent/agent.go:287-407 | The allowlist of a client with nothing left to read holds exactly the 32-byte keys that the fingerprints of the other members of its room parse to. |
| Coordination.IdleClientAdmitsOnlyRoommatesIff | internal/p2p/tunnel.go:507-518 | A tunnel handed the friends of such a client admits exactly those keys iff there are any; when there are none it admits every 32-byte key. |
| Coordination.RoomlessAdmitsAnyone | internal/agent/agent.go:377-392 | A client that has just registered or just left its room admits every 32-byte key once it has read its queue. |
| Coordination.LoneClientAdmitsAnyone | internal/p2p/tunnel.go:507-518 | A run of one registration and two reads after which that client has nothing to read and its tunnel admits every 32-byte key. |
| Coordination.NewcomerAgreesIff | internal/server/handler.go:56-132 | Fingerprint online or not, an admitted client that has read its queue agrees with the server, about its room in particular, iff its fingerprint was in no room before. |
| Coordination.ReconnectDisagrees | internal/server/handler.go:56-132 | A client in a room that registers again under its fingerprint does not agree with the server. |
| Coordination.IdleClientRoutesToRoommates | internal/agent/agent.go:690-715 | Its table holds exactly the other members' addresses, each leading to the client that holds it. |
| Coordination.JoinKeeps | internal/server/handler.go:219-234 | The agreement across a join, for the joiner, the members and everybody else. |
| Coordination.LeaveKeeps | internal/server/handler.go:239-249 | The agreement across a departure. |
| Coordination.DisconnectKeeps | internal/server/handler.go:77-89 | The agreement across a disconnect, host succession included. |
| Coordination.CreateKeeps | internal/server/handler.go:206-216 | The agreement across a creation, although no peer list is sent. |
| Coordination.RegisterKeeps | internal/server/handler.go:90-132 | The agreement when a client arrives. |
| Coordination.SightsAreDistinct | internal/server/registry.go:161-178 | No peer list shows an address twice, so the agents' tables do not depend on its order. |
| Nbt.ReadsWhatIsSpelled | internal/mc/serversdat.go:178-296 | The reader takes exactly the bytes that spell a value, for a spelling written out tag by tag: 1, 2, 4, 8, 4 and 8 bytes for numbers, lengths of 2 and 4 bytes, 4 and 8 bytes an array item, lists, and compounds up to a zero byte. |
| Nbt.WritesSpelling | internal/mc/serversdat.go:298-397 | What is written for a well-formed value spells it. |
| Nbt.RoundTripsIffWellFormed | internal/mc/serversdat.go:178-397 | A value is written and read back as itself iff it is well-formed: homogeneous lists of unnamed elements, strings up to 65535 bytes, lengths below 2^31, values of the type their tag says. |
| Nbt.RoundTrip | internal/mc/serversdat.go:178-397 | Reading the written bytes followed by any suffix returns the value and leaves exactly the suffix. |
| Nbt.ReadRespells | internal/mc/serversdat.go:209-296 | Whatever the reader accepts is well-formed and is written again in as many bytes. |
| Nbt.RewriteReproducesIffStrict | internal/mc/serversdat.go:345-372 | Writing back what was read reads again as the same value, and reproduces the bytes iff every empty list in them has element type 0. |
| Nbt.EmptyListIsRetyped | internal/mc/serversdat.go:345-372 | An empty list of bytes is read and written back as an empty list of type 0. |
| Nbt.ReadValue | internal/mc/serversdat.go:209-296 | The reader terminates on every input, because each value read takes at least one byte. |
| Nbt.Input.NextValue | internal/mc/serversdat.go:209-296 | The stream reader with its loops computes the specified value or failure. |
| Nbt.Input.NextNode | internal/mc/serversdat.go:178-195 | The same for a named value or the end tag. |
| Nbt.Input.NextString | internal/mc/serversdat.go:197-207 | The same for a string. |
| Nbt.Output.PutValue | internal/mc/serversdat.go:323-397 | The stream writer with its loops appends the specified bytes or fails in the specified way. |
| Nbt.Output.PutNode | internal/mc/serversdat.go:298-310 | The same for a named value. |
| Nbt.Output.PutString | internal/mc/serversdat.go:312-321 | The same for a string, refused above 65535 bytes. |
| ServerLists.SetThenChild | internal/mc/serversdat.go:47-67 | set is seen by child, leaves every other child alone, and is idempotent. |
| ServerLists.MergeNamesServer | internal/mc/serversdat.go:92-118 | Afterwards an entry with the address exists and all such entries carry the new name. |
| ServerLists.MergeKeepsOthers | internal/mc/serversdat.go:92-118 | Other entries stay where and what they are, renamed ones differ only in their first "name", and the list grows by one iff none matched. |
| ServerLists.MergeKeepsRoot | internal/mc/serversdat.go:92-118 | Every other tag of the root stays where and what it is. |
| ServerLists.MergeCrashesIff | internal/mc/serversdat.go:92-118 | The merge panics iff the root, the list or a matching entry has no children. |
| ServerLists.MergeIsIdempotent | internal/mc/serversdat.go:92-118 | Merging the same server again changes nothing. |
| ServerLists.AddServerThroughFile | internal/mc/serversdat.go:85-166 | The written file holds exactly the merged tree iff the tree is storable (name and address fit, the list takes a compound), and adding the server to it again writes the same bytes. |
| ServerLists.FirstServerBytes | internal/mc/serversdat.go:85-166 | Without an earlier list the file is given byte by byte: an unnamed compound with the list "servers" of one compound with the strings "name" and "ip". |
| ServerLists.ServersDat.RenameMatching | internal/mc/serversdat.go:99-105 | The loop renames every matching entry and reports whether there was one. |
| ServerLists.ServersDat.AddServer | internal/mc/serversdat.go:85-118 | The object's tree becomes the merged one, or the panic is reported. |
| Lan.RewriteReads | internal/lan/lan.go:123-207 | A rewrite changes what the address helpers read at the end it names, and nothing else they read. |
| Lan.SourceFieldAfterRewrite | internal/lan/lan.go:166-187 | The true source field of the header is rewritten iff there are no options. |
| Lan.PlainDiscoveryIff | internal/lan/lan.go:123-155 | Without options, an advertisement is a UDP packet to port 4445 of a multicast address or the broadcast address. |
| Lan.RewriteUndone | internal/lan/lan.go:157-187 | Putting the old source back undoes the rewrite. |
| Lan.RewriteIPv4 | internal/lan/lan.go:166-187 | The copying rewrite computes the specified packet. |
| Lan.HeaderFoldsToOnes | internal/lan/lan.go:216-252 | The header words of every built advertisement fold to 0xFFFF, whatever the payload. |
| Lan.FoldCarries | internal/lan/lan.go:246-249 | The fold loop ends with a 16-bit number congruent to the sum modulo 65535. |
| Lan.BuiltReads | internal/lan/lan.go:216-252 | A built packet is an advertisement from src with src in its source field and the payload at its end; its length field is right iff it is at most 65535 bytes long. |
| Lan.BuiltLayout | internal/lan/lan.go:216-252 | Every byte of a built packet but its lengths and checksum. |
| Lan.BuildDiscovery | internal/lan/lan.go:216-252 | The buffer is filled with exactly that packet; no address, no packet. |
| Discovery.BroadcastsAreFromVirtual | internal/agent/agent.go:587-641 | Whatever an agent broadcasts carries its own virtual address as the helpers read it, so no agent forwards it from its NIC. |
| Discovery.ForwardKeepsPayload | internal/agent/agent.go:587-641 | A sniffed advertisement is sent around whole; any other differs only in the four bytes the source is read from; nothing is sent without an address or for a virtual source. |
| Discovery.UnicastCopyIsQuiet | internal/agent/agent.go:506-525 | The unicast copy is no advertisement and shows a socket the same source and payload. |
| Discovery.EchoDroppedIff | internal/agent/agent.go:619-641 | A rewritten packet that reaches a listener is dropped iff it has no options or its true source field is virtual anyway. |
| Discovery.OptionsDefeatTheGuard | internal/agent/agent.go:619-641 | A packet with options that is broadcast a second time. |
| Discovery.HeardIsRepeatedIff | internal/agent/agent.go:619-641 | In every run, a broadcast that reaches a listener is sent around again iff it has options and a source field that is not virtual. |
| Discovery.QuietIff | internal/agent/agent.go:587-641 | After every run, no sequence of echoes at any agents adds a broadcast iff no broadcast so far is of that kind. |
| Discovery.RelaysAreNotRelayed | internal/agent/agent.go:587-641 | In every run, a broadcast caused by an echo causes no further broadcast. |
| Discovery.NoFlood | internal/agent/agent.go:587-641 | When no game packet is of that kind, in every run of any number of agents there are at most as many broadcasts as original advertisements, none is caused by an echo, and none of them evades the guard, so that no echo will cause one either. |
| Stun.AddressIsFound | internal/stun/stun.go:83-139 | Behind any other attributes and before anything at all, the first IPv4 XOR-MAPPED-ADDRESS of section 15.2 of RFC 5389 is returned exactly. |
| Stun.KnownAnswer | internal/stun/stun.go:105-123 | The attribute of the test vector in section 2.2 of RFC 5769 spells 192.0.2.1, port 32853, so that AddressIsFound finds these behind it. |
| Stun.RequestAndResponse | internal/stun/stun.go:55-139 | A server's answer to one's own request parses to the address it names. |
| Stun.NeverEndsIff | internal/stun/stun.go:100-136 | The loop is still running after every number of iterations iff the outcome is Hangs; otherwise it ends with the outcome within one iteration per 4 bytes and one more. |
| Stun.HangsIff | internal/stun/stun.go:83-136 | Parsing a datagram never ends iff it passes the header checks and holds, behind attributes that are passed over, an IPv6 address of 8 to 19 bytes. |
| Stun.AnswerThatHangs | internal/stun/stun.go:124-128 | A 32-byte answer to any transaction on which parsing never ends. |
| Stun.PaddingFree | internal/stun/stun.go:100-136 | With lengths that are multiples of 4 the layout walked is the standard's. |
| Stun.PaddedAddressFoundIff | internal/stun/stun.go:100-136 | In a list laid out by section 15 of RFC 5389, an address at its end is found iff the attribute before it needs no padding, when none before that does; otherwise the walk finds nothing. |
| Stun.PaddedAnswerReadIff | internal/stun/stun.go:83-139 | The same of a whole answer. |
| Stun.PaddingHidesAddress | internal/stun/stun.go:83-139 | An answer whose only other attribute is one byte long is not understood, whatever the address. |
| Stun.BuildBindingRequest | internal/stun/stun.go:55-78 | The request is the specified message, with the change flags asked for. |
| Stun.RequestLayout | internal/stun/stun.go:55-78 | The message byte by byte. |
| Stun.ParseXORMappedAddress | internal/stun/stun.go:83-139 | The loop computes the specified outcome, each error included. |

## Left out

- Concurrency inside the server: the code locks per registry call, not per handler; one handler run is assumed to be atomic.
- Servers.Server.NotifyRoom: the code reads the member map outside the registry lock; here the map does not change meanwhile.
- Failing connections: a send to a client whose socket is broken is lost in the code; a queue here always takes the message.
- Wire encodings of the control messages (JSON), requests that do not parse, and a first message other than a registration.
- Random draws: client ids, room codes and ephemeral keys are parameters. A client id of 64 random bits is assumed not to be in use, which the code does not check; a room code is the first one drawn that is not, as in the code.
- Unicode: the normalisation of room codes (trimming and upper case) is an arbitrary function, and names are compared by code point, which is how their UTF-8 bytes compare.
- Client ids in the tunnel are their 8 bytes, not the hexadecimal text; the server's ids are strings.
- The order of lists inside messages: the server sorts members by name and takes peers from a map, but messages carry sets, and the methods that read them take any order.
- Aliasing: clients, rooms and peers are map values where the code shares pointers, and tags of the server list are values where the code edits nodes in place.
- Agents.Agent.OnMessage: the tunnel is represented by its allowlist alone; the display name, error note and peer maps are not kept, and `connect_candidates` (BeginConnect) is a step of the tunnel network instead.
- Tunnels.Tunnel.SendDataBroadcast: the code holds the lock throughout; the network runs model it as consecutive sends to single peers.
- Tunnels.Tunnel.PunchIteration: a round takes the lock twice and sends in between; here it is one step. The two sections among other steps are Punch and PunchDeadline of the network.
- Tunnels.Tunnel.PunchLoop: the clock is a parameter and no frame arrives during the loop; its rounds among arriving frames are the steps Punch and PunchDeadline of the network, which may happen at any time.
- TunnelNetwork.SinkPacketsWereSent: forgery is excluded by the network, which delivers only what was written; AES-GCM's security is not modelled.
- The legacy cleartext mode without identity is modelled in the tunnel but excluded from the network's runs.
- Ping, pong and keep-alive timing, the peers' last-seen times, and snapshots for display.
- Integers read by the NBT reader are kept as the unsigned value of their bytes; the value returned beside a read is taken after the read, as the compiler evaluates it.
- Memory limits: a length within 31 bits is taken to be allocatable.
- gzip, the backup copy and the file system around servers.dat.
- IPv6 in STUN beyond the code's own decoding; the code's key for it is not the standard's, and no claim is made about it.
- Checksum validity after address rewriting: the code does not refresh it.
- The WebView interface, tray, virtual NIC, sockets, route commands, updater, launcher detection and NAT classification.
