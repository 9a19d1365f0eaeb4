/**
 Forwarding LAN advertisements between agents: whatever comes back to an agent is not sent around
 again, so the network cannot flood itself.
 */
module Discovery {
  import opened Wrappers
  import opened Bytes
  import opened Lan

  /** The first three octets of every virtual address the server hands out. */
  predicate IsVirtual(ip: Ip)
  {
    InVirtualSubnet(Some(ip))
  }

  /**
   What an agent broadcasts for an advertisement: sniffed ones are wrapped in a fresh packet, others
   get its own virtual address as source. Without an address (or a tunnel), and for a source on the
   virtual subnet, it stays silent.
   */
  function Forward(vip: Option<Ip>, sniffed: bool, src: Option<Ip>, pkt: bytes): Option<bytes>
  {
    if vip.None? || InVirtualSubnet(src) then None
    else if sniffed then Some(Built(vip.value, pkt))
    else Some(Rewritten(pkt, vip, false))
  }

  /** What a packet read from the virtual NIC makes an agent broadcast. */
  function ForwardFromNic(vip: Option<Ip>, pkt: bytes): Option<bytes>
  {
    if IsDiscovery(pkt) then Forward(vip, false, IPv4Src(pkt), pkt) else None
  }

  /** What a socket is handed when the operating system delivers a packet to it. */
  function Payload(pkt: bytes): bytes
    requires HasHeader(pkt) && HeaderLength(pkt) + 8 <= |pkt|
  {
    pkt[HeaderLength(pkt) + 8..]
  }

  // ---- single packets ----

  /** An advertisement from a virtual address, as the address helpers read it. */
  predicate FromVirtual(pkt: bytes)
  {
    IsDiscovery(pkt) && HasHeader(pkt) && HeaderLength(pkt) + 8 <= |pkt| && InVirtualSubnet(IPv4Src(pkt))
  }

  lemma DiscoveryHasHeader(pkt: bytes)
    requires IsDiscovery(pkt)
    ensures HasHeader(pkt) && HeaderLength(pkt) + 8 <= |pkt|
  {
  }

  /**
   Whatever is broadcast carries the sender's virtual address as IPv4Src reads it, so no agent forwards it
   from its NIC.
   */
  lemma BroadcastsAreFromVirtual(vip: Ip, sniffed: bool, src: Option<Ip>, pkt: bytes)
    requires IsVirtual(vip) && (sniffed || IsDiscovery(pkt)) && Forward(Some(vip), sniffed, src, pkt).Some?
    ensures var out := Forward(Some(vip), sniffed, src, pkt).value;
            && FromVirtual(out) && IPv4Src(out) == Some(vip)
            && forall other :: ForwardFromNic(other, out) == None
  {
    if sniffed {
      BuiltReads(vip, pkt);
    } else {
      DiscoveryHasHeader(pkt);
      RewriteReads(pkt, vip, false);
    }
  }

  /**
   A sniffed advertisement is sent around whole, behind a header of its own; any other is the same but for its
   source.
   */
  lemma ForwardKeepsPayload(vip: Ip, src: Option<Ip>, payload: bytes, pkt: bytes)
    ensures Forward(Some(vip), true, src, payload).Some? ==>
              var out := Forward(Some(vip), true, src, payload).value;
              && HasHeader(out) && HeaderLength(out) == 20 && |out| == 28 + |payload|
              && Payload(out) == payload && SourceField(out) == vip
    ensures HasHeader(pkt) && Forward(Some(vip), false, src, pkt).Some? ==>
              var out, at := Forward(Some(vip), false, src, pkt).value, HeaderLength(pkt) - 8;
              && |out| == |pkt| && out[..at] == pkt[..at] && out[at..at + 4] == vip && out[at + 4..] == pkt[at + 4..]
    ensures forall sniffed, p :: Forward(None, sniffed, src, p) == None
    ensures forall sniffed, p :: src.Some? && src.value[..3] == [10, 0, 0] ==>
              Forward(Some(vip), sniffed, src, p) == None
  {
    BuiltReads(vip, payload);
    hide Built;
  }

  /** The unicast copy a receiver makes is no advertisement any more, and shows the same source to a socket. */
  lemma UnicastCopyIsQuiet(pkt: bytes, vip: Ip)
    requires FromVirtual(pkt) && IsVirtual(vip)
    ensures var copy := Rewritten(pkt, Some(vip), true);
            && !IsDiscovery(copy) && ForwardFromNic(Some(vip), copy) == None
            && IPv4Src(copy) == IPv4Src(pkt)
            && HasHeader(copy) && SourceField(copy) == SourceField(pkt)
            && HeaderLength(copy) == HeaderLength(pkt) && Payload(copy) == Payload(pkt)
  {
    var copy, n := Rewritten(pkt, Some(vip), true), HeaderLength(pkt);
    RewriteReads(pkt, vip, true);
    assert forall k :: 0 <= k < |pkt| && !(n - 4 <= k < n) ==> copy[k] == pkt[k];
    assert copy[0] == pkt[0];
  }

  /** A packet whose true source field is not virtual and is not where a rewrite puts the address. */
  predicate Evades(pkt: bytes)
  {
    |pkt| >= 20 && HeaderLength(pkt) != 20 && !IsVirtual(SourceField(pkt))
  }

  /**
   A broadcast that reaches a listener is dropped if its header has no options, or its source field is virtual
   anyway.
   */
  lemma EchoDroppedIff(vip: Ip, pkt: bytes, receiver: Ip)
    requires IsVirtual(vip) && IsDiscovery(pkt)
    ensures var out := Rewritten(pkt, Some(vip), false);
            && HasHeader(out) && HeaderLength(out) + 8 <= |out|
            && (Forward(Some(receiver), true, Some(SourceField(out)), Payload(out)) == None <==>
                  !Evades(pkt))
  {
    DiscoveryHasHeader(pkt);
    RewriteReads(pkt, vip, false);
    SourceFieldAfterRewrite(pkt, vip);
    assert Rewritten(pkt, Some(vip), false)[0] == pkt[0];
  }

  const OPTIONS_HEADER: bytes :=
    [0x46, 0, 0, 32, 0, 0, 0, 0, 64, 17, 0, 0, 192, 168, 1, 5, 224, 0, 2, 60, 224, 0, 2, 60, 17, 93, 17, 93, 0, 8, 0, 0]

  /** With IP options the loop guard fails: this advertisement is sent around again by whoever hears it. */
  lemma OptionsDefeatTheGuard(vip: Ip, receiver: Ip)
    requires IsVirtual(vip) && IsVirtual(receiver)
    ensures IsDiscovery(OPTIONS_HEADER)
    ensures var out := Rewritten(OPTIONS_HEADER, Some(vip), false);
            HasHeader(out) && HeaderLength(out) + 8 <= |out|
            && Forward(Some(receiver), true, Some(SourceField(out)), Payload(out)).Some?
  {
    assert |OPTIONS_HEADER| == 32 && IsIPv4(OPTIONS_HEADER) && HeaderLength(OPTIONS_HEADER) == 24;
    assert UDPDestPort(OPTIONS_HEADER) == DISCOVERY_PORT;
    assert OPTIONS_HEADER[20..24] == [224, 0, 2, 60];
    assert OPTIONS_HEADER[12..16] == [192, 168, 1, 5];
    EchoDroppedIff(vip, OPTIONS_HEADER, receiver);
  }

  // ---- any number of agents ----

  /** A broadcast, and whether it was caused by hearing an earlier one. */
  datatype Flight = Flight(packet: bytes, relayed: bool)

  /** What may happen at the agent with address vip. Each broadcast may come back to any agent, any number of times. */
  datatype Event =
    | GameHeard(vip: Option<Ip>, src: Option<Ip>, payload: bytes)  // a datagram on the discovery port
    | GameSent(vip: Option<Ip>, pkt: bytes)                        // a packet out of the virtual NIC
    | EchoHeard(vip: Option<Ip>, index: nat, unicast: bool)        // a delivered broadcast reaches the listener
    | EchoRead(vip: Option<Ip>, index: nat, unicast: bool)         // a delivered broadcast comes back out of the NIC

  /** The form in which a receiver injects a broadcast into its NIC. */
  function Delivered(vip: Option<Ip>, pkt: bytes, unicast: bool): bytes
  {
    if unicast then Rewritten(pkt, vip, true) else pkt
  }

  function Outcome(air: seq<Flight>, e: Event): Option<bytes>
  {
    match e
    case GameHeard(vip, src, payload) => Forward(vip, true, src, payload)
    case GameSent(vip, pkt) => ForwardFromNic(vip, pkt)
    case EchoHeard(vip, k, unicast) =>
      if k >= |air| then None
      else
        var pkt := Delivered(vip, air[k].packet, unicast);
        if HasHeader(pkt) && HeaderLength(pkt) + 8 <= |pkt| then
          Forward(vip, true, Some(SourceField(pkt)), Payload(pkt))
        else None
    case EchoRead(vip, k, unicast) =>
      if k >= |air| then None else ForwardFromNic(vip, Delivered(vip, air[k].packet, unicast))
  }

  predicate IsEcho(e: Event)
  {
    e.EchoHeard? || e.EchoRead?
  }

  /** Every broadcast so far, oldest first. */
  function Air(events: seq<Event>): seq<Flight>
  {
    if events == [] then []
    else
      var air, e := Air(events[..|events| - 1]), events[|events| - 1];
      match Outcome(air, e)
      case None => air
      case Some(out) => air + [Flight(out, IsEcho(e))]
  }

  /** Agents hold addresses the server gave them. */
  predicate Addressed(events: seq<Event>)
  {
    forall i :: 0 <= i < |events| ==> events[i].vip.None? || IsVirtual(events[i].vip.value)
  }

  /** A broadcast nobody sends again, unless it evades the guard, which only a game's own packet can. */
  predicate Contained(f: Flight)
  {
    && FromVirtual(f.packet)
    && (f.relayed ==> !Evades(f.packet))
  }

  lemma PlainSourceIsVirtual(pkt: bytes)
    requires FromVirtual(pkt) && HeaderLength(pkt) == 20
    ensures IsVirtual(SourceField(pkt))
  {
  }

  /** Every broadcast is contained, and none is caused by an echo except one of a packet that evades the guard. */
  lemma BroadcastsAreContained(air: seq<Flight>, e: Event)
    requires (e.vip.None? || IsVirtual(e.vip.value)) && Outcome(air, e).Some?
    requires forall k :: 0 <= k < |air| ==> Contained(air[k])
    ensures Contained(Flight(Outcome(air, e).value, IsEcho(e)))
    ensures Evades(Outcome(air, e).value) ==> e.GameSent? && IsDiscovery(e.pkt) && Evades(e.pkt)
    ensures IsEcho(e) ==> e.EchoHeard? && e.index < |air| && !air[e.index].relayed && Evades(air[e.index].packet)
  {
    match e
    case GameHeard(vip, src, payload) =>
      BroadcastsAreFromVirtual(vip.value, true, src, payload);
      BuiltReads(vip.value, payload);
    case GameSent(vip, pkt) =>
      BroadcastsAreFromVirtual(vip.value, false, IPv4Src(pkt), pkt);
      DiscoveryHasHeader(pkt);
      SourceFieldAfterRewrite(pkt, vip.value);
      assert Rewritten(pkt, vip, false)[0] == pkt[0];
    case EchoHeard(vip, k, unicast) =>
      var pkt := air[k].packet;
      UnicastCopyIsQuiet(pkt, vip.value);
      if HeaderLength(pkt) == 20 { PlainSourceIsVirtual(pkt); }
      BroadcastsAreFromVirtual(vip.value, true, Some(SourceField(pkt)), Payload(pkt));
      BuiltReads(vip.value, Payload(pkt));
    case EchoRead(vip, k, unicast) =>
      if vip.Some? { UnicastCopyIsQuiet(air[k].packet, vip.value); }
      assert false;
  }

  lemma {:induction false} AllContained(events: seq<Event>)
    requires Addressed(events)
    ensures forall k :: 0 <= k < |Air(events)| ==> Contained(Air(events)[k])
  {
    if events == [] {
    } else {
      var init, e := events[..|events| - 1], events[|events| - 1];
      AllContained(init);
      if Outcome(Air(init), e).Some? { BroadcastsAreContained(Air(init), e); }
    }
  }

  /** A broadcast that reaches a listener is sent around again exactly when it evades the guard. */
  lemma HeardIsRepeatedIff(events: seq<Event>, receiver: Ip, k: nat, unicast: bool)
    requires Addressed(events) && IsVirtual(receiver) && k < |Air(events)|
    ensures FromVirtual(Air(events)[k].packet)
    ensures Outcome(Air(events), EchoHeard(Some(receiver), k, unicast)).Some? <==> Evades(Air(events)[k].packet)
  {
    AllContained(events);
    var pkt := Air(events)[k].packet;
    UnicastCopyIsQuiet(pkt, receiver);
    if HeaderLength(pkt) == 20 { PlainSourceIsVirtual(pkt); }
  }

  /** No broadcast caused by an echo causes another: chains end after one repetition, options or not. */
  lemma RelaysAreNotRelayed(events: seq<Event>, e: Event)
    requires Addressed(events) && (e.vip.None? || IsVirtual(e.vip.value)) && IsEcho(e)
    requires e.index < |Air(events)| && Air(events)[e.index].relayed
    ensures Outcome(Air(events), e) == None
  {
    AllContained(events);
    if Outcome(Air(events), e).Some? { BroadcastsAreContained(Air(events), e); }
  }

  predicate OnlyEchoes(events: seq<Event>)
  {
    forall i :: 0 <= i < |events| ==> IsEcho(events[i])
  }

  /** However often broadcasts come back, and wherever, nothing is sent any more. */
  ghost predicate Quiet(events: seq<Event>)
  {
    forall echoes: seq<Event> :: OnlyEchoes(echoes) && Addressed(echoes) ==> Air(events + echoes) == Air(events)
  }

  predicate NoneEvades(events: seq<Event>)
  {
    forall k :: 0 <= k < |Air(events)| ==> !Evades(Air(events)[k].packet)
  }

  lemma EchoIsDropped(events: seq<Event>, e: Event)
    requires Addressed(events) && NoneEvades(events) && IsEcho(e) && (e.vip.None? || IsVirtual(e.vip.value))
    ensures Outcome(Air(events), e) == None
  {
    hide Outcome, Air, Evades, FromVirtual;
    AllContained(events);
    if Outcome(Air(events), e).Some? { BroadcastsAreContained(Air(events), e); }
  }

  lemma {:induction false} EchoesDieOut(events: seq<Event>, echoes: seq<Event>)
    requires Addressed(events) && NoneEvades(events) && OnlyEchoes(echoes) && Addressed(echoes)
    ensures Air(events + echoes) == Air(events)
  {
    if echoes == [] {
      assert events + echoes == events;
    } else {
      hide Outcome, NoneEvades, IsEcho;
      var init, e := echoes[..|echoes| - 1], echoes[|echoes| - 1];
      EchoesDieOut(events, init);
      EchoIsDropped(events, e);
      assert (events + echoes)[..|events + echoes| - 1] == events + init;
    }
  }

  /** Nothing is sent around again, by any agent, exactly when no broadcast so far evades the guard. */
  lemma QuietIff(events: seq<Event>)
    requires Addressed(events)
    ensures Quiet(events) <==> NoneEvades(events)
  {
    hide Evades, FromVirtual, Outcome;
    if NoneEvades(events) {
      forall echoes: seq<Event> | OnlyEchoes(echoes) && Addressed(echoes)
        ensures Air(events + echoes) == Air(events)
      {
        EchoesDieOut(events, echoes);
      }
    } else {
      var receiver: Ip := [10, 0, 0, 2];
      var k :| 0 <= k < |Air(events)| && Evades(Air(events)[k].packet);
      var echo := EchoHeard(Some(receiver), k, false);
      HeardIsRepeatedIff(events, receiver, k, false);
      assert (events + [echo])[..|events|] == events;
      assert |Air(events + [echo])| == |Air(events)| + 1;
      assert IsVirtual(receiver) && OnlyEchoes([echo]) && Addressed([echo]);
    }
  }

  /** The advertisements games themselves sent out. */
  function Originals(events: seq<Event>): nat
  {
    if events == [] then 0
    else Originals(events[..|events| - 1]) + if IsEcho(events[|events| - 1]) then 0 else 1
  }

  /** No advertisement of a game evades the guard, as none without IP options does. */
  predicate Guarded(events: seq<Event>)
  {
    forall i :: 0 <= i < |events| && events[i].GameSent? && IsDiscovery(events[i].pkt) ==> !Evades(events[i].pkt)
  }

  /**
   Under the guard no echo is ever broadcast again, at any number of agents and however often
   broadcasts come back: each advertisement is sent around at most once by each agent that saw it first.
   */
  lemma {:induction false} NoFlood(events: seq<Event>)
    requires Addressed(events) && Guarded(events)
    ensures |Air(events)| <= Originals(events) && NoneEvades(events)
    ensures forall k :: 0 <= k < |Air(events)| ==> !Air(events)[k].relayed
  {
    if events == [] {
    } else {
      var init, e := events[..|events| - 1], events[|events| - 1];
      NoFlood(init);
      AllContained(init);
      if Outcome(Air(init), e).Some? { BroadcastsAreContained(Air(init), e); }
    }
  }
}
