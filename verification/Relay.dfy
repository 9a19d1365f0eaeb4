/** The relay server: it learns where each client sends from and passes payloads on unread. */
module Relays {
  import opened Wrappers
  import opened Bytes
  import opened Primitives
  import opened Frames
  import opened Tunnels
  import Net = TunnelNetwork

  datatype RelayError = BadPacket | TargetUnknown

  datatype Handled = Handled(learned: map<Id, Addr>, sent: seq<Datagram>, error: Option<RelayError>)

  function HandleStep(learned: map<Id, Addr>, pkt: bytes, src: Addr): Handled
  {
    match ParseRelay(pkt)
    case None => Handled(learned, [], Some(BadPacket))
    case Some(env) =>
      var learned' := learned[env.sender := src];
      if env.target == ZERO_ID then Handled(learned', [], None)
      else if env.target !in learned' then Handled(learned', [], Some(TargetUnknown))
      else Handled(learned', [Datagram(learned'[env.target], env.payload)], None)
  }

  /** What the tunnel wrapped comes out unchanged, at the address its target last sent from. */
  lemma ForwardsWrappedFrame(learned: map<Id, Addr>, sender: Id, target: Id, frame: bytes, src: Addr)
    requires BuildRelay(sender, target, frame).Some? && target != ZERO_ID
    ensures var h := HandleStep(learned, BuildRelay(sender, target, frame).value, src);
            && h.learned == learned[sender := src]
            && (if target == sender then h.sent == [Datagram(src, frame)]
                else if target in learned then h.sent == [Datagram(learned[target], frame)]
                else h.sent == [] && h.error == Some(TargetUnknown))
  {
    ParseBuiltRelay(sender, target, frame);
  }

  /**
   After any run of packets, a client's learned address is the source of the last relay packet naming it as
   sender.
   */
  function LearnedAfter(packets: seq<(bytes, Addr)>): map<Id, Addr>
  {
    if packets == [] then map[]
    else
      var (pkt, src) := packets[|packets| - 1];
      HandleStep(LearnedAfter(packets[..|packets| - 1]), pkt, src).learned
  }

  ghost predicate NamesSender(packets: seq<(bytes, Addr)>, i: int, id: Id)
    requires 0 <= i < |packets|
  {
    ParseRelay(packets[i].0).Some? && ParseRelay(packets[i].0).value.sender == id
  }

  ghost predicate LastFrom(packets: seq<(bytes, Addr)>, i: int, id: Id)
  {
    && 0 <= i < |packets| && NamesSender(packets, i, id)
    && forall j :: i < j < |packets| ==> !NamesSender(packets, j, id)
  }

  lemma {:induction false} LearnsLastAddress(packets: seq<(bytes, Addr)>, id: Id)
    ensures id in LearnedAfter(packets) <==> exists i :: LastFrom(packets, i, id)
    ensures forall i :: LastFrom(packets, i, id) ==> LearnedAfter(packets)[id] == packets[i].1
  {
    if packets == [] {
    } else {
      var n := |packets| - 1;
      var init := packets[..n];
      LearnsLastAddress(init, id);
      assert forall j :: 0 <= j < n ==> NamesSender(packets, j, id) == NamesSender(init, j, id);
      if NamesSender(packets, n, id) {
        assert LastFrom(packets, n, id);
      } else {
        assert forall i :: LastFrom(packets, i, id) <==> LastFrom(init, i, id);
      }
    }
  }

  /** The network's Forward step covers the relay: it writes nothing but the payload of a packet that was written. */
  lemma RelayIsForward(suite: Suite, s: Net.Net, learned: map<Id, Addr>, pkt: bytes, src: Addr)
    requires pkt in s.wire
    ensures var h := HandleStep(learned, pkt, src);
            Net.Written(h.sent) <= Net.Step(suite, s, Net.Forward(pkt)).wire
  {
  }

  class Relay {
    var learned: map<Id, Addr>
    var sent: seq<Datagram>

    constructor ()
      ensures learned == map[] && sent == []
    {
      learned, sent := map[], [];
    }

    method Handle(pkt: bytes, src: Addr) returns (error: Option<RelayError>)
      modifies this
      ensures var h := HandleStep(old(learned), pkt, src);
              learned == h.learned && sent == old(sent) + h.sent && error == h.error
    {
      if |pkt| < RELAY_HEADER || pkt[0..4] != RELAY_MAGIC {
        return Some(BadPacket);
      }
      var sender, target, payload := pkt[4..12], pkt[12..20], pkt[RELAY_HEADER..];
      learned := learned[sender := src];
      if target == ZERO_ID {
        return None;
      }
      if target !in learned {
        return Some(TargetUnknown);
      }
      sent := sent + [Datagram(learned[target], payload)];
      return None;
    }
  }
}
