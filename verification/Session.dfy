/**
 Packet encryption for one peer connection: a send counter, and a replay window kept as the
 highest accepted counter plus a 64-bit word of recently accepted ones.
 */
module Sessions {
  import opened Wrappers
  import opened Bytes
  import opened Words
  import opened Primitives

  datatype OpenError = TooShort | NotAuthentic | TooOld | Duplicate

  datatype Window = Window(recv: u64, seen: u64)

  const EMPTY_WINDOW := Window(0, 0)

  datatype SessionState = SessionState(key: bytes, send: u64, window: Window)

  function Or64(x: u64, y: u64): u64
  {
    Pow2At64();
    OrBelow(x, y, 64);
    Or(x, y)
  }

  /**
   The window's verdict on an authentic counter, and the window afterwards. The age test adds in
   64-bit arithmetic; `limit` is REPLAY_WINDOW in the program.
   */
  function Receive(limit: nat, w: Window, ctr: u64): Result<Window, OpenError>
  {
    if (ctr + limit) % LIMIT64 < w.recv then Err(TooOld)
    else if ctr > w.recv then
      var d := ctr - w.recv;
      var shifted := if d >= REPLAY_WINDOW then 0 else ShiftLeft64(w.seen, d);
      Ok(Window(ctr, Or64(shifted, 1)))
    else
      var bit := ShiftLeft64(1, w.recv - ctr);
      if And(w.seen, bit) != 0 then Err(Duplicate)
      else Ok(Window(w.recv, Or64(w.seen, bit)))
  }

  // ---- the window refines the set of accepted counters ----

  /** w describes exactly the counters accepted so far, as far back as its word reaches. */
  ghost predicate Tracks(w: Window, accepted: set<u64>)
  {
    && (forall c :: c in accepted ==> c <= w.recv)
    && (if accepted == {} then w == EMPTY_WINDOW else w.recv in accepted)
    && (forall i {:trigger Bit(w.seen, i)} :: 0 <= i < 64 ==> (Bit(w.seen, i) <==> w.recv - i in accepted))
  }

  /** The rule the window is meant to enforce, over the set of accepted counters. */
  ghost predicate Admissible(limit: nat, recv: u64, accepted: set<u64>, ctr: u64)
  {
    if ctr + limit >= LIMIT64 then ctr + limit - LIMIT64 >= recv
    else ctr > recv || (recv - ctr <= limit && (ctr !in accepted || recv - ctr == 64))
  }

  lemma TracksNothing()
    ensures Tracks(EMPTY_WINDOW, {})
  {
    forall i | 0 <= i < 64 ensures !Bit(0, i) { BitOfZero(i); }
  }

  lemma AheadTracks(w: Window, accepted: set<u64>, ctr: u64)
    requires Tracks(w, accepted) && ctr > w.recv
    ensures var d := ctr - w.recv;
            var shifted := if d >= REPLAY_WINDOW then 0 else ShiftLeft64(w.seen, d);
            Tracks(Window(ctr, Or64(shifted, 1)), accepted + {ctr})
  {
    var d := ctr - w.recv;
    var shifted := if d >= REPLAY_WINDOW then 0 else ShiftLeft64(w.seen, d);
    forall i | 0 <= i < 64
      ensures Bit(Or64(shifted, 1), i) <==> ctr - i in accepted + {ctr}
    {
      BitOfOr(shifted, 1, i);
      BitOfPow2(0, i);
      if d >= REPLAY_WINDOW { BitOfZero(i); } else { BitOfShiftLeft64(w.seen, d, i); }
    }
  }

  lemma BehindTracks(w: Window, accepted: set<u64>, ctr: u64)
    requires Tracks(w, accepted) && ctr <= w.recv <= ctr + 64
    ensures var bit := ShiftLeft64(1, w.recv - ctr);
            && (And(w.seen, bit) != 0 <==> w.recv - ctr < 64 && ctr in accepted)
            && (And(w.seen, bit) == 0 ==> Tracks(Window(w.recv, Or64(w.seen, bit)), accepted + {ctr}))
  {
    var d := w.recv - ctr;
    var bit := ShiftLeft64(1, d);
    OneShifted(d);
    if d < 64 { AndTestsBit(w.seen, d); assert ctr == w.recv - d; }
    forall i | 0 <= i < 64
      ensures Bit(Or64(w.seen, bit), i) <==> w.recv - i in accepted + {ctr}
    {
      assert Bit(w.seen, i) <==> w.recv - i in accepted;
      BitOfOr(w.seen, bit, i);
      if d < 64 { BitOfPow2(d, i); } else { BitOfZero(i); }
    }
    if accepted == {} {
      assert w.recv == ctr;
    }
  }

  /** The word and counter decide exactly as the set of accepted counters does, and keep describing it. */
  lemma ReceiveRefines(limit: nat, w: Window, accepted: set<u64>, ctr: u64)
    requires limit <= 64 && Tracks(w, accepted)
    ensures Receive(limit, w, ctr).Ok? <==> Admissible(limit, w.recv, accepted, ctr)
    ensures Receive(limit, w, ctr).Ok? ==> Tracks(Receive(limit, w, ctr).value, accepted + {ctr})
    ensures Receive(limit, w, ctr) == Err(Duplicate) ==> ctr in accepted
  {
    if (ctr + limit) % LIMIT64 < w.recv {
    } else if ctr > w.recv {
      AheadTracks(w, accepted, ctr);
    } else {
      BehindTracks(w, accepted, ctr);
    }
  }

  /** A counter is accepted a second time exactly when it is 64 behind the highest. */
  lemma AcceptedAgain(w: Window, accepted: set<u64>, ctr: u64)
    requires Tracks(w, accepted) && ctr in accepted
    ensures Receive(REPLAY_WINDOW, w, ctr).Ok? <==> w.recv == ctr + 64
    ensures forall limit: nat :: limit < 64 ==> Receive(limit, w, ctr).Err?
  {
    ReceiveRefines(REPLAY_WINDOW, w, accepted, ctr);
    forall limit: nat | limit < 64
      ensures Receive(limit, w, ctr).Err?
    {
      ReceiveRefines(limit, w, accepted, ctr);
    }
  }

  // ---- whole runs ----

  /** The window after a run of authentic counters, in arrival order. */
  function WindowAfter(limit: nat, run: seq<u64>): Window
  {
    if run == [] then EMPTY_WINDOW
    else
      var w := WindowAfter(limit, run[..|run| - 1]);
      match Receive(limit, w, run[|run| - 1])
      case Ok(w') => w'
      case Err(_) => w
  }

  predicate AcceptedAt(limit: nat, run: seq<u64>, i: nat)
    requires i < |run|
  {
    Receive(limit, WindowAfter(limit, run[..i]), run[i]).Ok?
  }

  ghost function AcceptedIn(limit: nat, run: seq<u64>): set<u64>
  {
    set i | 0 <= i < |run| && AcceptedAt(limit, run, i) :: run[i]
  }

  lemma AcceptedInPrefix(limit: nat, run: seq<u64>)
    requires run != []
    ensures var init := run[..|run| - 1];
            AcceptedIn(limit, run) ==
              AcceptedIn(limit, init) + if AcceptedAt(limit, run, |init|) then {run[|init|]} else {}
  {
    var init := run[..|run| - 1];
    forall i | 0 <= i < |init|
      ensures AcceptedAt(limit, run, i) == AcceptedAt(limit, init, i)
    {
      assert init[..i] == run[..i];
    }
    var whole := AcceptedIn(limit, init) + if AcceptedAt(limit, run, |init|) then {run[|init|]} else {};
    forall c | c in AcceptedIn(limit, init)
      ensures c in AcceptedIn(limit, run)
    {
      var i :| 0 <= i < |init| && AcceptedAt(limit, init, i) && init[i] == c;
      assert AcceptedAt(limit, run, i) && run[i] == c;
    }
    assert AcceptedIn(limit, run) <= whole;
  }

  lemma {:induction false} RunTracks(limit: nat, run: seq<u64>)
    requires limit <= 64
    ensures Tracks(WindowAfter(limit, run), AcceptedIn(limit, run))
  {
    hide Tracks, Receive, Admissible;
    if run == [] {
      assert AcceptedIn(limit, run) == {};
      TracksNothing();
    } else {
      var init := run[..|run| - 1];
      RunTracks(limit, init);
      AcceptedInPrefix(limit, run);
      assert AcceptedIn(limit, init) + {} == AcceptedIn(limit, init);
      ReceiveRefines(limit, WindowAfter(limit, init), AcceptedIn(limit, init), run[|init|]);
    }
  }

  /** In any run, a counter accepted twice was exactly 64 behind the highest the second time. */
  lemma ReplayOnlyAtEdge(run: seq<u64>, i: nat, j: nat)
    requires i < j < |run| && run[i] == run[j]
    requires AcceptedAt(REPLAY_WINDOW, run, i)
    ensures AcceptedAt(REPLAY_WINDOW, run, j) <==>
              WindowAfter(REPLAY_WINDOW, run[..j]).recv == run[j] as int + 64
  {
    RunTracks(REPLAY_WINDOW, run[..j]);
    assert run[..j][..i] == run[..i];
    assert AcceptedAt(REPLAY_WINDOW, run[..j], i);
    AcceptedAgain(WindowAfter(REPLAY_WINDOW, run[..j]), AcceptedIn(REPLAY_WINDOW, run[..j]), run[j]);
  }

  /** With the age test tightened by one or more, no counter is accepted twice in any run. */
  lemma TightWindowAcceptsOnce(limit: nat, run: seq<u64>, i: nat, j: nat)
    requires limit < 64 && i < j < |run| && run[i] == run[j]
    ensures !AcceptedAt(limit, run, i) || !AcceptedAt(limit, run, j)
  {
    if AcceptedAt(limit, run, i) {
      RunTracks(limit, run[..j]);
      assert run[..j][..i] == run[..i];
      assert AcceptedAt(limit, run[..j], i);
      AcceptedAgain(WindowAfter(limit, run[..j]), AcceptedIn(limit, run[..j]), run[j]);
    }
  }

  /** The run 0, 64, 0, 0 delivers counter 0 three times. */
  lemma EdgeReplays()
    ensures forall i :: 0 <= i < 4 ==> AcceptedAt(REPLAY_WINDOW, [0, 64, 0, 0], i)
  {
    var run: seq<u64> := [0, 64, 0, 0];
    var L := REPLAY_WINDOW;
    RunTracks(L, run[..0]);
    ReceiveRefines(L, WindowAfter(L, run[..0]), AcceptedIn(L, run[..0]), 0);
    assert AcceptedAt(L, run, 0);
    assert run[..1][..0] == run[..0];
    assert WindowAfter(L, run[..1]).recv == 0;
    RunTracks(L, run[..1]);
    ReceiveRefines(L, WindowAfter(L, run[..1]), AcceptedIn(L, run[..1]), 64);
    assert AcceptedAt(L, run, 1);
    assert run[..2][..1] == run[..1];
    assert WindowAfter(L, run[..2]).recv == 64;
    ReplayOnlyAtEdge(run, 0, 2);
    assert run[..3][..2] == run[..2];
    assert WindowAfter(L, run[..3]).recv == 64;
    ReplayOnlyAtEdge(run, 0, 3);
  }

  // ---- sealing and opening packets ----

  /** Four zero bytes and the counter. */
  function Nonce(ctr: u64): (n: bytes)
  {
    [0, 0, 0, 0] + BigEndian(8, ctr)
  }

  /** The packet that carries plaintext under a given counter. */
  function SealedPacket(suite: Suite, key: bytes, ctr: u64, aad: bytes, plaintext: bytes): bytes
  {
    BigEndian(8, ctr) + suite.aeadSeal(key, Nonce(ctr), aad, plaintext)
  }

  /**
   What is on the wire: the counter in the first eight bytes, most significant first, and behind it the plaintext
   encrypted under a nonce of four zero bytes and the same eight. No two counters share a nonce.
   */
  lemma SealedPacketSpellsCounter(suite: Suite, key: bytes, ctr: u64, aad: bytes, plaintext: bytes)
    ensures var packet := SealedPacket(suite, key, ctr, aad, plaintext);
            && |packet| >= 8 && FromBigEndian(packet[..8]) == ctr
            && packet[8..] == suite.aeadSeal(key, [0, 0, 0, 0] + packet[..8], aad, plaintext)
    ensures forall other: u64 :: Nonce(other) == Nonce(ctr) ==> other == ctr
  {
    var packet := SealedPacket(suite, key, ctr, aad, plaintext);
    FixedWidths(ctr);
    assert packet[..8] == BigEndian(8, ctr);
    forall other: u64 | Nonce(other) == Nonce(ctr) ensures other == ctr {
      FixedWidths(other);
      assert Nonce(other)[4..] == BigEndian(8, other) && Nonce(ctr)[4..] == BigEndian(8, ctr);
    }
  }

  function SealStep(suite: Suite, s: SessionState, aad: bytes, plaintext: bytes): (SessionState, bytes)
  {
    (s.(send := (s.send + 1) % LIMIT64), SealedPacket(suite, s.key, s.send, aad, plaintext))
  }

  function Counter(packet: bytes): u64
    requires |packet| >= 8
  {
    Pow256Widths();
    FromBigEndian(packet[..8])
  }

  function OpenStep(suite: Suite, s: SessionState, aad: bytes, packet: bytes): Result<(SessionState, bytes), OpenError>
  {
    if |packet| < 8 + TAG_LENGTH then Err(TooShort)
    else
      var ctr := Counter(packet);
      match suite.aeadOpen(s.key, Nonce(ctr), aad, packet[8..])
      case None => Err(NotAuthentic)
      case Some(plaintext) =>
        match Receive(suite.replayWindow, s.window, ctr)
        case Err(e) => Err(e)
        case Ok(w) => Ok((s.(window := w), plaintext))
  }

  /** A sealed packet opened under the same key yields the plaintext if and only if the window admits its counter. */
  lemma OpenSealed(suite: Suite, s: SessionState, ctr: u64, aad: bytes, plaintext: bytes)
    requires suite.Lawful()
    ensures var packet := SealedPacket(suite, s.key, ctr, aad, plaintext);
            && |packet| >= 8 && Counter(packet) == ctr
            && OpenStep(suite, s, aad, packet) ==
                 match Receive(suite.replayWindow, s.window, ctr)
                 case Ok(w) => Ok((s.(window := w), plaintext))
                 case Err(e) => Err(e)
  {
    var packet := SealedPacket(suite, s.key, ctr, aad, plaintext);
    FixedWidths(ctr);
    assert packet[..8] == BigEndian(8, ctr);
    assert packet[8..] == suite.aeadSeal(s.key, Nonce(ctr), aad, plaintext);
  }

  /** The mutable session object. */
  class Session {
    const key: bytes
    var send: u64
    var recv: u64
    var seen: u64

    constructor (key: bytes)
      ensures State() == SessionState(key, 0, EMPTY_WINDOW)
    {
      this.key := key;
      send, recv, seen := 0, 0, 0;
    }

    function State(): SessionState
      reads this
    {
      SessionState(key, send, Window(recv, seen))
    }

    method Seal(suite: Suite, aad: bytes, plaintext: bytes) returns (out: bytes)
      modifies this
      ensures (State(), out) == SealStep(suite, old(State()), aad, plaintext)
    {
      var ctr := send;
      send := (send + 1) % LIMIT64;
      var ct := suite.aeadSeal(key, Nonce(ctr), aad, plaintext);
      out := BigEndian(8, ctr) + ct;
    }

    /** The counter state moves only when the packet authenticates and the window admits it. */
    method Open(suite: Suite, aad: bytes, packet: bytes) returns (r: Result<bytes, OpenError>)
      modifies this
      ensures match OpenStep(suite, old(State()), aad, packet)
              case Ok((s, plaintext)) => r == Ok(plaintext) && State() == s
              case Err(e) => r == Err(e) && State() == old(State())
    {
      if |packet| < 8 + TAG_LENGTH {
        return Err(TooShort);
      }
      var ctr := Counter(packet);
      var plaintext := suite.aeadOpen(key, Nonce(ctr), aad, packet[8..]);
      if plaintext.None? {
        return Err(NotAuthentic);
      }
      if (ctr + suite.replayWindow) % LIMIT64 < recv {
        return Err(TooOld);
      } else if ctr > recv {
        var d := ctr - recv;
        if d >= REPLAY_WINDOW {
          seen := 0;
        } else {
          seen := ShiftLeft64(seen, d);
        }
        recv := ctr;
        seen := Or64(seen, 1);
      } else {
        var bit := ShiftLeft64(1, recv - ctr);
        if And(seen, bit) != 0 {
          return Err(Duplicate);
        }
        seen := Or64(seen, bit);
      }
      return Ok(plaintext.value);
    }
  }
}
