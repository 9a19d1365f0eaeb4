/**
 Derivation of the session key from both sides' key material. Every list that goes into it is
 sorted first, so that the two ends need not agree on who started the connection.
 */
module KeyExchange {
  import opened Wrappers
  import opened Bytes
  import opened Primitives
  import opened Sessions

  ghost predicate Ordered(s: seq<bytes>)
  {
    forall i, j :: 0 <= i < j < |s| ==> !Less(s[j], s[i])
  }

  // ---- canonical arrangement ----

  /** x put into t after everything that is not above it. */
  function Insert(x: bytes, t: seq<bytes>): seq<bytes>
  {
    if t == [] then [x]
    else if Less(x, t[|t| - 1]) then Insert(x, t[..|t| - 1]) + [t[|t| - 1]]
    else t + [x]
  }

  function Canonical(s: seq<bytes>): seq<bytes>
  {
    if s == [] then [] else Insert(s[|s| - 1], Canonical(s[..|s| - 1]))
  }

  lemma {:induction false} InsertKeepsOrder(x: bytes, t: seq<bytes>)
    requires Ordered(t)
    ensures Ordered(Insert(x, t))
    ensures multiset(Insert(x, t)) == multiset(t) + multiset{x}
  {
    if t == [] {
    } else {
      var init, last := t[..|t| - 1], t[|t| - 1];
      assert t == init + [last];
      if Less(x, last) {
        InsertKeepsOrder(x, init);
        var r := Insert(x, init);
        LessIsStrict(x, last);
        forall i | 0 <= i < |r|
          ensures !Less(last, r[i])
        {
          assert r[i] in multiset(r);
          assert r[i] == x || r[i] in multiset(init);
        }
      } else {
        forall i | 0 <= i < |t|
          ensures !Less(x, t[i])
        {
          if i < |t| - 1 { LessIsTransitive(t[i], last, x); }
        }
      }
    }
  }

  lemma {:induction false} CanonicalSorts(s: seq<bytes>)
    ensures Ordered(Canonical(s)) && multiset(Canonical(s)) == multiset(s)
    ensures |Canonical(s)| == |s|
  {
    if s == [] {
    } else {
      var init, last := s[..|s| - 1], s[|s| - 1];
      CanonicalSorts(init);
      InsertKeepsOrder(last, Canonical(init));
      assert s == init + [last];
    }
    assert |multiset(Canonical(s))| == |multiset(s)|;
  }

  /** An ordered list is determined by what occurs in it. */
  lemma PrefixOrdered(s: seq<bytes>)
    requires Ordered(s) && s != []
    ensures Ordered(s[..|s| - 1])
  {
  }

  /** Both end with the greatest key. */
  lemma SameLast(s: seq<bytes>, t: seq<bytes>)
    requires Ordered(s) && Ordered(t) && multiset(s) == multiset(t) && s != [] && t != []
    ensures s[|s| - 1] == t[|t| - 1]
  {
    var a, b := s[|s| - 1], t[|t| - 1];
    assert a in multiset(t) && b in multiset(s);
    LessIsTotal(a, b);
  }

  lemma {:induction false} OrderedIsUnique(s: seq<bytes>, t: seq<bytes>)
    requires Ordered(s) && Ordered(t) && multiset(s) == multiset(t)
    ensures s == t
  {
    hide Ordered, Less;
    assert |s| == |multiset(s)| == |multiset(t)| == |t|;
    if s == [] {
    } else {
      var n := |s| - 1;
      SameLast(s, t);
      assert s == s[..n] + [s[n]] && t == t[..n] + [t[n]];
      assert multiset(s[..n]) == multiset(s) - multiset{s[n]} == multiset(t[..n]);
      PrefixOrdered(s);
      PrefixOrdered(t);
      OrderedIsUnique(s[..n], t[..n]);
    }
  }

  /** The canonical arrangement forgets the order of its input, and nothing else. */
  lemma CanonicalIffSameKeys(s: seq<bytes>, t: seq<bytes>)
    ensures Canonical(s) == Canonical(t) <==> multiset(s) == multiset(t)
  {
    CanonicalSorts(s);
    CanonicalSorts(t);
    if multiset(s) == multiset(t) { OrderedIsUnique(Canonical(s), Canonical(t)); }
  }

  function Concat(s: seq<bytes>): bytes
  {
    if s == [] then [] else Concat(s[..|s| - 1]) + s[|s| - 1]
  }

  /** Appending is all Concat does. */
  lemma {:induction false} ConcatJoins(s: seq<bytes>, t: seq<bytes>)
    ensures Concat(s + t) == Concat(s) + Concat(t)
    ensures forall x: bytes :: Concat([x]) == x
  {
    forall x: bytes ensures Concat([x]) == x {
      assert [x][..0] == [];
    }
    if t == [] {
      assert s + t == s;
    } else {
      var init, last := t[..|t| - 1], t[|t| - 1];
      ConcatJoins(s, init);
      assert (s + t)[..|s + t| - 1] == s + init;
    }
  }

  ghost predicate AllKeys(s: seq<bytes>)
  {
    forall x :: x in s ==> |x| == KEY_LENGTH
  }

  lemma {:induction false} ConcatSplits(s: seq<bytes>, t: seq<bytes>)
    requires AllKeys(s) && AllKeys(t) && Concat(s) == Concat(t)
    ensures s == t
  {
    if s == [] || t == [] {
    } else {
      var m, n := |s| - 1, |t| - 1;
      var c := Concat(s);
      assert c == Concat(s[..m]) + s[m] == Concat(t[..n]) + t[n];
      assert s[m] == c[|c| - KEY_LENGTH..] == t[n];
      assert Concat(s[..m]) == c[..|c| - KEY_LENGTH] == Concat(t[..n]);
      ConcatSplits(s[..m], t[..n]);
      assert s == s[..m] + [s[m]] == t;
    }
  }

  lemma SameKeysAreKeys(s: seq<bytes>, t: seq<bytes>)
    requires AllKeys(s) && multiset(s) == multiset(t)
    ensures AllKeys(t)
  {
    forall x | x in t ensures |x| == KEY_LENGTH {
      assert x in multiset(t);
    }
  }

  /** Two lists of 32-byte keys give the same canonical byte string exactly when they hold the same keys. */
  lemma TranscriptBindsKeys(s: seq<bytes>, t: seq<bytes>)
    requires AllKeys(s) && AllKeys(t)
    ensures Concat(Canonical(s)) == Concat(Canonical(t)) <==> multiset(s) == multiset(t)
  {
    hide Canonical, Ordered, AllKeys, Concat;
    CanonicalIffSameKeys(s, t);
    CanonicalSorts(s);
    CanonicalSorts(t);
    SameKeysAreKeys(s, Canonical(s));
    SameKeysAreKeys(t, Canonical(t));
    if Concat(Canonical(s)) == Concat(Canonical(t)) {
      ConcatSplits(Canonical(s), Canonical(t));
    }
  }

  // ---- the handshake message ----

  datatype Handshake = Handshake(eph: bytes, stat: bytes)

  function Marshal(h: Handshake): bytes
  {
    h.eph + h.stat
  }

  function Unmarshal(b: bytes): Option<Handshake>
  {
    if |b| != 64 then None else Some(Handshake(b[..32], b[32..]))
  }

  /** A message of two keys survives the wire, and any message the parser takes is rebuilt byte for byte. */
  lemma HandshakeRoundTrip(h: Handshake, b: bytes)
    ensures |h.eph| == 32 && |h.stat| == 32 ==> Unmarshal(Marshal(h)) == Some(h)
    ensures Unmarshal(b).Some? ==> Marshal(Unmarshal(b).value) == b
  {
  }

  // ---- session keys ----

  datatype KeyError = BadPublicKey | WeakSharedSecret

  /** The all-zero result X25519 refuses. */
  const ZERO_SECRET: bytes := seq(KEY_LENGTH, _ => 0)

  function SharedSecrets(suite: Suite, myStatic: bytes, myEph: bytes, peer: Handshake): seq<bytes>
  {
    [suite.dh(myStatic, peer.eph), suite.dh(myEph, peer.stat), suite.dh(myEph, peer.eph)]
  }

  function PublicKeys(suite: Suite, myStatic: bytes, myEph: bytes, peer: Handshake): seq<bytes>
  {
    [suite.publicKey(myEph), suite.publicKey(myStatic), peer.eph, peer.stat]
  }

  function DeriveKey(suite: Suite, myStatic: bytes, myEph: bytes, peer: Handshake): Result<bytes, KeyError>
  {
    var secrets := SharedSecrets(suite, myStatic, myEph, peer);
    if |peer.eph| != KEY_LENGTH || |peer.stat| != KEY_LENGTH then Err(BadPublicKey)
    else if ZERO_SECRET in secrets then Err(WeakSharedSecret)
    else
      var transcript := PublicKeys(suite, myStatic, myEph, peer);
      Ok(suite.hkdf(Concat(Canonical(secrets)), suite.sha256(Concat(Canonical(transcript)))))
  }

  /** What one side sends: its two public keys. */
  function HandshakeOf(suite: Suite, myStatic: bytes, myEph: bytes): Handshake
  {
    Handshake(suite.publicKey(myEph), suite.publicKey(myStatic))
  }

  /** Each side computes the same three secrets, the first two in the other order. */
  lemma SameSecrets(suite: Suite, staticA: bytes, ephA: bytes, staticB: bytes, ephB: bytes)
    requires suite.Lawful()
    ensures var a := SharedSecrets(suite, staticA, ephA, HandshakeOf(suite, staticB, ephB));
            var b := SharedSecrets(suite, staticB, ephB, HandshakeOf(suite, staticA, ephA));
            multiset(a) == multiset(b) && (ZERO_SECRET in a <==> ZERO_SECRET in b)
  {
  }

  /** The secrets one side of a handshake agrees on, one by one. */
  lemma SecretsApart(suite: Suite, static1: bytes, eph1: bytes, static2: bytes, eph2: bytes, x: bytes)
    ensures x in SharedSecrets(suite, static1, eph1, HandshakeOf(suite, static2, eph2)) <==>
              || x == suite.dh(static1, suite.publicKey(eph2))
              || x == suite.dh(eph1, suite.publicKey(static2))
              || x == suite.dh(eph1, suite.publicKey(eph2))
  {
  }

  lemma SamePublicKeys(suite: Suite, staticA: bytes, ephA: bytes, staticB: bytes, ephB: bytes)
    ensures multiset(PublicKeys(suite, staticA, ephA, HandshakeOf(suite, staticB, ephB))) ==
            multiset(PublicKeys(suite, staticB, ephB, HandshakeOf(suite, staticA, ephA)))
  {
  }

  /**
   Role independence: two sides that hold each other's handshake derive the same key, or both
   refuse, whoever sent first.
   */
  lemma BothSidesDeriveSameKey(suite: Suite, staticA: bytes, ephA: bytes, staticB: bytes, ephB: bytes)
    requires suite.Lawful()
    ensures DeriveKey(suite, staticA, ephA, HandshakeOf(suite, staticB, ephB)) ==
            DeriveKey(suite, staticB, ephB, HandshakeOf(suite, staticA, ephA))
  {
    var hA, hB := HandshakeOf(suite, staticA, ephA), HandshakeOf(suite, staticB, ephB);
    SameSecrets(suite, staticA, ephA, staticB, ephB);
    SamePublicKeys(suite, staticA, ephA, staticB, ephB);
    CanonicalIffSameKeys(SharedSecrets(suite, staticA, ephA, hB), SharedSecrets(suite, staticB, ephB, hA));
    CanonicalIffSameKeys(PublicKeys(suite, staticA, ephA, hB), PublicKeys(suite, staticB, ephB, hA));
  }

  /** x holds exactly the byte strings of m, none before a lesser one. */
  ghost predicate Arranges(x: seq<bytes>, m: multiset<bytes>)
  {
    multiset(x) == m && Ordered(x)
  }

  /** key is made of the arranged secrets and, as salt, the hash of the arranged public keys. */
  ghost predicate MadeOf(suite: Suite, key: bytes, secrets: multiset<bytes>, publics: multiset<bytes>)
  {
    exists x, y :: Arranges(x, secrets) && Arranges(y, publics) && key == suite.hkdf(Concat(x), suite.sha256(Concat(y)))
  }

  lemma MadeOfLists(suite: Suite, secrets: seq<bytes>, publics: seq<bytes>)
    ensures MadeOf(suite, suite.hkdf(Concat(Canonical(secrets)), suite.sha256(Concat(Canonical(publics)))),
                   multiset(secrets), multiset(publics))
  {
    CanonicalSorts(secrets);
    CanonicalSorts(publics);
    hide Canonical, Ordered, Concat;
    assert Arranges(Canonical(secrets), multiset(secrets)) && Arranges(Canonical(publics), multiset(publics));
  }

  lemma ThreeOf(a: bytes, b: bytes, c: bytes)
    ensures multiset([a, b, c]) == multiset{a, b, c}
  {
  }

  lemma FourOf(a: bytes, b: bytes, c: bytes, d: bytes)
    ensures multiset([a, b, c, d]) == multiset{a, b, c, d}
  {
  }

  lemma WhatIsDerived(suite: Suite, myStatic: bytes, myEph: bytes, peer: Handshake)
    requires DeriveKey(suite, myStatic, myEph, peer).Ok?
    ensures MadeOf(suite, DeriveKey(suite, myStatic, myEph, peer).value,
                   multiset(SharedSecrets(suite, myStatic, myEph, peer)),
                   multiset(PublicKeys(suite, myStatic, myEph, peer)))
  {
    hide MadeOf, Canonical, Concat, SharedSecrets, PublicKeys;
    MadeOfLists(suite, SharedSecrets(suite, myStatic, myEph, peer), PublicKeys(suite, myStatic, myEph, peer));
  }

  lemma DerivableIff(suite: Suite, myStatic: bytes, myEph: bytes, peer: Handshake)
    ensures var r, zero := DeriveKey(suite, myStatic, myEph, peer), seq(32, _ => 0);
            && (r == Err(BadPublicKey) <==> |peer.eph| != 32 || |peer.stat| != 32)
            && (r.Ok? <==> |peer.eph| == 32 && |peer.stat| == 32 && suite.dh(myStatic, peer.eph) != zero
                           && suite.dh(myEph, peer.stat) != zero && suite.dh(myEph, peer.eph) != zero)
  {
    hide Canonical, Concat;
    assert ZERO_SECRET == seq(32, _ => 0);
  }

  /**
   A key comes about exactly when both of the peer's keys have 32 bytes and none of the three agreements,
   static with ephemeral, ephemeral with static and ephemeral with ephemeral, is all zero; and then it is made
   of those three and of the four public keys.
   */
  lemma KeyIsMadeOfThreeSecrets(suite: Suite, myStatic: bytes, myEph: bytes, peer: Handshake)
    ensures var r, zero := DeriveKey(suite, myStatic, myEph, peer), seq(32, _ => 0);
            var a, b, c := suite.dh(myStatic, peer.eph), suite.dh(myEph, peer.stat), suite.dh(myEph, peer.eph);
            && (r.Ok? <==> |peer.eph| == 32 && |peer.stat| == 32 && a != zero && b != zero && c != zero)
            && (r == Err(BadPublicKey) <==> |peer.eph| != 32 || |peer.stat| != 32)
            && (r.Ok? ==> MadeOf(suite, r.value, multiset{a, b, c},
                                 multiset{suite.publicKey(myEph), suite.publicKey(myStatic), peer.eph, peer.stat}))
  {
    hide MadeOf, DeriveKey;
    if DeriveKey(suite, myStatic, myEph, peer).Ok? { WhatIsDerived(suite, myStatic, myEph, peer); }
    DerivableIff(suite, myStatic, myEph, peer);
    ThreeOf(suite.dh(myStatic, peer.eph), suite.dh(myEph, peer.stat), suite.dh(myEph, peer.eph));
    FourOf(suite.publicKey(myEph), suite.publicKey(myStatic), peer.eph, peer.stat);
  }

  ghost predicate AllKeysIn(m: multiset<bytes>)
  {
    forall x :: x in m ==> |x| == KEY_LENGTH
  }

  lemma ArrangedOnce(x: seq<bytes>, m: multiset<bytes>, x': seq<bytes>, m': multiset<bytes>)
    requires Arranges(x, m) && Arranges(x', m') && AllKeysIn(m) && AllKeysIn(m') && Concat(x) == Concat(x')
    ensures m == m'
  {
    hide Concat, Ordered;
    assert forall z :: z in x ==> z in multiset(x);
    assert forall z :: z in x' ==> z in multiset(x');
    ConcatSplits(x, x');
  }

  /** Without collisions, one key is made of one multiset of secrets and one of public keys. */
  lemma KeyBindsItsParts(suite: Suite, key: bytes, secrets: multiset<bytes>, publics: multiset<bytes>,
                         secrets': multiset<bytes>, publics': multiset<bytes>)
    requires suite.Binding() && AllKeysIn(secrets) && AllKeysIn(publics) && AllKeysIn(secrets') && AllKeysIn(publics')
    requires MadeOf(suite, key, secrets, publics) && MadeOf(suite, key, secrets', publics')
    ensures secrets == secrets' && publics == publics'
  {
    hide Concat, Arranges;
    var x, y :| Arranges(x, secrets) && Arranges(y, publics) && key == suite.hkdf(Concat(x), suite.sha256(Concat(y)));
    var x', y' :| Arranges(x', secrets') && Arranges(y', publics')
                  && key == suite.hkdf(Concat(x'), suite.sha256(Concat(y')));
    ArrangedOnce(x, secrets, x', secrets');
    ArrangedOnce(y, publics, y', publics');
  }

  /**
   Without collisions, two derivations that end in one key agreed on the same three secrets and saw the same
   four public keys: nobody arrives at a session's key without every one of them.
   */
  lemma EqualKeysMeanEqualParts(suite: Suite, static1: bytes, eph1: bytes, peer1: Handshake,
                                static2: bytes, eph2: bytes, peer2: Handshake)
    requires suite.Lawful() && suite.Binding()
    requires DeriveKey(suite, static1, eph1, peer1).Ok?
    requires DeriveKey(suite, static1, eph1, peer1) == DeriveKey(suite, static2, eph2, peer2)
    ensures multiset{suite.dh(static1, peer1.eph), suite.dh(eph1, peer1.stat), suite.dh(eph1, peer1.eph)} ==
            multiset{suite.dh(static2, peer2.eph), suite.dh(eph2, peer2.stat), suite.dh(eph2, peer2.eph)}
    ensures multiset{suite.publicKey(eph1), suite.publicKey(static1), peer1.eph, peer1.stat} ==
            multiset{suite.publicKey(eph2), suite.publicKey(static2), peer2.eph, peer2.stat}
  {
    hide DeriveKey, MadeOf, Suite.Binding;
    KeyIsMadeOfThreeSecrets(suite, static1, eph1, peer1);
    KeyIsMadeOfThreeSecrets(suite, static2, eph2, peer2);
    KeyBindsItsParts(suite, DeriveKey(suite, static1, eph1, peer1).value,
      multiset{suite.dh(static1, peer1.eph), suite.dh(eph1, peer1.stat), suite.dh(eph1, peer1.eph)},
      multiset{suite.publicKey(eph1), suite.publicKey(static1), peer1.eph, peer1.stat},
      multiset{suite.dh(static2, peer2.eph), suite.dh(eph2, peer2.stat), suite.dh(eph2, peer2.eph)},
      multiset{suite.publicKey(eph2), suite.publicKey(static2), peer2.eph, peer2.stat});
  }

  // ---- the program's form ----

  lemma {:induction false} InsertPassesTail(x: bytes, t: seq<bytes>, j: nat)
    requires j <= |t| && forall k :: j <= k < |t| ==> Less(x, t[k])
    ensures Insert(x, t) == Insert(x, t[..j]) + t[j..]
  {
    if j == |t| {
      assert t[..j] == t;
    } else {
      var init := t[..|t| - 1];
      InsertPassesTail(x, init, j);
      assert init[..j] == t[..j];
      assert t[j..] == init[j..] + [t[|t| - 1]];
    }
  }

  /** Moves element i of an array down to its place among the elements before it. */
  method SiftDown(a: array<bytes>, i: nat)
    requires i < a.Length
    modifies a
    ensures a[..i + 1] == Insert(old(a[i]), old(a[..i]))
    ensures a[i + 1..] == old(a[i + 1..])
  {
    ghost var t := a[..i];
    ghost var x := a[i];
    var j := i;
    while j > 0 && Less(a[j], a[j - 1])
      invariant 0 <= j <= i
      invariant a[..i + 1] == t[..j] + [x] + t[j..]
      invariant a[i + 1..] == old(a[i + 1..])
      invariant forall k :: j <= k < i ==> Less(x, t[k])
    {
      ghost var now := a[..i + 1];
      assert now[j] == x && now[j - 1] == t[j - 1];
      a[j], a[j - 1] := a[j - 1], a[j];
      j := j - 1;
      assert a[..i + 1] == now[j := x][j + 1 := t[j]];
    }
    InsertPassesTail(x, t, j);
    ghost var now := a[..i + 1];
    assert now[j] == x && (j > 0 ==> now[j - 1] == t[j - 1]);
    assert Insert(x, t[..j]) == t[..j] + [x];
  }

  /** Insertion sort in place, as the standard library sorts short slices. */
  method SortSlices(a: array<bytes>)
    modifies a
    ensures a[..] == Canonical(old(a[..]))
  {
    var i := 0;
    while i < a.Length
      invariant 0 <= i <= a.Length
      invariant a[..i] == Canonical(old(a[..i]))
      invariant a[i..] == old(a[i..])
    {
      assert a[i] == a[i..][0];
      assert old(a[..i + 1]) == old(a[..i]) + [a[i]];
      assert a[i + 1..] == a[i..][1..];
      SiftDown(a, i);
      i := i + 1;
    }
    assert a[..] == a[..i] && old(a[..]) == old(a[..i]);
  }

  method ConcatSlices(a: array<bytes>) returns (out: bytes)
    ensures out == Concat(a[..])
  {
    out := [];
    var i := 0;
    while i < a.Length
      invariant 0 <= i <= a.Length
      invariant out == Concat(a[..i])
    {
      assert a[..i + 1] == a[..i] + [a[i]];
      out := out + a[i];
      i := i + 1;
    }
    assert a[..] == a[..i];
  }

  /**
   The derivation as the program performs it: three agreements, two in-place sorts, two appends. The session
   starts at counter 0 with nothing received.
   */
  method NewSession(suite: Suite, myStatic: bytes, myEph: bytes, peer: Handshake)
    returns (r: Result<SessionState, KeyError>)
    ensures r == match DeriveKey(suite, myStatic, myEph, peer)
                 case Ok(key) => Ok(SessionState(key, 0, EMPTY_WINDOW))
                 case Err(e) => Err(e)
    ensures var a, b, c := suite.dh(myStatic, peer.eph), suite.dh(myEph, peer.stat), suite.dh(myEph, peer.eph);
            r.Ok? ==> MadeOf(suite, r.value.key, multiset{a, b, c},
                             multiset{suite.publicKey(myEph), suite.publicKey(myStatic), peer.eph, peer.stat})
  {
    hide MadeOf, Canonical, Concat;
    KeyIsMadeOfThreeSecrets(suite, myStatic, myEph, peer);
    if |peer.eph| != KEY_LENGTH {
      return Err(BadPublicKey);
    }
    if |peer.stat| != KEY_LENGTH {
      return Err(BadPublicKey);
    }
    var staticEph := suite.dh(myStatic, peer.eph);
    if staticEph == ZERO_SECRET {
      return Err(WeakSharedSecret);
    }
    var ephStatic := suite.dh(myEph, peer.stat);
    if ephStatic == ZERO_SECRET {
      return Err(WeakSharedSecret);
    }
    var ephEph := suite.dh(myEph, peer.eph);
    if ephEph == ZERO_SECRET {
      return Err(WeakSharedSecret);
    }
    var secrets := new bytes[] [staticEph, ephStatic, ephEph];
    assert secrets[..] == SharedSecrets(suite, myStatic, myEph, peer);
    SortSlices(secrets);
    var ikm := ConcatSlices(secrets);
    var transcript := new bytes[] [suite.publicKey(myEph), suite.publicKey(myStatic), peer.eph, peer.stat];
    assert transcript[..] == PublicKeys(suite, myStatic, myEph, peer);
    SortSlices(transcript);
    var tb := ConcatSlices(transcript);
    var key := suite.hkdf(ikm, suite.sha256(tb));
    return Ok(SessionState(key, 0, EMPTY_WINDOW));
  }
}
