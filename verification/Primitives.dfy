/**
 The cryptographic functions the program takes from its standard library, as an arbitrary record
 of functions, together with the age limit of the replay window. Theorems hold for every record
 that satisfies Lawful; the program's has REPLAY_WINDOW as its limit.
 */
module Primitives {
  import opened Wrappers
  import opened Bytes

  const KEY_LENGTH: nat := 32
  const TAG_LENGTH: nat := 16

  /** How far behind the highest counter a packet may be before it counts as too old, in the program. */
  const REPLAY_WINDOW: nat := 64

  datatype Suite = Suite(
    publicKey: bytes -> bytes,                                    // X25519 public key of a private key
    dh: (bytes, bytes) -> bytes,                                  // X25519(private, public)
    sha256: bytes -> bytes,
    hkdf: (bytes, bytes) -> bytes,                                // input key material, salt
    aeadSeal: (bytes, bytes, bytes, bytes) -> bytes,              // key, nonce, associated data, plaintext
    aeadOpen: (bytes, bytes, bytes, bytes) -> Option<bytes>,      // key, nonce, associated data, ciphertext
    replayWindow: nat)                                            // age limit of a session's replay window
  {
    /**
     Diffie-Hellman commutes, keys have their fixed length, decryption undoes encryption, and the age
     limit is at most the program's.
     */
    ghost predicate Lawful() {
      && (forall a, b :: dh(a, publicKey(b)) == dh(b, publicKey(a)))
      && (forall a :: |publicKey(a)| == KEY_LENGTH)
      && (forall a, b :: |dh(a, b)| == KEY_LENGTH)
      && (forall k, n, d, p :: |aeadSeal(k, n, d, p)| == |p| + TAG_LENGTH)
      && (forall k, n, d, p :: aeadOpen(k, n, d, aeadSeal(k, n, d, p)) == Some(p))
      && replayWindow <= REPLAY_WINDOW
    }

    /** The hash and the key derivation have no collisions. Only theorems that say so need this. */
    ghost predicate Binding() {
      && (forall a, b :: sha256(a) == sha256(b) ==> a == b)
      && (forall a, b, c, d :: hkdf(a, b) == hkdf(c, d) ==> a == c && b == d)
    }
  }

  /** The first 32 bytes, filled up with zeros. */
  function Padded(k: bytes): bytes
  {
    seq(KEY_LENGTH, i requires 0 <= i < KEY_LENGTH => if i < |k| then k[i] else 0)
  }

  function AddBytes(x: byte, y: byte): byte
  {
    (x + y) % 256
  }

  function ByteSum(x: bytes, y: bytes): bytes
  {
    seq(KEY_LENGTH, i requires 0 <= i < KEY_LENGTH => AddBytes(Padded(x)[i], Padded(y)[i]))
  }

  lemma PaddedTwice(k: bytes)
    ensures Padded(Padded(k)) == Padded(k)
  {
  }

  lemma SumHead(x: bytes, y: bytes)
    requires |x| > 0 && |y| > 0
    ensures |Padded(y)| == KEY_LENGTH && Padded(y)[0] == y[0]
    ensures |ByteSum(x, Padded(y))| == KEY_LENGTH && ByteSum(x, Padded(y))[0] == AddBytes(x[0], y[0])
  {
  }

  /** Both byte strings, behind a count of the first's bytes. */
  function Paired(x: bytes, y: bytes): bytes
  {
    seq(|x|, _ => 0) + [1] + x + y
  }

  lemma PairedBinds(x: bytes, y: bytes, x': bytes, y': bytes)
    requires Paired(x, y) == Paired(x', y')
    ensures x == x' && y == y'
  {
    var p, p' := Paired(x, y), Paired(x', y');
    assert p[|x|] == 1 && p'[|x'|] == 1;
    assert |x| == |x'|;
    assert p[|x| + 1..2 * |x| + 1] == x && p'[|x'| + 1..2 * |x'| + 1] == x';
    assert p[2 * |x| + 1..] == y && p'[2 * |x'| + 1..] == y';
  }

  /**
   Some record with the program's age limit does: one whose public keys are the private ones, whose shared
   secrets are sums, whose derived key spells out what it is made of, and whose encryption only pads.
   */
  lemma LawfulIsPossible() returns (suite: Suite)
    ensures suite.Lawful() && suite.Binding() && suite.replayWindow == REPLAY_WINDOW
    ensures forall k :: suite.publicKey(k) == Padded(k)
    ensures forall x, y :: suite.dh(x, y) == ByteSum(x, y)
  {
    var pad: bytes := seq(TAG_LENGTH, _ => 0);
    suite := Suite(Padded, ByteSum, x => x, Paired,
                   (_, _, _, p) => p + pad,
                   (_, _, _, c) => if |c| < TAG_LENGTH then None else Some(c[..|c| - TAG_LENGTH]),
                   REPLAY_WINDOW);
    forall p: bytes ensures (p + pad)[..|p + pad| - TAG_LENGTH] == p {}
    forall x, y ensures ByteSum(x, Padded(y)) == ByteSum(y, Padded(x)) { PaddedTwice(x); PaddedTwice(y); }
    forall a, b, c, d | Paired(a, b) == Paired(c, d) ensures a == c && b == d { PairedBinds(a, b, c, d); }
  }
}
