/** Counter with CBC-MAC as sections 2.2 and 2.3 of RFC 3610 define it, for L = 2. */
module Rfc3610 {
  import opened Bytes

  type Nonce = n: seq<byte> | |n| == 13
    witness [0, 0, 0, 0, 0, 0, 0, 0, 0, 0, 0, 0, 0]

  type Uint16 = n: nat | n < 0x10000

  function BigEndian16(n: Uint16): (r: seq<byte>)
    ensures |r| == 2
  {
    [n / 0x100, n % 0x100]
  }

  predicate ValidAuthLen(n: nat) {
    4 <= n <= 16 && n % 2 == 0
  }

  /** Section 2.2: B_0. */
  function B0(nonce: Nonce, hasAad: bool, messageLen: Uint16, authLen: nat): Block
    requires ValidAuthLen(authLen)
  {
    [(if hasAad then 64 else 0) + 8 * ((authLen - 2) / 2) + 1] + nonce + BigEndian16(messageLen)
  }

  /** Section 2.3: A_i. */
  function A(nonce: Nonce, i: Uint16): Block {
    [1] + nonce + BigEndian16(i)
  }

  /** s cut into blocks, the last one padded with zeroes. */
  function PaddedBlocks(s: seq<byte>): seq<Block> {
    if s == [] then []
    else if |s| <= 16 then [ZeroPad(s)]
    else [s[..16]] + PaddedBlocks(s[16..])
  }

  /** Additional data with its length in front; none at all when there is no additional data. */
  function EncodedAad(aad: seq<byte>): seq<byte>
    requires |aad| < 0xff00
  {
    if aad == [] then [] else BigEndian16(|aad|) + aad
  }

  /** X_1. */
  function X1(E: Cipher, k: Block, nonce: Nonce, hasAad: bool, messageLen: Uint16, authLen: nat): Block
    requires ValidAuthLen(authLen)
  {
    E(k, B0(nonce, hasAad, messageLen, authLen))
  }

  /** X_{n+1}, of which T is the first authLen octets. */
  function Mac(E: Cipher, k: Block, nonce: Nonce, aad: seq<byte>, m: seq<byte>, authLen: nat): Block
    requires |aad| < 0xff00 && |m| < 0x10000 && ValidAuthLen(authLen)
  {
    Cbc(E, k, X1(E, k, nonce, aad != [], |m|, authLen), PaddedBlocks(EncodedAad(aad)) + PaddedBlocks(m))
  }

  function S(E: Cipher, k: Block, nonce: Nonce, i: Uint16): Block {
    E(k, A(nonce, i))
  }

  /** The message octets from block j on, combined with S_{j+1} | S_{j+2} | ... */
  function Ctr(E: Cipher, k: Block, nonce: Nonce, j: nat, m: seq<byte>): (r: seq<byte>)
    requires 16 * j + |m| < 0x10000
    ensures |r| == |m|
  {
    seq(|m|, i requires 0 <= i < |m| => XorByte(m[i], S(E, k, nonce, j + i / 16 + 1)[i % 16]))
  }

  /** Encrypted message and encrypted authentication value U. */
  function Encrypt(E: Cipher, k: Block, nonce: Nonce, aad: seq<byte>, m: seq<byte>, authLen: nat)
    : (seq<byte>, seq<byte>)
    requires |aad| < 0xff00 && |m| < 0x10000 && ValidAuthLen(authLen)
  {
    (Ctr(E, k, nonce, 0, m), Xor(Mac(E, k, nonce, aad, m, authLen), S(E, k, nonce, 0))[..authLen])
  }

  // Chaining one block at a time, from the front.

  function Absorb(E: Cipher, k: Block, x: Block, s: seq<byte>): Block
    decreases |s|
  {
    if s == [] then x
    else
      var n := Min(16, |s|);
      Absorb(E, k, E(k, Xor(x, ZeroPad(s[..n]))), s[n..])
  }

  /** Absorbing takes one block off the front. */
  lemma AbsorbBlock(E: Cipher, k: Block, x: Block, s: seq<byte>)
    requires s != []
    ensures |s| <= 16 ==> Absorb(E, k, x, s) == E(k, Xor(x, ZeroPad(s)))
    ensures |s| > 16 ==> Absorb(E, k, x, s) == Absorb(E, k, E(k, Xor(x, ZeroPad(s[..16]))), s[16..])
  {
    if |s| <= 16 {
      assert s[..|s|] == s && s[|s|..] == [];
    }
  }

  lemma {:induction false} CbcFront(E: Cipher, k: Block, x: Block, b: Block, bs: seq<Block>)
    ensures Cbc(E, k, x, [b] + bs) == Cbc(E, k, E(k, Xor(x, b)), bs)
    decreases |bs|
  {
    var all := [b] + bs;
    if bs == [] {
      assert all[..0] == [];
    } else {
      CbcFront(E, k, x, b, bs[..|bs| - 1]);
      assert all[..|all| - 1] == [b] + bs[..|bs| - 1];
    }
  }

  lemma {:induction false} AbsorbIsCbc(E: Cipher, k: Block, x: Block, s: seq<byte>)
    ensures Absorb(E, k, x, s) == Cbc(E, k, x, PaddedBlocks(s))
    decreases |s|
  {
    if s != [] {
      var n := Min(16, |s|);
      var b := ZeroPad(s[..n]);
      AbsorbIsCbc(E, k, E(k, Xor(x, b)), s[n..]);
      CbcFront(E, k, x, b, PaddedBlocks(s[n..]));
      assert b[..n] == s[..n];
      assert n == 16 ==> b == s[..16];
      assert n == |s| ==> s[..n] == s;
      assert PaddedBlocks(s) == [b] + PaddedBlocks(s[n..]);
    }
  }

  lemma {:induction false} AbsorbAppend(E: Cipher, k: Block, x: Block, s: seq<byte>, t: seq<byte>)
    requires |s| % 16 == 0
    ensures Absorb(E, k, x, s + t) == Absorb(E, k, Absorb(E, k, x, s), t)
    decreases |s|
  {
    if s == [] {
      assert s + t == t;
    } else {
      assert (s + t)[..16] == s[..16] && (s + t)[16..] == s[16..] + t;
      AbsorbAppend(E, k, E(k, Xor(x, ZeroPad(s[..16]))), s[16..], t);
    }
  }

  lemma {:induction false} CbcAppend(E: Cipher, k: Block, x: Block, bs: seq<Block>, cs: seq<Block>)
    ensures Cbc(E, k, x, bs + cs) == Cbc(E, k, Cbc(E, k, x, bs), cs)
    decreases |cs|
  {
    var all := bs + cs;
    if cs == [] {
      assert all == bs;
    } else {
      CbcAppend(E, k, x, bs, cs[..|cs| - 1]);
      assert all[..|all| - 1] == bs + cs[..|cs| - 1];
    }
  }

  /** The authentication value is what absorbing the additional data, then the message, leaves. */
  lemma MacIsAbsorb(E: Cipher, k: Block, nonce: Nonce, aad: seq<byte>, m: seq<byte>, authLen: nat)
    requires |aad| < 0xff00 && |m| < 0x10000 && ValidAuthLen(authLen)
    ensures Mac(E, k, nonce, aad, m, authLen)
         == Absorb(E, k, Absorb(E, k, X1(E, k, nonce, aad != [], |m|, authLen), EncodedAad(aad)), m)
  {
    var x := X1(E, k, nonce, aad != [], |m|, authLen);
    CbcAppend(E, k, x, PaddedBlocks(EncodedAad(aad)), PaddedBlocks(m));
    AbsorbIsCbc(E, k, x, EncodedAad(aad));
    AbsorbIsCbc(E, k, Absorb(E, k, x, EncodedAad(aad)), m);
  }

  lemma CtrAppend(E: Cipher, k: Block, nonce: Nonce, j: nat, s: seq<byte>, t: seq<byte>)
    requires |s| % 16 == 0 && 16 * j + |s| + |t| < 0x10000
    ensures Ctr(E, k, nonce, j, s + t)
         == Ctr(E, k, nonce, j, s) + Ctr(E, k, nonce, j + |s| / 16, t)
  {
    var q := |s| / 16;
    forall i | 0 <= i < |t|
      ensures j + (|s| + i) / 16 == j + q + i / 16 && (|s| + i) % 16 == i % 16
    {}
  }

  lemma CtrOneBlock(E: Cipher, k: Block, nonce: Nonce, j: nat, b: seq<byte>)
    requires |b| <= 16 && 16 * j + |b| < 0x10000
    ensures Ctr(E, k, nonce, j, b) == Xor(b, S(E, k, nonce, j + 1)[..|b|])
  {}

  lemma CtrFirstBlock(E: Cipher, k: Block, nonce: Nonce, j: nat, m: seq<byte>)
    requires 16 < |m| && 16 * j + |m| < 0x10000
    ensures Ctr(E, k, nonce, j, m) == Xor(m[..16], S(E, k, nonce, j + 1)[..16]) + Ctr(E, k, nonce, j + 1, m[16..])
  {
    assert m == m[..16] + m[16..];
    CtrAppend(E, k, nonce, j, m[..16], m[16..]);
    CtrOneBlock(E, k, nonce, j, m[..16]);
  }

  /** Combining with the key stream twice gives the message back. */
  lemma CtrTwice(E: Cipher, k: Block, nonce: Nonce, j: nat, m: seq<byte>)
    requires 16 * j + |m| < 0x10000
    ensures Ctr(E, k, nonce, j, Ctr(E, k, nonce, j, m)) == m
  {
    var c := Ctr(E, k, nonce, j, m);
    forall i | 0 <= i < |m|
      ensures Ctr(E, k, nonce, j, c)[i] == m[i]
    {
      XorBitsTwice(m[i], S(E, k, nonce, j + i / 16 + 1)[i % 16]);
    }
  }
}
