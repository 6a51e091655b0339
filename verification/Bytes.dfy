/** Octets, 16-octet blocks and the cipher they are fed to. AES itself stays uninterpreted. */
module Bytes {
  type byte = x: int | 0 <= x < 256

  type Block = b: seq<byte> | |b| == 16
    witness [0, 0, 0, 0, 0, 0, 0, 0, 0, 0, 0, 0, 0, 0, 0, 0]

  /** E(key, plaintext). */
  type Cipher = (Block, Block) -> Block

  const ZERO: Block := [0, 0, 0, 0, 0, 0, 0, 0, 0, 0, 0, 0, 0, 0, 0, 0]

  function Min(a: nat, b: nat): nat { if a < b then a else b }

  // Bitwise exclusive or, from the lowest bit up.

  function XorBits(a: nat, b: nat): nat
    decreases a + b
  {
    if a == 0 && b == 0 then 0 else 2 * XorBits(a / 2, b / 2) + (a + b) % 2
  }

  function Pow2(n: nat): nat {
    if n == 0 then 1 else 2 * Pow2(n - 1)
  }

  lemma {:induction false} XorBitsFit(a: nat, b: nat, n: nat)
    requires a < Pow2(n) && b < Pow2(n)
    ensures XorBits(a, b) < Pow2(n)
  {
    if n > 0 {
      XorBitsFit(a / 2, b / 2, n - 1);
    }
  }

  function XorByte(a: byte, b: byte): byte {
    XorBitsFit(a, b, 8);
    XorBits(a, b)
  }

  lemma XorBitsHalf(a: nat, b: nat)
    requires a != 0 || b != 0
    ensures XorBits(a, b) / 2 == XorBits(a / 2, b / 2)
    ensures XorBits(a, b) % 2 == (a + b) % 2
  {}

  lemma {:induction false} XorBitsTwice(a: nat, b: nat)
    ensures XorBits(XorBits(a, b), b) == a
    decreases a + b
  {
    var r := XorBits(a, b);
    if a != 0 || b != 0 {
      XorBitsTwice(a / 2, b / 2);
      XorBitsHalf(a, b);
      if r != 0 || b != 0 {
        XorBitsHalf(r, b);
        SameParity(a, b, r);
        Halves(XorBits(r, b), a);
      }
    }
  }

  lemma SameParity(a: nat, b: nat, r: nat)
    requires r % 2 == (a + b) % 2
    ensures (r + b) % 2 == a % 2
  {}

  lemma Halves(a: nat, b: nat)
    requires a / 2 == b / 2 && a % 2 == b % 2
    ensures a == b
  {}

  lemma {:induction false} XorBitsZero(a: nat)
    ensures XorBits(a, 0) == a && XorBits(0, a) == a
  {
    if a != 0 {
      XorBitsZero(a / 2);
    }
  }

  lemma {:induction false} XorBitsSwap(a: nat, b: nat)
    ensures XorBits(a, b) == XorBits(b, a)
    decreases a + b
  {
    if a != 0 || b != 0 {
      XorBitsSwap(a / 2, b / 2);
    }
  }

  lemma {:induction false} XorBitsSelf(a: nat)
    ensures XorBits(a, a) == 0
  {
    if a != 0 {
      XorBitsSelf(a / 2);
    }
  }

  // Octet strings.

  function Xor(a: seq<byte>, b: seq<byte>): (r: seq<byte>)
    requires |a| == |b|
    ensures |r| == |a|
  {
    seq(|a|, i requires 0 <= i < |a| => XorByte(a[i], b[i]))
  }

  lemma XorAt(a: seq<byte>, b: seq<byte>)
    requires |a| == |b|
    ensures forall i :: 0 <= i < |a| ==> Xor(a, b)[i] == XorByte(a[i], b[i])
  {}

  lemma XorTwice(a: seq<byte>, b: seq<byte>)
    requires |a| == |b|
    ensures Xor(Xor(a, b), b) == a
  {
    forall i | 0 <= i < |a|
      ensures Xor(Xor(a, b), b)[i] == a[i]
    {
      XorBitsTwice(a[i], b[i]);
    }
  }

  lemma XorSwap(a: seq<byte>, b: seq<byte>)
    requires |a| == |b|
    ensures Xor(a, b) == Xor(b, a)
  {
    forall i | 0 <= i < |a|
      ensures Xor(a, b)[i] == Xor(b, a)[i]
    {
      XorBitsSwap(a[i], b[i]);
    }
  }

  lemma XorSelf(a: seq<byte>)
    ensures Xor(a, a) == Zeros(|a|)
  {
    forall i | 0 <= i < |a|
      ensures Xor(a, a)[i] == 0
    {
      XorBitsSelf(a[i]);
    }
  }

  function Zeros(n: nat): (r: seq<byte>)
    ensures |r| == n
    ensures forall i :: 0 <= i < n ==> r[i] == 0
  {
    seq(n, i => 0)
  }

  lemma XorZeros(a: seq<byte>)
    ensures Xor(a, Zeros(|a|)) == a && Xor(Zeros(|a|), a) == a
  {
    XorAt(a, Zeros(|a|));
    XorAt(Zeros(|a|), a);
    forall i | 0 <= i < |a|
      ensures Xor(a, Zeros(|a|))[i] == a[i] && Xor(Zeros(|a|), a)[i] == a[i]
    {
      XorBitsZero(a[i]);
    }
  }

  /** The block that starts with s and is zero after it. */
  function ZeroPad(s: seq<byte>): (r: Block)
    requires |s| <= 16
    ensures r[..|s|] == s
    ensures forall i :: |s| <= i < 16 ==> r[i] == 0
  {
    s + Zeros(16 - |s|)
  }

  lemma Regroup(s: seq<byte>, t: seq<byte>, u: seq<byte>)
    ensures (s + t) + u == s + (t + u)
  {}

  /** reverse_128: the controller takes and returns its blocks least significant octet first. */
  function Flip(b: Block): (r: Block)
    ensures forall i :: 0 <= i < 16 ==> r[i] == b[15 - i]
  {
    seq(16, i requires 0 <= i < 16 => b[15 - i])
  }

  lemma FlipTwice(b: Block)
    ensures Flip(Flip(b)) == b
  {
    forall i | 0 <= i < 16
      ensures Flip(Flip(b))[i] == b[i]
    {
      assert Flip(Flip(b))[i] == Flip(b)[15 - i];
    }
  }

  /** CBC chaining from x: X_{i+1} = E(K, X_i xor B_i). */
  function Cbc(E: Cipher, k: Block, x: Block, blocks: seq<Block>): Block {
    if blocks == [] then x
    else E(k, Xor(Cbc(E, k, x, blocks[..|blocks| - 1]), blocks[|blocks| - 1]))
  }

  /** The j whole blocks at the start of m. */
  function WholeBlocks(m: seq<byte>, j: nat): (r: seq<Block>)
    requires 16 * j <= |m|
    ensures |r| == j
    ensures forall i :: 0 <= i < j ==> r[i] == m[16 * i..16 * i + 16]
  {
    seq(j, i requires 0 <= i < j => m[16 * i..16 * i + 16])
  }

  lemma CbcNext(E: Cipher, k: Block, x: Block, m: seq<byte>, j: nat)
    requires 16 * (j + 1) <= |m|
    ensures Cbc(E, k, x, WholeBlocks(m, j + 1))
         == E(k, Xor(Cbc(E, k, x, WholeBlocks(m, j)), m[16 * j..16 * j + 16]))
  {
    assert WholeBlocks(m, j + 1)[..j] == WholeBlocks(m, j);
  }
}
