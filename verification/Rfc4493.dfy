/** AES-CMAC as sections 2.3 and 2.4 of RFC 4493 define it, over an arbitrary block cipher. */
module Rfc4493 {
  import opened Bytes

  function ShiftedOctet(b: byte, carry: nat): byte
    requires carry <= 1
  {
    2 * b % 256 + carry
  }

  /** The top bit of s, as a number. */
  function Carry(s: seq<byte>): nat {
    if s == [] then 0 else s[0] / 128
  }

  /** The bit string s << 1: every octet takes the top bit of the one after it. */
  function ShiftLeft(s: seq<byte>): (r: seq<byte>)
    ensures |r| == |s|
  {
    if s == [] then [] else [ShiftedOctet(s[0], Carry(s[1..]))] + ShiftLeft(s[1..])
  }

  lemma ShiftLeftHead(s: seq<byte>)
    requires s != []
    ensures ShiftLeft(s)[1..] == ShiftLeft(s[1..])
    ensures ShiftLeft(s)[0] == ShiftedOctet(s[0], Carry(s[1..]))
    ensures Carry(s) == s[0] / 128
  {}

  lemma {:induction false} ShiftLeftAt(s: seq<byte>, i: nat)
    requires i < |s|
    ensures Carry(s[i + 1..]) <= 1 && Carry(s[i..]) == s[i] / 128 && Carry(s[|s|..]) == 0
    ensures ShiftLeft(s)[i] == ShiftedOctet(s[i], Carry(s[i + 1..]))
  {
    if i > 0 {
      ShiftLeftAt(s[1..], i - 1);
      assert s[1..][i..] == s[i + 1..];
      assert s[1..][i - 1..] == s[i..];
    }
  }

  const RB: Block := [0, 0, 0, 0, 0, 0, 0, 0, 0, 0, 0, 0, 0, 0, 0, 0x87]

  /** One step of the subkey generation of section 2.3: L to K1, and K1 to K2. */
  function Subkey(l: Block): Block {
    if l[0] < 0x80 then ShiftLeft(l) else Xor(ShiftLeft(l), RB)
  }

  /** Number of blocks of a message of n octets; the empty message has one. */
  function BlockCount(n: nat): (r: nat)
    ensures r >= 1 && 16 * (r - 1) <= n <= 16 * r
    ensures n > 0 ==> 16 * (r - 1) < n
  {
    if n == 0 then 1 else (n + 15) / 16
  }

  /** Section 2.4, step 4: M_last. */
  function LastBlock(l: Block, m: seq<byte>): Block {
    var k1 := Subkey(l);
    var last := m[16 * (BlockCount(|m|) - 1)..];
    if |last| == 16 then Xor(last, k1) else Xor(ZeroPad(last + [0x80]), Subkey(k1))
  }

  /** M_last by the length of m instead of its number of blocks. */
  lemma LastBlockByLength(l: Block, m: seq<byte>)
    ensures |m| != 0 && |m| % 16 == 0 ==> LastBlock(l, m) == Xor(m[|m| - 16..], Subkey(l))
    ensures |m| == 0 || |m| % 16 != 0 ==>
              LastBlock(l, m) == Xor(ZeroPad(m[|m| - |m| % 16..] + [0x80]), Subkey(Subkey(l)))
  {
    var start := 16 * (BlockCount(|m|) - 1);
    assert start == if |m| != 0 && |m| % 16 == 0 then |m| - 16 else |m| - |m| % 16;
  }

  /** Section 2.4, steps 5 to 7, over the first n - 1 blocks of m and then its last one. */
  function Tag(E: Cipher, k: Block, m: seq<byte>, n: nat): Block
    requires n >= 1 && 16 * (n - 1) <= |m|
  {
    E(k, Xor(Cbc(E, k, ZERO, WholeBlocks(m, n - 1)), LastBlock(E(k, ZERO), m)))
  }

  function Cmac(E: Cipher, k: Block, m: seq<byte>): Block {
    Tag(E, k, m, BlockCount(|m|))
  }

  // Big-endian numbers: what the bit-level shift means.

  function Pow256(n: nat): (p: nat)
    ensures p > 0
  {
    if n == 0 then 1 else 256 * Pow256(n - 1)
  }

  function Value(s: seq<byte>): nat {
    if s == [] then 0 else s[0] * Pow256(|s| - 1) + Value(s[1..])
  }

  lemma ScaleUp(a: int, b: int, p: nat)
    requires a <= b
    ensures a * p <= b * p
  {}

  /** Euclidean division has one result. */
  lemma Digits(a: int, x: int, b: int, y: int, p: nat)
    requires 0 <= x < p && 0 <= y < p
    requires a * p + x == b * p + y
    ensures a == b && x == y
  {
    if a < b {
      ScaleUp(a + 1, b, p);
    } else if b < a {
      ScaleUp(b + 1, a, p);
    }
  }

  lemma {:induction false} ValueBound(s: seq<byte>)
    ensures Value(s) < Pow256(|s|)
  {
    if s != [] {
      ValueBound(s[1..]);
      ScaleUp(s[0], 255, Pow256(|s| - 1));
    }
  }

  /** No two strings of the same length share a value. */
  lemma {:induction false} ValueInjective(s: seq<byte>, t: seq<byte>)
    requires |s| == |t| && Value(s) == Value(t)
    ensures s == t
  {
    if s != [] {
      ValueBound(s[1..]);
      ValueBound(t[1..]);
      Digits(s[0], Value(s[1..]), t[0], Value(t[1..]), Pow256(|s| - 1));
      ValueInjective(s[1..], t[1..]);
      assert s == [s[0]] + s[1..] && t == [t[0]] + t[1..];
    }
  }

  lemma CarryStep(a: int, c: int, q: int, h: int, p: int, v: int, w: int)
    requires q + 256 * h == 2 * a + c && 2 * v == w + c * p
    ensures 2 * (a * p + v) == q * p + w + h * (256 * p)
  {
    assert (2 * a + c) * p == 2 * (a * p) + c * p;
    assert (q + 256 * h) * p == q * p + h * (256 * p);
  }

  lemma ValueSplit(s: seq<byte>)
    requires s != []
    ensures Value(s) == s[0] * Pow256(|s[1..]|) + Value(s[1..])
    ensures Pow256(|s|) == 256 * Pow256(|s[1..]|)
  {}

  lemma ShiftedOctetNumber(b: byte, carry: nat)
    requires carry <= 1
    ensures ShiftedOctet(b, carry) + 256 * (b / 128) == 2 * b + carry
  {}

  lemma {:induction false} ShiftLeftCarry(s: seq<byte>)
    ensures 2 * Value(s) == Value(ShiftLeft(s)) + Carry(s) * Pow256(|s|)
  {
    if s != [] {
      hide *;
      var t, r := s[1..], ShiftLeft(s);
      ShiftLeftCarry(t);
      ShiftLeftHead(s);
      ShiftedOctetNumber(s[0], Carry(t));
      ValueSplit(s);
      ValueSplit(r);
      CarryStep(s[0], Carry(t), r[0], Carry(s), Pow256(|t|), Value(t), Value(r[1..]));
    }
  }

  lemma Remainder(n: nat, q: nat, r: nat, p: nat)
    requires r < p && n == r + q * p
    ensures r == n % p
  {
    DivMod(n, p);
    Digits(n / p, n % p, q, r, p);
  }

  lemma DivMod(n: nat, p: nat)
    requires p > 0
    ensures n == n / p * p + n % p && n % p < p
  {}

  /** Shifting left by one bit doubles the big-endian number, modulo 2^(8 len). */
  lemma ShiftLeftDoubles(s: seq<byte>)
    ensures Value(ShiftLeft(s)) == (2 * Value(s)) % Pow256(|s|)
  {
    ShiftLeftCarry(s);
    ValueBound(ShiftLeft(s));
    Remainder(2 * Value(s), Carry(s), Value(ShiftLeft(s)), Pow256(|s|));
  }
}
