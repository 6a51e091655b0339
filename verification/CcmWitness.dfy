/** Ciphers that tell RFC 3610 from a machine that takes more steps than it. */
module CcmWitness {
  import opened Bytes
  import opened Ccm
  import opened CcmSession
  import opened CcmCuts
  import Rfc = Rfc3610

  lemma ZeroBlock(a: Block)
    ensures ZERO == Zeros(16) && Xor(a, ZERO) == a && Xor(ZERO, a) == a && Xor(a, a) == ZERO
  {
    XorZeros(a);
    XorSelf(a);
  }

  /** What equals a after combining with b is a combined with b. */
  lemma Undo(a: Block, b: Block, c: Block)
    requires Xor(a, b) == c
    ensures a == Xor(c, b)
  {
    XorTwice(a, b);
  }

  lemma FirstDiffers(a: Block, b: Block, s: Block, n: nat)
    requires a[0] != b[0] && 0 < n <= 16
    ensures Xor(a, s)[..n] != Xor(b, s)[..n]
  {
    assert Xor(a, s)[..n][0] == XorByte(a[0], s[0]);
    assert Xor(b, s)[..n][0] == XorByte(b[0], s[0]);
    XorBitsTwice(a[0], s[0]);
    XorBitsTwice(b[0], s[0]);
  }

  // Blocks that are none of given ones.

  function Numbered(head: byte, c: nat): (b: Block)
    requires c < 0x10000
    ensures b[0] == head
  {
    [head] + Rfc.BigEndian16(c) + Zeros(13)
  }

  function Code(b: Block): nat {
    b[1] as nat * 0x100 + b[2] as nat
  }

  lemma CodeOf(head: byte, c: nat)
    requires c < 0x10000
    ensures Code(Numbered(head, c)) == c
  {}

  lemma SameCode(a: Block, b: Block)
    ensures Code(a) == Code(b) <==> a[1] == b[1] && a[2] == b[2]
  {}

  function Codes(bs: seq<Block>): (s: set<nat>)
    ensures |s| <= |bs|
    ensures forall b :: b in bs ==> Code(b) in s
  {
    if bs == [] then {}
    else
      var n := |bs| - 1;
      assert forall b :: b in bs ==> b in bs[..n] || b == bs[n];
      Codes(bs[..n]) + {Code(bs[n])}
  }

  function Below(n: nat): (s: set<nat>)
    ensures |s| == n
    ensures forall i :: i in s <==> 0 <= i < n
  {
    if n == 0 then {} else Below(n - 1) + {n - 1}
  }

  lemma SmallerSubset(a: set<nat>, b: set<nat>)
    requires a <= b
    ensures |a| <= |b|
  {
    if a != {} {
      var x :| x in a;
      SmallerSubset(a - {x}, b - {x});
    }
  }

  /** Fewer than 65536 blocks leave one over among the numbered ones. */
  lemma Unlisted(head: byte, bs: seq<Block>) returns (c: nat)
    requires |bs| < 0x10000
    ensures c < 0x10000 && Code(Numbered(head, c)) == c && Numbered(head, c) !in bs
    ensures forall b :: b in bs ==> Code(b) != c
  {
    if Below(0x10000) <= Codes(bs) {
      SmallerSubset(Below(0x10000), Codes(bs));
    }
    hide Codes, Below;
    c :| c in Below(0x10000) && c !in Codes(bs);
    CodeOf(head, c);
  }

  // A cipher for one counter block.

  /** Shows one block, and hides all others. */
  function Spot(a: Block): Cipher {
    (k: Block, b: Block) => if b == a then ZERO[0 := 1] else ZERO
  }

  lemma CountersDiffer(nonce: Rfc.Nonce, i: Rfc.Uint16, j: Rfc.Uint16)
    requires i != j
    ensures Rfc.A(nonce, i) != Rfc.A(nonce, j)
  {
    var a, b := Rfc.A(nonce, i), Rfc.A(nonce, j);
    assert a[14] == i / 0x100 && a[15] == i % 0x100 && b[14] == j / 0x100 && b[15] == j % 0x100;
  }

  lemma OutOfStepCounter(i: nat, t: nat)
    requires i + 1 < 0x10000 && t % 0x10000 != 0
    ensures U16(0 + i + 1 + t) != i + 1
  {
    var k, r := t / 0x10000, t % 0x10000;
    assert t == 0x10000 * k + r;
    if i + 1 + r < 0x10000 {
      assert i + 1 + t == 0x10000 * k + (i + 1 + r);
    } else {
      assert i + 1 + t == 0x10000 * (k + 1) + (i + 1 + r - 0x10000);
    }
  }

  // Ciphers whose key stream is zero: what they encrypt or decrypt stays as it is.

  /** A counter block of the key stream, or one that looks like it, but not A_0. */
  predicate Masked(a0: Block, b: Block) {
    b != a0 && b[0] == a0[0] && Code(b) == Code(a0)
  }

  lemma CountersMasked(nonce: Rfc.Nonce, i: Rfc.Uint16)
    requires i > 0
    ensures Masked(Rfc.A(nonce, 0), Rfc.A(nonce, i)) && Rfc.A(nonce, i)[0] == 1
  {
    CountersDiffer(nonce, i, 0);
  }

  // A cipher with two values otherwise: the last octet of the message decides what it makes of the next step.

  /** From 0 or A_0 to d, from anything else to A_0 combined with d. */
  function Two(a0: Block, d: Block): Cipher {
    (k: Block, b: Block) => if b == a0 || b == ZERO then d else if Masked(a0, b) then ZERO else Xor(a0, d)
  }

  /** The last block of s, padded. */
  function LastPad(s: seq<byte>): Block
    requires s != []
    decreases |s|
  {
    if |s| <= 16 then ZeroPad(s) else LastPad(s[16..])
  }

  lemma {:induction false} LastPadAppend(s: seq<byte>, t: seq<byte>)
    requires |s| % 16 == 0 && t != []
    ensures LastPad(s + t) == LastPad(t)
    decreases |s|
  {
    if s == [] {
      assert s + t == t;
    } else {
      assert (s + t)[16..] == s[16..] + t;
      LastPadAppend(s[16..], t);
    }
  }

  /** d is chosen so that no value of the cipher combines with p into 0 or A_0. */
  predicate Apart(a0: Block, d: Block, p: Block) {
    && a0[0] == 1 && d[0] == 2
    && d != p && d != Xor(a0, p) && d != Xor(p, a0) && d != Xor(Xor(a0, p), a0)
  }

  predicate Value(a0: Block, d: Block, x: Block) { x == d || x == Xor(a0, d) }

  /** And no value of it combines with one of ps into a masked block. */
  predicate Clear(a0: Block, d: Block, ps: seq<Block>) {
    && a0[0] == 1 && d[0] == 2
    && forall p :: p in ps ==> Code(d) != Code(p) && Code(d) != Code(Xor(a0, p))
  }

  function CombinedWith(z: Block, ps: seq<Block>): (r: seq<Block>)
    ensures |r| == |ps|
    ensures forall p :: p in ps ==> Xor(z, p) in r
  {
    if ps == [] then []
    else
      var n := |ps| - 1;
      assert forall p :: p in ps ==> p in ps[..n] || p == ps[n];
      CombinedWith(z, ps[..n]) + [Xor(z, ps[n])]
  }

  lemma ClearByCode(a0: Block, d: Block, ps: seq<Block>)
    requires a0[0] == 1 && d[0] == 2
    requires forall b :: b in ps + CombinedWith(a0, ps) ==> Code(b) != Code(d)
    ensures Clear(a0, d, ps)
  {
    hide Code, CombinedWith, Xor;
  }

  lemma ApartExists(a0: Block, p: Block, ps: seq<Block>) returns (d: Block)
    requires a0[0] == 1 && 2 * |ps| + 4 < 0x10000
    ensures Apart(a0, d, p) && Clear(a0, d, ps)
  {
    var bs := [p, Xor(a0, p), Xor(p, a0), Xor(Xor(a0, p), a0)];
    var qs := ps + CombinedWith(a0, ps);
    assert bs[0] in bs && bs[1] in bs && bs[2] in bs && bs[3] in bs;
    hide Numbered, Code, CombinedWith, Xor, Clear;
    var c := Unlisted(2, bs + qs);
    d := Numbered(2, c);
    forall b | b in qs
      ensures Code(b) != Code(d)
    {
      assert b in bs + qs;
    }
    ClearByCode(a0, d, ps);
  }

  lemma ThreeOctet()
    ensures XorByte(1, 2) == 3
  {
    assert XorBits(0, 1) == 1;
  }

  lemma CodeUndo(a: Block, b: Block, c: Block)
    requires Code(Xor(a, b)) == Code(c)
    ensures Code(a) == Code(Xor(c, b))
  {
    var x := Xor(a, b);
    SameCode(x, c);
    assert x[1] == XorByte(a[1], b[1]) && x[2] == XorByte(a[2], b[2]);
    assert Xor(c, b)[1] == XorByte(c[1], b[1]) && Xor(c, b)[2] == XorByte(c[2], b[2]);
    XorBitsTwice(a[1], b[1]);
    XorBitsTwice(a[2], b[2]);
  }

  lemma NotMasked(a0: Block, d: Block, ps: seq<Block>, p: Block, x: Block)
    requires Clear(a0, d, ps) && p in ps && Value(a0, d, x)
    ensures !Masked(a0, Xor(x, p))
  {
    hide Code, Xor;
    if Masked(a0, Xor(x, p)) {
      CodeUndo(x, p, a0);
      if x != d {
        XorSwap(a0, d);
        CodeUndo(d, a0, Xor(a0, p));
        XorSwap(a0, p);
        XorTwice(p, a0);
      }
    }
  }

  /** A step on one of ps stays within the values. */
  lemma TwoKeeps(a0: Block, d: Block, ps: seq<Block>, p: Block, k: Block, x: Block)
    requires Clear(a0, d, ps) && p in ps && Value(a0, d, x)
    ensures Value(a0, d, Two(a0, d)(k, Xor(x, p)))
  {
    NotMasked(a0, d, ps, p, x);
  }

  /** So does a step on nothing. */
  lemma TwoNothing(a0: Block, d: Block, k: Block, x: Block)
    requires a0[0] == 1 && d[0] == 2 && Value(a0, d, x)
    ensures Two(a0, d)(k, x) == Xor(a0, d)
  {
    ThreeOctet();
    assert Xor(a0, d)[0] == 3;
  }

  lemma TwoStep(a0: Block, d: Block, ps: seq<Block>, p: Block, k: Block, x: Block)
    requires Apart(a0, d, p) && Clear(a0, d, ps) && p in ps && Value(a0, d, x)
    ensures Two(a0, d)(k, Xor(x, p)) == Xor(a0, d)
  {
    var y := Xor(x, p);
    ZeroBlock(p);
    XorSwap(a0, d);
    NotMasked(a0, d, ps, p, x);
    if y == ZERO {
      Undo(x, p, ZERO);
      if x != d {
        Undo(d, a0, p);
      }
    } else if y == a0 {
      Undo(x, p, a0);
      if x != d {
        Undo(d, a0, Xor(a0, p));
      }
    }
  }

  /** All padded blocks of s are among ps. */
  predicate Within(s: seq<byte>, ps: seq<Block>) {
    forall b :: b in Rfc.PaddedBlocks(s) ==> b in ps
  }

  lemma WithinFirst(s: seq<byte>, ps: seq<Block>)
    requires s != [] && Within(s, ps)
    ensures |s| <= 16 ==> ZeroPad(s) in ps
    ensures |s| > 16 ==> ZeroPad(s[..16]) in ps && Within(s[16..], ps)
  {
    if |s| > 16 {
      assert Rfc.PaddedBlocks(s) == [s[..16]] + Rfc.PaddedBlocks(s[16..]);
      assert ZeroPad(s[..16]) == s[..16];
      assert s[..16] in Rfc.PaddedBlocks(s);
    }
  }

  lemma {:induction false} TwoAbsorb(a0: Block, d: Block, ps: seq<Block>, k: Block, x: Block, s: seq<byte>)
    requires s != [] && Apart(a0, d, LastPad(s)) && Clear(a0, d, ps) && Within(s, ps) && Value(a0, d, x)
    ensures Rfc.Absorb(Two(a0, d), k, x, s) == Xor(a0, d)
    decreases |s|
  {
    Rfc.AbsorbBlock(Two(a0, d), k, x, s);
    WithinFirst(s, ps);
    hide Two, Rfc.Absorb, Apart, Clear, Within, Value, Xor;
    if |s| <= 16 {
      assert LastPad(s) == ZeroPad(s);
      TwoStep(a0, d, ps, ZeroPad(s), k, x);
    } else {
      TwoKeeps(a0, d, ps, ZeroPad(s[..16]), k, x);
      TwoAbsorb(a0, d, ps, k, Two(a0, d)(k, Xor(x, ZeroPad(s[..16]))), s[16..]);
    }
  }

  lemma {:induction false} TwoValue(a0: Block, d: Block, ps: seq<Block>, k: Block, x: Block, s: seq<byte>)
    requires Clear(a0, d, ps) && Within(s, ps) && Value(a0, d, x)
    ensures Value(a0, d, Rfc.Absorb(Two(a0, d), k, x, s))
    decreases |s|
  {
    if s == [] {
      AbsorbNothing(Two(a0, d), k, x);
    } else {
      Rfc.AbsorbBlock(Two(a0, d), k, x, s);
      WithinFirst(s, ps);
      hide Two, Rfc.Absorb, Clear, Within, Value, Xor;
      if |s| <= 16 {
        TwoKeeps(a0, d, ps, ZeroPad(s), k, x);
      } else {
        TwoKeeps(a0, d, ps, ZeroPad(s[..16]), k, x);
        TwoValue(a0, d, ps, k, Two(a0, d)(k, Xor(x, ZeroPad(s[..16]))), s[16..]);
      }
    }
  }

  lemma AbsorbNothing(E: Cipher, k: Block, x: Block)
    ensures Rfc.Absorb(E, k, x, []) == x
  {}

  lemma WithinChunk(b: Chunk, ps: seq<Block>)
    requires forall p :: p in Rfc.PaddedBlocks(Data(b)) ==> p in ps
    ensures Within(Data(b), ps)
  {}

  lemma ClearHeads(a0: Block, d: Block, ps: seq<Block>)
    requires Clear(a0, d, ps)
    ensures a0[0] == 1 && d[0] == 2 && Value(a0, d, Xor(a0, d))
  {}

  lemma {:induction false} TwoChain(a0: Block, d: Block, ps: seq<Block>, k: Block, x: Block, bs: seq<Chunk>)
    requires Cut(bs) && bs != [] && bs[|bs| - 1].len > 0 && Value(a0, d, x) && Clear(a0, d, ps) && Among(bs, ps)
    requires Joined(bs) != [] && Apart(a0, d, LastPad(Joined(bs)))
    ensures Chain(Two(a0, d), k, x, bs) == Xor(a0, d)
    decreases |bs|
  {
    var b, rest := bs[0], bs[1..];
    var E := Two(a0, d);
    hide *;
    CutFirst(bs, 0);
    AmongFirst(bs, ps);
    ChainFirst(E, k, x, bs);
    WithinChunk(b, ps);
    ClearHeads(a0, d, ps);
    LastOfRest(bs);
    if rest == [] {
      NoOctets();
      JoinedAlone(b);
      TwoAbsorb(a0, d, ps, k, x, Data(b));
      ChainFirst(E, k, Rfc.Absorb(E, k, x, Data(b)), rest);
    } else {
      LastOctets(rest);
      LastPadAppend(Data(b), Joined(rest));
      if b.len == 0 {
        TwoNothing(a0, d, k, x);
        TwoChain(a0, d, ps, k, E(k, x), rest);
      } else {
        TwoValue(a0, d, ps, k, x, Data(b));
        TwoChain(a0, d, ps, k, Rfc.Absorb(E, k, x, Data(b)), rest);
      }
    }
  }

  lemma LastOfRest(bs: seq<Chunk>)
    requires bs != []
    ensures bs[1..] != [] ==> bs[1..][|bs| - 2] == bs[|bs| - 1]
    ensures bs[1..] == [] ==> bs[0] == bs[|bs| - 1]
    ensures |Data(bs[0])| == bs[0].len
  {}

  lemma JoinedAlone(b: Chunk)
    ensures Data(b) + [] == Data(b)
  {}

  lemma {:induction false} TwoTrailZero(a0: Block, d: Block, k: Block, t: nat)
    ensures Trail(Two(a0, d), k, d, ZERO, t) == ZERO
    decreases t
  {
    if t > 0 {
      ZeroBlock(d);
      TwoTrailZero(a0, d, k, t - 1);
    }
  }

  lemma TwoTrail(a0: Block, d: Block, k: Block, t: nat)
    requires t > 0
    ensures Trail(Two(a0, d), k, d, a0, t) == ZERO
  {
    ZeroBlock(d);
    TwoTrailZero(a0, d, k, t - 1);
  }

  lemma TwoStream(d: Block, nonce: Rfc.Nonce)
    requires d[0] == 2
    ensures forall k: Block :: ZeroStream(Two(Rfc.A(nonce, 0), d), k, nonce)
  {
    var a0 := Rfc.A(nonce, 0);
    forall k: Block, i: nat | 0 < i < 0x10000
      ensures Two(a0, d)(k, Rfc.A(nonce, i)) == ZERO
    {
      CountersMasked(nonce, i);
    }
  }
}
