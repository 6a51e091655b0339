/** A cipher that follows one CBC-MAC computation and loses itself in a single block everywhere else: enough
    steps on nothing always lose it. */
module CcmPath {
  import opened Bytes
  import opened Ccm
  import opened CcmSession
  import opened CcmCuts
  import opened CcmWitness
  import Rfc = Rfc3610

  /** ys are the blocks that the cipher is given on the way of b0 and then ps; nothing else leads to them:
      not the sink z, alone or combined with one of ps, and not a step on nothing, except to later ones. */
  predicate Path(ys: seq<Block>, b0: Block, ps: seq<Block>, z: Block) {
    && 1 <= |ys| <= |ps| + 1 && ys[0] == b0
    && (forall i, l :: 0 <= i < l < |ys| ==> ys[i] != ys[l])
    && (forall i :: 0 <= i < |ys| ==> ys[i][0] > 1)
    && (forall i, p :: 0 <= i < |ys| && p in ps ==> Xor(z, p) != ys[i])
    && (forall i, l :: 0 <= l < i < |ys| ==> Xor(ys[i], ps[i - 1]) != ys[l])
  }

  function Combined(bs: seq<Block>, p: Block): (r: seq<Block>)
    ensures |r| == |bs|
    ensures forall b :: b in bs ==> Xor(b, p) in r
  {
    if bs == [] then []
    else
      var n := |bs| - 1;
      assert forall b :: b in bs ==> b in bs[..n] || b == bs[n];
      Combined(bs[..n], p) + [Xor(bs[n], p)]
  }

  lemma PathGrows(ys: seq<Block>, b0: Block, ps: seq<Block>, z: Block, y: Block)
    requires Path(ys, b0, ps, z) && |ys| <= |ps| && y[0] > 1
    requires forall l :: 0 <= l < |ys| ==> y != ys[l] && Xor(y, ps[|ys| - 1]) != ys[l]
    requires forall p :: p in ps ==> Xor(z, p) != y
    ensures Path(ys + [y], b0, ps, z)
  {
    hide Xor;
  }

  lemma NotAhead(ys: seq<Block>, p: Block, y: Block)
    requires forall b :: b in Combined(ys, p) ==> b != y
    ensures forall l :: 0 <= l < |ys| ==> Xor(y, p) != ys[l]
  {
    hide Xor, Combined;
    forall l | 0 <= l < |ys|
      ensures Xor(y, p) != ys[l]
    {
      assert ys[l] in ys && Xor(ys[l], p) in Combined(ys, p);
      if Xor(y, p) == ys[l] {
        Undo(y, p, ys[l]);
      }
    }
  }

  /** The next block of a path. */
  lemma Longer(ys: seq<Block>, b0: Block, ps: seq<Block>, z: Block) returns (y: Block)
    requires Path(ys, b0, ps, z) && |ys| <= |ps| && 3 * |ps| + 3 < 0x10000
    ensures Path(ys + [y], b0, ps, z)
  {
    assert |ys| >= 1;
    hide Xor, Path, Numbered, Combined, CombinedWith;
    var p := ps[|ys| - 1];
    var c := Unlisted(2, ys + CombinedWith(z, ps) + Combined(ys, p));
    y := Numbered(2, c);
    NotAhead(ys, p, y);
    PathGrows(ys, b0, ps, z, y);
  }

  lemma SinkClear(a0: Block, z: Block, ps: seq<Block>)
    requires forall b :: b in CombinedWith(a0, ps) ==> Code(b) != Code(z)
    ensures forall p :: p in ps ==> !Masked(a0, Xor(z, p))
  {
    hide Code, Xor, CombinedWith;
    forall p | p in ps
      ensures !Masked(a0, Xor(z, p))
    {
      assert Xor(a0, p) in CombinedWith(a0, ps);
      if Code(Xor(z, p)) == Code(a0) {
        CodeUndo(z, p, a0);
      }
    }
  }

  lemma SinkOff(b0: Block, z: Block, ps: seq<Block>)
    requires z !in CombinedWith(b0, ps)
    ensures forall p :: p in ps ==> Xor(z, p) != b0
  {
    hide Xor, CombinedWith;
    forall p | p in ps
      ensures Xor(z, p) != b0
    {
      assert Xor(b0, p) in CombinedWith(b0, ps);
      if Xor(z, p) == b0 {
        Undo(z, p, b0);
      }
    }
  }

  /** There is a sink, and a path to the end. */
  lemma PathExists(a0: Block, b0: Block, ps: seq<Block>) returns (z: Block, ys: seq<Block>)
    requires a0[0] == 1 && b0[0] > 1 && 3 * |ps| + 3 < 0x10000
    ensures Whole(a0, ys, b0, ps, z)
  {
    var avoid := CombinedWith(b0, ps) + CombinedWith(a0, ps);
    hide Numbered, Code, CombinedWith, Xor, Masked;
    var c := Unlisted(0, avoid);
    z := Numbered(0, c);
    assert forall b :: b in CombinedWith(a0, ps) ==> b in avoid;
    SinkOff(b0, z, ps);
    SinkClear(a0, z, ps);
    ys := [b0];
    while |ys| <= |ps|
      invariant Path(ys, b0, ps, z)
      decreases |ps| + 1 - |ys|
    {
      var y := Longer(ys, b0, ps, z);
      ys := ys + [y];
    }
  }

  /** Where b is on the path. */
  function Place(ys: seq<Block>, b: Block): (i: nat)
    requires b in ys
    ensures i < |ys| && ys[i] == b
  {
    if ys[|ys| - 1] == b then |ys| - 1 else Place(ys[..|ys| - 1], b)
  }

  const END: Block := ZERO[0 := 1]

  /** On the path to the value that combines with the next of ps into the next block; from its end to END;
      from the masked blocks to zero; from anywhere else to z. */
  function Follow(a0: Block, ys: seq<Block>, ps: seq<Block>, z: Block): Cipher
    requires |ys| == |ps| + 1
  {
    (k: Block, b: Block) =>
      if b !in ys then if Masked(a0, b) then ZERO else z
      else if Place(ys, b) == |ps| then END
      else Xor(ys[Place(ys, b) + 1], ps[Place(ys, b)])
  }

  /** A path to the end, and a sink that no block leads out of. */
  predicate Whole(a0: Block, ys: seq<Block>, b0: Block, ps: seq<Block>, z: Block) {
    && |ys| == |ps| + 1 && Path(ys, b0, ps, z) && z[0] == 0 && a0[0] == 1
    && forall p :: p in ps ==> !Masked(a0, Xor(z, p))
  }

  lemma FollowAt(a0: Block, ys: seq<Block>, b0: Block, ps: seq<Block>, z: Block, k: Block, i: nat)
    requires Whole(a0, ys, b0, ps, z) && i <= |ps|
    ensures Follow(a0, ys, ps, z)(k, ys[i]) == if i == |ps| then END else Xor(ys[i + 1], ps[i])
  {
    assert Place(ys, ys[i]) == i;
  }

  lemma CbcTake(E: Cipher, k: Block, x: Block, bs: seq<Block>, i: nat)
    requires i <= |bs|
    ensures Cbc(E, k, x, bs[..0]) == x
    ensures i > 0 ==> Cbc(E, k, x, bs[..i]) == E(k, Xor(Cbc(E, k, x, bs[..i - 1]), bs[i - 1]))
  {
    hide Xor;
    if i > 0 {
      assert bs[..i][..i - 1] == bs[..i - 1];
    }
  }

  /** The computation itself ends at END. */
  lemma {:induction false} FollowCbc(a0: Block, ys: seq<Block>, b0: Block, ps: seq<Block>, z: Block, k: Block, i: nat)
    requires Whole(a0, ys, b0, ps, z) && i <= |ps|
    ensures var E := Follow(a0, ys, ps, z);
            Cbc(E, k, E(k, b0), ps[..i]) == if i == |ps| then END else Xor(ys[i + 1], ps[i])
  {
    assert |ys| == |ps| + 1 && ys[0] == b0;
    hide *;
    var E := Follow(a0, ys, ps, z);
    FollowAt(a0, ys, b0, ps, z, k, i);
    CbcTake(E, k, E(k, b0), ps, i);
    if i > 0 {
      FollowCbc(a0, ys, b0, ps, z, k, i - 1);
      XorTwice(ys[i], ps[i - 1]);
    }
  }

  lemma FollowStream(nonce: Rfc.Nonce, ys: seq<Block>, b0: Block, ps: seq<Block>, z: Block)
    requires Whole(Rfc.A(nonce, 0), ys, b0, ps, z)
    ensures |ys| == |ps| + 1
    ensures forall k: Block :: ZeroStream(Follow(Rfc.A(nonce, 0), ys, ps, z), k, nonce)
  {
    var a0 := Rfc.A(nonce, 0);
    forall k: Block, i: nat | 0 < i < 0x10000
      ensures Follow(a0, ys, ps, z)(k, Rfc.A(nonce, i)) == ZERO
    {
      CountersMasked(nonce, i);
    }
  }

  // In the sink.

  lemma SinkStep(a0: Block, ys: seq<Block>, b0: Block, ps: seq<Block>, z: Block, k: Block)
    requires Whole(a0, ys, b0, ps, z)
    ensures Follow(a0, ys, ps, z)(k, z) == z
    ensures forall p :: p in ps ==> Follow(a0, ys, ps, z)(k, Xor(z, p)) == z
  {
    hide Xor, Code;
  }

  lemma {:induction false} SinkCbc(a0: Block, ys: seq<Block>, b0: Block, ps: seq<Block>, z: Block, k: Block,
                                   bs: seq<Block>)
    requires Whole(a0, ys, b0, ps, z) && (forall b :: b in bs ==> b in ps)
    ensures Cbc(Follow(a0, ys, ps, z), k, z, bs) == z
    decreases |bs|
  {
    if bs != [] {
      SinkCbc(a0, ys, b0, ps, z, k, bs[..|bs| - 1]);
      assert bs[|bs| - 1] in ps;
      SinkStep(a0, ys, b0, ps, z, k);
    }
    hide Follow, Whole, Xor;
  }

  lemma {:induction false} SinkChain(a0: Block, ys: seq<Block>, b0: Block, ps: seq<Block>, z: Block, k: Block,
                                     bs: seq<Chunk>)
    requires Whole(a0, ys, b0, ps, z) && Cut(bs) && Among(bs, ps)
    ensures Chain(Follow(a0, ys, ps, z), k, z, bs) == z
    decreases |bs|
  {
    assert |ys| == |ps| + 1;
    hide *;
    var E := Follow(a0, ys, ps, z);
    ChainFirst(E, k, z, bs);
    if bs != [] {
      CutFirst(bs, 0);
      AmongFirst(bs, ps);
      SinkCbc(a0, ys, b0, ps, z, k, Rfc.PaddedBlocks(Data(bs[0])));
      Rfc.AbsorbIsCbc(E, k, z, Data(bs[0]));
      SinkStep(a0, ys, b0, ps, z, k);
      SinkChain(a0, ys, b0, ps, z, k, bs[1..]);
    }
  }

  // On the way there.

  /** How many steps on nothing may still pass before the sink. */
  function Rank(a0: Block, ys: seq<Block>, b: Block): (n: nat)
    ensures 1 <= n <= |ys| + 2
  {
    if b in ys then |ys| - Place(ys, b) + 2 else if Masked(a0, b) then 2 else 1
  }

  /** x comes after r steps on nothing. */
  predicate Behind(a0: Block, ys: seq<Block>, z: Block, x: Block, r: nat) {
    x == z || Rank(a0, ys, x) + r <= |ys| + 3
  }

  lemma RankBelow(a0: Block, ys: seq<Block>, i: nat, y: Block)
    requires i < |ys| && forall l :: 0 <= l <= i ==> y != ys[l]
    ensures Rank(a0, ys, y) < |ys| - i + 2
  {
    hide Masked;
  }

  /** One step on nothing from block i of the path leads to none of the blocks up to it. */
  lemma StepOff(a0: Block, ys: seq<Block>, b0: Block, ps: seq<Block>, z: Block, i: nat)
    requires Whole(a0, ys, b0, ps, z) && i <= |ps|
    ensures |ys| == |ps| + 1
    ensures forall l :: 0 <= l <= i ==> (if i == |ps| then END else Xor(ys[i + 1], ps[i])) != ys[l]
  {
    hide Xor, Code;
    assert END[0] == 1;
    if i < |ps| {
      assert Xor(ys[i + 1], ps[(i + 1) - 1]) == Xor(ys[i + 1], ps[i]);
    }
  }

  lemma RankFalls(a0: Block, ys: seq<Block>, b0: Block, ps: seq<Block>, z: Block, k: Block, x: Block)
    requires Whole(a0, ys, b0, ps, z) && x in ys
    ensures Rank(a0, ys, Follow(a0, ys, ps, z)(k, x)) < Rank(a0, ys, x)
  {
    var i := Place(ys, x);
    assert Rank(a0, ys, x) == |ys| - i + 2 && |ys| == |ps| + 1;
    hide *;
    FollowAt(a0, ys, b0, ps, z, k, i);
    StepOff(a0, ys, b0, ps, z, i);
    RankBelow(a0, ys, i, Follow(a0, ys, ps, z)(k, x));
  }

  lemma RankOff(a0: Block, ys: seq<Block>, b0: Block, ps: seq<Block>, z: Block, k: Block, x: Block)
    requires Whole(a0, ys, b0, ps, z) && x !in ys
    ensures var y := Follow(a0, ys, ps, z)(k, x);
            y == z || (y == ZERO && Rank(a0, ys, x) == 2 && Rank(a0, ys, ZERO) == 1)
  {
    assert ZERO[0] == 0;
    hide Xor, Code;
  }

  lemma BehindStep(a0: Block, ys: seq<Block>, b0: Block, ps: seq<Block>, z: Block, k: Block, x: Block, r: nat)
    requires Whole(a0, ys, b0, ps, z) && Behind(a0, ys, z, x, r)
    ensures Behind(a0, ys, z, Follow(a0, ys, ps, z)(k, x), r + 1)
  {
    assert |ys| == |ps| + 1;
    SinkStep(a0, ys, b0, ps, z, k);
    if x in ys {
      RankFalls(a0, ys, b0, ps, z, k, x);
      assert x != z;
    } else {
      RankOff(a0, ys, b0, ps, z, k, x);
    }
    hide Rank, Follow, Xor, Masked;
  }

  predicate HasEmpty(bs: seq<Chunk>) {
    exists i :: 0 <= i < |bs| && bs[i].len == 0
  }

  lemma HasEmptyFirst(bs: seq<Chunk>)
    requires bs != [] && bs[0].len > 0
    ensures HasEmpty(bs) ==> bs[1..] != [] && HasEmpty(bs[1..])
  {
    if HasEmpty(bs) {
      var i :| 0 <= i < |bs| && bs[i].len == 0;
      assert bs[1..][i - 1].len == 0;
    }
  }

  lemma BehindNow(a0: Block, ys: seq<Block>, z: Block, x: Block, r: nat)
    ensures Behind(a0, ys, z, x, 0)
    ensures Behind(a0, ys, z, x, r) && r > |ys| + 2 ==> x == z
  {}

  /** Over a cut in step, an empty call with octets after it is one of 65536 or more at a time, and these
      lose the cipher for good. */
  lemma {:induction false} Sinks(a0: Block, ys: seq<Block>, b0: Block, ps: seq<Block>, z: Block, k: Block, x: Block,
                                 bs: seq<Chunk>, s: nat, r: nat)
    requires Whole(a0, ys, b0, ps, z) && |ys| == |ps| + 1 < 0xff00 && Cut(bs) && Among(bs, ps)
    requires bs != [] && bs[|bs| - 1].len > 0 && InStep(bs, s)
    requires Behind(a0, ys, z, x, r) && r <= s && (s - r) % 0x10000 == 0
    requires r > 0 || HasEmpty(bs)
    ensures Chain(Follow(a0, ys, ps, z), k, x, bs) == z
    decreases |bs|
  {
    hide *;
    var E := Follow(a0, ys, ps, z);
    var b, rest := bs[0], bs[1..];
    AmongFirst(bs, ps);
    CutFirst(bs, s);
    ChainFirst(E, k, x, bs);
    LastOfRest(bs);
    if b.len == 0 {
      BehindStep(a0, ys, b0, ps, z, k, x, r);
      Sinks(a0, ys, b0, ps, z, k, E(k, x), rest, s + 1, r + 1);
    } else if r > 0 {
      ManySteps(s, r);
      BehindNow(a0, ys, z, x, r);
      SinkChain(a0, ys, b0, ps, z, k, bs);
    } else {
      var y := Rfc.Absorb(E, k, x, Data(b));
      HasEmptyFirst(bs);
      BehindNow(a0, ys, z, y, 0);
      Sinks(a0, ys, b0, ps, z, k, y, rest, s, 0);
    }
  }

  lemma ManySteps(s: nat, r: nat)
    requires 0 < r <= s && s % 0x10000 == 0 && (s - r) % 0x10000 == 0
    ensures r >= 0x10000
  {
    var a, b := s / 0x10000, (s - r) / 0x10000;
    assert s == 0x10000 * a && s - r == 0x10000 * b;
  }
}
