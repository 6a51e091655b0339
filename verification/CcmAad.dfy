/** What the digest calls of the CCM API leave behind, whatever chunks the additional data comes in. */
module CcmAad {
  import opened Bytes
  import opened Ccm
  import Rfc = Rfc3610

  /** The octets of n that make up whole blocks. */
  function Whole(n: nat): (w: nat)
    ensures w <= n && w % 16 == 0 && n - w == n % 16
  {
    n / 16 * 16
  }

  /** x with the whole blocks of s absorbed and the octets after them only combined in. */
  function Partial(E: Cipher, k: Block, x: Block, s: seq<byte>): Block {
    var w := Whole(|s|);
    XorInto(Rfc.Absorb(E, k, x, s[..w]), 0, s[w..])
  }

  lemma XorIntoTwice(x: Block, a: seq<byte>, b: seq<byte>)
    requires |a| + |b| <= 16
    ensures XorInto(XorInto(x, 0, a), |a|, b) == XorInto(x, 0, a + b)
  {
    hide *;
    var y := XorInto(x, 0, a);
    XorIntoAt(x, 0, a);
    XorIntoAt(y, |a|, b);
    XorIntoAt(x, 0, a + b);
    assert forall i :: 0 <= i < 16 ==> XorInto(y, |a|, b)[i] == XorInto(x, 0, a + b)[i];
  }

  lemma PartialJoin(E: Cipher, k: Block, x: Block, s: seq<byte>, t: seq<byte>)
    requires |s| % 16 + |t| <= 16
    ensures var w := Whole(|s|);
            XorInto(Partial(E, k, x, s), |s| % 16, t) == XorInto(Rfc.Absorb(E, k, x, s[..w]), 0, s[w..] + t)
  {
    var w := Whole(|s|);
    XorIntoTwice(Rfc.Absorb(E, k, x, s[..w]), s[w..], t);
  }

  /** Octets that do not reach the end of the block are only combined in. */
  lemma PartialMore(E: Cipher, k: Block, x: Block, s: seq<byte>, t: seq<byte>)
    requires |s| % 16 + |t| < 16
    ensures XorInto(Partial(E, k, x, s), |s| % 16, t) == Partial(E, k, x, s + t)
  {
    PartialJoin(E, k, x, s, t);
    var w := Whole(|s|);
    hide XorInto, Rfc.Absorb;
    assert Whole(|s + t|) == w;
    assert (s + t)[..w] == s[..w] && (s + t)[w..] == s[w..] + t;
  }

  lemma AbsorbLast(E: Cipher, k: Block, x: Block, a: seq<byte>, b: seq<byte>)
    requires |a| % 16 == 0 && 0 < |b| <= 16
    ensures E(k, XorInto(Rfc.Absorb(E, k, x, a), 0, b)) == Rfc.Absorb(E, k, x, a + b)
  {
    hide XorInto, Rfc.Absorb, Xor, ZeroPad;
    XorIntoIsXor(Rfc.Absorb(E, k, x, a), b);
    Rfc.AbsorbAppend(E, k, x, a, b);
    Rfc.AbsorbBlock(E, k, Rfc.Absorb(E, k, x, a), b);
  }

  /** What the cipher makes of a partial block is that block absorbed. */
  lemma PartialAbsorbed(E: Cipher, k: Block, x: Block, s: seq<byte>, t: seq<byte>)
    requires 0 < |s| % 16 + |t| <= 16
    ensures E(k, XorInto(Partial(E, k, x, s), |s| % 16, t)) == Rfc.Absorb(E, k, x, s + t)
  {
    hide *;
    PartialJoin(E, k, x, s, t);
    var a, b := s[..Whole(|s|)], s[Whole(|s|)..] + t;
    AbsorbLast(E, k, x, a, b);
    assert s + t == a + b;
  }

  lemma PartialWhole(E: Cipher, k: Block, x: Block, s: seq<byte>)
    requires |s| % 16 == 0
    ensures Partial(E, k, x, s) == Rfc.Absorb(E, k, x, s)
  {
    assert s[..|s|] == s && s[|s|..] == [];
  }

  // The machine.

  /** At the start of a pass: s is what has been digested, length octets included. */
  predicate AtAad(E: Cipher, q: Request, x: Block, s: seq<byte>) {
    && Ok(q) && q.state.CalcAadXn? && q.aadOffset == |s|
    && q.aadRemainderLen == |s| % 16 && q.xi == Partial(E, q.key, x, s)
  }

  /** The octets that the rest of the chunk adds to s. */
  function Added(q: Request): seq<byte>
    requires BuffersFit(q) && q.aadLen < 0x10000
  {
    (if q.aadOffset == 0 then Rfc.BigEndian16(q.aadLen) else []) + q.mem[q.input..q.input + q.blockLen]
  }

  /** The request after a chunk that takes what is digested from s to all. */
  function AfterAad(E: Cipher, q: Request, x: Block, all: seq<byte>): Request {
    var complete := |all| == q.aadLen + 2;
    q.(input := q.input + q.blockLen, blockLen := 0, aadOffset := |all|,
       aadRemainderLen := if complete then 0 else |all| % 16,
       xi := if complete then Rfc.Absorb(E, q.key, x, all) else Partial(E, q.key, x, all),
       state := if complete then W4AadXn else CalcAadXn)
  }

  /** What one pass digests: up to the end of the block. */
  function Taken(q: Request): seq<byte>
    requires Ok(q) && q.state.CalcAadXn?
  {
    var head := if q.aadOffset == 0 then Rfc.BigEndian16(q.aadLen) else [];
    var n := Min(16 - q.aadRemainderLen - |head|, q.blockLen);
    head + q.mem[q.input..q.input + n]
  }

  lemma TakenInto(q: Request)
    requires Ok(q) && q.state.CalcAadXn? && q.aadOffset == 0
    ensures var head, t := Rfc.BigEndian16(q.aadLen), Taken(q);
            |t| >= 2 && XorInto(XorInto(q.xi, 0, head), 2, q.mem[q.input..q.input + |t| - 2]) == XorInto(q.xi, 0, t)
  {
    var t := Taken(q);
    XorIntoTwice(q.xi, Rfc.BigEndian16(q.aadLen), q.mem[q.input..q.input + |t| - 2]);
  }

  /** The octets of the chunk among those that the pass takes. */
  function FromChunk(q: Request): nat
    requires Ok(q) && q.state.CalcAadXn?
  {
    |Taken(q)| - (if q.aadOffset == 0 then 2 else 0)
  }

  /** The request with what the pass takes combined into its block. */
  function Combined(q: Request): Request
    requires Ok(q) && q.state.CalcAadXn?
  {
    var t := Taken(q);
    q.(xi := XorInto(q.xi, q.aadRemainderLen, t), aadRemainderLen := q.aadRemainderLen + |t|,
       input := q.input + FromChunk(q), aadOffset := q.aadOffset + |t|, blockLen := q.blockLen - FromChunk(q))
  }

  /** The block goes to the cipher when it is full, or when it is the last one. */
  predicate CallsCipher(q: Request)
    requires Ok(q) && q.state.CalcAadXn?
  {
    q.aadRemainderLen + |Taken(q)| == 16 || q.aadOffset + |Taken(q)| == q.aadLen + 2
  }

  /** What the pass makes of the request: the block is sent or kept. */
  function Passed(q: Request): (Request, Action)
    requires Ok(q) && q.state.CalcAadXn?
  {
    var q1 := Combined(q);
    if CallsCipher(q) then (q1.(aadRemainderLen := 0, state := W4AadXn), Send(q1.xi)) else (q1, Complete)
  }

  lemma FirstPass(q: Request)
    requires Ok(q) && q.state.CalcAadXn? && q.aadOffset == 0
    ensures Calc(q) == Passed(q)
  {
    TakenInto(q);
    hide XorInto, Xor, Rfc.BigEndian16;
  }

  lemma LaterPass(q: Request)
    requires Ok(q) && q.state.CalcAadXn? && q.aadOffset > 0
    ensures Calc(q) == Passed(q)
  {
    assert Taken(q) == q.mem[q.input..q.input + |Taken(q)|];
    hide XorInto, Xor, Rfc.BigEndian16;
  }

  lemma PassAad(q: Request)
    requires Ok(q) && q.state.CalcAadXn?
    ensures Calc(q) == Passed(q)
  {
    hide *;
    if q.aadOffset == 0 {
      FirstPass(q);
    } else {
      LaterPass(q);
    }
  }

  /** The request after the pass that takes its octets from s to all, and after the answer of the
      cipher if it asked one. */
  function AfterPass(E: Cipher, q: Request, x: Block, all: seq<byte>): Request
    requires Ok(q) && q.state.CalcAadXn?
  {
    var complete := |all| == q.aadLen + 2;
    q.(input := q.input + FromChunk(q), blockLen := q.blockLen - FromChunk(q), aadOffset := |all|,
       aadRemainderLen := if complete then 0 else |all| % 16,
       xi := if complete then Rfc.Absorb(E, q.key, x, all) else Partial(E, q.key, x, all),
       state := if complete then W4AadXn else CalcAadXn)
  }

  lemma PartialAfter(E: Cipher, k: Block, x: Block, s: seq<byte>, t: seq<byte>)
    requires |s| % 16 + |t| <= 16
    ensures var y := XorInto(Partial(E, k, x, s), |s| % 16, t);
            && (|s| % 16 + |t| < 16 ==> y == Partial(E, k, x, s + t) && |s + t| % 16 == |s| % 16 + |t|)
            && (|s| % 16 + |t| == 16 ==> E(k, y) == Partial(E, k, x, s + t) && |s + t| % 16 == 0)
            && (|s| % 16 + |t| > 0 ==> E(k, y) == Rfc.Absorb(E, k, x, s + t))
  {
    hide *;
    var n := |s| % 16 + |t|;
    if n < 16 {
      PartialMore(E, k, x, s, t);
    } else {
      PartialWhole(E, k, x, s + t);
    }
    if n > 0 {
      PartialAbsorbed(E, k, x, s, t);
    }
  }

  lemma WithoutCipher(E: Cipher, q: Request, x: Block, s: seq<byte>)
    requires AtAad(E, q, x, s) && !CallsCipher(q)
    ensures Combined(q) == AfterPass(E, q, x, s + Taken(q))
  {
    PartialAfter(E, q.key, x, s, Taken(q));
    hide XorInto, Partial, Rfc.Absorb, Taken, FromChunk, Ok;
  }

  lemma WithCipher(E: Cipher, q: Request, x: Block, s: seq<byte>)
    requires AtAad(E, q, x, s) && CallsCipher(q)
    ensures var all, q1 := s + Taken(q), Combined(q).(aadRemainderLen := 0, state := W4AadXn);
            Ok(q1) ==> Handle(q1, E(q.key, q1.xi)) == (AfterPass(E, q, x, all), |all| == q.aadLen + 2)
  {
    PartialAfter(E, q.key, x, s, Taken(q));
    hide XorInto, Partial, Rfc.Absorb, Taken, FromChunk, Ok;
  }

  /** One pass and, where it calls for one, the answer of the cipher. */
  lemma RoundAad(E: Cipher, q: Request, x: Block, s: seq<byte>)
    requires AtAad(E, q, x, s)
    ensures var all := s + Taken(q);
            Round(E, q) == (AfterPass(E, q, x, all), !CallsCipher(q) || |all| == q.aadLen + 2)
  {
    PassAad(q);
    var q1 := Combined(q);
    assert q1.key == q.key;
    hide Combined, AfterPass, Calc, Round, Taken, Handle;
    if CallsCipher(q) {
      RoundSend(E, q, q1.(aadRemainderLen := 0, state := W4AadXn), q1.xi);
      WithCipher(E, q, x, s);
    } else {
      RoundComplete(E, q, q1);
      WithoutCipher(E, q, x, s);
    }
  }

  lemma WholeChunkTaken(E: Cipher, q: Request, x: Block, s: seq<byte>)
    requires AtAad(E, q, x, s) && FromChunk(q) == q.blockLen
    ensures Taken(q) == Added(q) && AfterPass(E, q, x, s + Added(q)) == AfterAad(E, q, x, s + Added(q))
  {
    hide Partial, Rfc.Absorb;
  }

  lemma AddedAfterTaken(q: Request)
    requires Ok(q) && q.state.CalcAadXn?
    ensures FromChunk(q) <= q.blockLen
    ensures Added(q) == Taken(q) + q.mem[q.input + FromChunk(q)..q.input + q.blockLen]
  {
    var n := FromChunk(q);
    assert q.mem[q.input..q.input + q.blockLen]
        == q.mem[q.input..q.input + n] + q.mem[q.input + n..q.input + q.blockLen];
  }

  lemma AfterPassAt(E: Cipher, q: Request, x: Block, s: seq<byte>)
    requires AtAad(E, q, x, s) && CallsCipher(q) && |s + Taken(q)| != q.aadLen + 2
    ensures var all := s + Taken(q);
            var q1 := AfterPass(E, q, x, all);
            q1.aadOffset == |all| > 0 && (Ok(q1) ==> AtAad(E, q1, x, all))
  {
    hide Partial, Rfc.Absorb, Taken, FromChunk, Ok;
  }

  lemma ChunkPartlyTaken(E: Cipher, q: Request, x: Block, all: seq<byte>)
    requires Ok(q) && q.state.CalcAadXn? && |all| > 0
    ensures var q1 := AfterPass(E, q, x, all);
            BuffersFit(q1) && Added(q) == Taken(q) + Added(q1)
  {
    var q1 := AfterPass(E, q, x, all);
    assert BuffersFit(q1) && q1.mem[q1.input..q1.input + q1.blockLen]
                          == q.mem[q.input + FromChunk(q)..q.input + q.blockLen];
    AddedLater(q1);
    AddedAfterTaken(q);
    hide *;
  }

  lemma AddedLater(q: Request)
    requires BuffersFit(q) && q.aadLen < 0x10000 && q.aadOffset > 0
    ensures Added(q) == q.mem[q.input..q.input + q.blockLen]
  {}

  /** What a chunk leaves behind is decided by the octets digested in the end, not by the passes. */
  lemma SameEnd(E: Cipher, q: Request, x: Block, some: seq<byte>, all: seq<byte>)
    requires Ok(q) && q.state.CalcAadXn?
    ensures AfterAad(E, AfterPass(E, q, x, some), x, all) == AfterAad(E, q, x, all)
  {
    hide Partial, Rfc.Absorb, Taken;
  }

  /** The pass leaves some of the chunk. */
  predicate Unfinished(q: Request)
    requires Ok(q) && q.state.CalcAadXn?
  {
    CallsCipher(q) && q.aadOffset + |Taken(q)| != q.aadLen + 2
  }

  lemma MoreToDo(E: Cipher, q: Request, x: Block, s: seq<byte>)
    requires AtAad(E, q, x, s) && Unfinished(q)
    ensures var q1 := AfterPass(E, q, x, s + Taken(q));
            AtAad(E, q1, x, s + Taken(q)) && Work(q1) < Work(q) && Finish(E, q) == Finish(E, q1)
  {
    RoundAad(E, q, x, s);
    AfterPassAt(E, q, x, s);
    hide AfterPass, Taken, Round, Ok, Work, CallsCipher;
  }

  lemma AllDone(E: Cipher, q: Request, x: Block, s: seq<byte>)
    requires AtAad(E, q, x, s) && !Unfinished(q)
    ensures Finish(E, q) == AfterAad(E, q, x, s + Added(q))
  {
    RoundAad(E, q, x, s);
    assert FromChunk(q) == q.blockLen;
    WholeChunkTaken(E, q, x, s);
    hide Taken, Ok, AfterPass, AfterAad, Added, Round;
  }

  /** Every way through a chunk of additional data ends with all its octets digested. */
  lemma {:induction false} AadFinish(E: Cipher, q: Request, x: Block, s: seq<byte>)
    requires AtAad(E, q, x, s)
    ensures Finish(E, q) == AfterAad(E, q, x, s + Added(q))
    decreases Work(q)
  {
    assert Ok(q) && q.state.CalcAadXn?;
    if Unfinished(q) {
      var all := s + Taken(q);
      var q1 := AfterPass(E, q, x, all);
      MoreToDo(E, q, x, s);
      assert BuffersFit(q1) && q1.aadLen < 0x10000 && |all| > 0;
      hide *;
      ChunkPartlyTaken(E, q, x, all);
      SameEnd(E, q, x, all, s + Added(q));
      Regroup(s, Taken(q), Added(q1));
      AadFinish(E, q1, x, all);
    } else {
      AllDone(E, q, x, s);
    }
  }
}
