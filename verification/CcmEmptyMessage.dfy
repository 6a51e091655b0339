/** Where the CCM machine departs from RFC 3610: exactly in the sessions with a call without octets. */
module CcmEmptyMessage {
  import opened Bytes
  import opened Ccm
  import opened CcmSession
  import opened CcmEmptyCall
  import opened CcmEmptyDigest
  import opened CcmCuts
  import opened CcmWitness
  import opened CcmPath
  import Rfc = Rfc3610

  /** The request when the first message call comes. */
  function AfterAad(E: Cipher, key: Block, nonce: Rfc.Nonce, aad: seq<Chunk>, n: nat, authLen: nat, q: Request): Request
    requires Rfc.ValidAuthLen(authLen)
  {
    Digested(E, Init(key, nonce, n, |Joined(aad)|, authLen, q), aad)
  }

  lemma MessageStarts(E: Cipher, key: Block, nonce: Rfc.Nonce, aad: seq<Chunk>, n: nat, authLen: nat, q: Request)
    requires AadCalls(aad) && |Joined(aad)| < 0xff00 && n < 0x10000 && Rfc.ValidAuthLen(authLen)
    ensures var r := AfterAad(E, key, nonce, aad, n, authLen, q);
            && r.key == key && r.nonce == nonce
            && AtShifted(E, r, n, 0, 0, XStart(E, key, nonce, aad, n, authLen))
  {
    hide XStart, Joined, Digested, AtMessage, AtShifted, AadCalls;
    AfterAadCalls(E, key, nonce, aad, n, authLen, q);
    NotShifted(E, AfterAad(E, key, nonce, aad, n, authLen, q), n, 0, 0, XStart(E, key, nonce, aad, n, authLen));
  }

  lemma SessionParts(E: Cipher, encrypt: bool, key: Block, nonce: Rfc.Nonce, aad: seq<Chunk>, message: seq<Chunk>,
                     authLen: nat, q: Request)
    requires Rfc.ValidAuthLen(authLen)
    ensures var r := AfterAad(E, key, nonce, aad, |Joined(message)|, authLen, q);
            var (last, out) := Processed(E, r, encrypt, message);
            Session(E, encrypt, key, nonce, aad, message, authLen, q) == (out, last.xi[..authLen])
  {
    hide Processed, Digested, Joined, Init;
  }

  /** The authentication value that RFC 3610 gives the plaintext m. */
  function Tag(E: Cipher, key: Block, nonce: Rfc.Nonce, a: seq<byte>, m: seq<byte>, authLen: nat): seq<byte>
    requires |a| < 0xff00 && |m| < 0x10000 && Rfc.ValidAuthLen(authLen)
  {
    Rfc.Encrypt(E, key, nonce, a, m, authLen).1
  }

  lemma TagIsAbsorb(E: Cipher, key: Block, nonce: Rfc.Nonce, a: seq<byte>, m: seq<byte>, authLen: nat)
    requires |a| < 0xff00 && |m| < 0x10000 && Rfc.ValidAuthLen(authLen)
    ensures Tag(E, key, nonce, a, m, authLen)
         == Xor(Rfc.Absorb(E, key, XAad(E, key, nonce, a, |m|, authLen), m), Rfc.S(E, key, nonce, 0))[..authLen]
  {
    hide Rfc.X1, Rfc.S, Rfc.EncodedAad, Xor, Rfc.Absorb, Rfc.Mac, Rfc.Ctr;
    Rfc.MacIsAbsorb(E, key, nonce, a, m, authLen);
  }

  /** The session does what RFC 3610 says: encryption puts out its result, and decryption the plaintext for
      which its result is the input, with the authentication value. */
  ghost predicate Agrees(E: Cipher, encrypt: bool, key: Block, nonce: Rfc.Nonce, aad: seq<Chunk>, message: seq<Chunk>,
                         authLen: nat, q: Request)
    requires |Joined(aad)| < 0xff00 && |Joined(message)| < 0x10000 && Rfc.ValidAuthLen(authLen)
  {
    var (out, auth) := Session(E, encrypt, key, nonce, aad, message, authLen, q);
    if encrypt then (out, auth) == Rfc.Encrypt(E, key, nonce, Joined(aad), Joined(message), authLen)
    else |out| < 0x10000 && Rfc.Encrypt(E, key, nonce, Joined(aad), out, authLen) == (Joined(message), auth)
  }

  function PlainText(E: Cipher, encrypt: bool, key: Block, nonce: Rfc.Nonce, m: seq<byte>): (p: seq<byte>)
    requires |m| < 0x10000
    ensures |p| == |m|
  {
    if encrypt then m else Rfc.Ctr(E, key, nonce, 0, m)
  }

  lemma AgreesInOctets(E: Cipher, encrypt: bool, key: Block, nonce: Rfc.Nonce, aad: seq<Chunk>, message: seq<Chunk>,
                       authLen: nat, q: Request)
    requires |Joined(aad)| < 0xff00 && |Joined(message)| < 0x10000 && Rfc.ValidAuthLen(authLen)
    requires Agrees(E, encrypt, key, nonce, aad, message, authLen, q)
    ensures var (out, auth) := Session(E, encrypt, key, nonce, aad, message, authLen, q);
            var m := Joined(message);
            && out == Rfc.Ctr(E, key, nonce, 0, m)
            && auth == Tag(E, key, nonce, Joined(aad), PlainText(E, encrypt, key, nonce, m), authLen)
  {
    var out := Session(E, encrypt, key, nonce, aad, message, authLen, q).0;
    if !encrypt {
      Rfc.CtrTwice(E, key, nonce, 0, out);
    }
    hide Session, Rfc.Ctr, Rfc.Mac, Joined, Xor;
  }

  /** With a key stream of zeroes, or without octets, the plaintext is the message. */
  lemma PlainTextStays(E: Cipher, encrypt: bool, key: Block, nonce: Rfc.Nonce, m: seq<byte>)
    requires |m| < 0x10000 && (encrypt || m == [] || ZeroStream(E, key, nonce))
    ensures PlainText(E, encrypt, key, nonce, m) == m
  {
    if !encrypt && m != [] {
      ZeroCtr(E, key, nonce, 0, m);
    }
    hide ZeroStream;
  }

  // A counter out of step.

  lemma OddOctet(b: byte)
    ensures XorByte(b, 0) != XorByte(b, 1)
  {
    XorBitsZero(b);
    XorBitsHalf(b, 1);
  }

  lemma CtrAt(E: Cipher, key: Block, nonce: Rfc.Nonce, m: seq<byte>, i: nat)
    requires |m| < 0x10000 && 16 * i < |m|
    ensures Rfc.Ctr(E, key, nonce, 0, m)[16 * i] == XorByte(m[16 * i], E(key, Rfc.A(nonce, i + 1))[0])
  {
    assert 16 * i / 16 == i && 16 * i % 16 == 0;
  }

  lemma {:induction false} OutOfStepWithin(bs: seq<Chunk>, s: nat)
    requires !InStep(bs, s) && Cut(bs)
    ensures 16 * OutOfStep(bs, s).0 < |Joined(bs)|
    decreases |bs|
  {
    var b := bs[0];
    CutFirst(bs, s);
    OutOfStepFirst(bs, s);
    hide *;
    OctetsLeft(bs, s);
    if b.len == 0 {
      OutOfStepWithin(bs[1..], s + 1);
      NoData(b);
    } else if s % 0x10000 == 0 {
      OctetsLeft(bs[1..], s);
      OutOfStepFirst(bs[1..], s);
      OutOfStepWithin(bs[1..], s);
      WholeCall(b.len, 0);
    }
  }

  lemma NoData(b: Chunk)
    ensures b.len == 0 ==> Data(b) == []
  {}

  lemma SpotShows(nonce: Rfc.Nonce, key: Block, i: nat, t: nat)
    requires i + 1 < 0x10000 && t % 0x10000 != 0
    ensures var E := Spot(Rfc.A(nonce, i + 1));
            E(key, Rfc.A(nonce, i + 1))[0] == 1 && E(key, Rfc.A(nonce, U16(0 + i + 1 + t)))[0] == 0
  {
    OutOfStepCounter(i, t);
    CountersDiffer(nonce, U16(0 + i + 1 + t), i + 1);
    hide U16, Rfc.A;
  }

  lemma ShowsOctet(E: Cipher, r: Request, m: seq<byte>, out: seq<byte>, i: nat, t: nat)
    requires Shows(E, r, 0, m, out, i, t)
    ensures 16 * i < |m| && 16 * i < |out|
    ensures out[16 * i] == XorByte(m[16 * i], E(r.key, Rfc.A(r.nonce, U16(0 + i + 1 + t)))[0])
  {
    hide Rfc.A, U16, XorByte;
  }

  lemma OutOfStepDisagrees(encrypt: bool, key: Block, nonce: Rfc.Nonce, aad: seq<Chunk>, message: seq<Chunk>,
                           authLen: nat, q: Request)
    returns (E: Cipher)
    requires AadCalls(aad) && |Joined(aad)| < 0xff00 && Rfc.ValidAuthLen(authLen)
    requires Cut(message) && |Joined(message)| < 0x10000 && !InStep(message, 0)
    ensures !Agrees(E, encrypt, key, nonce, aad, message, authLen, q)
  {
    hide *;
    var m := Joined(message);
    var (i, t) := OutOfStep(message, 0);
    OutOfStepWithin(message, 0);
    E := Spot(Rfc.A(nonce, i + 1));
    if Agrees(E, encrypt, key, nonce, aad, message, authLen, q) {
      AgreesInOctets(E, encrypt, key, nonce, aad, message, authLen, q);
      var r := AfterAad(E, key, nonce, aad, |m|, authLen, q);
      MessageStarts(E, key, nonce, aad, |m|, authLen, q);
      OutOfStepShows(E, r, encrypt, |m|, 0, 0, XStart(E, key, nonce, aad, |m|, authLen), message);
      SessionParts(E, encrypt, key, nonce, aad, message, authLen, q);
      ShowsOctet(E, r, m, Processed(E, r, encrypt, message).1, i, t);
      SpotShows(nonce, key, i, t);
      CtrAt(E, key, nonce, m, i);
      OddOctet(m[16 * i]);
      assert false;
    }
  }

  // A cut in step: its last octets, and the empty calls after them.

  lemma {:induction false} AddTrail(front: seq<Chunk>, trail: seq<Chunk>, s: nat)
    requires AllEmpty(trail)
    ensures Joined(front + trail) == Joined(front)
    ensures InStep(front + trail, s) ==> InStep(front, s)
    decreases |front|, |trail|
  {
    if front != [] {
      assert (front + trail)[1..] == front[1..] + trail && (front + trail)[0] == front[0];
      AddTrail(front[1..], trail, s);
      AddTrail(front[1..], trail, s + 1);
    } else if trail != [] {
      assert front + trail == trail && front + trail[1..] == trail[1..];
      AddTrail(front, trail[1..], s);
    }
  }

  lemma {:induction false} SplitTrail(bs: seq<Chunk>) returns (front: seq<Chunk>, trail: seq<Chunk>)
    ensures bs == front + trail && AllEmpty(trail)
    ensures front != [] ==> front[|front| - 1].len > 0
    decreases |bs|
  {
    if bs == [] || bs[|bs| - 1].len > 0 {
      front, trail := bs, [];
    } else {
      front, trail := SplitTrail(bs[..|bs| - 1]);
      trail := trail + [bs[|bs| - 1]];
    }
  }

  lemma FrontSession(E: Cipher, encrypt: bool, key: Block, nonce: Rfc.Nonce, aad: seq<Chunk>, front: seq<Chunk>,
                     trail: seq<Chunk>, authLen: nat, q: Request)
    requires AadCalls(aad) && |Joined(aad)| < 0xff00 && Rfc.ValidAuthLen(authLen) && |Joined(front)| < 0x10000
    requires front != [] && front[|front| - 1].len > 0 && Cut(front) && InStep(front, 0) && AllEmpty(trail)
    requires encrypt || ZeroStream(E, key, nonce)
    ensures var s0 := Rfc.S(E, key, nonce, 0);
            var x := XStart(E, key, nonce, aad, |Joined(front)|, authLen);
            Session(E, encrypt, key, nonce, aad, front + trail, authLen, q).1
            == Trail(E, key, s0, Xor(Chain(E, key, x, front), s0), |trail|)[..authLen]
  {
    hide *;
    var n := |Joined(front)|;
    AddTrail(front, trail, 0);
    MessageStarts(E, key, nonce, aad, n, authLen, q);
    InStepRun(E, AfterAad(E, key, nonce, aad, n, authLen, q), encrypt, n, 0, 0, XStart(E, key, nonce, aad, n, authLen),
              front, trail);
    SessionParts(E, encrypt, key, nonce, aad, front + trail, authLen, q);
  }

  /** Calls without octets, and nothing else: each runs a step of the CBC-MAC and folds S_0 in. */
  lemma EmptySession(E: Cipher, encrypt: bool, key: Block, nonce: Rfc.Nonce, aad: seq<Chunk>, message: seq<Chunk>,
                     authLen: nat, q: Request)
    requires AadCalls(aad) && |Joined(aad)| < 0xff00 && Rfc.ValidAuthLen(authLen)
    requires message != [] && AllEmpty(message)
    ensures var s0, x := Rfc.S(E, key, nonce, 0), XStart(E, key, nonce, aad, 0, authLen);
            Session(E, encrypt, key, nonce, aad, message, authLen, q)
            == ([], Trail(E, key, s0, Xor(E(key, x), s0), |message| - 1)[..authLen])
  {
    var x := XStart(E, key, nonce, aad, 0, authLen);
    var b, rest := message[0], message[1..];
    assert AllEmpty(rest) && b.len == 0;
    assert [] + message == message;
    AddTrail([], message, 0);
    hide *;
    NoOctets();
    var r := AfterAad(E, key, nonce, aad, 0, authLen, q);
    MessageStarts(E, key, nonce, aad, 0, authLen, q);
    EmptyCall(E, r, encrypt, 0, 0, 0, x, b);
    ProcessedFirst(E, r, encrypt, message);
    var r1 := Served(E, Called(r, encrypt, b));
    SameS0(E, r, r1);
    TrailRun(E, r1, encrypt, rest);
    SessionParts(E, encrypt, key, nonce, aad, message, authLen, q);
  }

  /** A session whose authentication value differs from that of its octets, where these stay as they are. */
  lemma TagDisagrees(E: Cipher, encrypt: bool, key: Block, nonce: Rfc.Nonce, aad: seq<Chunk>, message: seq<Chunk>,
                     authLen: nat, q: Request)
    requires |Joined(aad)| < 0xff00 && |Joined(message)| < 0x10000 && Rfc.ValidAuthLen(authLen)
    requires encrypt || Joined(message) == [] || ZeroStream(E, key, nonce)
    requires Session(E, encrypt, key, nonce, aad, message, authLen, q).1
          != Tag(E, key, nonce, Joined(aad), Joined(message), authLen)
    ensures !Agrees(E, encrypt, key, nonce, aad, message, authLen, q)
  {
    hide *;
    PlainTextStays(E, encrypt, key, nonce, Joined(message));
    if Agrees(E, encrypt, key, nonce, aad, message, authLen, q) {
      AgreesInOctets(E, encrypt, key, nonce, aad, message, authLen, q);
    }
  }

  lemma TagLength(n: nat)
    requires Rfc.ValidAuthLen(n)
    ensures 0 < n <= 16
  {}

  lemma TrailStart(E: Cipher, k: Block, s0: Block, y: Block)
    ensures Trail(E, k, s0, y, 0) == y
  {}

  // No octet at all, in one call.

  /** A cipher without a fixed point. */
  function Bump(): Cipher {
    (k: Block, b: Block) => b[0 := if b[0] == 255 then 0 else b[0] + 1]
  }

  lemma BumpDiffers(k: Block, x: Block)
    ensures Bump()(k, x)[0] != x[0] && Bump()(k, Bump()(k, x))[0] != x[0]
  {}

  /** The machine has taken one step, or two, more than RFC 3610. */
  lemma BumpStart(key: Block, nonce: Rfc.Nonce, aad: seq<Chunk>, authLen: nat)
    requires AadCalls(aad) && |Joined(aad)| < 0xff00 && Rfc.ValidAuthLen(authLen)
    ensures var E := Bump();
            E(key, XStart(E, key, nonce, aad, 0, authLen))[0] != XAad(E, key, nonce, Joined(aad), 0, authLen)[0]
  {
    var E := Bump();
    BumpDiffers(key, XAad(E, key, nonce, Joined(aad), 0, authLen));
    if !AadChunks(aad) {
      OneEmptyDigest(aad);
      NoAad();
      AbsorbNothing(E, key, Rfc.X1(E, key, nonce, false, 0, authLen));
    }
    hide Bump, Rfc.X1, Rfc.EncodedAad, Rfc.Absorb;
  }

  lemma OneEmptyDisagrees(encrypt: bool, key: Block, nonce: Rfc.Nonce, aad: seq<Chunk>, b: Chunk, authLen: nat,
                          q: Request)
    requires AadCalls(aad) && |Joined(aad)| < 0xff00 && Rfc.ValidAuthLen(authLen) && b.len == 0
    ensures |Joined([b])| < 0x10000 && !Agrees(Bump(), encrypt, key, nonce, aad, [b], authLen, q)
  {
    var E := Bump();
    AddTrail([], [b], 0);
    assert [] + [b] == [b];
    var s0 := Rfc.S(E, key, nonce, 0);
    var x, y := XAad(E, key, nonce, Joined(aad), 0, authLen), E(key, XStart(E, key, nonce, aad, 0, authLen));
    TrailStart(E, key, s0, Xor(y, s0));
    AbsorbNothing(E, key, x);
    hide *;
    NoOctets();
    EmptySession(E, encrypt, key, nonce, aad, [b], authLen, q);
    TagIsAbsorb(E, key, nonce, Joined(aad), [], authLen);
    BumpStart(key, nonce, aad, authLen);
    TagLength(authLen);
    FirstDiffers(y, x, s0, authLen);
    TagDisagrees(E, encrypt, key, nonce, aad, [b], authLen, q);
  }

  // Empty calls after the last octet, or two without any.

  /** The blocks that the CBC-MAC takes in. */
  function Taken(a: seq<byte>, m: seq<byte>): seq<Block>
    requires |a| < 0xff00
  {
    Rfc.PaddedBlocks(Rfc.EncodedAad(a)) + Rfc.PaddedBlocks(m)
  }

  lemma {:induction false} FewBlocks(s: seq<byte>)
    ensures 16 * |Rfc.PaddedBlocks(s)| <= |s| + 15
    decreases |s|
  {
    if |s| > 16 {
      FewBlocks(s[16..]);
    }
  }

  lemma FewTaken(a: seq<byte>, m: seq<byte>)
    requires |a| < 0xff00 && |m| < 0x10000
    ensures 3 * |Taken(a, m)| + 4 < 0xff00
    ensures Within(Rfc.EncodedAad(a), Taken(a, m)) && Within(m, Taken(a, m))
  {
    FewBlocks(Rfc.EncodedAad(a));
    FewBlocks(m);
    assert |Rfc.EncodedAad(a)| <= |a| + 2;
    hide Rfc.PaddedBlocks, Rfc.EncodedAad;
  }

  lemma WithinCut(bs: seq<Chunk>, ps: seq<Block>)
    requires Within(Joined(bs), ps)
    ensures Among(bs, ps)
  {}

  lemma TwoStart(d: Block, key: Block, nonce: Rfc.Nonce, a: seq<byte>, n: nat, authLen: nat, ps: seq<Block>)
    requires |a| < 0xff00 && n < 0x10000 && Rfc.ValidAuthLen(authLen)
    requires Clear(Rfc.A(nonce, 0), d, ps) && Within(Rfc.EncodedAad(a), ps)
    ensures var a0 := Rfc.A(nonce, 0);
            && Rfc.X1(Two(a0, d), key, nonce, a != [], n, authLen) == Xor(a0, d)
            && Value(a0, d, XAad(Two(a0, d), key, nonce, a, n, authLen))
            && (a == [] || Apart(a0, d, LastPad(Rfc.EncodedAad(a))) ==>
                  XAad(Two(a0, d), key, nonce, a, n, authLen) == Xor(a0, d))
  {
    var a0, b0, s := Rfc.A(nonce, 0), Rfc.B0(nonce, a != [], n, authLen), Rfc.EncodedAad(a);
    assert b0[0] >= 9 && a0[0] == 1;
    hide Rfc.B0, Rfc.EncodedAad, Xor, Apart, LastPad, Rfc.A, Clear, Within, Code;
    assert Rfc.X1(Two(a0, d), key, nonce, a != [], n, authLen) == Xor(a0, d);
    TwoValue(a0, d, ps, key, Xor(a0, d), s);
    if a == [] {
      NoAad();
    } else if Apart(a0, d, LastPad(s)) {
      NoAadNot(a);
      TwoAbsorb(a0, d, ps, key, Xor(a0, d), s);
    }
  }

  /** An empty digest call before that makes no difference to this cipher. */
  lemma TwoBegin(d: Block, key: Block, nonce: Rfc.Nonce, aad: seq<Chunk>, n: nat, authLen: nat, ps: seq<Block>)
    requires AadCalls(aad) && |Joined(aad)| < 0xff00 && n < 0x10000 && Rfc.ValidAuthLen(authLen)
    requires Clear(Rfc.A(nonce, 0), d, ps) && Within(Rfc.EncodedAad(Joined(aad)), ps)
    ensures var a0, a := Rfc.A(nonce, 0), Joined(aad);
            && Value(a0, d, XStart(Two(a0, d), key, nonce, aad, n, authLen))
            && (a == [] || Apart(a0, d, LastPad(Rfc.EncodedAad(a))) ==>
                  XStart(Two(a0, d), key, nonce, aad, n, authLen) == Xor(a0, d))
  {
    var a0 := Rfc.A(nonce, 0);
    TwoStart(d, key, nonce, Joined(aad), n, authLen, ps);
    ClearHeads(a0, d, ps);
    TwoNothing(a0, d, key, Xor(a0, d));
    if !AadChunks(aad) {
      OneEmptyDigest(aad);
    }
    hide Two, Xor, Rfc.X1, Rfc.EncodedAad, Rfc.Absorb, Apart, LastPad, Rfc.A, Joined, Clear, Within, XAad;
  }

  lemma NoAad()
    ensures Rfc.EncodedAad([]) == []
  {}

  lemma NoAadNot(a: seq<byte>)
    requires a != [] && |a| < 0xff00
    ensures Rfc.EncodedAad(a) != []
  {}

  lemma TwoFacts(d: Block, key: Block, nonce: Rfc.Nonce)
    requires d[0] == 2
    ensures var a0 := Rfc.A(nonce, 0);
            && a0[0] == 1 && Rfc.S(Two(a0, d), key, nonce, 0) == d && Xor(Xor(a0, d), d) == a0
            && Two(a0, d)(key, Xor(a0, d)) == Xor(a0, d) && ZERO[0] == 0
  {
    var a0 := Rfc.A(nonce, 0);
    XorTwice(a0, d);
    TwoNothing(a0, d, key, Xor(a0, d));
    hide Xor, Rfc.A, Code;
  }

  lemma PrefixDiffers(a: Block, b: Block, n: nat)
    requires a[0] != b[0] && 0 < n <= 16
    ensures a[..n] != b[..n]
  {
    assert a[..n][0] == a[0] && b[..n][0] == b[0];
  }

  lemma ApartFacts(a0: Block, d: Block, p: Block)
    requires Apart(a0, d, p)
    ensures a0[0] == 1 && d[0] == 2
  {}

  lemma FirstCounter(nonce: Rfc.Nonce)
    ensures Rfc.A(nonce, 0)[0] == 1
  {}

  lemma TrailDisagrees(encrypt: bool, key: Block, nonce: Rfc.Nonce, aad: seq<Chunk>, front: seq<Chunk>,
                       trail: seq<Chunk>, authLen: nat, q: Request)
    returns (E: Cipher)
    requires AadCalls(aad) && |Joined(aad)| < 0xff00 && Rfc.ValidAuthLen(authLen) && |Joined(front + trail)| < 0x10000
    requires front != [] && front[|front| - 1].len > 0 && Cut(front) && InStep(front, 0)
    requires trail != [] && AllEmpty(trail)
    ensures !Agrees(E, encrypt, key, nonce, aad, front + trail, authLen, q)
  {
    assert |trail| > 0;
    hide *;
    var a0, a, m := Rfc.A(nonce, 0), Joined(aad), Joined(front);
    var ps := Taken(a, m);
    FirstCounter(nonce);
    LastOctets(front);
    AddTrail(front, trail, 0);
    FewTaken(a, m);
    var d := ApartExists(a0, LastPad(m), ps);
    ApartFacts(a0, d, LastPad(m));
    E := Two(a0, d);
    TwoStream(d, nonce);
    FrontSession(E, encrypt, key, nonce, aad, front, trail, authLen, q);
    TagIsAbsorb(E, key, nonce, a, m, authLen);
    TwoStart(d, key, nonce, a, |m|, authLen, ps);
    TwoBegin(d, key, nonce, aad, |m|, authLen, ps);
    WithinCut(front, ps);
    TwoChain(a0, d, ps, key, XStart(E, key, nonce, aad, |m|, authLen), front);
    TwoAbsorb(a0, d, ps, key, XAad(E, key, nonce, a, |m|, authLen), m);
    TwoFacts(d, key, nonce);
    TwoTrail(a0, d, key, |trail|);
    TagLength(authLen);
    PrefixDiffers(a0, ZERO, authLen);
    TagDisagrees(E, encrypt, key, nonce, aad, front + trail, authLen, q);
  }

  lemma NoOctetsDisagrees(encrypt: bool, key: Block, nonce: Rfc.Nonce, aad: seq<Chunk>, message: seq<Chunk>,
                          authLen: nat, q: Request)
    returns (E: Cipher)
    requires AadCalls(aad) && |Joined(aad)| < 0xff00 && Rfc.ValidAuthLen(authLen) && |Joined(message)| < 0x10000
    requires |message| > 1 && AllEmpty(message)
    ensures !Agrees(E, encrypt, key, nonce, aad, message, authLen, q)
  {
    AddTrail([], message, 0);
    assert [] + message == message;
    hide *;
    var a0, a := Rfc.A(nonce, 0), Joined(aad);
    var ps := Taken(a, []);
    FirstCounter(nonce);
    NoOctets();
    FewTaken(a, []);
    if a != [] {
      NoAadNot(a);
    }
    var p := if a == [] then ZERO else LastPad(Rfc.EncodedAad(a));
    var d := ApartExists(a0, p, ps);
    ApartFacts(a0, d, p);
    E := Two(a0, d);
    EmptySession(E, encrypt, key, nonce, aad, message, authLen, q);
    TagIsAbsorb(E, key, nonce, a, [], authLen);
    TwoStart(d, key, nonce, a, 0, authLen, ps);
    TwoBegin(d, key, nonce, aad, 0, authLen, ps);
    TwoFacts(d, key, nonce);
    AbsorbNothing(E, key, XAad(E, key, nonce, a, 0, authLen));
    TwoTrail(a0, d, key, |message| - 1);
    TagLength(authLen);
    PrefixDiffers(a0, ZERO, authLen);
    TagDisagrees(E, encrypt, key, nonce, aad, message, authLen, q);
  }

  // Empty calls before an octet, a multiple of 65536 of them at a time.

  lemma MacIsCbc(E: Cipher, key: Block, nonce: Rfc.Nonce, a: seq<byte>, m: seq<byte>, authLen: nat)
    requires |a| < 0xff00 && |m| < 0x10000 && Rfc.ValidAuthLen(authLen)
    ensures var ps := Taken(a, m);
            var b0 := Rfc.B0(nonce, a != [], |m|, authLen);
            && b0[0] > 1 && ps[..|ps|] == ps
            && Tag(E, key, nonce, a, m, authLen) == Xor(Cbc(E, key, E(key, b0), ps), Rfc.S(E, key, nonce, 0))[..authLen]
  {
    hide Cbc, Rfc.S, Rfc.PaddedBlocks, Rfc.EncodedAad, Xor, Rfc.Ctr;
  }

  lemma WholePath(a0: Block, ys: seq<Block>, b0: Block, ps: seq<Block>, z: Block)
    requires Whole(a0, ys, b0, ps, z)
    ensures |ys| == |ps| + 1 && z[0] == 0 && END[0] == 1
  {
    hide Path;
  }

  /** The computation of RFC 3610 follows the path to its end. */
  lemma FollowTag(a0: Block, ys: seq<Block>, z: Block, key: Block, nonce: Rfc.Nonce, a: seq<byte>, m: seq<byte>,
                  authLen: nat)
    requires |a| < 0xff00 && |m| < 0x10000 && Rfc.ValidAuthLen(authLen)
    requires Whole(a0, ys, Rfc.B0(nonce, a != [], |m|, authLen), Taken(a, m), z)
    ensures |ys| == |Taken(a, m)| + 1
    ensures var E := Follow(a0, ys, Taken(a, m), z);
            Tag(E, key, nonce, a, m, authLen) == Xor(END, Rfc.S(E, key, nonce, 0))[..authLen]
  {
    hide *;
    var ps, b0 := Taken(a, m), Rfc.B0(nonce, a != [], |m|, authLen);
    WholePath(a0, ys, b0, ps, z);
    MacIsCbc(Follow(a0, ys, ps, z), key, nonce, a, m, authLen);
    FollowCbc(a0, ys, b0, ps, z, key, |ps|);
  }

  /** The machine ends in the sink. */
  lemma SinkTag(ys: seq<Block>, b0: Block, ps: seq<Block>, z: Block, encrypt: bool, key: Block, nonce: Rfc.Nonce,
                aad: seq<Chunk>, message: seq<Chunk>, authLen: nat, q: Request)
    requires AadCalls(aad) && |Joined(aad)| < 0xff00 && Rfc.ValidAuthLen(authLen) && |Joined(message)| < 0x10000
    requires message != [] && message[|message| - 1].len > 0 && Cut(message) && InStep(message, 0) && HasEmpty(message)
    requires Whole(Rfc.A(nonce, 0), ys, b0, ps, z) && |ys| == |ps| + 1 < 0xff00 && Among(message, ps)
    ensures var E := Follow(Rfc.A(nonce, 0), ys, ps, z);
            Session(E, encrypt, key, nonce, aad, message, authLen, q).1
            == Xor(z, Rfc.S(E, key, nonce, 0))[..authLen]
  {
    hide *;
    var a0 := Rfc.A(nonce, 0);
    var E := Follow(a0, ys, ps, z);
    var x, s0 := XStart(E, key, nonce, aad, |Joined(message)|, authLen), Rfc.S(E, key, nonce, 0);
    FollowStream(nonce, ys, b0, ps, z);
    NoTrail(message);
    FrontSession(E, encrypt, key, nonce, aad, message, [], authLen, q);
    BehindNow(a0, ys, z, x, 0);
    Sinks(a0, ys, b0, ps, z, key, x, message, 0, 0);
    TrailStart(E, key, s0, Xor(z, s0));
  }

  lemma NoTrail(bs: seq<Chunk>)
    ensures bs + [] == bs && AllEmpty([])
  {}

  lemma BatchDisagrees(encrypt: bool, key: Block, nonce: Rfc.Nonce, aad: seq<Chunk>, message: seq<Chunk>,
                       authLen: nat, q: Request)
    returns (E: Cipher)
    requires AadCalls(aad) && |Joined(aad)| < 0xff00 && Rfc.ValidAuthLen(authLen) && |Joined(message)| < 0x10000
    requires message != [] && message[|message| - 1].len > 0 && Cut(message) && InStep(message, 0) && HasEmpty(message)
    ensures !Agrees(E, encrypt, key, nonce, aad, message, authLen, q)
  {
    hide *;
    var a0, a, m := Rfc.A(nonce, 0), Joined(aad), Joined(message);
    var ps, b0 := Taken(a, m), Rfc.B0(nonce, a != [], |m|, authLen);
    FirstCounter(nonce);
    FewTaken(a, m);
    WithinCut(message, ps);
    MacIsCbc(Bump(), key, nonce, a, m, authLen);
    var z, ys := PathExists(a0, b0, ps);
    WholePath(a0, ys, b0, ps, z);
    E := Follow(a0, ys, ps, z);
    FollowStream(nonce, ys, b0, ps, z);
    SinkTag(ys, b0, ps, z, encrypt, key, nonce, aad, message, authLen, q);
    FollowTag(a0, ys, z, key, nonce, a, m, authLen);
    TagLength(authLen);
    FirstDiffers(END, z, Rfc.S(E, key, nonce, 0), authLen);
    TagDisagrees(E, encrypt, key, nonce, aad, message, authLen, q);
  }

  // All together.

  lemma CutFront(front: seq<Chunk>, trail: seq<Chunk>)
    requires Cut(front + trail)
    ensures Cut(front)
  {
    forall i | 0 <= i < |front| - 1
      ensures front[i].len % 16 == 0
    {
      assert (front + trail)[i] == front[i];
    }
  }

  lemma Disagrees(encrypt: bool, key: Block, nonce: Rfc.Nonce, aad: seq<Chunk>, message: seq<Chunk>, authLen: nat,
                  q: Request)
    returns (E: Cipher)
    requires AadCalls(aad) && |Joined(aad)| < 0xff00 && Rfc.ValidAuthLen(authLen)
    requires Cut(message) && |Joined(message)| < 0x10000 && HasEmpty(message)
    ensures !Agrees(E, encrypt, key, nonce, aad, message, authLen, q)
  {
    assert message != [];
    hide *;
    if !InStep(message, 0) {
      E := OutOfStepDisagrees(encrypt, key, nonce, aad, message, authLen, q);
      return;
    }
    var front, trail := SplitTrail(message);
    AddTrail(front, trail, 0);
    CutFront(front, trail);
    if front == [] {
      assert trail == message;
      if |message| == 1 {
        OneEmpty(message);
        E := Bump();
        OneEmptyDisagrees(encrypt, key, nonce, aad, message[0], authLen, q);
      } else {
        E := NoOctetsDisagrees(encrypt, key, nonce, aad, message, authLen, q);
      }
    } else if trail != [] {
      E := TrailDisagrees(encrypt, key, nonce, aad, front, trail, authLen, q);
    } else {
      assert front == message;
      E := BatchDisagrees(encrypt, key, nonce, aad, message, authLen, q);
    }
  }

  lemma OneEmpty(bs: seq<Chunk>)
    requires |bs| == 1 && AllEmpty(bs)
    ensures bs == [bs[0]] && bs[0].len == 0
  {}

  lemma EveryCall(bs: seq<Chunk>)
    requires Cut(bs)
    ensures HasEmpty(bs) <==> !(forall i :: 0 <= i < |bs| ==> bs[i].len > 0)
    ensures !HasEmpty(bs) ==> MessageChunks(bs)
  {}

  lemma LegalAgrees(E: Cipher, encrypt: bool, key: Block, nonce: Rfc.Nonce, aad: seq<Chunk>, message: seq<Chunk>,
                    authLen: nat, q: Request)
    requires Legal(aad, message, authLen)
    ensures Agrees(E, encrypt, key, nonce, aad, message, authLen, q)
  {
    hide Session, Rfc.Encrypt, Joined, MessageChunks, AadChunks;
    if encrypt {
      EncryptSession(E, key, nonce, aad, message, authLen, q);
    } else {
      DecryptSession(E, key, nonce, aad, message, authLen, q);
    }
  }

  // An empty digest call, and nothing else amiss.

  /** A cipher that turns the lowest bit of the first octet over. */
  function Turn(): Cipher {
    (k: Block, b: Block) => b[0 := if b[0] % 2 == 0 then b[0] + 1 else b[0] - 1]
  }

  lemma TurnStep(k: Block, x: Block, y: Block, p: Block)
    requires x[0] % 2 != y[0] % 2
    ensures Turn()(k, Xor(x, p))[0] % 2 != Turn()(k, Xor(y, p))[0] % 2
  {
    LowestBit(x[0], p[0]);
    LowestBit(y[0], p[0]);
    assert Xor(x, p)[0] == XorByte(x[0], p[0]) && Xor(y, p)[0] == XorByte(y[0], p[0]);
    hide XorByte, Xor;
  }

  lemma LowestBit(a: byte, b: byte)
    ensures XorByte(a, b) % 2 == (a + b) % 2
  {
    if a != 0 || b != 0 {
      XorBitsHalf(a, b);
    }
  }

  lemma {:induction false} TurnAbsorb(k: Block, x: Block, y: Block, s: seq<byte>)
    requires x[0] % 2 != y[0] % 2
    ensures Rfc.Absorb(Turn(), k, x, s)[0] % 2 != Rfc.Absorb(Turn(), k, y, s)[0] % 2
    decreases |s|
  {
    if s != [] {
      var n := Min(16, |s|);
      var p := ZeroPad(s[..n]);
      TurnStep(k, x, y, p);
      TurnAbsorb(k, Turn()(k, Xor(x, p)), Turn()(k, Xor(y, p)), s[n..]);
    }
    hide Turn, Xor;
  }

  lemma TurnOnce(k: Block, x: Block)
    ensures Turn()(k, x)[0] % 2 != x[0] % 2
  {}

  lemma TurnBegin(key: Block, nonce: Rfc.Nonce, aad: seq<Chunk>, n: nat, authLen: nat)
    requires AadCalls(aad) && !AadChunks(aad) && |Joined(aad)| < 0xff00 && n < 0x10000 && Rfc.ValidAuthLen(authLen)
    ensures XStart(Turn(), key, nonce, aad, n, authLen)[0] % 2
         != XAad(Turn(), key, nonce, Joined(aad), n, authLen)[0] % 2
  {
    OneEmptyDigest(aad);
    NoAad();
    var x1 := Rfc.X1(Turn(), key, nonce, false, n, authLen);
    AbsorbNothing(Turn(), key, x1);
    TurnOnce(key, x1);
    hide Turn, Rfc.X1, Rfc.EncodedAad, Rfc.Absorb;
  }

  /** What all calls with octets make of the message, whatever the digest calls before have left. */
  lemma FullSession(E: Cipher, encrypt: bool, key: Block, nonce: Rfc.Nonce, aad: seq<Chunk>, message: seq<Chunk>,
                    authLen: nat, q: Request)
    requires AadCalls(aad) && |Joined(aad)| < 0xff00 && Rfc.ValidAuthLen(authLen) && |Joined(message)| < 0x10000
    requires message != [] && MessageChunks(message)
    ensures var x := XStart(E, key, nonce, aad, |Joined(message)|, authLen);
            var p := PlainText(E, encrypt, key, nonce, Joined(message));
            Session(E, encrypt, key, nonce, aad, message, authLen, q).1
            == Xor(Rfc.Absorb(E, key, x, p), Rfc.S(E, key, nonce, 0))[..authLen]
  {
    hide *;
    var n := |Joined(message)|;
    var r, x := AfterAad(E, key, nonce, aad, n, authLen, q), XStart(E, key, nonce, aad, n, authLen);
    MessageStarts(E, key, nonce, aad, n, authLen, q);
    NotShifted(E, r, n, 0, 0, x);
    MessageCalls(E, r, encrypt, n, 0, x, message);
    SessionParts(E, encrypt, key, nonce, aad, message, authLen, q);
    var (last, out) := Processed(E, r, encrypt, message);
    DoneXi(E, r, encrypt, x, Joined(message), last, out);
  }

  lemma DoneXi(E: Cipher, q: Request, encrypt: bool, x: Block, m: seq<byte>, r: Request, out: seq<byte>)
    requires 16 * 0 + |m| < 0x10000 && MessageDone(E, q, encrypt, 0, x, m, r, out)
    ensures r.xi == Xor(Rfc.Absorb(E, q.key, x, PlainText(E, encrypt, q.key, q.nonce, m)), Rfc.S(E, q.key, q.nonce, 0))
  {
    hide Rfc.Absorb, Rfc.S, Xor, Rfc.Ctr;
  }

  lemma EmptyDigestDisagrees(encrypt: bool, key: Block, nonce: Rfc.Nonce, aad: seq<Chunk>, message: seq<Chunk>,
                             authLen: nat, q: Request)
    requires AadCalls(aad) && !AadChunks(aad) && |Joined(aad)| < 0xff00 && Rfc.ValidAuthLen(authLen)
    requires message != [] && MessageChunks(message) && |Joined(message)| < 0x10000
    ensures !Agrees(Turn(), encrypt, key, nonce, aad, message, authLen, q)
  {
    hide *;
    var E, n := Turn(), |Joined(message)|;
    var p := PlainText(E, encrypt, key, nonce, Joined(message));
    var x, y := XAad(E, key, nonce, Joined(aad), n, authLen), XStart(E, key, nonce, aad, n, authLen);
    FullSession(E, encrypt, key, nonce, aad, message, authLen, q);
    TagIsAbsorb(E, key, nonce, Joined(aad), p, authLen);
    TurnBegin(key, nonce, aad, n, authLen);
    TurnAbsorb(key, y, x, p);
    TagLength(authLen);
    FirstDiffers(Rfc.Absorb(E, key, y, p), Rfc.Absorb(E, key, x, p), Rfc.S(E, key, nonce, 0), authLen);
    if Agrees(E, encrypt, key, nonce, aad, message, authLen, q) {
      AgreesInOctets(E, encrypt, key, nonce, aad, message, authLen, q);
    }
  }

  /** Encryption and decryption alike, however the message is cut into calls of whole blocks, the last of any
      length, and the additional data into digest calls that come to an end: the machine computes RFC 3610,
      whatever the cipher, exactly when every message call has an octet and the last digest call, if there is
      one, has one as well. */
  lemma ExactlyNonEmpty(encrypt: bool, key: Block, nonce: Rfc.Nonce, aad: seq<Chunk>, message: seq<Chunk>,
                        authLen: nat, q: Request)
    requires AadCalls(aad) && |Joined(aad)| < 0xff00 && Rfc.ValidAuthLen(authLen)
    requires message != [] && Cut(message) && |Joined(message)| < 0x10000
    ensures (forall E: Cipher :: Agrees(E, encrypt, key, nonce, aad, message, authLen, q))
       <==> (forall i :: 0 <= i < |message| ==> message[i].len > 0)
            && (aad == [] || aad[|aad| - 1].len > 0)
  {
    EveryCall(message);
    assert AadChunks(aad) <==> aad == [] || aad[|aad| - 1].len > 0;
    if HasEmpty(message) {
      hide *;
      var E := Disagrees(encrypt, key, nonce, aad, message, authLen, q);
    } else if !AadChunks(aad) {
      hide *;
      EmptyDigestDisagrees(encrypt, key, nonce, aad, message, authLen, q);
    } else {
      assert Legal(aad, message, authLen);
      hide *;
      forall E: Cipher
        ensures Agrees(E, encrypt, key, nonce, aad, message, authLen, q)
      {
        LegalAgrees(E, encrypt, key, nonce, aad, message, authLen, q);
      }
    }
  }

  /** The shortest cut with octets: an octet behind an empty call is combined with the second block of the
      key stream instead of the first. */
  lemma OctetBehindEmpty(E: Cipher, encrypt: bool, key: Block, nonce: Rfc.Nonce, authLen: nat, b: Chunk, c: Chunk,
                         q: Request)
    requires Rfc.ValidAuthLen(authLen) && b.len == 0 && c.len == 1
    ensures var m := [b, c];
            && Joined(m) == Data(c)
            && |Session(E, encrypt, key, nonce, [], m, authLen, q).0| >= 1
            && Session(E, encrypt, key, nonce, [], m, authLen, q).0[0]
               == XorByte(Data(c)[0], Rfc.S(E, key, nonce, 2)[0])
            && Rfc.Ctr(E, key, nonce, 0, Data(c))[0] == XorByte(Data(c)[0], Rfc.S(E, key, nonce, 1)[0])
  {
    var m := [b, c];
    assert m[1..] == [c] && [c][1..] == [];
    assert Data(b) == [] && [] + Data(c) == Data(c) && Data(c) + [] == Data(c);
    assert Joined(m) == Data(c) && Cut(m) && OutOfStep(m, 0) == (0, 1) && AadChunks([]) && Joined([]) == [];
    assert U16(0 + 0 + 1 + 1) == 2;
    CtrAt(E, key, nonce, Data(c), 0);
    hide *;
    var r := AfterAad(E, key, nonce, [], 1, authLen, q);
    MessageStarts(E, key, nonce, [], 1, authLen, q);
    OutOfStepShows(E, r, encrypt, 1, 0, 0, XStart(E, key, nonce, [], 1, authLen), m);
    SessionParts(E, encrypt, key, nonce, [], m, authLen, q);
    ShowsOctet(E, r, Data(c), Processed(E, r, encrypt, m).1, 0, 1);
    FirstStream(E, key, nonce);
  }

  lemma FirstStream(E: Cipher, key: Block, nonce: Rfc.Nonce)
    ensures Rfc.S(E, key, nonce, 1) == E(key, Rfc.A(nonce, 1)) && Rfc.S(E, key, nonce, 2) == E(key, Rfc.A(nonce, 2))
  {
    hide Rfc.A;
  }
}
