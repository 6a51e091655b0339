/** A client's whole use of a CCM request: init, digest calls for the additional data, encrypt or
    decrypt calls for the message, and the authentication value at the end. */
module CcmSession {
  import opened Bytes
  import opened Ccm
  import opened CcmChunk
  import opened CcmAad
  import Rfc = Rfc3610

  /** What a call points at: the memory of that moment, two positions in it and a length. The output
      may be the input, overlap it from below, or lie elsewhere. */
  datatype Buffers = Buffers(mem: seq<byte>, input: nat, output: nat, len: nat)

  type Chunk = b: Buffers |
    && b.input + b.len <= |b.mem| && b.output + b.len <= |b.mem|
    && (b.output <= b.input || b.input + b.len <= b.output)
    witness Buffers([], 0, 0, 0)

  function Data(b: Chunk): (d: seq<byte>)
    ensures |d| == b.len
  {
    b.mem[b.input..b.input + b.len]
  }

  function Joined(bs: seq<Chunk>): seq<byte> {
    if bs == [] then [] else Data(bs[0]) + Joined(bs[1..])
  }

  /** The request as its callback finds it, once the queue has served it. */
  function Served(E: Cipher, q: Request): (r: Request)
    ensures |r.mem| == |q.mem|
  {
    if Ok(q) && !Waiting(q.state) then Finish(E, q) else q
  }

  function Digested(E: Cipher, q: Request, bs: seq<Chunk>): Request
    decreases |bs|
  {
    if bs == [] then q
    else Digested(E, Served(E, DigestBlock(q, bs[0].mem, bs[0].input, bs[0].len)), bs[1..])
  }

  function Called(q: Request, encrypt: bool, b: Chunk): (r: Request)
    ensures r.mem == b.mem
  {
    if encrypt then EncryptBlock(q, b.mem, b.input, b.output, b.len)
    else DecryptBlock(q, b.mem, b.input, b.output, b.len)
  }

  /** The request after the message calls, and what they wrote, put together. */
  function Processed(E: Cipher, q: Request, encrypt: bool, bs: seq<Chunk>): (Request, seq<byte>)
    decreases |bs|
  {
    if bs == [] then (q, [])
    else
      var b := bs[0];
      var q1 := Served(E, Called(q, encrypt, b));
      var (q2, out) := Processed(E, q1, encrypt, bs[1..]);
      (q2, q1.mem[b.output..b.output + b.len] + out)
  }

  /** A session from init on: what it writes, and its authentication value. */
  function Session(E: Cipher, encrypt: bool, key: Block, nonce: Rfc.Nonce, aad: seq<Chunk>, message: seq<Chunk>,
                   authLen: nat, q: Request): (seq<byte>, seq<byte>)
    requires Rfc.ValidAuthLen(authLen)
  {
    var q1 := Init(key, nonce, |Joined(message)|, |Joined(aad)|, authLen, q);
    var (q2, out) := Processed(E, Digested(E, q1, aad), encrypt, message);
    (out, q2.xi[..authLen])
  }

  // The first pass of a session.

  function X(E: Cipher, q: Request): Block
    requires q.messageLen < 0x10000 && Rfc.ValidAuthLen(q.authLen)
  {
    Rfc.X1(E, q.key, q.nonce, q.aadLen != 0, q.messageLen, q.authLen)
  }

  lemma FirstCall(E: Cipher, q: Request)
    requires Ok(q) && q.state.CalcX1?
    ensures var q1 := HandleX1(q.(xi := X(E, q)));
            Ok(q1) && !Waiting(q1.state) && Served(E, q) == Served(E, q1)
  {
    hide Rfc.B0;
    RoundSend(E, q, q.(state := W4X1), Rfc.B0(q.nonce, q.aadLen != 0, q.messageLen, q.authLen));
  }

  // Additional data.

  predicate Lengths(q: Request) {
    q.aadLen < 0xff00 && q.messageLen < 0x10000 && Rfc.ValidAuthLen(q.authLen)
  }

  /** Between two digest calls: a is what they have digested. */
  predicate AtDigest(E: Cipher, q: Request, a: seq<byte>) {
    && Lengths(q) && |a| <= q.aadLen
    && if q.state.CalcX1? then a == [] && q.aadOffset == 0
       else
         var s := Rfc.BigEndian16(q.aadLen) + a;
         && q.aadLen > 0 && q.aadOffset == |s|
         && if |a| < q.aadLen
            then q.state.CalcAadXn? && q.aadRemainderLen == |s| % 16 && q.xi == Partial(E, q.key, X(E, q), s)
            else q.state.W4AadXn? && q.aadRemainderLen == 0 && q.xi == Rfc.Absorb(E, q.key, X(E, q), s)
  }

  /** What init fixes, and no call changes before the first octet of the message. */
  predicate SameSetup(q: Request, r: Request) {
    && r.key == q.key && r.nonce == q.nonce && r.messageLen == q.messageLen
    && r.aadLen == q.aadLen && r.authLen == q.authLen && r.counter == q.counter
  }

  /** The request where the machine takes up a digest call. */
  function BegunDigest(E: Cipher, q: Request, b: Chunk): (r: Request)
    requires Lengths(q)
    ensures SameSetup(q, r)
  {
    var q0 := DigestBlock(q, b.mem, b.input, b.len);
    if q.state.CalcX1? then HandleX1(q0.(xi := X(E, q))) else q0
  }

  /** What the digest calls before have put into the CBC-MAC. */
  function SoFar(q: Request, a: seq<byte>): seq<byte>
    requires Lengths(q)
  {
    if q.state.CalcX1? then [] else Rfc.BigEndian16(q.aadLen) + a
  }

  lemma StartDigest(E: Cipher, q: Request, a: seq<byte>, b: Chunk)
    requires AtDigest(E, q, a) && |a| < q.aadLen && |a| + b.len <= q.aadLen
    ensures var q0, q1 := DigestBlock(q, b.mem, b.input, b.len), BegunDigest(E, q, b);
            Ok(q1) && !Waiting(q1.state) && Served(E, q0) == Finish(E, q1)
    ensures AtAad(E, BegunDigest(E, q, b), X(E, q), SoFar(q, a))
  {
    var q0 := DigestBlock(q, b.mem, b.input, b.len);
    assert X(E, q0) == X(E, q);
    if q.state.CalcX1? {
      FirstCall(E, q0);
      PartialWhole(E, q.key, X(E, q), []);
    }
    hide Rfc.BigEndian16, Rfc.X1, Partial;
  }

  lemma DigestAdds(E: Cipher, q: Request, a: seq<byte>, b: Chunk)
    requires AtDigest(E, q, a) && |a| < q.aadLen && |a| + b.len <= q.aadLen
    ensures var q1 := BegunDigest(E, q, b);
            BuffersFit(q1) && SoFar(q, a) + Added(q1) == Rfc.BigEndian16(q.aadLen) + (a + Data(b))
  {
    hide Rfc.BigEndian16, Rfc.X1, Partial;
  }

  lemma AfterDigest(E: Cipher, q: Request, x: Block, a: seq<byte>)
    requires Lengths(q) && |a| <= q.aadLen && q.aadLen > 0 && x == X(E, q)
    ensures var r := AfterAad(E, q, x, Rfc.BigEndian16(q.aadLen) + a); AtDigest(E, r, a) && SameSetup(q, r)
  {
    hide Rfc.BigEndian16, Rfc.X1, Partial, Rfc.Absorb;
  }

  lemma SameX(E: Cipher, q: Request, r: Request)
    requires Lengths(q) && SameSetup(q, r)
    ensures Lengths(r) && r.aadLen == q.aadLen && X(E, r) == X(E, q)
  {}

  lemma SameSetupTwice(q: Request, r: Request, t: Request)
    ensures SameSetup(q, q) && (SameSetup(q, r) ==> r.aadLen == q.aadLen)
    ensures SameSetup(q, r) && SameSetup(r, t) ==> SameSetup(q, t)
  {}

  /** One digest call. */
  lemma DigestStep(E: Cipher, q: Request, a: seq<byte>, b: Chunk)
    requires AtDigest(E, q, a) && |a| < q.aadLen && |a| + b.len <= q.aadLen
    ensures var r := Served(E, DigestBlock(q, b.mem, b.input, b.len));
            AtDigest(E, r, a + Data(b)) && SameSetup(q, r)
  {
    assert Lengths(q);
    hide *;
    var q1, x, s := BegunDigest(E, q, b), X(E, q), SoFar(q, a);
    SameX(E, q, q1);
    StartDigest(E, q, a, b);
    DigestAdds(E, q, a, b);
    AadFinish(E, q1, x, s);
    AfterDigest(E, q1, x, a + Data(b));
    SameSetupTwice(q, q1, Finish(E, q1));
  }

  /** Additional data may come in any number of calls; only one that completes it may be the last. */
  predicate AadChunks(bs: seq<Chunk>) {
    bs != [] ==> bs[|bs| - 1].len > 0
  }

  lemma {:induction false} RestNotEmpty(bs: seq<Chunk>)
    requires bs != [] && AadChunks(bs)
    ensures Joined(bs) != [] && AadChunks(bs[1..])
  {
    if |bs| > 1 {
      RestNotEmpty(bs[1..]);
    }
  }

  lemma DigestedFirst(E: Cipher, q: Request, bs: seq<Chunk>)
    ensures bs == [] ==> Digested(E, q, bs) == q && Joined(bs) == []
    ensures bs != [] ==>
              var q1 := Served(E, DigestBlock(q, bs[0].mem, bs[0].input, bs[0].len));
              Digested(E, q, bs) == Digested(E, q1, bs[1..]) && Joined(bs) == Data(bs[0]) + Joined(bs[1..])
  {}

  /** Any number of digest calls. */
  lemma {:induction false} DigestCalls(E: Cipher, q: Request, a: seq<byte>, bs: seq<Chunk>)
    requires AtDigest(E, q, a) && AadChunks(bs) && |a| + |Joined(bs)| <= q.aadLen
    ensures var r := Digested(E, q, bs); AtDigest(E, r, a + Joined(bs)) && SameSetup(q, r)
    decreases |bs|
  {
    hide *;
    DigestedFirst(E, q, bs);
    if bs == [] {
      assert a + [] == a;
      SameSetupTwice(q, q, q);
    } else {
      var d, rest := Data(bs[0]), bs[1..];
      RestNotEmpty(bs);
      DigestStep(E, q, a, bs[0]);
      var q1 := Served(E, DigestBlock(q, bs[0].mem, bs[0].input, bs[0].len));
      Regroup(a, d, Joined(rest));
      SameSetupTwice(q, q1, Digested(E, q1, rest));
      DigestCalls(E, q1, a + d, rest);
    }
  }

  // The message.

  /** Every call has something to do, and all but the last are whole blocks. */
  predicate MessageChunks(bs: seq<Chunk>) {
    && (forall i :: 0 <= i < |bs| ==> bs[i].len > 0)
    && (forall i :: 0 <= i < |bs| - 1 ==> bs[i].len % 16 == 0)
  }

  /** Between two message calls: j blocks of n octets are through, and x is the CBC-MAC so far. */
  predicate AtMessage(E: Cipher, q: Request, n: nat, j: nat, x: Block) {
    && Lengths(q) && 16 * j <= n < 0x10000 && q.messageLen == n - 16 * j && q.counter == j + 1
    && if q.state.CalcX1? then q.aadLen == 0 && q.aadOffset == 0 && j == 0 && x == X(E, q) else q.xi == x
  }

  /** The plaintext of the chunk d that starts at block j. */
  function Plain(E: Cipher, q: Request, encrypt: bool, j: nat, d: seq<byte>): (p: seq<byte>)
    requires 16 * j + |d| < 0x10000
    ensures |p| == |d|
  {
    if encrypt then d else Rfc.Ctr(E, q.key, q.nonce, j, d)
  }

  /** The request where the machine takes up the first block of a message call. */
  function Begun(q: Request, encrypt: bool, x: Block, b: Chunk): (r: Request)
    ensures r.key == q.key && r.nonce == q.nonce && r.authLen == q.authLen && r.aadLen == q.aadLen
    ensures r.counter == q.counter && r.messageLen == q.messageLen && r.blockLen == b.len
    ensures r.operation == if encrypt then Encrypt else Decrypt
    ensures r.mem == b.mem && r.output == b.output && r.xi == x && BuffersFit(r) && Input(r) == Data(b)
  {
    Called(q, encrypt, b).(xi := x, state := if encrypt then CalcXn else CalcSn)
  }

  predicate LegalCall(b: Chunk, left: nat) {
    0 < b.len <= left && (b.len % 16 == 0 || b.len == left)
  }

  /** The first message call starts the machine if no digest call has. */
  lemma StartMessage(E: Cipher, q: Request, encrypt: bool, n: nat, j: nat, x: Block, b: Chunk)
    requires AtMessage(E, q, n, j, x) && LegalCall(b, n - 16 * j)
    ensures var q1 := Begun(q, encrypt, x, b);
            LegalChunk(q1) && Served(E, Called(q, encrypt, b)) == AfterChunk(E, q1)
  {
    var q0, q1 := Called(q, encrypt, b), Begun(q, encrypt, x, b);
    if q.state.CalcX1? {
      assert X(E, q0) == X(E, q);
      FirstCall(E, q0);
    }
    assert AtBlock(q1);
    ChunkFinish(E, q1);
    hide AfterChunk, Finish;
  }

  function Output(q: Request, b: Chunk): seq<byte>
    requires |q.mem| == |b.mem|
  {
    q.mem[b.output..b.output + b.len]
  }

  lemma OverwrittenThere(mem: seq<byte>, pos: nat, s: seq<byte>)
    requires pos + |s| <= |mem|
    ensures Overwrite(mem, pos, s)[pos..pos + |s|] == s
  {}

  /** q1 is the request of AtMessage, with a legal chunk b to work on. */
  predicate Working(E: Cipher, q: Request, encrypt: bool, n: nat, j: nat, x: Block, b: Chunk, q1: Request) {
    && LegalChunk(q1) && AtMessage(E, q, n, j, x) && SameSetup(q, q1)
    && q1.mem == b.mem && q1.output == b.output && q1.blockLen == b.len && Input(q1) == Data(b)
    && q1.operation == (if encrypt then Encrypt else Decrypt) && q1.xi == x
  }

  lemma WorkOutput(E: Cipher, q: Request, encrypt: bool, n: nat, j: nat, x: Block, b: Chunk, q1: Request)
    requires Working(E, q, encrypt, n, j, x, b, q1)
    ensures Output(AfterChunk(E, q1), b) == Rfc.Ctr(E, q.key, q.nonce, j, Data(b))
  {
    hide Rfc.Ctr, LegalChunk, Input, Data, Overwrite, X;
    OverwrittenThere(b.mem, b.output, Crypted(E, q1));
  }

  lemma WorkXi(E: Cipher, q: Request, encrypt: bool, n: nat, j: nat, x: Block, b: Chunk, q1: Request)
    requires Working(E, q, encrypt, n, j, x, b, q1)
    ensures var y := Rfc.Absorb(E, q.key, x, Plain(E, q, encrypt, j, Data(b)));
            AfterChunk(E, q1).xi == if 16 * j + b.len == n then Xor(y, Rfc.S(E, q.key, q.nonce, 0)) else y
  {
    hide Rfc.Ctr, LegalChunk, Input, Overwrite, Xor, Rfc.S, Rfc.Absorb, X;
  }

  lemma WorkPlace(E: Cipher, q: Request, encrypt: bool, n: nat, j: nat, x: Block, b: Chunk, q1: Request)
    requires Working(E, q, encrypt, n, j, x, b, q1)
    ensures var r := AfterChunk(E, q1);
            && r.key == q.key && r.nonce == q.nonce && r.authLen == q.authLen && |r.mem| == |b.mem|
            && (16 * j + b.len < n ==> AtMessage(E, r, n, j + Blocks(b.len), r.xi))
            && (16 * j + b.len == n ==> Over(r))
  {
    hide Rfc.Ctr, Ok, Input, Overwrite, Xor, Rfc.S, Rfc.Absorb, X, Plaintext, Crypted;
    assert 16 * j + b.len < n ==> 16 * Blocks(b.len) == b.len;
  }

  /** After the last octet of the message. */
  predicate Over(q: Request) {
    Lengths(q) && q.messageLen == 0 && !q.state.CalcX1?
  }

  /** What one message call does: it writes the chunk combined with its part of the key stream, digests
      the plaintext, and after the last octet folds S_0 in. */
  predicate CallDone(E: Cipher, q: Request, encrypt: bool, n: nat, j: nat, x: Block, b: Chunk, r: Request)
    requires 16 * j + b.len <= n < 0x10000 && |r.mem| == |b.mem|
  {
    var y := Rfc.Absorb(E, q.key, x, Plain(E, q, encrypt, j, Data(b)));
    && r.key == q.key && r.nonce == q.nonce && r.authLen == q.authLen
    && Output(r, b) == Rfc.Ctr(E, q.key, q.nonce, j, Data(b))
    && if 16 * j + b.len < n then AtMessage(E, r, n, j + Blocks(b.len), y)
       else Over(r) && r.xi == Xor(y, Rfc.S(E, q.key, q.nonce, 0))
  }

  lemma WorkDone(E: Cipher, q: Request, encrypt: bool, n: nat, j: nat, x: Block, b: Chunk, q1: Request)
    requires Working(E, q, encrypt, n, j, x, b, q1) && 16 * j + b.len <= n < 0x10000
    ensures |AfterChunk(E, q1).mem| == |b.mem| && CallDone(E, q, encrypt, n, j, x, b, AfterChunk(E, q1))
  {
    assert LegalChunk(q1);
    hide Rfc.Ctr, Rfc.S, Rfc.Absorb, Xor, Data, Output, AtMessage, AfterChunk, Blocks, Plain, Working, LegalChunk;
    WorkPlace(E, q, encrypt, n, j, x, b, q1);
    WorkOutput(E, q, encrypt, n, j, x, b, q1);
    WorkXi(E, q, encrypt, n, j, x, b, q1);
  }

  /** One message call. */
  lemma MessageStep(E: Cipher, q: Request, encrypt: bool, n: nat, j: nat, x: Block, b: Chunk)
    requires AtMessage(E, q, n, j, x) && LegalCall(b, n - 16 * j)
    ensures 16 * j + b.len <= n < 0x10000
    ensures CallDone(E, q, encrypt, n, j, x, b, Served(E, Called(q, encrypt, b)))
  {
    var q1 := Begun(q, encrypt, x, b);
    assert n < 0x10000 && SameSetup(q, q1);
    hide Served, Called, LegalChunk, Begun, AtMessage, AfterChunk, CallDone;
    StartMessage(E, q, encrypt, n, j, x, b);
    WorkDone(E, q, encrypt, n, j, x, b, q1);
  }

  lemma {:induction false} RestOfMessage(bs: seq<Chunk>)
    requires bs != [] && MessageChunks(bs)
    ensures MessageChunks(bs[1..]) && Joined(bs) == Data(bs[0]) + Joined(bs[1..])
    ensures LegalCall(bs[0], |Joined(bs)|) && (bs[1..] == [] <==> Joined(bs[1..]) == [])
    ensures bs[1..] != [] ==> |Joined(bs)| > bs[0].len && bs[0].len % 16 == 0
  {
    if |bs| > 1 {
      RestOfMessage(bs[1..]);
    }
  }

  lemma ProcessedFirst(E: Cipher, q: Request, encrypt: bool, bs: seq<Chunk>)
    requires bs != []
    ensures var r := Served(E, Called(q, encrypt, bs[0]));
            var rest := Processed(E, r, encrypt, bs[1..]);
            Processed(E, q, encrypt, bs) == (rest.0, Output(r, bs[0]) + rest.1)
  {}

  /** The plaintext of two chunks, and what it leaves in the CBC-MAC. */
  lemma PlainAppend(E: Cipher, q: Request, encrypt: bool, j: nat, x: Block, d: seq<byte>, t: seq<byte>)
    requires |d| % 16 == 0 && 16 * j + |d| + |t| < 0x10000
    ensures 16 * (j + Blocks(|d|)) == 16 * j + |d|
    ensures Rfc.Ctr(E, q.key, q.nonce, j, d + t)
         == Rfc.Ctr(E, q.key, q.nonce, j, d) + Rfc.Ctr(E, q.key, q.nonce, j + Blocks(|d|), t)
    ensures Rfc.Absorb(E, q.key, x, Plain(E, q, encrypt, j, d + t))
         == Rfc.Absorb(E, q.key, Rfc.Absorb(E, q.key, x, Plain(E, q, encrypt, j, d)),
                       Plain(E, q, encrypt, j + Blocks(|d|), t))
  {
    hide Rfc.Ctr, Rfc.Absorb;
    assert Blocks(|d|) == |d| / 16;
    Rfc.CtrAppend(E, q.key, q.nonce, j, d, t);
    Rfc.AbsorbAppend(E, q.key, x, Plain(E, q, encrypt, j, d), Plain(E, q, encrypt, j + Blocks(|d|), t));
  }

  lemma SamePlain(E: Cipher, q: Request, r: Request, encrypt: bool, j: nat, d: seq<byte>)
    requires 16 * j + |d| < 0x10000 && r.key == q.key && r.nonce == q.nonce
    ensures Plain(E, r, encrypt, j, d) == Plain(E, q, encrypt, j, d)
  {}

  /** What message calls make of the octets m, from block j on. */
  predicate MessageDone(E: Cipher, q: Request, encrypt: bool, j: nat, x: Block, m: seq<byte>, r: Request,
                        out: seq<byte>)
    requires 16 * j + |m| < 0x10000
  {
    && out == Rfc.Ctr(E, q.key, q.nonce, j, m) && r.authLen == q.authLen
    && r.xi == Xor(Rfc.Absorb(E, q.key, x, Plain(E, q, encrypt, j, m)), Rfc.S(E, q.key, q.nonce, 0))
  }

  lemma LastCall(E: Cipher, q: Request, encrypt: bool, n: nat, j: nat, x: Block, b: Chunk, r: Request)
    requires 16 * j + b.len == n < 0x10000 && |r.mem| == |b.mem| && CallDone(E, q, encrypt, n, j, x, b, r)
    ensures MessageDone(E, q, encrypt, j, x, Data(b), r, Output(r, b))
  {
    hide Rfc.Ctr, Rfc.Absorb, Data, Output, Xor;
  }

  lemma LaterCall(E: Cipher, q: Request, encrypt: bool, n: nat, j: nat, x: Block, b: Chunk, r: Request)
    requires 16 * j + b.len < n < 0x10000 && |r.mem| == |b.mem| && CallDone(E, q, encrypt, n, j, x, b, r)
    ensures AtMessage(E, r, n, j + Blocks(b.len), Rfc.Absorb(E, q.key, x, Plain(E, q, encrypt, j, Data(b))))
  {
    hide Rfc.Ctr, Rfc.Absorb, Data, Output, Xor;
  }

  lemma JoinCalls(E: Cipher, q: Request, encrypt: bool, n: nat, j: nat, x: Block, b: Chunk, r: Request,
                  t: seq<byte>, last: Request, out: seq<byte>)
    requires 16 * j + b.len < n < 0x10000 && |r.mem| == |b.mem| && CallDone(E, q, encrypt, n, j, x, b, r)
    requires b.len % 16 == 0 && 16 * j + b.len + |t| < 0x10000
    requires var k := j + Blocks(b.len);
             16 * k == 16 * j + b.len
             && MessageDone(E, r, encrypt, k, Rfc.Absorb(E, q.key, x, Plain(E, q, encrypt, j, Data(b))), t, last, out)
    ensures MessageDone(E, q, encrypt, j, x, Data(b) + t, last, Output(r, b) + out)
  {
    hide Rfc.Ctr, Rfc.Absorb, Rfc.S, Data, Output, Xor, Blocks, AtMessage, Plain;
    PlainAppend(E, q, encrypt, j, x, Data(b), t);
    SamePlain(E, q, r, encrypt, j + Blocks(b.len), t);
  }

  /** Any number of message calls. */
  lemma {:induction false} MessageCalls(E: Cipher, q: Request, encrypt: bool, n: nat, j: nat, x: Block,
                                        bs: seq<Chunk>)
    requires AtMessage(E, q, n, j, x) && bs != [] && MessageChunks(bs)
    requires 16 * j + |Joined(bs)| == n < 0x10000
    ensures var (r, out) := Processed(E, q, encrypt, bs);
            MessageDone(E, q, encrypt, j, x, Joined(bs), r, out)
    decreases |bs|
  {
    hide *;
    var b, rest := bs[0], bs[1..];
    var r := Served(E, Called(q, encrypt, b));
    RestOfMessage(bs);
    MessageStep(E, q, encrypt, n, j, x, b);
    ProcessedFirst(E, q, encrypt, bs);
    if rest == [] {
      LastCall(E, q, encrypt, n, j, x, b, r);
      NoCalls(E, r, encrypt, Data(b), Output(r, b));
    } else {
      var y := Rfc.Absorb(E, q.key, x, Plain(E, q, encrypt, j, Data(b)));
      LaterCall(E, q, encrypt, n, j, x, b, r);
      WholeCall(b.len, j);
      MessageCalls(E, r, encrypt, n, j + Blocks(b.len), y, rest);
      var (last, out) := Processed(E, r, encrypt, rest);
      JoinCalls(E, q, encrypt, n, j, x, b, r, Joined(rest), last, out);
    }
  }

  lemma WholeCall(len: nat, j: nat)
    requires len % 16 == 0
    ensures 16 * (j + Blocks(len)) == 16 * j + len
  {}

  lemma NoCalls(E: Cipher, r: Request, encrypt: bool, d: seq<byte>, out: seq<byte>)
    ensures Processed(E, r, encrypt, []) == (r, []) && d + [] == d && out + [] == out
  {}

  // Whole sessions.

  predicate Legal(aad: seq<Chunk>, message: seq<Chunk>, authLen: nat) {
    && AadChunks(aad) && |Joined(aad)| < 0xff00
    && message != [] && MessageChunks(message) && |Joined(message)| < 0x10000
    && Rfc.ValidAuthLen(authLen)
  }

  /** The CBC-MAC after the additional data. */
  function XAad(E: Cipher, key: Block, nonce: Rfc.Nonce, a: seq<byte>, n: nat, authLen: nat): Block
    requires |a| < 0xff00 && n < 0x10000 && Rfc.ValidAuthLen(authLen)
  {
    Rfc.Absorb(E, key, Rfc.X1(E, key, nonce, a != [], n, authLen), Rfc.EncodedAad(a))
  }

  lemma AadComplete(E: Cipher, q: Request, a: seq<byte>)
    requires AtDigest(E, q, a) && |a| == q.aadLen && q.counter == 1
    ensures AtMessage(E, q, q.messageLen, 0, XAad(E, q.key, q.nonce, a, q.messageLen, q.authLen))
  {
    hide Rfc.X1, Rfc.BigEndian16, Partial;
  }

  lemma InitAtDigest(E: Cipher, key: Block, nonce: Rfc.Nonce, n: nat, aadLen: nat, authLen: nat, q: Request)
    requires n < 0x10000 && aadLen < 0xff00 && Rfc.ValidAuthLen(authLen)
    ensures AtDigest(E, Init(key, nonce, n, aadLen, authLen, q), [])
  {}

  /** However the additional data is cut, the message calls start from its CBC-MAC. */
  lemma AfterAllDigests(E: Cipher, key: Block, nonce: Rfc.Nonce, aad: seq<Chunk>, n: nat, authLen: nat, q: Request)
    requires AadChunks(aad) && |Joined(aad)| < 0xff00 && n < 0x10000 && Rfc.ValidAuthLen(authLen)
    ensures var a := Joined(aad);
            var r := Digested(E, Init(key, nonce, n, |a|, authLen, q), aad);
            && r.key == key && r.nonce == nonce && r.authLen == authLen
            && AtMessage(E, r, n, 0, XAad(E, key, nonce, a, n, authLen))
  {
    var a := Joined(aad);
    var q1 := Init(key, nonce, n, |a|, authLen, q);
    var r := Digested(E, q1, aad);
    hide AtDigest, AtMessage, XAad, Digested, Joined;
    InitAtDigest(E, key, nonce, n, |a|, authLen, q);
    assert [] + a == a;
    DigestCalls(E, q1, [], aad);
    AadComplete(E, r, a);
  }

  /** What a session writes, and its authentication value in terms of the plaintext. */
  lemma SessionResult(E: Cipher, encrypt: bool, key: Block, nonce: Rfc.Nonce, aad: seq<Chunk>, message: seq<Chunk>,
                      authLen: nat, q: Request)
    requires Legal(aad, message, authLen)
    ensures var (out, auth) := Session(E, encrypt, key, nonce, aad, message, authLen, q);
            var m := Joined(message);
            var plain := if encrypt then m else out;
            && out == Rfc.Ctr(E, key, nonce, 0, m)
            && auth == Rfc.Encrypt(E, key, nonce, Joined(aad), plain, authLen).1
  {
    var a, m := Joined(aad), Joined(message);
    var x := XAad(E, key, nonce, a, |m|, authLen);
    var r := Digested(E, Init(key, nonce, |m|, |a|, authLen, q), aad);
    AfterAllDigests(E, key, nonce, aad, |m|, authLen, q);
    MessageCalls(E, r, encrypt, |m|, 0, x, message);
    hide AtMessage, Digested, Joined, Rfc.Ctr, Rfc.S, Rfc.Absorb, Rfc.X1, Rfc.EncodedAad, Rfc.Mac, Xor, Processed, Init;
    Rfc.MacIsAbsorb(E, key, nonce, a, if encrypt then m else Rfc.Ctr(E, key, nonce, 0, m), authLen);
  }

  /** Encryption: for every key, nonce, additional data and non-empty message, however they are cut into
      calls and wherever the buffers lie, the result is that of sections 2.2 and 2.3 of RFC 3610. */
  lemma EncryptSession(E: Cipher, key: Block, nonce: Rfc.Nonce, aad: seq<Chunk>, message: seq<Chunk>, authLen: nat,
                       q: Request)
    requires Legal(aad, message, authLen)
    ensures Session(E, true, key, nonce, aad, message, authLen, q)
         == Rfc.Encrypt(E, key, nonce, Joined(aad), Joined(message), authLen)
  {
    hide Session, Rfc.Mac, Rfc.Ctr, Rfc.S, Xor;
    SessionResult(E, true, key, nonce, aad, message, authLen, q);
  }

  /** Decryption: what comes out is the plaintext whose encryption is the input, with the authentication
      value that this encryption has. */
  lemma DecryptSession(E: Cipher, key: Block, nonce: Rfc.Nonce, aad: seq<Chunk>, message: seq<Chunk>, authLen: nat,
                       q: Request)
    requires Legal(aad, message, authLen)
    ensures var (plain, auth) := Session(E, false, key, nonce, aad, message, authLen, q);
            |plain| == |Joined(message)|
            && Rfc.Encrypt(E, key, nonce, Joined(aad), plain, authLen) == (Joined(message), auth)
  {
    hide Session, Rfc.Mac, Rfc.Ctr, Rfc.S, Xor;
    SessionResult(E, false, key, nonce, aad, message, authLen, q);
    Rfc.CtrTwice(E, key, nonce, 0, Joined(message));
  }

  /** Decrypting what was encrypted, cut into calls in any other way and in any other buffers, returns
      the plaintext and the same authentication value. */
  lemma RoundTrip(E: Cipher, key: Block, nonce: Rfc.Nonce, authLen: nat, aad: seq<Chunk>, message: seq<Chunk>,
                  q: Request, aad': seq<Chunk>, message': seq<Chunk>, q': Request)
    requires Legal(aad, message, authLen) && Legal(aad', message', authLen)
    requires Joined(aad') == Joined(aad)
    requires Joined(message') == Session(E, true, key, nonce, aad, message, authLen, q).0
    ensures Session(E, false, key, nonce, aad', message', authLen, q')
         == (Joined(message), Session(E, true, key, nonce, aad, message, authLen, q).1)
  {
    hide Session, Rfc.Mac, Rfc.Ctr, Rfc.S, Xor;
    SessionResult(E, true, key, nonce, aad, message, authLen, q);
    SessionResult(E, false, key, nonce, aad', message', authLen, q');
    Rfc.CtrTwice(E, key, nonce, 0, Joined(message));
  }
}
