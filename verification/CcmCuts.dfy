/** Sessions over every cut that the API allows, calls without octets among them: either a call
    finds the counter out of step, or the CBC-MAC is what it would be with a step on nothing per empty call. */
module CcmCuts {
  import opened Bytes
  import opened Ccm
  import opened CcmChunk
  import opened CcmSession
  import opened CcmEmptyCall
  import Rfc = Rfc3610

  /** What the API asks for: whole blocks, or nothing, in all calls but the last. */
  predicate Cut(bs: seq<Chunk>) {
    forall i :: 0 <= i < |bs| - 1 ==> bs[i].len % 16 == 0
  }

  /** Every call with octets finds a counter that the empty calls before it, s of them before these, have
      not put out of step. */
  predicate InStep(bs: seq<Chunk>, s: nat)
    decreases |bs|
  {
    bs == []
    || (if bs[0].len == 0 then InStep(bs[1..], s + 1) else s % 0x10000 == 0 && InStep(bs[1..], s))
  }

  /** The first call that does not: the block it starts at, and the empty calls before it. */
  function OutOfStep(bs: seq<Chunk>, s: nat): (r: (nat, nat))
    requires !InStep(bs, s)
    ensures r.1 % 0x10000 != 0
    decreases |bs|
  {
    if bs[0].len == 0 then OutOfStep(bs[1..], s + 1)
    else if s % 0x10000 != 0 then (0, s)
    else
      var (i, t) := OutOfStep(bs[1..], s);
      (Blocks(bs[0].len) + i, t)
  }

  /** The key stream is zero, so that what is encrypted or decrypted stays as it is. */
  ghost predicate ZeroStream(E: Cipher, key: Block, nonce: Rfc.Nonce) {
    forall i: nat {:trigger Rfc.A(nonce, i)} | 0 < i < 0x10000 :: E(key, Rfc.A(nonce, i)) == ZERO
  }

  // Octets already written stay.

  predicate Onward(q: Request, r: Request) {
    && r.operation == q.operation && q.output <= r.output && |r.mem| == |q.mem|
    && (q.output <= |q.mem| ==> r.mem[..q.output] == q.mem[..q.output])
  }

  lemma CalcOnward(q: Request)
    requires Ok(q) && !q.operation.Digest?
    ensures var r := Calc(q).0; r.operation == q.operation && r.output == q.output && r.mem == q.mem
  {
    hide XorInto, Rfc.B0, Rfc.A;
  }

  lemma HandleOnward(q: Request, data: Block)
    requires Ok(q) && !q.operation.Digest?
    ensures Onward(q, Handle(q, data).0)
  {
    hide Xor;
  }

  lemma RoundOnward(E: Cipher, q: Request)
    requires Ok(q) && !Waiting(q.state) && !q.operation.Digest?
    ensures Onward(q, Round(E, q).0)
  {
    CalcProgress(q);
    CalcOnward(q);
    var (q1, action) := Calc(q);
    hide Calc, Handle, Ok, Work;
    if action.Send? {
      HandleOnward(q1, E(q1.key, action.block));
    }
  }

  lemma {:induction false} FinishOnward(E: Cipher, q: Request)
    requires Ok(q) && !Waiting(q.state) && !q.operation.Digest?
    ensures Onward(q, Finish(E, q))
    decreases Work(q)
  {
    RoundOnward(E, q);
    var (q1, done) := Round(E, q);
    assert q.output <= |q.mem|;
    hide Round, Ok, Work;
    if !done {
      FinishOnward(E, q1);
      OnwardTwice(q, q1, Finish(E, q1));
    }
  }

  lemma OnwardTwice(q: Request, r: Request, t: Request)
    requires Onward(q, r) && Onward(r, t) && q.output <= |q.mem| && r.output <= |q.mem|
    ensures Onward(q, t)
  {
    assert t.mem[..q.output] == t.mem[..r.output][..q.output];
    assert r.mem[..q.output] == r.mem[..r.output][..q.output];
  }

  // The first octet of a message call, whatever the counter.

  lemma EncryptXn(E: Cipher, q: Request)
    requires Ok(q) && q.state.CalcXn? && q.operation.Encrypt?
    ensures var (h, done) := Round(E, q); !done && h == q.(xi := h.xi, state := CalcSn) && Ok(h)
  {
    var n := Min(q.blockLen, 16);
    var y := XorInto(q.xi, 0, q.mem[q.input..q.input + n]);
    hide XorInto;
    RoundSend(E, q, q.(state := W4Xn), y);
  }

  /** The request after a key stream block has gone into the output. */
  function Written(E: Cipher, q: Request): Request
    requires Ok(q) && q.state.CalcSn?
  {
    var n := Min(q.blockLen, 16);
    var data := E(q.key, Rfc.A(q.nonce, U16(q.counter)));
    q.(mem := Overwrite(q.mem, q.output, Xor(q.mem[q.input..q.input + n], data[..n])), state := W4Sn)
  }

  lemma EncryptSn(E: Cipher, q: Request)
    requires Ok(q) && q.state.CalcSn? && q.operation.Encrypt?
    ensures Round(E, q) == NextBlock(Written(E, q), CalcXn)
  {
    AnySn(E, q);
    hide Xor, Rfc.A, Overwrite, NextBlock;
  }

  lemma WrittenOctet(E: Cipher, q: Request)
    requires Ok(q) && q.state.CalcSn? && 0 < q.blockLen
    ensures var data := E(q.key, Rfc.A(q.nonce, U16(q.counter)));
            Written(E, q).mem[q.output] == XorByte(q.mem[q.input], data[0])
  {
    hide Rfc.A;
    var n := Min(q.blockLen, 16);
    var data := E(q.key, Rfc.A(q.nonce, U16(q.counter)));
    XorAt(q.mem[q.input..q.input + n], data[..n]);
  }

  lemma NextBlockOutput(q: Request, whenDone: State)
    requires q.blockLen > 0
    ensures var r := NextBlock(q, whenDone).0;
            r.mem == q.mem && r.output > q.output && r.operation == q.operation
  {}

  lemma EncryptedOctet(E: Cipher, q: Request)
    requires Ok(q) && q.state.CalcXn? && q.operation.Encrypt? && 0 < q.blockLen
    ensures q.output < |q.mem|
    ensures Finish(E, q).mem[q.output]
         == XorByte(q.mem[q.input], E(q.key, Rfc.A(q.nonce, U16(q.counter)))[0])
  {
    EncryptXn(E, q);
    var h := Round(E, q).0;
    EncryptSn(E, h);
    WrittenOctet(E, h);
    var (r, done) := Round(E, h);
    NextBlockOutput(Written(E, h), CalcXn);
    assert h.output < |h.mem|;
    hide Round, Written, NextBlock, Ok, Rfc.A, U16, Work;
    if !done {
      assert Finish(E, q) == Finish(E, r);
      FinishOnward(E, r);
      assert Finish(E, r).mem[..r.output][h.output] == r.mem[..r.output][h.output];
    }
  }

  lemma DecryptSn(E: Cipher, q: Request)
    requires Ok(q) && q.state.CalcSn? && q.operation.Decrypt?
    ensures Round(E, q) == (Written(E, q).(state := CalcXn), false) && Ok(Round(E, q).0)
  {
    AnySn(E, q);
    hide Xor, Rfc.A, Overwrite;
  }

  lemma DecryptXn(E: Cipher, q: Request)
    requires Ok(q) && q.state.CalcXn? && q.operation.Decrypt? && 0 < q.blockLen
    ensures var r := Round(E, q).0; r.mem == q.mem && r.output > q.output && r.operation == q.operation
  {
    var n := Min(q.blockLen, 16);
    var y := XorInto(q.xi, 0, q.mem[q.output..q.output + n]);
    hide XorInto;
    RoundSend(E, q, q.(state := W4Xn), y);
  }

  lemma DecryptedOctet(E: Cipher, q: Request)
    requires Ok(q) && q.state.CalcSn? && q.operation.Decrypt? && 0 < q.blockLen
    ensures q.output < |q.mem|
    ensures Finish(E, q).mem[q.output]
         == XorByte(q.mem[q.input], E(q.key, Rfc.A(q.nonce, U16(q.counter)))[0])
  {
    DecryptSn(E, q);
    WrittenOctet(E, q);
    var h := Round(E, q).0;
    assert q.output < |q.mem| && h.output == q.output && h.blockLen == q.blockLen && h.operation == q.operation;
    DecryptXn(E, h);
    var (r, done) := Round(E, h);
    hide Round, Written, Ok, Rfc.A, U16, Work;
    if !done {
      assert Finish(E, q) == Finish(E, r);
      FinishOnward(E, r);
      assert Finish(E, r).mem[..r.output][h.output] == r.mem[..r.output][h.output];
    }
  }

  /** The first octet that a message call puts out shows the counter it finds. */
  lemma FirstOctet(E: Cipher, q: Request, encrypt: bool, n: nat, j: nat, s: nat, x: Block, b: Chunk)
    requires AtShifted(E, q, n, j, s, x) && 0 < b.len <= n - 16 * j
    ensures var r := Served(E, Called(q, encrypt, b));
            Output(r, b)[0] == XorByte(Data(b)[0], E(q.key, Rfc.A(q.nonce, U16(j + 1 + s)))[0])
  {
    var q1 := Begun(q, encrypt, x, b);
    CallServed(E, q, encrypt, n, j, s, x, b);
    assert q1.state == (if encrypt then CalcXn else CalcSn) && q1.input == b.input && Data(b)[0] == b.mem[b.input];
    assert q1.counter == U16(j + 1 + s);
    NextCount(j + 1 + s);
    hide X, Finish, Rfc.A, U16, Ok, Begun, Served, Called, Data, AtShifted;
    if encrypt {
      EncryptedOctet(E, q1);
    } else {
      DecryptedOctet(E, q1);
    }
  }

  // Whole cuts.

  lemma {:induction false} OctetsLeft(bs: seq<Chunk>, s: nat)
    requires !InStep(bs, s)
    ensures Joined(bs) != []
    decreases |bs|
  {
    if bs[0].len == 0 {
      OctetsLeft(bs[1..], s + 1);
    }
  }

  /** The octet of the message that shows a counter out of step. */
  ghost predicate Shows(E: Cipher, q: Request, j: nat, m: seq<byte>, out: seq<byte>, i: nat, t: nat) {
    && 16 * i < |m| && 16 * i < |out|
    && out[16 * i] == XorByte(m[16 * i], E(q.key, Rfc.A(q.nonce, U16(j + i + 1 + t)))[0])
  }

  lemma ShowsLater(E: Cipher, q: Request, r: Request, j: nat, d: seq<byte>, c: seq<byte>, m: seq<byte>,
                   out: seq<byte>, i: nat, t: nat)
    requires |c| == |d| && |d| % 16 == 0 && r.key == q.key && r.nonce == q.nonce
    requires Shows(E, r, j + Blocks(|d|), m, out, i, t)
    ensures Shows(E, q, j, d + m, c + out, Blocks(|d|) + i, t)
  {
    assert 16 * (Blocks(|d|) + i) == |d| + 16 * i;
    assert (d + m)[|d| + 16 * i] == m[16 * i] && (c + out)[|d| + 16 * i] == out[16 * i];
    assert j + Blocks(|d|) + i + 1 + t == j + (Blocks(|d|) + i) + 1 + t;
    hide XorByte, Rfc.A, U16;
  }

  lemma ShowsFirst(E: Cipher, q: Request, encrypt: bool, n: nat, j: nat, s: nat, x: Block, b: Chunk,
                   m: seq<byte>, out: seq<byte>)
    requires AtShifted(E, q, n, j, s, x) && 0 < b.len <= n - 16 * j
    ensures Shows(E, q, j, Data(b) + m, Output(Served(E, Called(q, encrypt, b)), b) + out, 0, s)
  {
    FirstOctet(E, q, encrypt, n, j, s, x, b);
    hide XorByte, Rfc.A, U16, AtShifted, Served, Called, Data, Output;
    assert j + 0 + 1 + s == j + 1 + s;
  }

  lemma CutFirst(bs: seq<Chunk>, s: nat)
    requires bs != [] && Cut(bs)
    ensures Cut(bs[1..]) && (bs[1..] != [] ==> bs[0].len % 16 == 0)
    ensures Joined(bs) == Data(bs[0]) + Joined(bs[1..])
    ensures bs[0].len == 0 ==> InStep(bs, s) == InStep(bs[1..], s + 1)
    ensures bs[0].len > 0 ==> InStep(bs, s) == (s % 0x10000 == 0 && InStep(bs[1..], s))
  {
    hide Data;
  }

  lemma OutOfStepFirst(bs: seq<Chunk>, s: nat)
    requires !InStep(bs, s)
    ensures bs != []
    ensures bs[0].len == 0 ==> !InStep(bs[1..], s + 1) && OutOfStep(bs, s) == OutOfStep(bs[1..], s + 1)
    ensures bs[0].len > 0 && s % 0x10000 != 0 ==> OutOfStep(bs, s) == (0, s)
    ensures bs[0].len > 0 && s % 0x10000 == 0 ==>
              !InStep(bs[1..], s)
              && OutOfStep(bs, s) == (Blocks(bs[0].len) + OutOfStep(bs[1..], s).0, OutOfStep(bs[1..], s).1)
  {}

  lemma NoBlocks()
    ensures Blocks(0) == 0
  {}

  lemma LegalHere(b: Chunk, left: nat)
    ensures LegalCall(b, left) <==> 0 < b.len <= left && (b.len % 16 == 0 || b.len == left)
  {}

  lemma {:induction false} OutOfStepShows(E: Cipher, q: Request, encrypt: bool, n: nat, j: nat, s: nat, x: Block,
                                          bs: seq<Chunk>)
    requires AtShifted(E, q, n, j, s, x) && Cut(bs) && 16 * j + |Joined(bs)| == n && !InStep(bs, s)
    ensures var (i, t) := OutOfStep(bs, s);
            Shows(E, q, j, Joined(bs), Processed(E, q, encrypt, bs).1, i, t)
    decreases |bs|
  {
    hide *;
    OutOfStepFirst(bs, s);
    var b, rest := bs[0], bs[1..];
    var r := Served(E, Called(q, encrypt, b));
    CutFirst(bs, s);
    OctetsLeft(bs, s);
    ProcessedFirst(E, q, encrypt, bs);
    if b.len == 0 {
      EmptyCall(E, q, encrypt, n, j, s, x, b);
      OutOfStepShows(E, r, encrypt, n, j, s + 1, E(q.key, x), rest);
      var (i, t) := OutOfStep(rest, s + 1);
      NoBlocks();
      ShowsLater(E, q, r, j, Data(b), Output(r, b), Joined(rest), Processed(E, r, encrypt, rest).1, i, t);
    } else if s % 0x10000 != 0 {
      ShowsFirst(E, q, encrypt, n, j, s, x, b, Joined(rest), Processed(E, r, encrypt, rest).1);
    } else {
      OctetsLeft(rest, s);
      OutOfStepFirst(rest, s);
      NotShifted(E, q, n, j, s, x);
      LegalHere(b, n - 16 * j);
      InStepCall(E, q, encrypt, n, j, s, x, b);
      WholeCall(b.len, j);
      var y := Rfc.Absorb(E, q.key, x, Plain(E, q, encrypt, j, Data(b)));
      OutOfStepShows(E, r, encrypt, n, j + Blocks(b.len), s, y, rest);
      var (i, t) := OutOfStep(rest, s);
      ShowsLater(E, q, r, j, Data(b), Output(r, b), Joined(rest), Processed(E, r, encrypt, rest).1, i, t);
    }
  }

  /** A call that finds the counter in step. */
  lemma InStepCall(E: Cipher, q: Request, encrypt: bool, n: nat, j: nat, s: nat, x: Block, b: Chunk)
    requires AtMessage(E, q, n, j, x) && LegalCall(b, n - 16 * j) && s % 0x10000 == 0
    ensures 16 * j + b.len <= n < 0x10000
    ensures var r := Served(E, Called(q, encrypt, b));
            var y := Rfc.Absorb(E, q.key, x, Plain(E, q, encrypt, j, Data(b)));
            && r.key == q.key && r.nonce == q.nonce && |Output(r, b)| == b.len
            && (16 * j + b.len < n ==> AtShifted(E, r, n, j + Blocks(b.len), s, y))
            && (16 * j + b.len == n ==> Over(r) && r.xi == Xor(y, Rfc.S(E, q.key, q.nonce, 0)))
  {
    MessageStep(E, q, encrypt, n, j, x, b);
    hide Rfc.Ctr, Rfc.S, Rfc.Absorb, Served, Called, Xor, Data, AtMessage, AtShifted, Output, Plain;
    var r := Served(E, Called(q, encrypt, b));
    if 16 * j + b.len < n {
      NotShifted(E, r, n, j + Blocks(b.len), s, Rfc.Absorb(E, q.key, x, Plain(E, q, encrypt, j, Data(b))));
    }
  }

  /** The CBC-MAC over a cut: an empty call is a step on nothing. */
  function Chain(E: Cipher, k: Block, x: Block, bs: seq<Chunk>): Block
    decreases |bs|
  {
    if bs == [] then x
    else if bs[0].len == 0 then Chain(E, k, E(k, x), bs[1..])
    else Chain(E, k, Rfc.Absorb(E, k, x, Data(bs[0])), bs[1..])
  }

  /** What t empty calls make of the authentication value after the last octet. */
  function Trail(E: Cipher, k: Block, s0: Block, y: Block, t: nat): Block
    decreases t
  {
    if t == 0 then y else Trail(E, k, s0, Xor(E(k, y), s0), t - 1)
  }

  predicate AllEmpty(bs: seq<Chunk>) {
    forall i :: 0 <= i < |bs| ==> bs[i].len == 0
  }

  lemma {:induction false} TrailRun(E: Cipher, q: Request, encrypt: bool, bs: seq<Chunk>)
    requires Over(q) && AllEmpty(bs)
    ensures var (r, out) := Processed(E, q, encrypt, bs);
            out == [] && r.xi == Trail(E, q.key, Rfc.S(E, q.key, q.nonce, 0), q.xi, |bs|)
    decreases |bs|
  {
    if bs != [] {
      hide Served, Called, Xor, Rfc.S, Over, Output, Processed;
      var r := Served(E, Called(q, encrypt, bs[0]));
      OverCall(E, q, encrypt, bs[0]);
      ProcessedFirst(E, q, encrypt, bs);
      TrailRun(E, r, encrypt, bs[1..]);
    }
  }

  lemma ChainFirst(E: Cipher, k: Block, x: Block, bs: seq<Chunk>)
    ensures bs == [] ==> Chain(E, k, x, bs) == x
    ensures bs != [] ==>
              Chain(E, k, x, bs)
              == Chain(E, k, if bs[0].len == 0 then E(k, x) else Rfc.Absorb(E, k, x, Data(bs[0])), bs[1..])
  {}

  lemma FrontFirst(front: seq<Chunk>, trail: seq<Chunk>)
    requires front != []
    ensures (front + trail)[0] == front[0] && (front + trail)[1..] == front[1..] + trail
    ensures front[1..] != [] ==> front[1..][|front| - 2] == front[|front| - 1]
    ensures [] + trail == trail
  {}

  lemma ZeroCtr(E: Cipher, key: Block, nonce: Rfc.Nonce, j: nat, d: seq<byte>)
    requires 16 * j + |d| < 0x10000 && ZeroStream(E, key, nonce)
    ensures Rfc.Ctr(E, key, nonce, j, d) == d
  {
    forall i | 0 <= i < |d|
      ensures Rfc.Ctr(E, key, nonce, j, d)[i] == d[i]
    {
      var c: nat := j + i / 16 + 1;
      assert E(key, Rfc.A(nonce, c)) == ZERO;
      XorBitsZero(d[i]);
    }
    hide Rfc.A;
  }

  lemma PlainStays(E: Cipher, q: Request, encrypt: bool, j: nat, d: seq<byte>)
    requires 16 * j + |d| < 0x10000 && (encrypt || ZeroStream(E, q.key, q.nonce))
    ensures Plain(E, q, encrypt, j, d) == d
  {
    if !encrypt {
      ZeroCtr(E, q.key, q.nonce, j, d);
    }
    hide Rfc.Ctr, ZeroStream;
  }

  lemma DataLength(b: Chunk)
    ensures |Data(b)| == b.len
  {}

  /** A cut in step: its octets, the last of them in the last call of front, and then empty calls. */
  lemma {:induction false} InStepRun(E: Cipher, q: Request, encrypt: bool, n: nat, j: nat, s: nat, x: Block,
                                     front: seq<Chunk>, trail: seq<Chunk>)
    requires encrypt || ZeroStream(E, q.key, q.nonce)
    requires AtShifted(E, q, n, j, s, x) && 16 * j + |Joined(front)| == n
    requires front != [] && front[|front| - 1].len > 0 && Cut(front) && InStep(front, s) && AllEmpty(trail)
    ensures var s0 := Rfc.S(E, q.key, q.nonce, 0);
            Processed(E, q, encrypt, front + trail).0.xi
            == Trail(E, q.key, s0, Xor(Chain(E, q.key, x, front), s0), |trail|)
    decreases |front|
  {
    hide *;
    var b, rest := front[0], front[1..];
    var r := Served(E, Called(q, encrypt, b));
    CutFirst(front, s);
    FrontFirst(front, trail);
    LastOctets(front);
    ProcessedFirst(E, q, encrypt, front + trail);
    ChainFirst(E, q.key, x, front);
    SameS0(E, q, r);
    if b.len == 0 {
      EmptyCall(E, q, encrypt, n, j, s, x, b);
      InStepRun(E, r, encrypt, n, j, s + 1, E(q.key, x), rest, trail);
    } else {
      NotShifted(E, q, n, j, s, x);
      LegalHere(b, n - 16 * j);
      DataLength(b);
      if rest == [] {
        NoOctets();
        InStepCall(E, q, encrypt, n, j, s, x, b);
        PlainStays(E, q, encrypt, j, Data(b));
        ChainFirst(E, q.key, Rfc.Absorb(E, q.key, x, Data(b)), rest);
        TrailRun(E, r, encrypt, trail);
      } else {
        LastOctets(rest);
        InStepCall(E, q, encrypt, n, j, s, x, b);
        PlainStays(E, q, encrypt, j, Data(b));
        WholeCall(b.len, j);
        InStepRun(E, r, encrypt, n, j + Blocks(b.len), s, Rfc.Absorb(E, q.key, x, Data(b)), rest, trail);
      }
    }
  }

  lemma SameS0(E: Cipher, q: Request, r: Request)
    ensures r.key == q.key && r.nonce == q.nonce ==> Rfc.S(E, r.key, r.nonce, 0) == Rfc.S(E, q.key, q.nonce, 0)
  {}

  lemma NoOctets()
    ensures Joined([]) == []
  {}

  lemma {:induction false} LastOctets(bs: seq<Chunk>)
    requires bs != [] && bs[|bs| - 1].len > 0
    ensures Joined(bs) != []
  {
    if |bs| > 1 {
      LastOctets(bs[1..]);
    }
  }

  // The blocks of a cut.

  lemma RegroupBlocks(a: seq<Block>, b: seq<Block>, c: seq<Block>)
    ensures (a + b) + c == a + (b + c)
  {}

  lemma FirstPadded(s: seq<byte>)
    requires |s| >= 16
    ensures Rfc.PaddedBlocks(s) == [s[..16]] + Rfc.PaddedBlocks(s[16..])
  {
    if |s| == 16 {
      assert ZeroPad(s)[..16] == ZeroPad(s) && s[..16] == s;
    }
  }

  lemma {:induction false} PaddedAppend(s: seq<byte>, t: seq<byte>)
    requires |s| % 16 == 0
    ensures Rfc.PaddedBlocks(s + t) == Rfc.PaddedBlocks(s) + Rfc.PaddedBlocks(t)
    decreases |s|
  {
    if s == [] {
      assert s + t == t;
      NoPadding();
      assert [] + Rfc.PaddedBlocks(t) == Rfc.PaddedBlocks(t);
    } else {
      hide Rfc.PaddedBlocks;
      var w := s + t;
      assert w[..16] == s[..16] && w[16..] == s[16..] + t;
      PaddedAppend(s[16..], t);
      FirstPadded(s);
      FirstPadded(w);
      RegroupBlocks([s[..16]], Rfc.PaddedBlocks(s[16..]), Rfc.PaddedBlocks(t));
    }
  }

  lemma NoPadding()
    ensures Rfc.PaddedBlocks([]) == []
  {}

  /** The blocks of a cut are among ps. */
  predicate Among(bs: seq<Chunk>, ps: seq<Block>) {
    forall b :: b in Rfc.PaddedBlocks(Joined(bs)) ==> b in ps
  }

  lemma AmongFirst(bs: seq<Chunk>, ps: seq<Block>)
    requires bs != [] && Cut(bs) && Among(bs, ps)
    ensures Among(bs[1..], ps)
    ensures forall b :: b in Rfc.PaddedBlocks(Data(bs[0])) ==> b in ps
  {
    var d, m := Data(bs[0]), Joined(bs[1..]);
    assert Joined(bs) == d + m;
    hide Rfc.PaddedBlocks, Data, Joined;
    if bs[1..] == [] {
      NoOctets();
      NoPadding();
      assert d + [] == d;
    } else {
      PaddedAppend(d, m);
      assert forall b :: b in Rfc.PaddedBlocks(d) || b in Rfc.PaddedBlocks(m) ==> b in Rfc.PaddedBlocks(Joined(bs));
    }
  }
}
