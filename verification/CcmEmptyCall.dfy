/** The CCM machine on message calls without octets. The API takes them, as multiples of sixteen, but each
    still runs one step of the CBC-MAC and moves the counter on. */
module CcmEmptyCall {
  import opened Bytes
  import opened Ccm
  import opened CcmChunk
  import opened CcmSession
  import Rfc = Rfc3610

  /** A request whose call has no octets, at the first of the two cipher calls of a block. */
  predicate AtEmpty(q: Request) {
    && Ok(q) && !q.operation.Digest? && q.blockLen == 0
    && q.state == if q.operation.Encrypt? then CalcXn else CalcSn
  }

  /** The second of the two. */
  predicate AtEmptyHalf(q: Request) {
    && Ok(q) && !q.operation.Digest? && q.blockLen == 0
    && q.state == if q.operation.Encrypt? then CalcSn else CalcXn
  }

  function Mixed(E: Cipher, q: Request): Block {
    E(q.key, q.xi)
  }

  lemma NothingInto(x: Block)
    ensures XorInto(x, 0, []) == x
  {}

  lemma EmptyXn(E: Cipher, q: Request)
    requires Ok(q) && q.state.CalcXn? && q.blockLen == 0 && !q.operation.Digest?
    ensures Round(E, q) == HandleXn(q.(xi := Mixed(E, q), state := W4Xn))
  {
    NothingInto(q.xi);
    var p := if q.operation.Encrypt? then q.input else q.output;
    assert q.mem[p..p + 0] == [];
    hide XorInto;
    RoundSend(E, q, q.(state := W4Xn), q.xi);
  }

  lemma AnySn(E: Cipher, q: Request)
    requires Ok(q) && q.state.CalcSn?
    ensures var data := E(q.key, Rfc.A(q.nonce, U16(q.counter)));
            Round(E, q) == HandleSn(q.(state := W4Sn), data)
  {
    hide Rfc.A, HandleSn;
    RoundSend(E, q, q.(state := W4Sn), Rfc.A(q.nonce, U16(q.counter)));
  }

  lemma EmptyS0(E: Cipher, q: Request)
    requires Ok(q) && q.state.CalcS0?
    ensures Finish(E, q) == q.(xi := Xor(q.xi, Rfc.S(E, q.key, q.nonce, 0)), state := W4S0)
  {
    hide Rfc.A;
    RoundSend(E, q, q.(state := W4S0), Rfc.A(q.nonce, 0));
  }

  lemma NothingWritten(q: Request, data: Block)
    requires BuffersFit(q) && q.blockLen == 0 && !q.operation.Digest?
    ensures Overwrite(q.mem, q.output, Xor(q.mem[q.input..q.input + 0], data[..0])) == q.mem
  {}

  lemma FirstHalf(E: Cipher, q: Request)
    requires AtEmpty(q)
    ensures var h := if q.operation.Encrypt? then q.(xi := Mixed(E, q), state := CalcSn) else q.(state := CalcXn);
            Round(E, q) == (h, false) && AtEmptyHalf(h)
  {
    if q.operation.Encrypt? {
      EmptyXn(E, q);
    } else {
      AnySn(E, q);
      NothingWritten(q, E(q.key, Rfc.A(q.nonce, U16(q.counter))));
    }
    hide Overwrite, Xor, Rfc.A, XorInto;
  }

  /** The block without octets is over: the counter has moved on, the message has not. */
  function Past(q: Request, x: Block): Request {
    q.(xi := x, counter := U16(q.counter + 1),
       state := if q.messageLen == 0 then CalcS0 else if q.operation.Encrypt? then CalcXn else CalcSn)
  }

  lemma SecondHalf(E: Cipher, q: Request)
    requires AtEmptyHalf(q)
    ensures var r := Past(q, if q.operation.Encrypt? then q.xi else Mixed(E, q));
            Round(E, q) == (r, q.messageLen > 0) && Ok(r)
  {
    if q.operation.Encrypt? {
      AnySn(E, q);
      NothingWritten(q, E(q.key, Rfc.A(q.nonce, U16(q.counter))));
    } else {
      EmptyXn(E, q);
    }
    hide Overwrite, Xor, Rfc.A, XorInto;
    assert U16(q.messageLen - 0) == q.messageLen;
  }

  /** The request after an empty call. */
  function AfterEmpty(E: Cipher, q: Request): Request
    requires q.messageLen < 0x10000
  {
    var r := Past(q, Mixed(E, q));
    if q.messageLen > 0 then r else r.(xi := Xor(r.xi, Rfc.S(E, q.key, q.nonce, 0)), state := W4S0)
  }

  /** The empty call: one step of the CBC-MAC on nothing and, with no octet to come, S_0. */
  lemma EmptyFinish(E: Cipher, q: Request)
    requires AtEmpty(q)
    ensures Finish(E, q) == AfterEmpty(E, q)
  {
    FirstHalf(E, q);
    var h := Round(E, q).0;
    SecondHalf(E, h);
    assert q.messageLen < 0x10000;
    var r := Round(E, h).0;
    if q.messageLen == 0 {
      EmptyS0(E, r);
    }
    hide Round, Ok, Xor, Rfc.S;
  }

  // Between two message calls, any of which may be empty.

  /** j blocks of n octets are through, after s empty calls, and x is the CBC-MAC so far. */
  predicate AtShifted(E: Cipher, q: Request, n: nat, j: nat, s: nat, x: Block) {
    && Lengths(q) && 16 * j <= n < 0x10000 && q.messageLen == n - 16 * j && q.counter == U16(j + 1 + s)
    && if q.state.CalcX1? then q.aadLen == 0 && q.aadOffset == 0 && j == 0 && x == X(E, q) else q.xi == x
  }

  lemma NotShifted(E: Cipher, q: Request, n: nat, j: nat, s: nat, x: Block)
    requires s % 0x10000 == 0
    ensures AtShifted(E, q, n, j, s, x) <==> AtMessage(E, q, n, j, x)
  {
    hide X;
    if 16 * j <= n < 0x10000 {
      var k := s / 0x10000;
      assert s == 0x10000 * k;
      Wrapped(j + 1, k);
    }
  }

  lemma Wrapped(c: nat, k: nat)
    requires c < 0x10000
    ensures U16(c + 0x10000 * k) == c
  {}

  lemma NextCount(c: nat)
    ensures U16(U16(c) + 1) == U16(c + 1) && U16(U16(c)) == U16(c)
  {}

  /** Every message call within the length announced starts where Begun says. */
  lemma CallServed(E: Cipher, q: Request, encrypt: bool, n: nat, j: nat, s: nat, x: Block, b: Chunk)
    requires AtShifted(E, q, n, j, s, x) && b.len <= n - 16 * j
    ensures var q1 := Begun(q, encrypt, x, b);
            Ok(q1) && !Waiting(q1.state) && Served(E, Called(q, encrypt, b)) == Finish(E, q1)
  {
    var q0 := Called(q, encrypt, b);
    if q.state.CalcX1? {
      assert X(E, q0) == X(E, q);
      FirstCall(E, q0);
    }
    hide Finish, X, U16;
  }

  lemma EmptyServed(E: Cipher, q: Request, encrypt: bool, n: nat, j: nat, s: nat, x: Block, b: Chunk)
    requires AtShifted(E, q, n, j, s, x) && b.len == 0
    ensures Lengths(q) && Served(E, Called(q, encrypt, b)) == AfterEmpty(E, Begun(q, encrypt, x, b))
  {
    CallServed(E, q, encrypt, n, j, s, x, b);
    EmptyFinish(E, Begun(q, encrypt, x, b));
    hide AfterEmpty, Finish, X, U16, Served;
  }

  /** What an empty call does before the last octet, and after it or without any. */
  lemma EmptyCall(E: Cipher, q: Request, encrypt: bool, n: nat, j: nat, s: nat, x: Block, b: Chunk)
    requires AtShifted(E, q, n, j, s, x) && b.len == 0
    ensures var r := Served(E, Called(q, encrypt, b));
            && r.key == q.key && r.nonce == q.nonce && r.authLen == q.authLen && Output(r, b) == []
            && (16 * j < n ==> AtShifted(E, r, n, j, s + 1, E(q.key, x)))
            && (16 * j == n ==> Over(r) && r.xi == Xor(E(q.key, x), Rfc.S(E, q.key, q.nonce, 0)))
  {
    EmptyServed(E, q, encrypt, n, j, s, x, b);
    NextCount(j + 1 + s);
    hide Xor, Rfc.S, X, U16, Served, Called, Begun;
  }

  lemma OverCall(E: Cipher, q: Request, encrypt: bool, b: Chunk)
    requires Over(q) && b.len == 0
    ensures var r := Served(E, Called(q, encrypt, b));
            && r.key == q.key && r.nonce == q.nonce && Over(r) && Output(r, b) == []
            && r.xi == Xor(E(q.key, q.xi), Rfc.S(E, q.key, q.nonce, 0))
  {
    var q1 := Called(q, encrypt, b);
    EmptyFinish(E, q1);
    hide Xor, Rfc.S, Finish, U16;
  }
}
