/** What one call of the CCM API leaves behind, in terms of RFC 3610. */
module CcmChunk {
  import opened Bytes
  import opened Ccm
  import Rfc = Rfc3610

  /** Message chunks are whole blocks, but for the last one. */
  predicate LegalChunk(q: Request) {
    && Ok(q) && !q.operation.Digest? && 0 < q.blockLen <= q.messageLen && q.counter >= 1
    && (q.blockLen % 16 == 0 || q.blockLen == q.messageLen)
    && 16 * (q.counter - 1) + q.messageLen < 0x10000
  }

  function Input(q: Request): seq<byte>
    requires BuffersFit(q)
  {
    q.mem[q.input..q.input + q.blockLen]
  }

  /** The chunk combined with its part of the key stream. */
  function Crypted(E: Cipher, q: Request): (r: seq<byte>)
    requires LegalChunk(q)
    ensures |r| == q.blockLen
  {
    Rfc.Ctr(E, q.key, q.nonce, q.counter - 1, Input(q))
  }

  function Plaintext(E: Cipher, q: Request): (r: seq<byte>)
    requires LegalChunk(q)
    ensures |r| == q.blockLen
  {
    if q.operation.Encrypt? then Input(q) else Crypted(E, q)
  }

  /** The request after a chunk: output written, counter one per block, plaintext absorbed, and S_0
      folded in after the last octet of the message. */
  function AfterChunk(E: Cipher, q: Request): Request
    requires LegalChunk(q)
  {
    var last := q.blockLen == q.messageLen;
    var x := Rfc.Absorb(E, q.key, q.xi, Plaintext(E, q));
    q.(mem := Overwrite(q.mem, q.output, Crypted(E, q)),
       input := q.input + q.blockLen, output := q.output + q.blockLen,
       blockLen := 0, messageLen := q.messageLen - q.blockLen,
       counter := q.counter + Blocks(q.blockLen),
       xi := if last then Xor(x, Rfc.S(E, q.key, q.nonce, 0)) else x,
       state := if last then W4S0 else if q.operation.Encrypt? then CalcXn else CalcSn)
  }

  /** Where the machine starts on a block of the message. */
  predicate AtBlock(q: Request) {
    LegalChunk(q) && q.state == if q.operation.Encrypt? then CalcXn else CalcSn
  }

  function CryptedBlock(E: Cipher, q: Request): (r: seq<byte>)
    requires AtBlock(q)
    ensures |r| == Min(q.blockLen, 16)
  {
    var n := Min(q.blockLen, 16);
    Xor(Input(q)[..n], Rfc.S(E, q.key, q.nonce, q.counter)[..n])
  }

  function PlainBlock(E: Cipher, q: Request): (r: seq<byte>)
    requires AtBlock(q)
    ensures |r| == Min(q.blockLen, 16)
  {
    if q.operation.Encrypt? then Input(q)[..Min(q.blockLen, 16)] else CryptedBlock(E, q)
  }

  /** The first block of the chunk. */
  function AfterBlock(E: Cipher, q: Request): Request
    requires AtBlock(q)
  {
    var n := Min(q.blockLen, 16);
    q.(mem := Overwrite(q.mem, q.output, CryptedBlock(E, q)),
       input := q.input + n, output := q.output + n,
       blockLen := q.blockLen - n, messageLen := q.messageLen - n,
       counter := q.counter + 1,
       xi := E(q.key, Xor(q.xi, ZeroPad(PlainBlock(E, q)))),
       state := if q.messageLen == n then CalcS0 else q.state)
  }

  /** Between the two cipher calls of a block. */
  function Halfway(E: Cipher, q: Request): Request
    requires AtBlock(q)
  {
    if q.operation.Encrypt?
    then q.(xi := E(q.key, Xor(q.xi, ZeroPad(PlainBlock(E, q)))), state := CalcSn)
    else q.(mem := Overwrite(q.mem, q.output, CryptedBlock(E, q)), state := CalcXn)
  }

  lemma FirstRound(E: Cipher, q: Request)
    requires AtBlock(q)
    ensures Round(E, q) == (Halfway(E, q), false)
  {
    hide XorInto, Xor, ZeroPad, Rfc.A, Blocks;
    var n := Min(q.blockLen, 16);
    assert q.mem[q.input..q.input + n] == Input(q)[..n];
    if q.operation.Encrypt? {
      XorIntoIsXor(q.xi, Input(q)[..n]);
    }
  }

  lemma HalfwayOk(E: Cipher, q: Request)
    requires AtBlock(q)
    ensures var h := Halfway(E, q); Ok(h) && !Waiting(h.state)
  {
    hide Xor, ZeroPad, Overwrite;
  }

  lemma SecondPass(E: Cipher, q: Request)
    requires AtBlock(q)
    ensures var h := Halfway(E, q);
            Ok(h) && Calc(h) == if q.operation.Encrypt?
                                then (h.(state := W4Sn), Send(Rfc.A(q.nonce, q.counter)))
                                else (h.(state := W4Xn), Send(Xor(q.xi, ZeroPad(PlainBlock(E, q)))))
  {
    HalfwayOk(E, q);
    hide XorInto, Xor, ZeroPad, Rfc.A, Blocks;
    if q.operation.Decrypt? {
      var c := CryptedBlock(E, q);
      assert Overwrite(q.mem, q.output, c)[q.output..q.output + |c|] == c;
      XorIntoIsXor(q.xi, c);
    }
  }

  lemma EncryptAnswer(E: Cipher, q: Request)
    requires AtBlock(q) && q.operation.Encrypt?
    ensures var h := Halfway(E, q).(state := W4Sn);
            Ok(h) && Handle(h, Rfc.S(E, q.key, q.nonce, q.counter))
                     == (AfterBlock(E, q), q.blockLen <= 16 && q.blockLen < q.messageLen)
  {
    HalfwayOk(E, q);
    var n := Min(q.blockLen, 16);
    assert q.mem[q.input..q.input + n] == Input(q)[..n];
    hide Xor, ZeroPad, Rfc.S, Overwrite;
  }

  lemma DecryptAnswer(E: Cipher, q: Request)
    requires AtBlock(q) && q.operation.Decrypt?
    ensures var h := Halfway(E, q).(state := W4Xn);
            Ok(h) && Handle(h, E(q.key, Xor(q.xi, ZeroPad(PlainBlock(E, q)))))
                     == (AfterBlock(E, q), q.blockLen <= 16 && q.blockLen < q.messageLen)
  {
    HalfwayOk(E, q);
    hide Xor, ZeroPad, Rfc.S, Overwrite;
  }

  lemma SecondRound(E: Cipher, q: Request)
    requires AtBlock(q)
    ensures Ok(Halfway(E, q)) && !Waiting(Halfway(E, q).state)
    ensures Round(E, Halfway(E, q)) == (AfterBlock(E, q), q.blockLen <= 16 && q.blockLen < q.messageLen)
  {
    HalfwayOk(E, q);
    SecondPass(E, q);
    if q.operation.Encrypt? {
      EncryptAnswer(E, q);
    } else {
      DecryptAnswer(E, q);
    }
    hide Calc, Handle, AfterBlock, Ok;
    assert Halfway(E, q).key == q.key && Calc(Halfway(E, q)).0.key == q.key;
  }

  /** Two cipher calls take the machine over one block, in either order. */
  lemma TwoRounds(E: Cipher, q: Request)
    requires AtBlock(q)
    ensures q.blockLen <= 16 && q.blockLen < q.messageLen ==> Finish(E, q) == AfterBlock(E, q)
    ensures q.blockLen > 16 || q.blockLen == q.messageLen ==>
              var q1 := AfterBlock(E, q);
              Ok(q1) && !Waiting(q1.state) && Finish(E, q) == Finish(E, q1)
  {
    hide Halfway, AfterBlock;
    FirstRound(E, q);
    SecondRound(E, q);
  }

  lemma OverwriteTwice(mem: seq<byte>, pos: nat, s: seq<byte>, t: seq<byte>)
    requires pos + |s| + |t| <= |mem|
    ensures Overwrite(Overwrite(mem, pos, s), pos + |s|, t) == Overwrite(mem, pos, s + t)
  {}

  lemma OverwriteElsewhere(mem: seq<byte>, pos: nat, s: seq<byte>, lo: nat, hi: nat)
    requires pos + |s| <= |mem| && lo <= hi <= |mem|
    requires pos + |s| <= lo || hi <= pos
    ensures Overwrite(mem, pos, s)[lo..hi] == mem[lo..hi]
  {}

  /** The first block leaves the rest of the input alone, wherever the output goes. */
  lemma RestOfInput(E: Cipher, q: Request)
    requires AtBlock(q) && q.blockLen > 16
    ensures AtBlock(AfterBlock(E, q)) && Input(AfterBlock(E, q)) == Input(q)[16..]
  {
    hide Xor, ZeroPad, Overwrite;
    OverwriteElsewhere(q.mem, q.output, CryptedBlock(E, q), q.input + 16, q.input + q.blockLen);
    assert q.mem[q.input + 16..q.input + q.blockLen] == Input(q)[16..];
  }

  lemma RestOfCrypted(E: Cipher, q: Request)
    requires AtBlock(q) && q.blockLen > 16
    ensures AtBlock(AfterBlock(E, q)) && Crypted(E, q) == CryptedBlock(E, q) + Crypted(E, AfterBlock(E, q))
  {
    RestOfInput(E, q);
    var q1, d := AfterBlock(E, q), Input(q);
    assert q1.counter == q.counter + 1 && q1.key == q.key && q1.nonce == q.nonce;
    hide Rfc.Ctr, Rfc.S, Xor, Input, AfterBlock;
    assert Crypted(E, q1) == Rfc.Ctr(E, q.key, q.nonce, q.counter, d[16..]);
    assert CryptedBlock(E, q) == Xor(d[..16], Rfc.S(E, q.key, q.nonce, q.counter)[..16]);
    hide CryptedBlock;
    Rfc.CtrFirstBlock(E, q.key, q.nonce, q.counter - 1, d);
  }

  lemma RestOfOutput(E: Cipher, q: Request)
    requires AtBlock(q) && q.blockLen > 16
    ensures var q1 := AfterBlock(E, q);
            && AtBlock(q1)
            && Crypted(E, q) == CryptedBlock(E, q) + Crypted(E, q1)
            && Plaintext(E, q) == PlainBlock(E, q) + Plaintext(E, q1)
  {
    RestOfInput(E, q);
    RestOfCrypted(E, q);
    assert AfterBlock(E, q).operation == q.operation;
    hide CryptedBlock, Crypted, AfterBlock, Ok;
    assert Input(q) == Input(q)[..16] + Input(q)[16..];
  }

  lemma RestOfMac(E: Cipher, q: Request)
    requires AtBlock(q) && q.blockLen > 16
    ensures var q1 := AfterBlock(E, q);
            AtBlock(q1)
            && Rfc.Absorb(E, q.key, q.xi, Plaintext(E, q)) == Rfc.Absorb(E, q.key, q1.xi, Plaintext(E, q1))
  {
    RestOfOutput(E, q);
    var q1 := AfterBlock(E, q);
    assert q1.xi == E(q.key, Xor(q.xi, ZeroPad(PlainBlock(E, q))));
    hide CryptedBlock, Crypted, AfterBlock, Ok, Plaintext, PlainBlock, Xor, ZeroPad, Rfc.Absorb;
    var p, b := Plaintext(E, q), PlainBlock(E, q);
    Rfc.AbsorbBlock(E, q.key, q.xi, p);
    assert p[..16] == b && p[16..] == Plaintext(E, q1);
  }

  lemma RestOfMem(E: Cipher, q: Request)
    requires AtBlock(q) && q.blockLen > 16
    ensures var q1 := AfterBlock(E, q);
            AtBlock(q1)
            && Overwrite(q.mem, q.output, Crypted(E, q)) == Overwrite(q1.mem, q1.output, Crypted(E, q1))
  {
    RestOfOutput(E, q);
    hide CryptedBlock, Crypted, Ok, Plaintext, PlainBlock, Xor, ZeroPad, Overwrite;
    OverwriteTwice(q.mem, q.output, CryptedBlock(E, q), Crypted(E, AfterBlock(E, q)));
  }

  /** The rest of the chunk, done after its first block, makes up the whole chunk. */
  lemma RestOfChunk(E: Cipher, q: Request)
    requires AtBlock(q) && q.blockLen > 16
    ensures AtBlock(AfterBlock(E, q)) && AfterChunk(E, AfterBlock(E, q)) == AfterChunk(E, q)
  {
    RestOfMac(E, q);
    RestOfMem(E, q);
    hide Rfc.Absorb, Xor, ZeroPad, Crypted, CryptedBlock, PlainBlock, Plaintext, Input, Ok, Overwrite;
    assert Blocks(q.blockLen) == 1 + Blocks(q.blockLen - 16);
  }

  lemma LastOutput(E: Cipher, q: Request)
    requires AtBlock(q) && q.blockLen <= 16
    ensures Crypted(E, q) == CryptedBlock(E, q) && Plaintext(E, q) == PlainBlock(E, q)
  {
    var d := Input(q);
    assert d[..q.blockLen] == d;
    hide Rfc.Ctr, Rfc.S, Xor, Input;
    Rfc.CtrOneBlock(E, q.key, q.nonce, q.counter - 1, d);
  }

  lemma LastBlock(E: Cipher, q: Request)
    requires AtBlock(q) && q.blockLen <= 16
    ensures var q1, r := AfterBlock(E, q), AfterChunk(E, q);
            if q.blockLen < q.messageLen then q1 == r
            else r == q1.(xi := Xor(q1.xi, Rfc.S(E, q.key, q.nonce, 0)), state := W4S0)
  {
    LastOutput(E, q);
    hide Rfc.Absorb, Rfc.S, Xor, ZeroPad, Overwrite, CryptedBlock, Crypted, PlainBlock, Plaintext;
    Rfc.AbsorbBlock(E, q.key, q.xi, PlainBlock(E, q));
  }

  /** Every way through a message chunk ends with the chunk combined with the key stream, the
      plaintext absorbed and, after the last octet, S_0 folded in. */
  lemma {:induction false} ChunkFinish(E: Cipher, q: Request)
    requires AtBlock(q)
    ensures Finish(E, q) == AfterChunk(E, q)
    decreases q.blockLen
  {
    TwoRounds(E, q);
    var q1 := AfterBlock(E, q);
    if q.blockLen > 16 {
      RestOfChunk(E, q);
      ChunkFinish(E, q1);
    } else {
      LastBlock(E, q);
      if q.blockLen == q.messageLen {
        hide Rfc.Absorb, Xor, AfterBlock, AfterChunk;
        assert Finish(E, q1) == q1.(xi := Xor(q1.xi, Rfc.S(E, q.key, q.nonce, 0)), state := W4S0);
      }
    }
  }
}
