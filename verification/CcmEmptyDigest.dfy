/** Digest calls without octets. Before the last octet of the additional data they do nothing; with no
    additional data one of them still runs a step of the CBC-MAC; after the last octet none ever ends. */
module CcmEmptyDigest {
  import opened Bytes
  import opened Options
  import opened Ccm
  import opened CcmChunk
  import opened CcmSession
  import Engine
  import Runs = EngineRuns
  import Rfc = Rfc3610

  lemma ZeroesInto(x: Block)
    ensures Rfc.BigEndian16(0) == [0, 0] && XorInto(XorInto(x, 0, [0, 0]), 2, []) == x
  {
    XorIntoAt(x, 0, [0, 0]);
    XorBitsZero(x[0]);
    XorBitsZero(x[1]);
    assert XorInto(x, 0, [0, 0]) == x;
  }

  /** The length of no additional data goes through the cipher. */
  lemma EmptyAadRound(E: Cipher, q: Request)
    requires Ok(q) && q.state.CalcAadXn? && q.aadLen == 0 && q.aadOffset == 0
    ensures Round(E, q)
         == (q.(xi := E(q.key, q.xi), aadOffset := 2, aadRemainderLen := 0, state := W4AadXn), true)
  {
    ZeroesInto(q.xi);
    assert q.blockLen == 0 && q.mem[q.input..q.input + 0] == [];
    assert Calc(q) == (q.(aadOffset := 2, aadRemainderLen := 0, state := W4AadXn), Send(q.xi)) by {
      assert AadHeader(q) == q.(xi := XorInto(q.xi, 0, [0, 0]), aadRemainderLen := 2, aadOffset := 2);
      hide XorInto;
    }
    hide Calc;
    RoundSend(E, q, q.(aadOffset := 2, aadRemainderLen := 0, state := W4AadXn), q.xi);
  }

  lemma EmptyDigest(E: Cipher, key: Block, nonce: Rfc.Nonce, b: Chunk, n: nat, authLen: nat, q: Request)
    requires b.len == 0 && n < 0x10000 && Rfc.ValidAuthLen(authLen)
    ensures var r := Digested(E, Init(key, nonce, n, 0, authLen, q), [b]);
            && r.key == key && r.nonce == nonce && r.state.W4AadXn? && r.aadLen == 0 && Lengths(r)
            && r.aadOffset == 2 && r.aadRemainderLen == 0
            && AtMessage(E, r, n, 0, E(key, Rfc.X1(E, key, nonce, false, n, authLen)))
  {
    var q0 := DigestBlock(Init(key, nonce, n, 0, authLen, q), b.mem, b.input, b.len);
    assert [b][1..] == [];
    FirstCall(E, q0);
    EmptyAadRound(E, HandleX1(q0.(xi := X(E, q0))));
    hide Rfc.X1, Round;
  }

  /** Digest calls that each find additional data left, or a single one although there is none. */
  predicate AadCalls(aad: seq<Chunk>) {
    AadChunks(aad) || (|aad| == 1 && aad[0].len == 0)
  }

  /** The CBC-MAC when the first message call comes. */
  function XStart(E: Cipher, key: Block, nonce: Rfc.Nonce, aad: seq<Chunk>, n: nat, authLen: nat): Block
    requires |Joined(aad)| < 0xff00 && n < 0x10000 && Rfc.ValidAuthLen(authLen)
  {
    if AadChunks(aad) then XAad(E, key, nonce, Joined(aad), n, authLen)
    else E(key, Rfc.X1(E, key, nonce, false, n, authLen))
  }

  lemma OneEmptyDigest(aad: seq<Chunk>)
    requires AadCalls(aad) && !AadChunks(aad)
    ensures aad == [aad[0]] && aad[0].len == 0 && Joined(aad) == []
  {}

  lemma AfterAadCalls(E: Cipher, key: Block, nonce: Rfc.Nonce, aad: seq<Chunk>, n: nat, authLen: nat, q: Request)
    requires AadCalls(aad) && |Joined(aad)| < 0xff00 && n < 0x10000 && Rfc.ValidAuthLen(authLen)
    ensures var r := Digested(E, Init(key, nonce, n, |Joined(aad)|, authLen, q), aad);
            && r.key == key && r.nonce == nonce
            && AtMessage(E, r, n, 0, XStart(E, key, nonce, aad, n, authLen))
  {
    if AadChunks(aad) {
      AfterAllDigests(E, key, nonce, aad, n, authLen, q);
    } else {
      OneEmptyDigest(aad);
      EmptyDigest(E, key, nonce, aad[0], n, authLen, q);
    }
    hide AtMessage, Digested, Joined, XAad, Rfc.X1, Init;
  }

  // A digest call too many.

  /** The request of a further digest call, after the last octet of the additional data. */
  function LateCall(E: Cipher, key: Block, nonce: Rfc.Nonce, aad: seq<Chunk>, n: nat, authLen: nat, q: Request,
                    b: Chunk): Request
  {
    DigestBlock(Digested(E, Init(key, nonce, n, |Joined(aad)|, authLen, q), aad), b.mem, b.input, b.len)
  }

  /** It is as the machine expects a request, but waits for an answer that nobody owes it. */
  lemma LateDigest(E: Cipher, key: Block, nonce: Rfc.Nonce, aad: seq<Chunk>, n: nat, authLen: nat, q: Request, b: Chunk)
    requires AadCalls(aad) && aad != [] && |Joined(aad)| < 0xff00 && n < 0x10000 && Rfc.ValidAuthLen(authLen)
    requires b.len == 0
    ensures var r := LateCall(E, key, nonce, aad, n, authLen, q, b); Ok(r) && r.state.W4AadXn?
  {
    var q1 := Init(key, nonce, n, |Joined(aad)|, authLen, q);
    if AadChunks(aad) {
      RestNotEmpty(aad);
      InitAtDigest(E, key, nonce, n, |Joined(aad)|, authLen, q);
      assert [] + Joined(aad) == Joined(aad);
      DigestCalls(E, q1, [], aad);
      LateAfter(E, Digested(E, q1, aad), Joined(aad), b);
    } else {
      OneEmptyDigest(aad);
      EmptyDigest(E, key, nonce, aad[0], n, authLen, q);
    }
    hide Digested, Joined, AtDigest, AtMessage, Rfc.X1;
  }

  lemma LateAfter(E: Cipher, q: Request, a: seq<byte>, b: Chunk)
    requires AtDigest(E, q, a) && a != [] && |a| == q.aadLen && b.len == 0
    ensures var r := DigestBlock(q, b.mem, b.input, b.len); Ok(r) && r.state.W4AadXn?
  {
    hide Rfc.Absorb, Rfc.X1;
  }

  /** No pass gets the queue past such a request: its run loop, finding neither a command to wait for nor a
      request done, takes the same pass for ever. */
  lemma LateDigestSpins(w: Engine.World, e: Runs.State, key: Block, nonce: Rfc.Nonce, aad: seq<Chunk>, n: nat,
                        authLen: nat, q: Request, b: Chunk)
    requires AadCalls(aad) && aad != [] && |Joined(aad)| < 0xff00 && n < 0x10000 && Rfc.ValidAuthLen(authLen)
    requires b.len == 0 && e.queue != [] && !e.wait
    requires e.queue[0].now == Engine.CcmJob(LateCall(w.E, key, nonce, aad, n, authLen, q, b))
    ensures Engine.Ready(e.queue[0], e.statics)
    ensures Engine.PassHead(w, e.queue[0], e.statics) == (e.queue[0], e.statics, Engine.Stuck)
    ensures Runs.Passed(w, e) == e
  {
    LateDigest(w.E, key, nonce, aad, n, authLen, q, b);
    hide LateCall, Ok, Joined;
  }
}
