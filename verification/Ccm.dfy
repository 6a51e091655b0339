/** The CCM request of btstack_crypto.c as a machine that gives up the processor at every cipher call. */
module Ccm {
  import opened Bytes
  import opened Options
  import Rfc = Rfc3610

  datatype Operation = Digest | Encrypt | Decrypt

  datatype State = CalcX1 | W4X1 | CalcAadXn | W4AadXn | CalcXn | W4Xn | CalcS0 | W4S0 | CalcSn | W4Sn

  /** btstack_crypto_ccm_t. The memory that its two pointers point into is mem; input and output are
      positions in it, so they may name the same octets. */
  datatype Request = Request(
    operation: Operation, state: State,
    key: Block, nonce: Rfc.Nonce, mem: seq<byte>, input: nat, output: nat,
    xi: Block, aadOffset: nat, aadLen: nat, messageLen: nat, counter: nat,
    blockLen: nat, authLen: nat, aadRemainderLen: nat)

  /** What a pass of the run loop over the request leads to. */
  datatype Action = Send(block: Block) | Complete | Nothing

  function U16(n: int): nat { n % 0x10000 }

  /** x with s combined into it from position pos on. */
  function XorInto(x: Block, pos: nat, s: seq<byte>): Block
    requires pos + |s| <= 16
  {
    x[..pos] + Xor(x[pos..pos + |s|], s) + x[pos + |s|..]
  }

  lemma XorIntoAt(x: Block, pos: nat, s: seq<byte>)
    requires pos + |s| <= 16
    ensures forall i :: 0 <= i < 16 ==>
              XorInto(x, pos, s)[i] == if pos <= i < pos + |s| then XorByte(x[i], s[i - pos]) else x[i]
  {}

  lemma XorIntoIsXor(x: Block, s: seq<byte>)
    requires |s| <= 16
    ensures XorInto(x, 0, s) == Xor(x, ZeroPad(s))
  {
    var z := ZeroPad(s);
    forall i | 0 <= i < 16
      ensures XorInto(x, 0, s)[i] == Xor(x, z)[i]
    {
      XorBitsZero(x[i]);
      assert i < |s| ==> z[i] == z[..|s|][i];
    }
  }

  function Overwrite(mem: seq<byte>, pos: nat, s: seq<byte>): (r: seq<byte>)
    requires pos + |s| <= |mem|
    ensures |r| == |mem|
  {
    mem[..pos] + s + mem[pos + |s|..]
  }

  /** The buffers are as long as block_len says, and the output never runs ahead of the input. */
  predicate BuffersFit(q: Request) {
    && q.input + q.blockLen <= |q.mem|
    && (!q.operation.Digest? ==>
          && q.output + q.blockLen <= |q.mem|
          && (q.output <= q.input || q.input + q.blockLen <= q.output))
  }

  /** AAD octets, with the two of their length, that are not digested yet. */
  function AadLeft(q: Request): int {
    q.aadLen + 2 - q.aadOffset
  }

  /** Legal between any two steps of the machine: what callers owe, and what the steps keep. */
  predicate Ok(q: Request) {
    && BuffersFit(q)
    && q.aadLen < 0xff00 && Rfc.ValidAuthLen(q.authLen)
    && q.messageLen < 0x10000
    && match q.state
       case CalcX1 => q.aadOffset == 0 && HasWork(q)
       case W4X1 => q.aadOffset == 0 && HasWork(q)
       case CalcAadXn =>
         && q.operation.Digest? && q.aadRemainderLen < 16 && AadLeft(q) > 0
         && (q.aadOffset == 0 ==> q.aadRemainderLen == 0)
         && (if q.aadOffset == 0 then 2 else 0) + q.blockLen <= AadLeft(q)
       case W4AadXn =>
         && q.operation.Digest? && q.aadRemainderLen == 0 && q.aadOffset > 0
         && q.blockLen <= AadLeft(q)
       case CalcS0 => !q.operation.Digest? && q.messageLen == 0
       case W4S0 => !q.operation.Digest? && q.messageLen == 0
       case _ => !q.operation.Digest? && HasWork(q)
  }

  /** No call exceeds what init announced. */
  predicate HasWork(q: Request) {
    if q.operation.Digest? then q.blockLen <= q.aadLen
    else q.blockLen <= q.messageLen
  }

  predicate Waiting(s: State) {
    s.W4X1? || s.W4AadXn? || s.W4Xn? || s.W4S0? || s.W4Sn?
  }

  // btstack_crypto_ccm_calc_*: one pass over a request that owes the cipher a block.

  /** The two octets of the length, in front of the first octet of additional data. */
  function AadHeader(q: Request): Request
    requires q.aadLen < 0x10000
  {
    if q.aadOffset != 0 then q
    else q.(xi := XorInto(q.xi, 0, Rfc.BigEndian16(q.aadLen)),
            aadRemainderLen := q.aadRemainderLen + 2, aadOffset := 2)
  }

  /** Input up to the end of the block. */
  function AadFill(q: Request): Request
    requires q.aadRemainderLen <= 16 && q.input + q.blockLen <= |q.mem|
  {
    var n := Min(16 - q.aadRemainderLen, q.blockLen);
    q.(xi := XorInto(q.xi, q.aadRemainderLen, q.mem[q.input..q.input + n]),
       aadRemainderLen := q.aadRemainderLen + n, input := q.input + n,
       aadOffset := U16(q.aadOffset + n), blockLen := q.blockLen - n)
  }

  /** A full block, or the last one, goes to the cipher. */
  function AadFlush(q: Request): (Request, Action) {
    var filled := if q.aadOffset == q.aadLen + 2 then 16 else q.aadRemainderLen;
    if filled < 16 then (q, Complete)
    else (q.(aadRemainderLen := 0, state := W4AadXn), Send(q.xi))
  }

  function CalcAad(q: Request): (Request, Action)
    requires Ok(q) && q.state.CalcAadXn?
  {
    AadFlush(AadFill(AadHeader(q)))
  }

  function Calc(q: Request): (Request, Action)
    requires Ok(q)
  {
    match q.state
    case CalcAadXn => CalcAad(q)
    case CalcX1 =>
      (q.(state := W4X1), Send(Rfc.B0(q.nonce, q.aadLen != 0, q.messageLen, q.authLen)))
    case CalcS0 => (q.(state := W4S0), Send(Rfc.A(q.nonce, 0)))
    case CalcSn => (q.(state := W4Sn), Send(Rfc.A(q.nonce, U16(q.counter))))
    case CalcXn =>
      var plaintext := if q.operation.Encrypt? then q.input else q.output;
      var n := Min(q.blockLen, 16);
      (q.(state := W4Xn), Send(XorInto(q.xi, 0, q.mem[plaintext..plaintext + n])))
    case _ => (q, Nothing)
  }

  // btstack_crypto_ccm_handle_*: the cipher's answer. The flag says that the callback is due.

  function NextBlock(q: Request, whenDone: State): (Request, bool) {
    var n := Min(q.blockLen, 16);
    var q1 := q.(counter := U16(q.counter + 1), input := q.input + n, output := q.output + n,
                 blockLen := q.blockLen - n, messageLen := U16(q.messageLen - n));
    if q1.messageLen == 0 then (q1.(state := CalcS0), false)
    else (q1.(state := whenDone), q1.blockLen == 0)
  }

  function HandleSn(q: Request, data: Block): (Request, bool)
    requires BuffersFit(q) && !q.operation.Digest?
  {
    var n := Min(q.blockLen, 16);
    var q1 := q.(mem := Overwrite(q.mem, q.output, Xor(q.mem[q.input..q.input + n], data[..n])));
    if q.operation.Decrypt? then (q1.(state := CalcXn), false) else NextBlock(q1, CalcXn)
  }

  function HandleX1(q: Request): Request {
    match q.operation
    case Digest => q.(aadRemainderLen := 0, state := CalcAadXn)
    case Decrypt => q.(state := CalcSn)
    case Encrypt => q.(state := CalcXn)
  }

  function HandleXn(q: Request): (Request, bool)
    requires !q.operation.Digest?
  {
    if q.operation.Decrypt? then NextBlock(q, CalcSn) else (q.(state := CalcSn), false)
  }

  function Handle(q: Request, data: Block): (Request, bool)
    requires Ok(q)
  {
    match q.state
    case W4X1 => (HandleX1(q.(xi := data)), false)
    case W4Xn => HandleXn(q.(xi := data))
    case W4AadXn =>
      var q1 := q.(xi := data);
      if q.aadOffset < q.aadLen + 2 then (q1.(state := CalcAadXn), false) else (q1, true)
    case W4S0 => (q.(xi := Xor(q.xi, data)), true)
    case W4Sn => HandleSn(q, data)
    case _ => (q, false)
  }

  // The calls of the API: what they write into the request before it is queued.

  function Init(key: Block, nonce: Rfc.Nonce, messageLen: nat, aadLen: nat, authLen: nat, q: Request): Request {
    q.(key := key, nonce := nonce, messageLen := messageLen, aadLen := aadLen, aadOffset := 0,
       authLen := authLen, counter := 1, state := CalcX1)
  }

  function DigestBlock(q: Request, mem: seq<byte>, input: nat, len: nat): Request {
    q.(operation := Digest, mem := mem, input := input, blockLen := len)
  }

  function EncryptBlock(q: Request, mem: seq<byte>, input: nat, output: nat, len: nat): Request {
    q.(operation := Encrypt, mem := mem, input := input, output := output, blockLen := len,
       state := if q.state.CalcX1? then CalcX1 else CalcXn)
  }

  function DecryptBlock(q: Request, mem: seq<byte>, input: nat, output: nat, len: nat): Request {
    q.(operation := Decrypt, mem := mem, input := input, output := output, blockLen := len,
       state := if q.state.CalcX1? then CalcX1 else CalcSn)
  }

  // Progress: every step but the last leaves strictly fewer to go.

  function Blocks(n: nat): nat { (n + 15) / 16 }

  /** Blocks that a call of n octets takes the cipher through: even an empty one takes it through one. */
  function Rounds(n: nat): (r: nat)
    ensures r >= 1
  {
    if n == 0 then 1 else Blocks(n)
  }

  /** An upper bound of the passes and answers that q still needs. */
  function Work(q: Request): nat {
    var n, k := Rounds(q.blockLen), 2 * q.blockLen + if q.aadLen == 0 && q.aadOffset == 0 then 2 else 0;
    match q.state
    case CalcX1 => if q.operation.Digest? then k + 3 else 4 * n + 4
    case W4X1 => if q.operation.Digest? then k + 2 else 4 * n + 3
    case CalcAadXn => k + 1
    case W4AadXn => 2 * q.blockLen + 2
    case CalcXn => if q.operation.Encrypt? then 4 * n + 2 else 4 * n
    case W4Xn => if q.operation.Encrypt? then 4 * n + 1 else 4 * n - 1
    case CalcSn => if q.operation.Encrypt? then 4 * n else 4 * n + 2
    case W4Sn => if q.operation.Encrypt? then 4 * n - 1 else 4 * n + 1
    case CalcS0 => 2
    case W4S0 => 1
  }

  predicate GoodPass(q: Request, q1: Request, action: Action) {
    && !action.Nothing?
    && (action.Send? ==> Ok(q1) && Waiting(q1.state) && Work(q1) < Work(q))
    && (action.Complete? ==> q.state.CalcAadXn? && q1.blockLen == 0)
  }

  lemma CalcAadProgress(q: Request)
    requires Ok(q) && q.state.CalcAadXn?
    ensures GoodPass(q, CalcAad(q).0, CalcAad(q).1)
  {
    hide XorInto, Rfc.BigEndian16;
  }

  /** A pass over a request that does not wait sends a block to the cipher, or ends an AAD chunk. */
  lemma CalcProgress(q: Request)
    requires Ok(q) && !Waiting(q.state)
    ensures GoodPass(q, Calc(q).0, Calc(q).1)
  {
    hide XorInto, Rfc.B0, Rfc.A, CalcAad;
    if q.state.CalcAadXn? {
      CalcAadProgress(q);
    }
  }

  lemma NextBlockProgress(q: Request, whenDone: State)
    requires Ok(q) && HasWork(q) && !q.operation.Digest?
    requires whenDone == if q.operation.Encrypt? then CalcXn else CalcSn
    ensures var (q1, done) := NextBlock(q, whenDone);
            !done ==> Ok(q1) && !Waiting(q1.state) && Work(q1) + 1 < 4 * Rounds(q.blockLen)
  {
    var q1 := NextBlock(q, whenDone).0;
    if q1.messageLen != 0 && q1.blockLen != 0 {
      assert Rounds(q1.blockLen) + 1 == Rounds(q.blockLen);
    }
  }

  /** The cipher's answer ends the request or leaves it ready for the next pass. */
  lemma HandleProgress(q: Request, data: Block)
    requires Ok(q) && Waiting(q.state)
    ensures var (q1, done) := Handle(q, data);
            !done ==> Ok(q1) && !Waiting(q1.state) && Work(q1) < Work(q)
  {
    hide Xor, Overwrite, NextBlock;
    if q.state.W4Xn? && q.operation.Decrypt? {
      NextBlockProgress(q.(xi := data), CalcSn);
    } else if q.state.W4Sn? && q.operation.Encrypt? {
      var n := Min(q.blockLen, 16);
      var out := Overwrite(q.mem, q.output, Xor(q.mem[q.input..q.input + n], data[..n]));
      NextBlockProgress(q.(mem := out), CalcXn);
    }
  }

  // A request on its own, the cipher answering every call at once.

  /** A pass and the answer to it; the flag says that the callback is due. */
  function Round(E: Cipher, q: Request): (r: (Request, bool))
    requires Ok(q) && !Waiting(q.state)
    ensures !r.1 ==> Ok(r.0) && !Waiting(r.0.state) && Work(r.0) < Work(q)
  {
    CalcProgress(q);
    var (q1, action) := Calc(q);
    if action.Send? then
      HandleProgress(q1, E(q1.key, action.block));
      Handle(q1, E(q1.key, action.block))
    else (q1, true)
  }

  lemma CalcKeepsMem(q: Request)
    requires Ok(q)
    ensures Calc(q).0.mem == q.mem
  {
    hide XorInto, Rfc.B0, Rfc.A;
  }

  lemma HandleKeepsSize(q: Request, data: Block)
    requires Ok(q)
    ensures |Handle(q, data).0.mem| == |q.mem|
  {
    hide Overwrite, Xor;
  }

  lemma RoundKeepsSize(E: Cipher, q: Request)
    requires Ok(q) && !Waiting(q.state)
    ensures |Round(E, q).0.mem| == |q.mem|
  {
    CalcProgress(q);
    CalcKeepsMem(q);
    hide Calc, Handle, Ok;
    var (q1, action) := Calc(q);
    if action.Send? {
      HandleKeepsSize(q1, E(q1.key, action.block));
    }
  }

  /** The request as the callback finds it. */
  function Finish(E: Cipher, q: Request): (r: Request)
    requires Ok(q) && !Waiting(q.state)
    ensures |r.mem| == |q.mem|
    decreases Work(q)
  {
    RoundKeepsSize(E, q);
    var (q1, done) := Round(E, q);
    if done then q1 else Finish(E, q1)
  }

  lemma RoundSend(E: Cipher, q: Request, q1: Request, b: Block)
    requires Ok(q) && !Waiting(q.state) && Calc(q) == (q1, Send(b))
    ensures Ok(q1) && Waiting(q1.state) && Round(E, q) == Handle(q1, E(q1.key, b))
  {
    CalcProgress(q);
    hide Calc, Handle, Ok;
  }

  lemma RoundComplete(E: Cipher, q: Request, q1: Request)
    requires Ok(q) && !Waiting(q.state) && Calc(q) == (q1, Complete)
    ensures Round(E, q) == (q1, true)
  {
    CalcProgress(q);
    hide Calc, Handle, Ok;
  }
}
