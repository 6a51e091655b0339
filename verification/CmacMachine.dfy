/** AES-CMAC as btstack_crypto.c runs it when the controller holds the cipher: one global engine that
    hands out a block, waits, and is resumed with the encrypted block. */
module CmacMachine {
  import opened Bytes
  import opened Options
  import opened Cmac
  import Rfc = Rfc4493

  datatype State = Idle | CalcSubkeys | W4Subkeys | CalcMi | W4Mi | CalcMlast | W4Mlast

  /** The btstack_crypto_cmac_* statics; current and count are uint8_t. */
  datatype Engine = Engine(state: State, k: Block, x: Block, subkey: Block, current: nat, count: nat)

  const IDLE := Engine(Idle, ZERO, ZERO, ZERO, 0, 1)

  /** The 8-bit block count the engine works with. */
  function Count8(size: nat): (n: nat)
    ensures 1 <= n <= 255 && 16 * (n - 1) <= size
  {
    if (size + 15) / 16 % 0x100 == 0 then 1 else (size + 15) / 16 % 0x100
  }

  /** The 8-bit count is the number of blocks exactly up to 4080 octets; beyond, it is smaller. */
  lemma CountExact(size: nat)
    requires size < 0x10000
    ensures size <= 4080 ==> Count8(size) == Rfc.BlockCount(size)
    ensures size > 4080 ==> Count8(size) < Rfc.BlockCount(size)
  {}

  /** The engine never reads outside the message. */
  predicate InRange(e: Engine, m: seq<byte>) {
    e.state.CalcMi? ==> 16 * e.current + 16 <= |m|
  }

  /** btstack_crypto_cmac_handle_aes_engine_ready: the block to encrypt, if any. */
  function Ready(e: Engine, m: seq<byte>): (Engine, Option<Block>)
    requires InRange(e, m)
  {
    match e.state
    case CalcSubkeys => (e.(state := W4Subkeys), Some(ZERO))
    case CalcMi =>
      var y := Xor(e.x, m[16 * e.current..16 * e.current + 16]);
      (e.(state := W4Mi, current := (e.current + 1) % 0x100), Some(y))
    case CalcMlast =>
      var y := Xor(e.x, Rfc.LastBlock(e.subkey, m));
      (e.(state := W4Mlast, current := (e.current + 1) % 0x100), Some(y))
    case _ => (e, None)
  }

  /** btstack_crypto_cmac_start. */
  function Start(e: Engine, key: Block, size: nat): Engine {
    e.(state := CalcSubkeys, k := key, x := ZERO, current := 0, count := Count8(size))
  }

  function NextState(e: Engine): State {
    if e.current < e.count - 1 then CalcMi else CalcMlast
  }

  /** btstack_crypto_cmac_handle_encryption_result: the hash, once the last block is encrypted. */
  function Result(e: Engine, data: Block): (Engine, Option<Block>) {
    match e.state
    case W4Subkeys => (e.(subkey := data, state := NextState(e)), None)
    case W4Mi => (e.(x := data, state := NextState(e)), None)
    case W4Mlast => (e.(state := Idle), Some(data))
    case _ => (e, None)
  }

  /** Between two cipher calls: how far the engine is with message m under key k. */
  ghost predicate Chained(E: Cipher, e: Engine, k: Block, m: seq<byte>) {
    && e.k == k && e.subkey == E(k, ZERO)
    && e.count == Count8(|m|) && e.current < e.count
    && 16 * e.current <= |m|
    && e.state == NextState(e)
    && e.x == Cbc(E, k, ZERO, WholeBlocks(m, e.current))
  }

  lemma ChainedInRange(E: Cipher, e: Engine, k: Block, m: seq<byte>)
    requires Chained(E, e, k, m)
    ensures InRange(e, m)
  {}

  /** Whatever the engine hands out next, the cipher's answer keeps it chained or completes the tag
      over the blocks that the 8-bit count covers. */
  lemma ChainedStep(E: Cipher, e: Engine, k: Block, m: seq<byte>)
    requires Chained(E, e, k, m)
    ensures InRange(e, m) && Ready(e, m).1.Some?
    ensures var (e1, y) := Ready(e, m); var (e2, hash) := Result(e1, E(k, y.value));
            if e.state.CalcMi? then hash.None? && Chained(E, e2, k, m) && e2.current == e.current + 1
            else hash == Some(Rfc.Tag(E, k, m, Count8(|m|))) && e2.state.Idle?
  {
    hide Rfc.LastBlock, Xor, Count8, Cbc;
    if e.state.CalcMi? {
      CbcNext(E, k, ZERO, m, e.current);
    } else {
      assert e.current == e.count - 1;
    }
  }

  /** From the first cipher call the engine is chained with nothing absorbed. */
  lemma FirstStep(E: Cipher, e: Engine, k: Block, m: seq<byte>)
    ensures var (e1, y) := Ready(Start(e, k, |m|), m);
            y == Some(ZERO) && e1.k == k
            && var (e2, hash) := Result(e1, E(k, ZERO)); hash.None? && Chained(E, e2, k, m) && e2.current == 0
  {
    assert WholeBlocks(m, 0) == [];
  }

  /** The engine run on its own from CMAC_CALC_*, the cipher answering every call. */
  function Finish(E: Cipher, e: Engine, m: seq<byte>): Block
    requires Chained(E, e, e.k, m)
    decreases e.count - e.current
  {
    ChainedStep(E, e, e.k, m);
    var (e1, y) := Ready(e, m);
    var (e2, hash) := Result(e1, E(e.k, y.value));
    match hash
    case Some(tag) => tag
    case None => Finish(E, e2, m)
  }

  lemma {:induction false} FinishIsTag(E: Cipher, e: Engine, m: seq<byte>)
    requires Chained(E, e, e.k, m)
    ensures Finish(E, e, m) == Rfc.Tag(E, e.k, m, Count8(|m|))
    decreases e.count - e.current
  {
    ChainedStep(E, e, e.k, m);
    var (e1, y) := Ready(e, m);
    var (e2, hash) := Result(e1, E(e.k, y.value));
    if hash.None? {
      FinishIsTag(E, e2, m);
    }
  }

  /** A whole request on an engine in any state: start, then one cipher call at a time. */
  function Run(E: Cipher, e: Engine, k: Block, m: seq<byte>): Block {
    FirstStep(E, e, k, m);
    var (e1, y) := Ready(Start(e, k, |m|), m);
    Finish(E, Result(e1, E(k, y.value)).0, m)
  }

  /** For every size, the tag over as many blocks as the 8-bit count says. */
  lemma RunIsTag(E: Cipher, e: Engine, k: Block, m: seq<byte>)
    ensures Run(E, e, k, m) == Rfc.Tag(E, k, m, Count8(|m|))
  {
    FirstStep(E, e, k, m);
    var (e1, y) := Ready(Start(e, k, |m|), m);
    FinishIsTag(E, Result(e1, E(k, y.value)).0, m);
  }

  lemma RunIsCmac(E: Cipher, e: Engine, k: Block, m: seq<byte>)
    requires |m| <= 4080
    ensures Run(E, e, k, m) == Rfc.Cmac(E, k, m)
  {
    hide Run, Rfc.Tag, Count8, Rfc.BlockCount;
    RunIsTag(E, e, k, m);
    CountExact(|m|);
  }

  /** The same engine as the program keeps it: statics updated in place, message octets read one by one. */
  class CmacEngine {
    var state: State
    var k: Block
    var x: Block
    var subkey: Block
    var blockCurrent: nat
    var blockCount: nat

    function View(): Engine
      reads this
    {
      Engine(state, k, x, subkey, blockCurrent, blockCount)
    }

    constructor ()
      ensures View() == IDLE
    {
      state, k, x, subkey := Idle, ZERO, ZERO, ZERO;
      blockCurrent, blockCount := 0, 1;
    }

    method HandleAesEngineReady(source: Source, size: nat) returns (block: Option<Block>)
      requires size < 0x10000 && Readable(source, size) && InRange(View(), Contents(source, size))
      modifies this
      ensures (View(), block) == Ready(old(View()), Contents(source, size))
    {
      hide Rfc.LastBlock;
      block := None;
      match state
      case CalcSubkeys =>
        state := W4Subkeys;
        block := Some(ZERO);
      case CalcMi =>
        var y := XorMessageBlock(x, source, blockCurrent, size);
        blockCurrent := (blockCurrent + 1) % 0x100;
        state := W4Mi;
        block := Some(y[..]);
      case CalcMlast =>
        var l := new byte[16](_ => 0);
        Store(l, subkey);
        var last := SetLastBlock(l, source, size);
        blockCurrent := (blockCurrent + 1) % 0x100;
        state := W4Mlast;
        block := Some(Xor(x, last[..]));
      case _ =>
    }

    method HandleEncryptionResult(data: Block) returns (hash: Option<Block>)
      modifies this
      ensures (View(), hash) == Result(old(View()), data)
    {
      hash := None;
      match state
      case W4Subkeys =>
        subkey := data;
        state := if blockCurrent < blockCount - 1 then CalcMi else CalcMlast;
      case W4Mi =>
        x := data;
        state := if blockCurrent < blockCount - 1 then CalcMi else CalcMlast;
      case W4Mlast =>
        state := Idle;
        hash := Some(data);
      case _ =>
    }

    /** A request from its start to its hash, the cipher answering every call. */
    method Hash(E: Cipher, key: Block, source: Source, size: nat) returns (hash: Block)
      requires size < 0x10000 && Readable(source, size)
      modifies this
      ensures hash == Rfc.Tag(E, key, Contents(source, size), Count8(size))
      ensures size <= 4080 ==> hash == Rfc.Cmac(E, key, Contents(source, size))
      ensures state.Idle?
    {
      hide Rfc.Tag, Rfc.LastBlock, Xor, Cbc, WholeBlocks, Contents, Result, Count8;
      ghost var m := Contents(source, size);
      FirstStep(E, View(), key, m);
      CmacStart(key, size);
      var block := HandleAesEngineReady(source, size);
      var answer := HandleEncryptionResult(E(k, block.value));
      while answer.None?
        invariant answer.Some? ==> state.Idle?
        invariant answer.None? ==> Chained(E, View(), key, m)
        invariant answer.Some? ==> answer == Some(Rfc.Tag(E, key, m, Count8(size)))
        decreases answer.None?, blockCount - blockCurrent
      {
        ChainedStep(E, View(), key, m);
        block := HandleAesEngineReady(source, size);
        answer := HandleEncryptionResult(E(k, block.value));
      }
      hash := answer.value;
      CountExact(size);
    }

    /** btstack_crypto_cmac_start, up to its first call of the cipher. */
    method CmacStart(key: Block, size: nat)
      modifies this
      ensures View() == Start(old(View()), key, size)
    {
      k, x := key, ZERO;
      blockCurrent := 0;
      blockCount := (size + 15) / 16 % 0x100;
      if blockCount == 0 {
        blockCount := 1;
      }
      state := CalcSubkeys;
    }
  }

  // Where the 8-bit block count is wrong.

  function Plain(k: Block, b: Block): Block { b }

  /** n octets, all zero but the one at pos. */
  function Spike(n: nat, pos: nat): (m: seq<byte>)
    requires pos < n
    ensures |m| == n
    ensures forall i :: 0 <= i < n ==> m[i] == if i == pos then 1 else 0
  {
    Zeros(n)[pos := 1]
  }

  lemma SpikeBlock(n: nat, b: nat, j: nat)
    requires 16 * j + 16 <= n && 16 * b + 16 <= n
    ensures Spike(n, 16 * b)[16 * j..16 * j + 16] == if j == b then ZERO[0 := 1] else ZERO
  {}

  lemma XorZero(a: Block)
    ensures Xor(a, ZERO) == a && Xor(ZERO, a) == a
  {
    XorZeros(a);
    assert ZERO == Zeros(16);
  }

  function SpikeSum(b: nat, j: nat): Block {
    if j <= b then ZERO else ZERO[0 := 1]
  }

  lemma SpikeStep(n: nat, b: nat, j: nat)
    requires 16 * j + 16 <= n && 16 * b + 16 <= n
    ensures Plain(ZERO, Xor(SpikeSum(b, j), Spike(n, 16 * b)[16 * j..16 * j + 16])) == SpikeSum(b, j + 1)
  {
    SpikeBlock(n, b, j);
    XorZero(ZERO);
    XorZero(ZERO[0 := 1]);
  }

  lemma {:induction false} SpikeChain(n: nat, b: nat, j: nat)
    requires 16 * j <= n && 16 * b + 16 <= n
    ensures Cbc(Plain, ZERO, ZERO, WholeBlocks(Spike(n, 16 * b), j)) == SpikeSum(b, j)
  {
    if j == 0 {
      assert WholeBlocks(Spike(n, 16 * b), 0) == [];
    } else {
      hide *;
      SpikeChain(n, b, j - 1);
      CbcNext(Plain, ZERO, ZERO, Spike(n, 16 * b), j - 1);
      SpikeStep(n, b, j - 1);
    }
  }

  lemma XorInjective(a: Block, b: Block, c: Block)
    requires Xor(a, c) == Xor(b, c)
    ensures a == b
  {
    XorTwice(a, c);
    XorTwice(b, c);
  }

  /** Every longer message size has a cipher, key and message that the engine gets wrong. */
  lemma TooLong(size: nat, e: Engine)
    requires 4080 < size < 0x10000
    ensures var m := Spike(size, 16 * (Count8(size) - 1)); Run(Plain, e, ZERO, m) != Rfc.Cmac(Plain, ZERO, m)
  {
    hide Run, Rfc.LastBlock, Spike, Xor, Count8, Rfc.BlockCount, Cbc;
    var n, c := Rfc.BlockCount(size), Count8(size);
    var m := Spike(size, 16 * (c - 1));
    CountExact(size);
    RunIsTag(Plain, e, ZERO, m);
    SpikeChain(size, c - 1, c - 1);
    SpikeChain(size, c - 1, n - 1);
    var last := Rfc.LastBlock(ZERO, m);
    assert Run(Plain, e, ZERO, m) == Xor(ZERO, last);
    assert Rfc.Cmac(Plain, ZERO, m) == Xor(ZERO[0 := 1], last);
    assert ZERO[0] != ZERO[0 := 1][0];
    if Xor(ZERO, last) == Xor(ZERO[0 := 1], last) {
      XorInjective(ZERO, ZERO[0 := 1], last);
    }
  }

  /** The engine computes AES-CMAC, whatever the cipher, the key and the message of that size,
      exactly up to 4080 octets. */
  lemma ExactlyUpTo4080(size: nat, e: Engine)
    requires size < 0x10000
    ensures (forall E: Cipher, k: Block, m: seq<byte> | |m| == size :: Run(E, e, k, m) == Rfc.Cmac(E, k, m))
       <==> size <= 4080
  {
    hide *;
    if size <= 4080 {
      forall E: Cipher, k: Block, m: seq<byte> | |m| == size
        ensures Run(E, e, k, m) == Rfc.Cmac(E, k, m)
      {
        RunIsCmac(E, e, k, m);
      }
    } else {
      TooLong(size, e);
    }
  }
}
