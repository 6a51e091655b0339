/** The CCM request as the program keeps it: fields and buffers updated in place, octet by octet. */
module CcmRequest {
  import opened Bytes
  import opened Ccm
  import Rfc = Rfc3610

  class RequestRecord {
    var operation: Operation
    var state: State
    var key: Block
    var nonce: Rfc.Nonce
    var mem: array<byte>
    var input: nat
    var output: nat
    const xi: array<byte>
    var aadOffset: nat
    var aadLen: nat
    var messageLen: nat
    var counter: nat
    var blockLen: nat
    var authLen: nat
    var aadRemainderLen: nat

    ghost predicate Valid()
      reads this
    {
      xi.Length == 16 && mem != xi
    }

    function View(): Request
      requires xi.Length == 16
      reads this, xi, mem
    {
      Request(operation, state, key, nonce, mem[..], input, output, xi[..], aadOffset, aadLen, messageLen,
              counter, blockLen, authLen, aadRemainderLen)
    }

    constructor (buffer: array<byte>)
      ensures Valid() && fresh(xi) && mem == buffer
    {
      operation, state, key, nonce := Digest, CalcX1, ZERO, [0, 0, 0, 0, 0, 0, 0, 0, 0, 0, 0, 0, 0];
      mem, input, output := buffer, 0, 0;
      xi := new byte[16](_ => 0);
      aadOffset, aadLen, messageLen, counter, blockLen, authLen, aadRemainderLen := 0, 0, 0, 0, 0, 0, 0;
    }

    method Store(b: Block)
      requires Valid()
      modifies xi
      ensures xi[..] == b
    {
      for i := 0 to 16
        invariant xi[..i] == b[..i]
      {
        xi[i] := b[i];
      }
    }

    /** xi[pos..] ^= mem[from..], n octets. */
    method Combine(pos: nat, from: nat, n: nat)
      requires Valid() && pos + n <= 16 && from + n <= mem.Length
      modifies xi
      ensures xi[..] == XorInto(old(xi[..]), pos, mem[from..from + n])
    {
      ghost var was, d := xi[..], mem[from..from + n];
      XorIntoAt(was, pos, d);
      hide *;
      for i := 0 to n
        invariant forall k :: 0 <= k < 16 ==>
                    xi[k] == if pos <= k < pos + i then XorByte(was[k], d[k - pos]) else was[k]
      {
        xi[pos + i] := XorByte(xi[pos + i], mem[from + i]);
      }
    }

    // btstack_crypto_ccm_calc_*

    method StoreLength()
      requires Valid() && aadLen < 0x10000
      modifies this, xi
      ensures Valid() && mem == old(mem) && View() == AadHeader(old(View()))
    {
      if aadOffset == 0 {
        var lenBuffer := Rfc.BigEndian16(aadLen);
        XorIntoAt(xi[..], 0, lenBuffer);
        ghost var goal := XorInto(xi[..], 0, lenBuffer);
        hide XorInto;
        xi[0] := XorByte(xi[0], lenBuffer[0]);
        xi[1] := XorByte(xi[1], lenBuffer[1]);
        assert xi[..] == goal;
        aadRemainderLen := aadRemainderLen + 2;
        aadOffset := 2;
      }
    }

    method FillFromInput()
      requires Valid() && aadRemainderLen <= 16 && input + blockLen <= mem.Length
      modifies this, xi
      ensures Valid() && mem == old(mem) && View() == AadFill(old(View()))
    {
      hide XorInto;
      var bytesToCopy := Min(16 - aadRemainderLen, blockLen);
      Combine(aadRemainderLen, input, bytesToCopy);
      aadRemainderLen := aadRemainderLen + bytesToCopy;
      input := input + bytesToCopy;
      aadOffset := U16(aadOffset + bytesToCopy);
      blockLen := blockLen - bytesToCopy;
    }

    method CalcAadPass() returns (action: Action)
      requires Valid() && Ok(View()) && state.CalcAadXn?
      modifies this, xi
      ensures Valid() && mem == old(mem)
      ensures (View(), action) == CalcAad(old(View()))
    {
      StoreLength();
      assert aadRemainderLen <= 16 && input + blockLen <= mem.Length;
      hide AadHeader, AadFill, Ok;
      FillFromInput();
      var filled := if aadOffset == aadLen + 2 then 16 else aadRemainderLen;
      if filled < 16 {
        action := Complete;
      } else {
        aadRemainderLen := 0;
        state := W4AadXn;
        action := Send(xi[..]);
      }
    }

    /** The first n octets of xi combined with the plaintext, the rest of it copied. */
    method XoredBlock(plaintext: nat, n: nat) returns (buffer: Block)
      requires Valid() && n <= 16 && plaintext + n <= mem.Length
      ensures buffer == XorInto(xi[..], 0, mem[plaintext..plaintext + n])
    {
      ghost var goal := XorInto(xi[..], 0, mem[plaintext..plaintext + n]);
      XorIntoAt(xi[..], 0, mem[plaintext..plaintext + n]);
      hide *;
      var octets := new byte[16](_ => 0);
      for i := 0 to n
        invariant forall k :: 0 <= k < i ==> octets[k] == goal[k]
      {
        octets[i] := XorByte(xi[i], mem[plaintext + i]);
      }
      for i := n to 16
        invariant forall k :: 0 <= k < i ==> octets[k] == goal[k]
      {
        octets[i] := xi[i];
      }
      buffer := octets[..];
    }

    method CalcMessagePass() returns (action: Action)
      requires Valid() && Ok(View()) && state.CalcXn?
      modifies this
      ensures Valid() && mem == old(mem)
      ensures (View(), action) == Ccm.Calc(old(View()))
    {
      hide XorInto;
      var plaintext := if operation.Encrypt? then input else output;
      state := W4Xn;
      var bytesToDecrypt := if blockLen > 16 then 16 else blockLen;
      var buffer := XoredBlock(plaintext, bytesToDecrypt);
      action := Send(buffer);
    }

    method Calc() returns (action: Action)
      requires Valid() && Ok(View())
      modifies this, xi
      ensures Valid() && mem == old(mem)
      ensures (View(), action) == Ccm.Calc(old(View()))
    {
      match state
      case CalcAadXn =>
        action := CalcAadPass();
      case CalcX1 =>
        state := W4X1;
        action := Send(Rfc.B0(nonce, aadLen != 0, messageLen, authLen));
      case CalcS0 =>
        state := W4S0;
        action := Send(Rfc.A(nonce, 0));
      case CalcSn =>
        state := W4Sn;
        action := Send(Rfc.A(nonce, U16(counter)));
      case CalcXn =>
        action := CalcMessagePass();
      case _ =>
        action := Nothing;
    }

    // btstack_crypto_ccm_handle_*: data is the controller's, least significant octet first.

    method Advance(n: nat)
      requires Valid() && n <= blockLen
      modifies `counter, `input, `output, `blockLen
      ensures View() == old(View()).(counter := U16(old(counter) + 1), input := old(input) + n,
                                     output := old(output) + n, blockLen := old(blockLen) - n)
    {
      hide U16;
      counter := U16(counter + 1);
      input := input + n;
      output := output + n;
      blockLen := blockLen - n;
    }

    method NextBlock(whenDone: State) returns (done: bool)
      requires Valid()
      modifies this
      ensures Valid() && mem == old(mem)
      ensures (View(), done) == Ccm.NextBlock(old(View()), whenDone)
    {
      var bytesToProcess := Min(blockLen, 16);
      assert bytesToProcess <= blockLen;
      hide U16, Min;
      Advance(bytesToProcess);
      messageLen := U16(messageLen - bytesToProcess);
      if messageLen == 0 {
        state := CalcS0;
        done := false;
      } else {
        state := whenDone;
        done := blockLen == 0;
      }
    }

    /** output[i] = input[i] ^ data[15 - i], also when the two overlap the way BuffersFit allows. */
    method CombineOutput(data: Block, n: nat)
      requires Valid() && n <= 16 && input + n <= mem.Length && output + n <= mem.Length
      requires output <= input || input + n <= output
      modifies mem
      ensures mem[..] == Overwrite(old(mem[..]), output, Xor(old(mem[input..input + n]), Flip(data)[..n]))
    {
      ghost var was := mem[..];
      ghost var out := Xor(mem[input..input + n], Flip(data)[..n]);
      XorAt(mem[input..input + n], Flip(data)[..n]);
      hide *;
      for i := 0 to n
        invariant forall k :: 0 <= k < i ==> mem[output + k] == out[k]
        invariant forall k :: 0 <= k < mem.Length && !(output <= k < output + i) ==> mem[k] == was[k]
      {
        mem[output + i] := XorByte(mem[input + i], data[15 - i]);
      }
      Overwritten(was, output, out, mem[..]);
    }

    method HandleSn(data: Block) returns (done: bool)
      requires Valid() && BuffersFit(View()) && !operation.Digest?
      modifies this, mem
      ensures Valid() && mem == old(mem)
      ensures (View(), done) == Ccm.HandleSn(old(View()), Flip(data))
    {
      hide Overwrite, Xor, Flip, Ccm.NextBlock;
      var bytesToProcess := Min(blockLen, 16);
      CombineOutput(data, bytesToProcess);
      match operation
      case Decrypt =>
        state := CalcXn;
        done := false;
      case Encrypt =>
        done := NextBlock(CalcXn);
    }

    method HandleX1()
      requires Valid()
      modifies this
      ensures Valid() && mem == old(mem) && View() == Ccm.HandleX1(old(View()))
    {
      match operation
      case Digest =>
        aadRemainderLen := 0;
        state := CalcAadXn;
      case Decrypt =>
        state := CalcSn;
      case Encrypt =>
        state := CalcXn;
    }

    method HandleXn() returns (done: bool)
      requires Valid() && !operation.Digest?
      modifies this
      ensures Valid() && mem == old(mem)
      ensures (View(), done) == Ccm.HandleXn(old(View()))
    {
      match operation
      case Decrypt =>
        done := NextBlock(CalcSn);
      case Encrypt =>
        state := CalcSn;
        done := false;
    }

    method HandleS0(data: Block)
      requires Valid()
      modifies xi
      ensures xi[..] == Xor(old(xi[..]), Flip(data))
    {
      ghost var goal := Xor(xi[..], Flip(data));
      XorAt(xi[..], Flip(data));
      hide *;
      for i := 0 to 16
        invariant forall k :: 0 <= k < i ==> xi[k] == goal[k]
        invariant forall k :: i <= k < 16 ==> xi[k] == old(xi[..])[k]
      {
        xi[i] := XorByte(xi[i], data[15 - i]);
      }
    }

    /** The cipher's answer; the callback is due when done. */
    method Handle(data: Block) returns (done: bool)
      requires Valid() && Ok(View()) && mem != xi
      modifies this, xi, mem
      ensures Valid() && mem == old(mem)
      ensures (View(), done) == Ccm.Handle(old(View()), Flip(data))
    {
      hide Xor, Flip, Overwrite, Ccm.NextBlock;
      done := false;
      match state
      case W4X1 =>
        Store(Flip(data));
        HandleX1();
      case W4Xn =>
        Store(Flip(data));
        done := HandleXn();
      case W4AadXn =>
        Store(Flip(data));
        if aadOffset < aadLen + 2 {
          state := CalcAadXn;
        } else {
          done := true;
        }
      case W4S0 =>
        HandleS0(data);
        done := true;
      case W4Sn =>
        done := HandleSn(data);
      case _ =>
    }

    // The calls of the API, up to the queue.

    method Restart()
      requires Valid()
      modifies `aadOffset, `counter, `state
      ensures View() == old(View()).(aadOffset := 0, counter := 1, state := CalcX1)
    {
      aadOffset := 0;
      counter := 1;
      state := CalcX1;
    }

    method Init(key': Block, nonce': Rfc.Nonce, messageLen': nat, aadLen': nat, authLen': nat)
      requires Valid()
      modifies `key, `nonce, `messageLen, `aadLen, `authLen, `aadOffset, `counter, `state
      ensures View() == Ccm.Init(key', nonce', messageLen', aadLen', authLen', old(View()))
    {
      key, nonce, messageLen, aadLen, authLen := key', nonce', messageLen', aadLen', authLen';
      Restart();
    }

    method DigestBlock(buffer: array<byte>, pos: nat, len: nat)
      requires Valid() && buffer != xi
      modifies this
      ensures Valid() && mem == buffer
      ensures View() == Ccm.DigestBlock(old(View()), buffer[..], pos, len)
    {
      operation, mem, input, blockLen := Digest, buffer, pos, len;
    }

    method EncryptBlock(buffer: array<byte>, plaintext: nat, ciphertext: nat, len: nat)
      requires Valid() && buffer != xi
      modifies this
      ensures Valid() && mem == buffer
      ensures View() == Ccm.EncryptBlock(old(View()), buffer[..], plaintext, ciphertext, len)
    {
      operation, mem, input, output, blockLen := Encrypt, buffer, plaintext, ciphertext, len;
      if state != CalcX1 {
        state := CalcXn;
      }
    }

    method DecryptBlock(buffer: array<byte>, ciphertext: nat, plaintext: nat, len: nat)
      requires Valid() && buffer != xi
      modifies this
      ensures Valid() && mem == buffer
      ensures View() == Ccm.DecryptBlock(old(View()), buffer[..], ciphertext, plaintext, len)
    {
      operation, mem, input, output, blockLen := Decrypt, buffer, ciphertext, plaintext, len;
      if state != CalcX1 {
        state := CalcSn;
      }
    }

    /** The request served on its own: a pass, the controller's answer, and again, until the callback is
        due. The controller gets key and block octet-reversed and answers octet-reversed. */
    method Serve(E: Cipher)
      requires Valid() && Ok(View()) && !Waiting(state)
      modifies this, xi, mem
      ensures Valid() && mem == old(mem)
      ensures View() == Finish(E, old(View()))
    {
      ghost var goal := Finish(E, View());
      var done := false;
      while !done
        invariant Valid() && mem == old(mem)
        invariant if done then View() == goal
                  else Ok(View()) && !Waiting(state) && Finish(E, View()) == goal
        decreases !done, if done then 0 else Work(View())
      {
        CalcProgress(View());
        ghost var q := View();
        var action := Calc();
        hide Ok, Work, Waiting, Ccm.Calc, Ccm.Handle;
        if action.Send? {
          var answer := Controller(E, Flip(key), Flip(action.block));
          FlipTwice(key);
          FlipTwice(action.block);
          FlipTwice(E(key, action.block));
          HandleProgress(View(), E(key, action.block));
          done := Handle(answer);
        } else {
          done := true;
        }
      }
    }
  }

  /** HCI LE Encrypt: key, plaintext and result least significant octet first. */
  function Controller(E: Cipher, key: Block, plaintext: Block): Block {
    Flip(E(Flip(key), Flip(plaintext)))
  }

  lemma Overwritten(was: seq<byte>, pos: nat, s: seq<byte>, now: seq<byte>)
    requires pos + |s| <= |was| == |now|
    requires forall k :: 0 <= k < |s| ==> now[pos + k] == s[k]
    requires forall k :: 0 <= k < |was| && !(pos <= k < pos + |s|) ==> now[k] == was[k]
    ensures now == Overwrite(was, pos, s)
  {
    forall i | 0 <= i < |was|
      ensures now[i] == Overwrite(was, pos, s)[i]
    {
      if pos <= i < pos + |s| {
        assert now[pos + (i - pos)] == s[i - pos];
      }
    }
  }
}
