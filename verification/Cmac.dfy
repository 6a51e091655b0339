/** The two AES-CMAC implementations of btstack_crypto.c: the straight-line one, and the machine
    that gives up the processor at every block and is resumed with the cipher's answer. */
module Cmac {
  import opened Bytes
  import opened Options
  import Rfc = Rfc4493

  /** Where the message comes from: a buffer, or a callback asked for one position at a time. */
  datatype Source = Message(message: seq<byte>) | Generator(getByte: nat -> byte)

  predicate Readable(source: Source, size: nat) {
    source.Message? ==> size <= |source.message|
  }

  function GetByte(source: Source, pos: nat): byte
    requires Readable(source, pos + 1)
  {
    match source
    case Message(message) => message[pos]
    case Generator(getByte) => getByte(pos)
  }

  /** The size octets that the source yields. */
  function Contents(source: Source, size: nat): (m: seq<byte>)
    requires Readable(source, size)
    ensures |m| == size
    ensures forall i :: 0 <= i < size ==> m[i] == GetByte(source, i)
  {
    seq(size, i requires 0 <= i < size => GetByte(source, i))
  }

  method ShiftLeftByOneBitInPlace(data: array<byte>)
    modifies data
    ensures data[..] == Rfc.ShiftLeft(old(data[..]))
  {
    ghost var was, goal := data[..], Rfc.ShiftLeft(data[..]);
    var i := data.Length - 1;
    var carry: nat := 0;
    while i >= 0
      invariant -1 <= i < data.Length
      invariant carry == Rfc.Carry(was[i + 1..])
      invariant forall j :: 0 <= j <= i ==> data[j] == was[j]
      invariant forall j :: i < j < data.Length ==> data[j] == goal[j]
    {
      hide *;
      Rfc.ShiftLeftAt(was, i);
      var newCarry := data[i] / 128;
      data[i] := Rfc.ShiftedOctet(data[i], carry);
      carry := newCarry;
      i := i - 1;
    }
  }

  /** K1 from L, or K2 from K1: a copy shifted, with 0x87 folded in when a bit fell out. */
  method NextSubkey(l: array<byte>) returns (k: array<byte>)
    requires l.Length == 16
    ensures fresh(k) && k.Length == 16
    ensures k[..] == Rfc.Subkey(l[..])
  {
    k := new byte[16](i requires 0 <= i < 16 reads l => l[i]);
    assert k[..] == l[..];
    ShiftLeftByOneBitInPlace(k);
    if l[0] >= 0x80 {
      k[15] := XorByte(k[15], 0x87);
      XorZeroTail(Rfc.ShiftLeft(l[..]));
    }
  }

  lemma XorZeroTail(b: Block)
    ensures Xor(b, Rfc.RB) == b[15 := XorByte(b[15], 0x87)]
  {
    XorAt(b, Rfc.RB);
    forall i | 0 <= i < 15
      ensures Xor(b, Rfc.RB)[i] == b[i]
    {
      XorBitsZero(b[i]);
    }
  }

  method MaskWholeBlock(k: array<byte>, source: Source, start: nat, ghost size: nat) returns (last: array<byte>)
    requires k.Length == 16 && start + 16 == size && Readable(source, size)
    ensures fresh(last) && last.Length == 16
    ensures last[..] == Xor(Contents(source, size)[start..], k[..])
  {
    last := new byte[16](_ => 0);
    for i := 0 to 16
      invariant forall j :: 0 <= j < i ==> last[j] == XorByte(GetByte(source, start + j), k[j])
    {
      last[i] := XorByte(GetByte(source, start + i), k[i]);
    }
    XorAt(Contents(source, size)[start..], k[..]);
  }

  method MaskPaddedBlock(k: array<byte>, source: Source, start: nat, size: nat) returns (last: array<byte>)
    requires k.Length == 16 && start <= size < start + 16 && Readable(source, size)
    ensures fresh(last) && last.Length == 16
    ensures last[..] == Xor(ZeroPad(Contents(source, size)[start..] + [0x80]), k[..])
  {
    var validOctets := size - start;
    ghost var tail := Contents(source, size)[start..];
    ghost var padded := ZeroPad(tail + [0x80]);
    PaddedOctets(tail);
    last := new byte[16](_ => 0);
    for i := 0 to 16
      invariant forall j :: 0 <= j < i ==> last[j] == XorByte(padded[j], k[j])
    {
      XorBitsZero(k[i]);
      if i < validOctets {
        last[i] := XorByte(GetByte(source, start + i), k[i]);
      } else if i == validOctets {
        last[i] := XorByte(0x80, k[i]);
      } else {
        last[i] := k[i];
      }
    }
    XorAt(padded, k[..]);
  }

  lemma PaddedOctets(tail: seq<byte>)
    requires |tail| < 16
    ensures forall j :: 0 <= j < 16 ==>
              ZeroPad(tail + [0x80])[j] == if j < |tail| then tail[j] else if j == |tail| then 0x80 else 0
  {
    var p := ZeroPad(tail + [0x80]);
    assert forall j :: 0 <= j <= |tail| ==> p[j] == (tail + [0x80])[j];
  }

  /** Step 4 of section 2.4: the last block, masked with K1 when whole, else padded and masked with K2. */
  method SetLastBlock(l: array<byte>, source: Source, size: nat) returns (last: array<byte>)
    requires l.Length == 16 && size < 0x10000 && Readable(source, size)
    ensures fresh(last) && last.Length == 16
    ensures last[..] == Rfc.LastBlock(l[..], Contents(source, size))
  {
    hide *;
    Rfc.LastBlockByLength(l[..], Contents(source, size));
    var k1 := NextSubkey(l);
    if size != 0 && size % 16 == 0 {
      last := MaskWholeBlock(k1, source, size - 16, size);
    } else {
      var k2 := NextSubkey(k1);
      last := MaskPaddedBlock(k2, source, size - size % 16, size);
    }
  }

  method XorMessageBlock(x: seq<byte>, source: Source, block: nat, ghost size: nat) returns (y: array<byte>)
    requires |x| == 16 && 16 * block + 16 <= size && Readable(source, size)
    ensures fresh(y) && y.Length == 16
    ensures y[..] == Xor(x, Contents(source, size)[16 * block..16 * block + 16])
  {
    y := new byte[16](_ => 0);
    for i := 0 to 16
      invariant forall j :: 0 <= j < i ==> y[j] == XorByte(x[j], GetByte(source, 16 * block + j))
    {
      y[i] := XorByte(x[i], GetByte(source, 16 * block + i));
    }
    XorAt(x, Contents(source, size)[16 * block..16 * block + 16]);
  }

  /** Steps 5 and 6 over the first n blocks. */
  method Chain(E: Cipher, key: Block, source: Source, n: nat, ghost size: nat) returns (x: Block)
    requires 16 * n <= size && Readable(source, size)
    ensures x == Cbc(E, key, ZERO, WholeBlocks(Contents(source, size), n))
  {
    ghost var m := Contents(source, size);
    x := ZERO;
    for block := 0 to n
      invariant x == Cbc(E, key, ZERO, WholeBlocks(m, block))
    {
      var y := XorMessageBlock(x, source, block, size);
      CbcNext(E, key, ZERO, m, block);
      x := E(key, y[..]);
    }
  }

  /** btstack_crypto_cmac_calc: the whole computation in one go. */
  method Calc(E: Cipher, key: Block, source: Source, size: nat, hash: array<byte>)
    requires size < 0x10000 && Readable(source, size) && hash.Length == 16
    modifies hash
    ensures hash[..] == Rfc.Cmac(E, key, Contents(source, size))
  {
    hide Rfc.LastBlock;
    var k0 := new byte[16](_ => 0);
    Store(k0, E(key, ZERO));
    var blockCount := (size + 15) / 16 % 0x10000;
    if blockCount == 0 {
      blockCount := 1;
    }
    var x := Chain(E, key, source, blockCount - 1, size);
    var last := SetLastBlock(k0, source, size);
    Store(hash, E(key, Xor(x, last[..])));
  }

  method Store(a: array<byte>, b: Block)
    requires a.Length == 16
    modifies a
    ensures a[..] == b
  {
    for i := 0 to 16
      invariant a[..i] == b[..i]
    {
      a[i] := b[i];
    }
  }
}
