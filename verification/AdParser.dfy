/** The advertising data iterator of ad_parser.c, with its 8-bit offsets and indices, and the layout of
    advertising data: Bluetooth Core Specification, Vol 3, Part C, section 11. */
module AdParser {
  import opened Bytes

  /** One AD structure: its type and at most 254 octets of data. */
  datatype Ad = Ad(kind: byte, data: seq<byte>)

  type AdStructure = s: Ad | |s.data| <= 254 witness Ad(0, [])

  function Serialize(s: AdStructure): seq<byte> {
    [(1 + |s.data|) as byte, s.kind] + s.data
  }

  function SerializeAll(list: seq<AdStructure>): seq<byte> {
    if list == [] then [] else Serialize(list[0]) + SerializeAll(list[1..])
  }

  // What the data means: the structures up to the first length that is zero or does not fit.

  predicate Whole(data: seq<byte>) {
    |data| >= 2 && data[0] > 0 && 1 + data[0] as nat <= |data|
  }

  /** Octets of the structure at the front. */
  function Size(data: seq<byte>): (n: nat)
    requires Whole(data)
    ensures 2 <= n <= |data|
  {
    1 + data[0] as nat
  }

  function First(data: seq<byte>): AdStructure
    requires Whole(data)
  {
    Ad(data[1], data[2..Size(data)])
  }

  function Parse(data: seq<byte>): seq<AdStructure>
    decreases |data|
  {
    if Whole(data) then [First(data)] + Parse(data[Size(data)..]) else []
  }

  lemma SerializedFirst(s: AdStructure, rest: seq<byte>)
    ensures var d := Serialize(s) + rest;
            Whole(d) && First(d) == s && d[Size(d)..] == rest
  {}

  /** Parsing a serialized list, with or without zero padding after it, returns the list. */
  lemma {:induction false} RoundTrip(list: seq<AdStructure>, padding: nat)
    ensures Parse(SerializeAll(list) + Zeros(padding)) == list
    decreases |list|
  {
    var d := SerializeAll(list) + Zeros(padding);
    if list == [] {
      assert d == Zeros(padding);
    } else {
      var rest := SerializeAll(list[1..]) + Zeros(padding);
      RoundTrip(list[1..], padding);
      hide SerializeAll, Serialize, Parse;
      assert SerializeAll(list) == Serialize(list[0]) + SerializeAll(list[1..]);
      Regroup(Serialize(list[0]), SerializeAll(list[1..]), Zeros(padding));
      SerializedFirst(list[0], rest);
      ParseMore(d);
      assert [list[0]] + list[1..] == list;
    }
  }

  lemma ParseMore(data: seq<byte>)
    ensures Whole(data) ==> Parse(data) == [First(data)] + Parse(data[Size(data)..])
    ensures Whole(data) <==> Parse(data) != []
  {}

  lemma FirstSerialized(data: seq<byte>)
    requires Whole(data)
    ensures Serialize(First(data)) == data[..Size(data)]
  {}

  /** And the other way: the structures found are laid out at the front of the data, and what follows
      them is no whole structure. */
  lemma {:induction false} ParsedPrefix(data: seq<byte>)
    ensures SerializeAll(Parse(data)) <= data && !Whole(data[|SerializeAll(Parse(data))|..])
    decreases |data|
  {
    if Whole(data) {
      var n := Size(data);
      var rest := data[n..];
      ParsedPrefix(rest);
      FirstSerialized(data);
      var tail := SerializeAll(Parse(rest));
      assert Parse(data)[1..] == Parse(rest);
      assert SerializeAll(Parse(data)) == data[..n] + tail;
      assert data == data[..n] + rest;
      assert data[n + |tail|..] == rest[|tail|..];
    }
  }

  // The iterator.

  function U8(n: int): nat { n % 0x100 }

  lemma NoWrap(n: nat)
    requires n < 0x100
    ensures U8(n) == n
  {}

  /** ad_context_t. */
  class AdIterator {
    var data: seq<byte>
    var offset: nat
    var length: nat

    predicate Valid()
      reads this
    {
      offset <= length <= 255 && length <= |data|
    }

    /** What is still to be read. */
    function Rest(): seq<byte>
      requires Valid()
      reads this
    {
      data[offset..length]
    }

    constructor (adLen: byte, adData: seq<byte>)
      requires adLen <= |adData|
      ensures Valid() && Rest() == adData[..adLen]
    {
      data, length, offset := adData, adLen, 0;
    }

    predicate HasMore()
      requires Valid()
      reads this
    {
      offset + 1 < length && data[offset] != 0 && offset + 1 + data[offset] as nat <= length
    }

    function DataLen(): (n: nat)
      requires Valid() && HasMore()
      reads this
    {
      U8(data[offset] as int - 1)
    }

    function DataType(): byte
      requires Valid() && HasMore()
      reads this
    {
      data[offset + 1]
    }

    function Data(): seq<byte>
      requires Valid() && HasMore()
      reads this
    {
      data[offset + 2..]
    }

    /** The 8-bit offset never wraps: it moves on by the whole structure. */
    method Next()
      requires Valid() && HasMore()
      modifies `offset
      ensures Valid() && old(offset) < offset
      ensures Parse(old(Rest())) == [First(old(Rest()))] + Parse(Rest())
    {
      var chunkLen: nat := data[offset];
      ghost var was := Rest();
      assert was[0] == data[offset] && Whole(was) && Size(was) == 1 + chunkLen;
      assert was[Size(was)..] == data[offset + 1 + chunkLen..length];
      ParseMore(was);
      NoWrap(offset + 1 + chunkLen);
      hide Parse, First, U8;
      offset := U8(offset + 1 + chunkLen);
    }

    /** has_more is exactly whether a structure is left, and the accessors return the first one. */
    lemma Accessors()
      requires Valid()
      ensures HasMore() <==> Parse(Rest()) != []
      ensures HasMore() ==>
                && DataLen() <= 253 && DataLen() <= |Data()|
                && Parse(Rest())[0] == Ad(DataType(), Data()[..DataLen()])
    {
      var rest := Rest();
      ParseMore(rest);
      hide Parse;
      if offset < length {
        assert rest[0] == data[offset];
      }
      if HasMore() {
        NoWrap(data[offset] as nat - 1);
        SameData(data, offset, length, data[offset] as nat - 1);
        assert DataType() == rest[1] && DataLen() == Size(rest) - 2;
        hide U8;
      }
    }
  }

  lemma SameData(data: seq<byte>, offset: nat, length: nat, n: nat)
    requires offset + 2 + n <= length <= |data|
    ensures data[offset + 2..][..n] == data[offset..length][2..2 + n]
  {
    var a, b := data[offset + 2..][..n], data[offset..length][2..2 + n];
    forall i | 0 <= i < n
      ensures a[i] == b[i]
    {
      assert a[i] == data[offset + 2..][i];
      assert b[i] == data[offset..length][2 + i];
    }
  }

  /** init, has_more, the accessors, next: the loop of every client finds the structures of the data. */
  method Iterate(adLen: byte, adData: seq<byte>) returns (list: seq<AdStructure>)
    requires adLen <= |adData|
    ensures list == Parse(adData[..adLen])
  {
    var context := new AdIterator(adLen, adData);
    list := [];
    assert [] + Parse(context.Rest()) == Parse(context.Rest());
    while context.HasMore()
      invariant context.Valid() && fresh(context)
      invariant list + Parse(context.Rest()) == Parse(adData[..adLen])
      decreases context.length - context.offset
    {
      context.Accessors();
      ghost var found := list;
      var s: AdStructure := Ad(context.DataType(), context.Data()[..context.DataLen()]);
      hide Parse, First;
      context.Next();
      list := list + [s];
      RegroupAds(found, [s], Parse(context.Rest()));
    }
    context.Accessors();
    assert list + [] == list;
  }

  lemma RegroupAds(s: seq<AdStructure>, t: seq<AdStructure>, u: seq<AdStructure>)
    ensures (s + t) + u == s + (t + u)
  {}

  // The search for a 16-bit UUID.

  /** The 128-bit form of a 16-bit UUID, least significant octet first. */
  function Expanded(uuid: nat): (r: Block)
    requires uuid < 0x10000
  {
    Flip([0, 0, uuid / 0x100, uuid % 0x100, 0, 0, 0x10, 0, 0x80, 0, 0, 0x80, 0x5F, 0x9B, 0x34, 0xFB])
  }

  ghost predicate Lists16(data: seq<byte>, uuid: nat) {
    exists j: nat :: ShortAt(data, j, uuid)
  }

  function LittleEndian16(data: seq<byte>, i: nat): nat
    requires i + 2 <= |data|
  {
    data[i] as nat + 0x100 * data[i + 1] as nat
  }

  predicate ShortAt(data: seq<byte>, j: nat, uuid: nat) {
    2 * j + 2 <= |data| && LittleEndian16(data, 2 * j) == uuid
  }

  ghost predicate Lists128(data: seq<byte>, uuid: nat)
    requires uuid < 0x10000
  {
    exists j: nat :: LongAt(data, j, uuid)
  }

  predicate LongAt(data: seq<byte>, j: nat, uuid: nat)
    requires uuid < 0x10000
  {
    16 * j + 16 <= |data| && data[16 * j..16 * j + 16] == Expanded(uuid)
  }

  /** The structure lists the UUID: types 2 and 3 in 16 bits, types 6 and 7 in 128. */
  ghost predicate Holds(s: AdStructure, uuid: nat)
    requires uuid < 0x10000
  {
    if s.kind == 2 || s.kind == 3 then Lists16(s.data, uuid)
    else (s.kind == 6 || s.kind == 7) && Lists128(s.data, uuid)
  }

  ghost predicate AnyHolds(list: seq<AdStructure>, uuid: nat)
    requires uuid < 0x10000
  {
    exists k :: 0 <= k < |list| && Holds(list[k], uuid)
  }

  method Search16(data: seq<byte>, dataLen: nat, uuid: nat) returns (found: bool)
    requires dataLen <= 253 && dataLen <= |data| && uuid < 0x10000
    ensures found <==> Lists16(data[..dataLen], uuid)
  {
    var i: nat := 0;
    ghost var j: nat := 0;
    while i + 2 <= dataLen
      invariant i == 2 * j && i <= dataLen
      invariant forall k: nat :: k < j ==> !ShortAt(data[..dataLen], k, uuid)
      decreases dataLen - i
    {
      if LittleEndian16(data, i) == uuid {
        assert ShortAt(data[..dataLen], j, uuid);
        return true;
      }
      i := U8(i + 2);
      j := j + 1;
    }
    return false;
  }

  lemma SameSlice(data: seq<byte>, n: nat, i: nat)
    requires i + 16 <= n <= |data|
    ensures data[i..i + 16] == data[..n][i..i + 16]
  {}

  method Search128(data: seq<byte>, dataLen: nat, uuid: nat) returns (found: bool)
    requires dataLen <= 253 && dataLen <= |data| && uuid < 0x10000
    ensures found <==> Lists128(data[..dataLen], uuid)
  {
    var le := Expanded(uuid);
    var i: nat := 0;
    ghost var j: nat := 0;
    hide Expanded;
    while i + 16 <= dataLen
      invariant i == 16 * j && i <= dataLen
      invariant forall k: nat :: k < j ==> !LongAt(data[..dataLen], k, uuid)
      decreases dataLen - i
    {
      SameSlice(data, dataLen, i);
      if le == data[i..i + 16] {
        assert LongAt(data[..dataLen], j, uuid);
        return true;
      }
      i := U8(i + 16);
      j := j + 1;
    }
    return false;
  }

  /** ad_data_contains_uuid16: true exactly when a structure before the first malformed or zero length
      holds the UUID. */
  method ContainsUuid16(adLen: byte, adData: seq<byte>, uuid: nat) returns (found: bool)
    requires adLen <= |adData| && uuid < 0x10000
    ensures found <==> AnyHolds(Parse(adData[..adLen]), uuid)
  {
    var context := new AdIterator(adLen, adData);
    ghost var all := Parse(adData[..adLen]);
    ghost var seen := 0;
    while context.HasMore()
      invariant context.Valid() && fresh(context)
      invariant 0 <= seen <= |all| && all[seen..] == Parse(context.Rest())
      invariant forall k :: 0 <= k < seen ==> !Holds(all[k], uuid)
      decreases context.length - context.offset
    {
      context.Accessors();
      var dataType, dataLen, data := context.DataType(), context.DataLen(), context.Data();
      hide Parse, Lists16, Lists128, First;
      ghost var rest := all[seen..];
      assert rest == Parse(context.Rest()) && rest != [] && seen < |all|;
      assert all[seen] == rest[0];
      found := false;
      if dataType == 2 || dataType == 3 {
        found := Search16(data, dataLen, uuid);
      } else if dataType == 6 || dataType == 7 {
        found := Search128(data, dataLen, uuid);
      }
      if found {
        return;
      }
      context.Next();
      assert all[seen + 1..] == all[seen..][1..];
      seen := seen + 1;
    }
    context.Accessors();
    return false;
  }
}
