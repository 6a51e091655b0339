/** The base64 decoder of btstack_base64_decoder.c, and section 4 of RFC 4648. */
module Base64 {
  import opened Bytes

  // Bit strings: what the alphabet and the octets stand for.

  type Bit = b: nat | b < 2

  /** The width lowest bits of n, most significant first. */
  function Bits(n: nat, width: nat): (r: seq<Bit>)
    ensures |r| == width
  {
    if width == 0 then [] else Bits(n / 2, width - 1) + [n % 2]
  }

  function Number(bits: seq<Bit>): (n: nat)
    ensures n < Pow2(|bits|)
  {
    if bits == [] then 0 else 2 * Number(bits[..|bits| - 1]) + bits[|bits| - 1]
  }

  lemma {:induction false} BitsOfNumber(bits: seq<Bit>)
    ensures Bits(Number(bits), |bits|) == bits
  {
    if bits != [] {
      BitsOfNumber(bits[..|bits| - 1]);
    }
  }

  lemma {:induction false} NumberOfBits(n: nat, width: nat)
    requires n < Pow2(width)
    ensures Number(Bits(n, width)) == n
  {
    if width > 0 {
      NumberOfBits(n / 2, width - 1);
      assert Bits(n, width)[..width - 1] == Bits(n / 2, width - 1);
    }
  }

  /** The upper bits in front of the lower ones. */
  lemma {:induction false} BitsJoin(high: nat, low: nat, width: nat, k: nat)
    requires low < Pow2(k)
    ensures Bits(high, width) + Bits(low, k) == Bits(high * Pow2(k) + low, width + k)
    decreases k
  {
    if k == 0 {
      assert Bits(high, width) + [] == Bits(high, width);
    } else {
      var n := high * Pow2(k) + low;
      BitsJoin(high, low / 2, width, k - 1);
      assert n == 2 * (high * Pow2(k - 1) + low / 2) + low % 2;
      assert n / 2 == high * Pow2(k - 1) + low / 2 && n % 2 == low % 2;
      RegroupBits(Bits(high, width), Bits(low / 2, k - 1), [low % 2]);
    }
  }

  lemma RegroupBits(s: seq<Bit>, t: seq<Bit>, u: seq<Bit>)
    ensures (s + t) + u == s + (t + u)
  {}

  /** The whole octets of a bit string; what is left over is dropped. */
  function FromBits(bits: seq<Bit>): (r: seq<byte>)
    ensures |r| == |bits| / 8
  {
    assert Pow2(8) == 256;
    if |bits| < 8 then [] else [Number(bits[..8])] + FromBits(bits[8..])
  }

  lemma FromBitsFirst(octet: byte, rest: seq<Bit>)
    ensures FromBits(Bits(octet, 8) + rest) == [octet] + FromBits(rest)
  {
    var bits := Bits(octet, 8) + rest;
    assert bits[..8] == Bits(octet, 8) && bits[8..] == rest;
    assert Pow2(8) == 256;
    NumberOfBits(octet, 8);
  }

  function OctetBits(s: seq<byte>): (r: seq<Bit>)
    ensures |r| == 8 * |s|
  {
    if s == [] then [] else Bits(s[0], 8) + OctetBits(s[1..])
  }

  // The alphabet.

  const NONE := 99

  /** The decoder's table: the 6-bit value of a character, 99 outside the alphabet. */
  function Value(c: byte): nat {
    if 65 <= c <= 90 then c - 65
    else if 97 <= c <= 122 then c - 71
    else if 48 <= c <= 57 then c + 4
    else if c == 43 then 62
    else if c == 47 then 63
    else NONE
  }

  const PAD: byte := 61

  predicate InAlphabet(s: seq<byte>) {
    forall i :: 0 <= i < |s| ==> Value(s[i]) < 64
  }

  /** The concatenated 6-bit values. */
  function SextetBits(s: seq<byte>): (r: seq<Bit>)
    ensures |r| == 6 * |s|
  {
    if s == [] then [] else Bits(Value(s[0]), 6) + SextetBits(s[1..])
  }

  // The decoder.

  datatype Context = Context(pos: nat, value: nat)

  datatype Result = More | Invalid | Octet(value: nat)

  /** Positions 0 to 3 in a group, 4 after complete padding, 99 after an invalid character. */
  predicate Valid(ctx: Context) {
    (ctx.pos <= 4 || ctx.pos == 99) && ctx.value < 64
  }

  /** The decoder asserts that no data follows complete padding. */
  predicate Accepts(ctx: Context, c: byte) {
    Valid(ctx) && (ctx.pos == 4 ==> Value(c) == NONE)
  }

  /** btstack_base64_decoder_process_byte. The bits it or-s together never overlap, so they are added;
      the octet is not masked. */
  function ProcessByte(ctx: Context, c: byte): (r: (Context, Result))
    requires Accepts(ctx, c)
    ensures Valid(r.0)
  {
    if c == PAD && (ctx.pos == 2 || ctx.pos == 3) then (ctx.(pos := ctx.pos + 1), More)
    else
      var value := Value(c);
      if value == NONE || ctx.pos == 99 then (ctx.(pos := 99), Invalid)
      else
        match ctx.pos
        case 0 => (Context(1, value), More)
        case 1 => (Context(2, value), Octet(4 * ctx.value + value / 16))
        case 2 => (Context(3, value), Octet(16 * ctx.value + value / 4))
        case _ => (ctx.(pos := 0), Octet(64 * ctx.value + value))
  }

  /** What comes out of process_byte fits an octet exactly when the bits above it are zero. */
  lemma FitsOctet(ctx: Context, c: byte)
    requires ctx.pos <= 3 && ctx.value < 64 && Value(c) < 64
    ensures var r := ProcessByte(ctx, c).1;
            r.Octet? ==> (r.value < 256 <==> ctx.pos == 1 || (ctx.pos == 2 && ctx.value < 16)
                                             || (ctx.pos == 3 && ctx.value < 4))
  {}

  datatype Outcome = Decoded(ctx: Context) | InvalidInput | Full

  /** No assertion fails on the way through the input. */
  predicate Asserted(ctx: Context, input: seq<byte>)
    decreases |input|
  {
    input == []
    || (Accepts(ctx, input[0])
        && (ProcessByte(ctx, input[0]).1.Invalid? || Asserted(ProcessByte(ctx, input[0]).0, input[1..])))
  }

  /** The loop of btstack_base64_decoder_process_block, after out has been written. */
  function Decode(ctx: Context, input: seq<byte>, out: seq<byte>, max: nat): (Outcome, seq<byte>)
    requires Valid(ctx) && Asserted(ctx, input)
    decreases |input|
  {
    if input == [] then (Decoded(ctx), out)
    else
      var (ctx1, result) := ProcessByte(ctx, input[0]);
      match result
      case More => Decode(ctx1, input[1..], out, max)
      case Invalid => (InvalidInput, out)
      case Octet(value) =>
        if |out| >= max then (Full, out) else Decode(ctx1, input[1..], out + [value % 256], max)
  }

  // What it computes.

  /** The bits taken in but not put out yet. */
  function Pending(ctx: Context): seq<Bit> {
    match ctx.pos
    case 1 => Bits(ctx.value, 6)
    case 2 => Bits(ctx.value % 16, 4)
    case 3 => Bits(ctx.value % 4, 2)
    case _ => []
  }

  function Take<T>(s: seq<T>, n: nat): seq<T> {
    if |s| <= n then s else s[..n]
  }

  lemma Powers()
    ensures Pow2(2) == 4 && Pow2(4) == 16 && Pow2(6) == 64 && Pow2(8) == 256
  {}

  lemma LowOctet(n: nat, q: nat, r: nat)
    requires n == 256 * q + r && r < 256
    ensures n % 256 == r
  {}

  lemma OctetParts(v: nat, n: nat)
    requires v < 64 && n < 64
    ensures (4 * v + n / 16) % 256 == v * 4 + n / 16 && n / 16 < 4
    ensures (16 * v + n / 4) % 256 == v % 16 * 16 + n / 4 && n / 4 < 16
    ensures (64 * v + n) % 256 == v % 4 * 64 + n
    ensures n == n / 16 * 16 + n % 16 && n == n / 4 * 4 + n % 4
  {
    LowOctet(4 * v + n / 16, 0, v * 4 + n / 16);
    LowOctet(16 * v + n / 4, v / 16, v % 16 * 16 + n / 4);
    LowOctet(64 * v + n, v / 4, v % 4 * 64 + n);
  }

  lemma SecondBits(v: nat, n: nat)
    requires v < 64 && n < 64
    ensures Bits(v, 6) + Bits(n, 6) == Bits((4 * v + n / 16) % 256, 8) + Bits(n % 16, 4)
  {
    hide *;
    Powers();
    OctetParts(v, n);
    BitsJoin(n / 16, n % 16, 2, 4);
    BitsJoin(v, n / 16, 6, 2);
    RegroupBits(Bits(v, 6), Bits(n / 16, 2), Bits(n % 16, 4));
  }

  lemma ThirdBits(v: nat, n: nat)
    requires v < 64 && n < 64
    ensures Bits(v % 16, 4) + Bits(n, 6) == Bits((16 * v + n / 4) % 256, 8) + Bits(n % 4, 2)
  {
    hide *;
    Powers();
    OctetParts(v, n);
    BitsJoin(n / 4, n % 4, 4, 2);
    BitsJoin(v % 16, n / 4, 4, 4);
    RegroupBits(Bits(v % 16, 4), Bits(n / 4, 4), Bits(n % 4, 2));
  }

  lemma FourthBits(v: nat, n: nat)
    requires v < 64 && n < 64
    ensures Bits(v % 4, 2) + Bits(n, 6) == Bits((64 * v + n) % 256, 8)
  {
    hide *;
    Powers();
    OctetParts(v, n);
    BitsJoin(v % 4, n, 2, 6);
  }

  lemma NoBits(s: seq<Bit>)
    ensures [] + s == s && s + [] == s
  {}

  /** One character: the bits that were pending and its own are the octet put out and the bits pending. */
  lemma ByteBits(ctx: Context, c: byte)
    requires ctx.pos <= 3 && ctx.value < 64 && Value(c) < 64
    ensures var (ctx1, r) := ProcessByte(ctx, c);
            && ctx1.pos <= 3 && ctx1.value < 64 && !r.Invalid?
            && Pending(ctx) + Bits(Value(c), 6)
               == (if r.Octet? then Bits(r.value % 256, 8) else []) + Pending(ctx1)
  {
    var v, n := ctx.value, Value(c);
    hide Bits;
    NoBits(Bits(n, 6));
    match ctx.pos
    case 0 =>
    case 1 => SecondBits(v, n);
    case 2 => ThirdBits(v, n);
    case 3 =>
      FourthBits(v, n);
      NoBits(Bits((64 * v + n) % 256, 8));
  }

  lemma TakeFits<T>(out: seq<T>, rest: seq<T>, max: nat)
    requires |out| == max && rest != []
    ensures Take(out + rest, max) == out
  {}

  lemma NextPlace(ctx: Context, c: byte)
    requires ctx.pos <= 3 && ctx.value < 64 && Value(c) < 64
    ensures Accepts(ctx, c) && ProcessByte(ctx, c).0.pos == (ctx.pos + 1) % 4
  {}

  /** The octets to come, one character later. */
  lemma StepOctets(ctx: Context, c: byte, rest: seq<Bit>)
    requires ctx.pos <= 3 && ctx.value < 64 && Value(c) < 64
    ensures var (ctx1, r) := ProcessByte(ctx, c);
            && ctx1.pos == (ctx.pos + 1) % 4 && ctx1.value < 64 && !r.Invalid?
            && FromBits(Pending(ctx) + (Bits(Value(c), 6) + rest))
               == if r.Octet? then [r.value % 256] + FromBits(Pending(ctx1) + rest)
                  else FromBits(Pending(ctx1) + rest)
  {
    NextPlace(ctx, c);
    hide *;
    ByteBits(ctx, c);
    var (ctx1, r) := ProcessByte(ctx, c);
    RegroupBits(Pending(ctx), Bits(Value(c), 6), rest);
    if r.Octet? {
      RegroupBits(Bits(r.value % 256, 8), Pending(ctx1), rest);
      FromBitsFirst(r.value % 256, Pending(ctx1) + rest);
    } else {
      NoBits(Pending(ctx1));
    }
  }

  lemma DecodeStep(ctx: Context, s: seq<byte>, out: seq<byte>, max: nat)
    requires s != [] && Valid(ctx) && Asserted(ctx, s)
    ensures Accepts(ctx, s[0])
    ensures !ProcessByte(ctx, s[0]).1.Invalid? ==> Asserted(ProcessByte(ctx, s[0]).0, s[1..])
    ensures var (ctx1, result) := ProcessByte(ctx, s[0]);
            Decode(ctx, s, out, max) ==
              match result
              case More => Decode(ctx1, s[1..], out, max)
              case Invalid => (InvalidInput, out)
              case Octet(value) =>
                if |out| >= max then (Full, out) else Decode(ctx1, s[1..], out + [value % 256], max)
  {}

  /** The position in a group of four, n characters on. */
  function Place(pos: nat, n: nat): nat
    decreases n
  {
    if n == 0 then pos else Place((pos + 1) % 4, n - 1)
  }

  lemma {:induction false} PlaceIs(pos: nat, n: nat)
    requires pos <= 3
    ensures Place(pos, n) == (pos + n) % 4
    decreases n
  {
    if n > 0 {
      PlaceIs((pos + 1) % 4, n - 1);
    }
  }

  lemma DecodeEnd(ctx: Context, out: seq<byte>, max: nat)
    requires Valid(ctx)
    ensures Decode(ctx, [], out, max) == (Decoded(ctx), out)
  {}

  lemma NothingLeft(ctx: Context)
    requires ctx.pos <= 3
    ensures FromBits(Pending(ctx) + []) == []
  {}

  /** On characters of the alphabet the decoder puts out the octets of the concatenated 6-bit values, up
      to the end of the output space. */
  lemma {:induction false} DecodeAlphabet(ctx: Context, s: seq<byte>, out: seq<byte>, max: nat)
    requires ctx.pos <= 3 && ctx.value < 64 && InAlphabet(s) && |out| <= max
    ensures Asserted(ctx, s)
    ensures var all := out + FromBits(Pending(ctx) + SextetBits(s));
            var (o, r) := Decode(ctx, s, out, max);
            && r == Take(all, max)
            && (o.Full? <==> |all| > max) && (|all| <= max ==> o.Decoded? && o.ctx.pos == Place(ctx.pos, |s|))
    decreases |s|
  {
    if s == [] {
      NothingLeft(ctx);
      assert out + [] == out;
    } else {
      var rest := SextetBits(s[1..]);
      var (ctx1, result) := ProcessByte(ctx, s[0]);
      StepOctets(ctx, s[0], rest);
      DecodeAlphabet(ctx1, s[1..], out, max);
      assert Asserted(ctx, s);
      assert SextetBits(s) == Bits(Value(s[0]), 6) + rest;
      assert Place(ctx1.pos, |s[1..]|) == Place(ctx.pos, |s|);
      hide Bits, Pending, FromBits, ProcessByte, Decode, Asserted, SextetBits, Value, Place;
      DecodeStep(ctx, s, out, max);
      if result.Octet? {
        var octet: byte := result.value % 256;
        if |out| < max {
          DecodeAlphabet(ctx1, s[1..], out + [octet], max);
          Regroup(out, [octet], FromBits(Pending(ctx1) + rest));
        } else {
          TakeFits(out, [octet] + FromBits(Pending(ctx1) + rest), max);
        }
      }
    }
  }

  const INIT := Context(0, 0)

  /** A string of n characters of the alphabet: the first floor(6n/8) octets of its bits, or as many as
      there is room for. */
  lemma DecodeBlock(s: seq<byte>, max: nat)
    requires InAlphabet(s)
    ensures Asserted(INIT, s)
    ensures var all := FromBits(SextetBits(s));
            var (o, r) := Decode(INIT, s, [], max);
            && |all| == 6 * |s| / 8 && r == Take(all, max) && |r| <= max
            && (o.Full? <==> 6 * |s| / 8 > max) && (o.Decoded? <==> 6 * |s| / 8 <= max)
  {
    hide Decode, FromBits, SextetBits, Asserted;
    DecodeAlphabet(INIT, s, [], max);
    NoBits(SextetBits(s));
    assert [] + FromBits(SextetBits(s)) == FromBits(SextetBits(s));
  }

  lemma {:induction false} DecodeAppend(ctx: Context, s: seq<byte>, t: seq<byte>, out: seq<byte>, max: nat)
    requires Valid(ctx) && Asserted(ctx, s)
    requires var (o, r) := Decode(ctx, s, out, max); o.Decoded? && Valid(o.ctx) && Asserted(o.ctx, t)
    ensures var (o, r) := Decode(ctx, s, out, max);
            Asserted(ctx, s + t) && Decode(ctx, s + t, out, max) == Decode(o.ctx, t, r, max)
    decreases |s|
  {
    if s == [] {
      assert s + t == t;
    } else {
      assert (s + t)[0] == s[0] && (s + t)[1..] == s[1..] + t;
      var (ctx1, result) := ProcessByte(ctx, s[0]);
      match result
      case More => DecodeAppend(ctx1, s[1..], t, out, max);
      case Octet(value) => DecodeAppend(ctx1, s[1..], t, out + [value % 256], max);
    }
  }

  /** A character outside the alphabet, other than padding in its place, makes the input invalid,
      whatever comes after it. */
  lemma InvalidCharacter(s: seq<byte>, c: byte, t: seq<byte>, max: nat)
    requires InAlphabet(s) && 6 * |s| / 8 <= max && Value(c) == NONE
    requires c == PAD ==> |s| % 4 < 2
    ensures Asserted(INIT, s + ([c] + t)) && Decode(INIT, s + ([c] + t), [], max).0 == InvalidInput
  {
    DecodeBlock(s, max);
    DecodeAlphabet(INIT, s, [], max);
    PlaceIs(0, |s|);
    DecodeValid(INIT, s, [], max);
    var (o, r) := Decode(INIT, s, [], max);
    hide Decode, FromBits, SextetBits, Place, Value;
    DecodeInvalid(o.ctx, c, t, r, max);
    DecodeAppend(INIT, s, [c] + t, [], max);
  }

  lemma DecodeInvalid(ctx: Context, c: byte, t: seq<byte>, out: seq<byte>, max: nat)
    requires Valid(ctx) && ctx.pos <= 3 && Value(c) == NONE && (c == PAD ==> ctx.pos < 2)
    ensures Asserted(ctx, [c] + t) && Decode(ctx, [c] + t, out, max) == (InvalidInput, out)
  {}

  // Section 4 of RFC 4648.

  /** The character for a 6-bit value. */
  function Char(v: nat): (c: byte)
    requires v < 64
    ensures Value(c) == v
  {
    if v < 26 then v + 65 else if v < 52 then v + 71 else if v < 62 then v - 4 else if v == 62 then 43 else 47
  }

  function Chars(bits: seq<Bit>): (r: seq<byte>)
    requires |bits| % 6 == 0
    ensures 6 * |r| == |bits|
    decreases |bits|
  {
    if bits == [] then []
    else
      assert Pow2(6) == 64;
      [Char(Number(bits[..6]))] + Chars(bits[6..])
  }

  function ZeroBits(n: nat): (r: seq<Bit>)
    ensures |r| == n
  {
    seq(n, i => 0)
  }

  /** Zero bits that n octets lack to a whole number of 6-bit groups. */
  function Lack(n: nat): nat {
    match n % 3 case 0 => 0 case 1 => 4 case _ => 2
  }

  lemma WholeGroups(k: nat)
    ensures 6 * k % 6 == 0
  {}

  lemma LackFills(n: nat)
    ensures (8 * n + Lack(n)) % 6 == 0
  {
    var q, r := n / 3, n % 3;
    assert n == 3 * q + r;
    WholeGroups(4 * q + (match r case 0 => 0 case 1 => 2 case _ => 3));
  }

  function Filled(s: seq<byte>): (r: seq<Bit>)
    ensures |r| == 8 * |s| + Lack(|s|) && |r| % 6 == 0
  {
    LackFills(|s|);
    OctetBits(s) + ZeroBits(Lack(|s|))
  }

  function Padding(n: nat): seq<byte> {
    match n % 3 case 0 => [] case 1 => [PAD, PAD] case _ => [PAD]
  }

  function Encode(s: seq<byte>): seq<byte> {
    Chars(Filled(s)) + Padding(|s|)
  }

  lemma {:induction false} CharsBits(bits: seq<Bit>)
    requires |bits| % 6 == 0
    ensures SextetBits(Chars(bits)) == bits && InAlphabet(Chars(bits))
    decreases |bits|
  {
    if bits != [] {
      var c := Chars(bits);
      CharsBits(bits[6..]);
      BitsOfNumber(bits[..6]);
      assert Value(c[0]) == Number(bits[..6]) && c[1..] == Chars(bits[6..]);
      assert bits[..6] + bits[6..] == bits;
    }
  }

  lemma {:induction false} OctetsBack(s: seq<byte>, rest: seq<Bit>)
    requires |rest| < 8
    ensures FromBits(OctetBits(s) + rest) == s
    decreases |s|
  {
    if s == [] {
      NoBits(rest);
    } else {
      OctetsBack(s[1..], rest);
      RegroupBits(Bits(s[0], 8), OctetBits(s[1..]), rest);
      FromBitsFirst(s[0], OctetBits(s[1..]) + rest);
    }
  }

  lemma PadIgnored(ctx: Context, out: seq<byte>, max: nat)
    requires Valid(ctx) && ctx.pos == 3
    ensures Asserted(ctx, [PAD]) && Decode(ctx, [PAD], out, max) == (Decoded(ctx.(pos := 4)), out)
  {
    DecodeStep(ctx, [PAD], out, max);
    assert [PAD][1..] == [];
  }

  lemma PaddingIgnored(ctx: Context, n: nat, out: seq<byte>, max: nat)
    requires Valid(ctx) && ctx.pos == (match n % 3 case 0 => 0 case 1 => 2 case _ => 3)
    ensures Asserted(ctx, Padding(n))
    ensures var (o, r) := Decode(ctx, Padding(n), out, max); o.Decoded? && r == out
  {
    var p := Padding(n);
    if |p| == 2 {
      DecodeStep(ctx, p, out, max);
      assert p[1..] == [PAD];
      PadIgnored(ProcessByte(ctx, PAD).0, out, max);
    } else if |p| == 1 {
      PadIgnored(ctx, out, max);
    }
  }

  lemma EncodedPlace(n: nat, chars: nat)
    requires 6 * chars == 8 * n + Lack(n)
    ensures chars % 4 == (match n % 3 case 0 => 0 case 1 => 2 case _ => 3)
  {
    var q, r := n / 3, n % 3;
    assert n == 3 * q + r;
    LowSextets(q, match r case 0 => 0 case 1 => 2 case _ => 3);
  }

  lemma LowSextets(q: nat, r: nat)
    requires r < 4
    ensures (4 * q + r) % 4 == r
  {}

  /** Decoding the padded encoding of any octets returns them, given the space. */
  lemma RoundTrip(s: seq<byte>, max: nat)
    requires |s| <= max
    ensures Asserted(INIT, Encode(s))
    ensures var (o, r) := Decode(INIT, Encode(s), [], max); o.Decoded? && r == s
  {
    var bits := Filled(s);
    var chars := Chars(bits);
    assert |bits| == 8 * |s| + Lack(|s|);
    hide *;
    CharsBits(bits);
    FilledBack(s);
    DecodeAlphabet(INIT, chars, [], max);
    WholeString(s, chars, max);
  }

  lemma FilledBack(s: seq<byte>)
    ensures FromBits(Filled(s)) == s
  {
    OctetsBack(s, ZeroBits(Lack(|s|)));
  }

  lemma WholeString(s: seq<byte>, chars: seq<byte>, max: nat)
    requires InAlphabet(chars) && FromBits(SextetBits(chars)) == s && |s| <= max
    requires 6 * |chars| == 8 * |s| + Lack(|s|)
    ensures Asserted(INIT, chars + Padding(|s|))
    ensures var (o, r) := Decode(INIT, chars + Padding(|s|), [], max); o.Decoded? && r == s
  {
    hide Decode, FromBits, SextetBits, Asserted, Padding, Place;
    DecodeAlphabet(INIT, chars, [], max);
    NoBits(SextetBits(chars));
    assert [] + s == s;
    PlaceIs(0, |chars|);
    EncodedPlace(|s|, |chars|);
    var (o, r) := Decode(INIT, chars, [], max);
    DecodeValid(INIT, chars, [], max);
    PaddingIgnored(o.ctx, |s|, s, max);
    DecodeAppend(INIT, chars, Padding(|s|), [], max);
  }

  lemma {:induction false} DecodeValid(ctx: Context, s: seq<byte>, out: seq<byte>, max: nat)
    requires Valid(ctx) && Asserted(ctx, s)
    ensures var (o, r) := Decode(ctx, s, out, max);
            && (o.Decoded? ==> Valid(o.ctx)) && out <= r && (|out| <= max ==> |r| <= max)
    decreases |s|
  {
    if s != [] {
      var (ctx1, result) := ProcessByte(ctx, s[0]);
      match result
      case More => DecodeValid(ctx1, s[1..], out, max);
      case Invalid =>
      case Octet(value) =>
        if |out| < max {
          DecodeValid(ctx1, s[1..], out + [value % 256], max);
        }
    }
  }

  // The decoder as the program keeps it.

  const MORE := -1
  const INVALID := -3
  const FULL := -4

  class Decoder {
    var pos: nat
    var value: nat

    function View(): Context
      reads this
    {
      Context(pos, value)
    }

    constructor ()
      ensures View() == INIT
    {
      pos, value := 0, 0;
    }

    method Process(c: byte) returns (result: int)
      requires Accepts(View(), c)
      modifies this
      ensures Valid(View()) && View() == ProcessByte(old(View()), c).0
      ensures match ProcessByte(old(View()), c).1
              case More => result == MORE
              case Invalid => result == INVALID
              case Octet(octet) => result == octet
    {
      if c == PAD {
        if pos == 2 || pos == 3 {
          pos := pos + 1;
          return MORE;
        }
      }
      var v := Value(c);
      if v == NONE {
        pos := 99;
      }
      result := 0;
      match pos {
        case 0 =>
          value := v;
          pos := pos + 1;
          result := MORE;
        case 1 =>
          result := value * 4 + v / 16;
          value := v;
          pos := pos + 1;
        case 2 =>
          result := value * 16 + v / 4;
          value := v;
          pos := pos + 1;
        case 3 =>
          result := value * 64 + v;
          pos := 0;
        case _ =>
          result := INVALID;
      }
    }
  }

  /** btstack_base64_decoder_process_block: the number of octets written, or an error. */
  method ProcessBlock(input: seq<byte>, output: array<byte>, outputMaxSize: nat) returns (r: int)
    requires Asserted(INIT, input) && outputMaxSize <= output.Length
    modifies output
    ensures var (o, out) := Decode(INIT, input, [], outputMaxSize);
            && |out| <= outputMaxSize
            && output[..] == out + old(output[..])[|out|..]
            && r == match o case Decoded(_) => |out| case InvalidInput => INVALID case Full => FULL
  {
    ghost var goal := Decode(INIT, input, [], outputMaxSize);
    ghost var was := output[..];
    DecodeValid(INIT, input, [], outputMaxSize);
    assert output[..0] == [] && input[0..] == input;
    hide Decode, Asserted, ProcessByte, Value, Accepts;
    var context := new Decoder();
    var size: nat := 0;
    var i := 0;
    while i < |input|
      invariant 0 <= i <= |input| && size <= outputMaxSize
      invariant Valid(context.View()) && Asserted(context.View(), input[i..])
      invariant forall k :: size <= k < output.Length ==> output[k] == was[k]
      invariant Decode(context.View(), input[i..], output[..size], outputMaxSize) == goal
    {
      DecodeStep(context.View(), input[i..], output[..size], outputMaxSize);
      var result := context.Process(input[i]);
      assert input[i..][1..] == input[i + 1..];
      i := i + 1;
      if result == INVALID {
        return INVALID;
      } else if result != MORE {
        if size >= outputMaxSize {
          return FULL;
        }
        ghost var written := output[..size];
        output[size] := result % 256;
        size := size + 1;
        assert output[..size] == written + [(result % 256) as byte];
      }
    }
    DecodeEnd(context.View(), output[..size], outputMaxSize);
    assert input[i..] == [];
    return size;
  }
}
