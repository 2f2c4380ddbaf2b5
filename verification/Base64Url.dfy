/** Decoding the payload of a token: base64url (section 5 of RFC 4648) through a 32-bit buffer. */
module Base64Url {
  import opened Int32

  datatype Result<+T> = Ok(value: T) | Err

  type Sextet = n: nat | n < 64
  type Byte = n: nat | n < 256

  // ----- the encoding -----

  /** The character of a six-bit value: the alphabet of section 5 of RFC 4648. */
  function Letter(n: Sextet): char {
    if n < 26 then 'A' + n as char
    else if n < 52 then 'a' + (n - 26) as char
    else if n < 62 then '0' + (n - 52) as char
    else if n == 62 then '-' else '_'
  }

  // A group of three bytes x, y, z as four six-bit values.

  function Top(x: Byte): Sextet { x / 4 }

  function Upper(x: Byte, y: Byte): Sextet { x % 4 * 16 + y / 16 }

  function Lower(y: Byte, z: Byte): Sextet { y % 16 * 4 + z / 64 }

  function Bottom(z: Byte): Sextet { z % 64 }

  /** The six-bit values of a byte sequence, three bytes at a time. */
  function EncodeSextets(b: seq<Byte>): seq<Sextet> {
    if b == [] then []
    else if |b| == 1 then [Top(b[0]), Upper(b[0], 0)]
    else if |b| == 2 then [Top(b[0]), Upper(b[0], b[1]), Lower(b[1], 0)]
    else [Top(b[0]), Upper(b[0], b[1]), Lower(b[1], b[2]), Bottom(b[2])] + EncodeSextets(b[3..])
  }

  function Letters(s: seq<Sextet>): (r: string)
    ensures |r| == |s| && forall i | 0 <= i < |s| :: r[i] == Letter(s[i])
  {
    seq(|s|, i requires 0 <= i < |s| => Letter(s[i]))
  }

  function Padding(n: nat): string {
    if n == 0 then "" else "=" + Padding(n - 1)
  }

  /** With padding the text has a whole number of four-character groups. */
  function Encode(b: seq<Byte>, padded: bool): string {
    Letters(EncodeSextets(b)) + Padding(if padded then (3 - |b| % 3) % 3 else 0)
  }

  // ----- what decoding means -----

  function StripPadding(v: string): string {
    if v != "" && v[|v| - 1] == '=' then StripPadding(v[..|v| - 1]) else v
  }

  /** The six-bit value of a character; the standard alphabet's last two are accepted too. */
  function ValueOf(c: char): (r: Result<Sextet>)
    ensures r.Ok? ==> Letter(r.value) == (if c == '+' then '-' else if c == '/' then '_' else c)
    ensures r.Err? ==> forall n: Sextet :: Letter(n) != c
  {
    if 'A' <= c <= 'Z' then Ok((c - 'A') as int)
    else if 'a' <= c <= 'z' then Ok((c - 'a') as int + 26)
    else if '0' <= c <= '9' then Ok((c - '0') as int + 52)
    else if c == '-' || c == '+' then Ok(62)
    else if c == '_' || c == '/' then Ok(63)
    else Err
  }

  // The byte that ends two, four or six bits into the second of two six-bit values.

  function TwoIn(x: Sextet, y: Sextet): Byte { var m: int := x; m * 4 + y / 16 }

  function FourIn(x: Sextet, y: Sextet): Byte { var m: int := x % 16; m * 16 + y / 4 }

  function SixIn(x: Sextet, y: Sextet): Byte { var m: int := x % 4; m * 64 + y }

  /** The eight bits from bit 8 * i of the six-bit values written one after another. */
  function ByteAt(s: seq<Sextet>, i: nat): Byte
    requires 8 * (i + 1) <= 6 * |s|
  {
    var x, y := s[8 * i / 6], s[8 * i / 6 + 1];
    if 8 * i % 6 == 0 then TwoIn(x, y) else if 8 * i % 6 == 2 then FourIn(x, y) else SixIn(x, y)
  }

  /** The whole bytes; bits after the last one are dropped. */
  function BytesOf(s: seq<Sextet>): (b: seq<Byte>)
    ensures |b| == 6 * |s| / 8
    ensures forall i | 0 <= i < |b| :: b[i] == ByteAt(s, i)
  {
    seq(6 * |s| / 8, i requires 0 <= i < 6 * |s| / 8 => ByteAt(s, i))
  }

  predicate Decodable(v: string) {
    forall c <- v :: ValueOf(c).Ok?
  }

  function Values(v: string): (s: seq<Sextet>)
    requires Decodable(v)
    ensures |s| == |v| && forall i | 0 <= i < |v| :: Ok(s[i]) == ValueOf(v[i])
  {
    seq(|v|, i requires 0 <= i < |v| => ValueOf(v[i]).value)
  }

  function Decode(v: string): Result<seq<Byte>> {
    if Decodable(StripPadding(v)) then Ok(BytesOf(Values(StripPadding(v)))) else Err
  }

  // ----- round trip -----

  lemma ValueOfLetter(n: Sextet)
    ensures ValueOf(Letter(n)) == Ok(n) && Letter(n) != '='
  {
  }

  lemma {:induction false} EncodedLength(b: seq<Byte>)
    ensures |EncodeSextets(b)| == (8 * |b| + 5) / 6
  {
    if |b| > 2 { EncodedLength(b[3..]); }
  }

  /** Three bytes on, the same sextets four places on. */
  lemma NextGroup(g: seq<Sextet>, s: seq<Sextet>, i: nat)
    requires |g| == 4 && 8 * (i + 1) <= 6 * |s|
    ensures ByteAt(g + s, i + 3) == ByteAt(s, i)
  {
    var j := 8 * i / 6;
    assert 8 * (i + 3) / 6 == j + 4 && 8 * (i + 3) % 6 == 8 * i % 6;
    assert (g + s)[j + 4] == s[j] && (g + s)[j + 5] == s[j + 1];
  }

  lemma {:induction false} BytesOfEncoded(b: seq<Byte>, i: nat)
    requires i < |b|
    ensures 8 * (i + 1) <= 6 * |EncodeSextets(b)|
    ensures ByteAt(EncodeSextets(b), i) == b[i]
  {
    EncodedLength(b);
    var s := EncodeSextets(b);
    if i < 3 {
      FirstGroup(b, i);
    } else {
      EncodedLength(b[3..]);
      BytesOfEncoded(b[3..], i - 3);
      NextGroup(s[..4], EncodeSextets(b[3..]), i - 3);
      assert s == s[..4] + EncodeSextets(b[3..]);
    }
  }

  lemma RejoinTop(x: Byte, y: Byte)
    ensures TwoIn(Top(x), Upper(x, y)) == x
  {
    assert (x % 4 * 16 + y / 16) / 16 == x % 4;
  }

  lemma RejoinMiddle(w: Byte, x: Byte, y: Byte)
    ensures FourIn(Upper(w, x), Lower(x, y)) == x
  {
    assert (w % 4 * 16 + x / 16) % 16 == x / 16;
    assert (x % 16 * 4 + y / 64) / 4 == x % 16;
  }

  lemma RejoinBottom(w: Byte, x: Byte)
    ensures SixIn(Lower(w, x), Bottom(x)) == x
  {
    assert (w % 16 * 4 + x / 64) % 4 == x / 64;
  }

  lemma AtFirst(s: seq<Sextet>)
    requires |s| > 1
    ensures ByteAt(s, 0) == TwoIn(s[0], s[1])
  {
  }

  lemma AtSecond(s: seq<Sextet>)
    requires |s| > 2
    ensures ByteAt(s, 1) == FourIn(s[1], s[2])
  {
  }

  lemma AtThird(s: seq<Sextet>)
    requires |s| > 3
    ensures ByteAt(s, 2) == SixIn(s[2], s[3])
  {
  }

  lemma Sextets(b: seq<Byte>)
    requires b != []
    ensures var s := EncodeSextets(b);
      && |s| > 1 && s[0] == Top(b[0]) && s[1] == Upper(b[0], if |b| > 1 then b[1] else 0)
      && (|b| > 1 ==> |s| > 2 && s[2] == Lower(b[1], if |b| > 2 then b[2] else 0))
      && (|b| > 2 ==> |s| > 3 && s[3] == Bottom(b[2]))
  {
  }

  lemma FirstGroup(b: seq<Byte>, i: nat)
    requires i < |b| && i < 3
    requires 8 * (i + 1) <= 6 * |EncodeSextets(b)|
    ensures ByteAt(EncodeSextets(b), i) == b[i]
  {
    var s := EncodeSextets(b);
    Sextets(b);
    if i == 0 {
      AtFirst(s);
      RejoinTop(b[0], if |b| > 1 then b[1] else 0);
    } else if i == 1 {
      AtSecond(s);
      RejoinMiddle(b[0], b[1], if |b| > 2 then b[2] else 0);
    } else {
      AtThird(s);
      RejoinBottom(b[1], b[2]);
    }
  }

  lemma {:induction false} StripPadded(v: string, n: nat)
    requires v == "" || v[|v| - 1] != '='
    ensures StripPadding(v + Padding(n)) == v
  {
    if n == 0 {
      assert v + Padding(n) == v;
    } else {
      PaddingEnd(n);
      assert (v + Padding(n))[..|v + Padding(n)| - 1] == v + Padding(n - 1);
      StripPadded(v, n - 1);
    }
  }

  lemma {:induction false} PaddingEnd(n: nat)
    requires n > 0
    ensures Padding(n) == Padding(n - 1) + "="
  {
    if n > 1 { PaddingEnd(n - 1); }
  }

  lemma DecodeLetters(b: seq<Byte>, n: nat)
    ensures Decode(Letters(EncodeSextets(b)) + Padding(n)) == Ok(b)
  {
    var s := EncodeSextets(b);
    var v := Letters(s);
    forall i | 0 <= i < |s| ensures ValueOf(v[i]) == Ok(s[i]) && v[i] != '=' { ValueOfLetter(s[i]); }
    StripPadded(v, n);
    assert Values(v) == s;
    EncodedLength(b);
    forall i | 0 <= i < |b| ensures BytesOf(s)[i] == b[i] { BytesOfEncoded(b, i); }
    assert BytesOf(s) == b;
  }

  /** Decoding gives back every byte sequence, padded or not. */
  lemma DecodeInvertsEncode(b: seq<Byte>, padded: bool)
    ensures Decode(Encode(b, padded)) == Ok(b)
  {
    DecodeLetters(b, if padded then (3 - |b| % 3) % 3 else 0);
  }

  // ----- the 32-bit buffer -----

  lemma ShiftBySix(x: int)
    ensures ToUint32(ShiftLeft(x, 6)) == ToUint32(x) % 0x400_0000 * 64
  {
    Powers();
    ToInt32Same(ToUint32(x) * 64);
    DivModIs(ToUint32(x) * 64, TWO32, ToUint32(x) / 0x400_0000, ToUint32(x) % 0x400_0000 * 64);
  }

  lemma LowBits(x: int)
    ensures ToUint32(x) % 4096 == x % 4096 && ToInt32(x) % 4096 == x % 4096 && ToUint32(x) % 256 == x % 256
  {
    ModOfMod(x, 4096, 0x10_0000);
    ModOfMod(ToInt32(x), 4096, 0x10_0000);
    ModOfMod(x, 256, 0x100_0000);
    ToInt32Same(x);
  }

  lemma LastSix(x: int)
    ensures ToUint32(x) % 0x400_0000 % 64 == x % 64
  {
    ModOfMod(ToUint32(x), 64, 0x10_0000);
    ModOfMod(x, 64, 0x400_0000);
  }

  lemma LastTwelve(high: nat, index: Sextet)
    ensures (high * 64 + index) % 4096 == high % 64 * 64 + index
  {
    DivModIs(high * 64 + index, 4096, high / 64, high % 64 * 64 + index);
  }

  lemma OrSix(a: nat, i: nat, high: nat, index: Sextet)
    requires high < 0x400_0000 && a == high * 64 && i == index
    ensures OrBits(a, i, 32) == high * 64 + index
  {
    Powers();
    OrJoins(high, index, 6, 32);
  }

  lemma PushBits(buffer: int, index: Sextet)
    ensures OrBits(ToUint32(ShiftLeft(buffer, 6)), ToUint32(index), 32) == ToUint32(buffer) % 0x400_0000 * 64 + index
  {
    ShiftBySix(buffer);
    var a, i := ToUint32(ShiftLeft(buffer, 6)), ToUint32(index);
    OrSix(a, i, ToUint32(buffer) % 0x400_0000, index);
  }

  lemma LowTwelve(w: int)
    ensures ToInt32(w) % 4096 == w % 4096
  {
    LowBits(w);
  }

  /** After taking in a value, the low twelve bits are the last two values, whatever fell off the top. */
  lemma Push(buffer: int, index: Sextet)
    ensures Or(ShiftLeft(buffer, 6), index) % 4096 == buffer % 64 * 64 + index
  {
    var high := ToUint32(buffer) % 0x400_0000;
    calc {
      Or(ShiftLeft(buffer, 6), index) % 4096;
      { PushBits(buffer, index); }
      ToInt32(high * 64 + index) % 4096;
      { LowTwelve(high * 64 + index); LastTwelve(high, index); }
      high % 64 * 64 + index;
      { LastSix(buffer); }
      buffer % 64 * 64 + index;
    }
  }

  lemma WordLowByte(a: nat)
    ensures AndWords(a, 255) == a % 256
  {
    Powers();
    AndLow(a, 8, 32);
  }

  lemma LowByte(x: int)
    ensures And(x, 255) == x % 256
  {
    SmallWord(255);
    WordLowByte(ToUint32(x));
    ModOfMod(x, 256, 0x100_0000);
  }

  lemma ByteIn(x: int, d: nat, e: nat)
    requires d > 0 && e > 0 && d * (256 * e) == 4096
    ensures x / d % 256 == x % 4096 / d % 256
  {
    DivOfMod(x, d, 256 * e);
    ModOfMod(x / d, 256, e);
  }

  /** Only the low twelve bits can reach the byte taken out; the sign cannot. */
  lemma Pop(buffer: int, bits: nat, d: nat, e: nat)
    requires bits < 32 && d == Pow2(bits) && e > 0 && d * (256 * e) == 4096
    ensures And(ShiftRight(buffer, bits), 255) == buffer % 4096 / d % 256
  {
    calc {
      And(ShiftRight(buffer, bits), 255);
      { LowByte(ShiftRight(buffer, bits)); }
      ToInt32(buffer) / d % 256;
      { ByteIn(ToInt32(buffer), d, e); }
      ToInt32(buffer) % 4096 / d % 256;
      { LowTwelve(buffer); }
      buffer % 4096 / d % 256;
    }
  }

  lemma WindowTwo(x: Sextet, y: Sextet)
    ensures TwoIn(x, y) == (x as int * 64 + y) / 16 % 256
  {
  }

  lemma WindowFour(x: Sextet, y: Sextet)
    ensures FourIn(x, y) == (x as int * 64 + y) / 4 % 256
  {
    var m: int := x;
    assert (m * 64 + y) / 4 == m * 16 + y / 4;
    DivModIs(m * 16 + y / 4, 256, m / 16, m % 16 * 16 + y / 4);
  }

  lemma WindowSix(x: Sextet, y: Sextet)
    ensures SixIn(x, y) == (x as int * 64 + y) % 256
  {
    var m: int := x;
    DivModIs(m * 64 + y, 256, m / 4, m % 4 * 64 + y);
  }

  /** The next byte is complete when a value brings the bits not yet taken out to eight or more. */
  lemma NextByte(s: seq<Sextet>, k: nat, n: nat, bits: int)
    requires 0 < k < |s| && 8 * n == 6 * k - 2 - bits && 0 <= bits < 6
    ensures bits == 0 || bits == 2 || bits == 4
    ensures ByteAt(s, n) == (s[k - 1] as int * 64 + s[k]) / Pow2(bits) % 256
  {
    Powers();
    var x, y := s[k - 1], s[k];
    DivModIs(8 * n, 6, k - 1, 4 - bits);
    if bits == 4 { WindowTwo(x, y); } else if bits == 2 { WindowFour(x, y); } else { WindowSix(x, y); }
  }

  lemma BytesPrefix(s: seq<Sextet>, k: nat)
    requires k <= |s|
    ensures BytesOf(s[..k]) == BytesOf(s)[..6 * k / 8]
  {
    forall i | 0 <= i < 6 * k / 8 ensures BytesOf(s[..k])[i] == BytesOf(s)[i] {
      assert 8 * i / 6 + 1 < k;
    }
  }

  /** What one more value of the text makes of the buffer and the output. */
  lemma TakeIn(s: seq<Sextet>, buffer: int, bits: nat)
    requires s != [] && bits == 6 * (|s| - 1) - 8 * |BytesOf(s[..|s| - 1])|
    requires |s| > 1 ==> buffer % 64 == s[|s| - 2]
    ensures var k := |s| - 1; var next := Or(ShiftLeft(buffer, 6), s[k]);
      && next % 64 == s[k]
      && BytesOf(s) == BytesOf(s[..k]) + if bits + 6 >= 8 then [And(ShiftRight(next, bits - 2), 255)] else []
  {
    var k := |s| - 1;
    var next := Or(ShiftLeft(buffer, 6), s[k]);
    Push(buffer, s[k]);
    ModOfMod(next, 64, 64);
    DivModIs(buffer % 64 * 64 + s[k], 64, buffer % 64, s[k]);
    BytesPrefix(s, k);
    if bits + 6 >= 8 {
      NextByte(s, k, |BytesOf(s[..k])|, bits - 2);
      PopAt(next, bits - 2);
    }
  }

  lemma PopAt(buffer: int, bits: nat)
    requires bits == 0 || bits == 2 || bits == 4
    ensures And(ShiftRight(buffer, bits), 255) == buffer % 4096 / Pow2(bits) % 256
  {
    Powers();
    if bits == 0 { Pop(buffer, 0, 1, 16); } else if bits == 2 { Pop(buffer, 2, 4, 4); } else { Pop(buffer, 4, 16, 1); }
  }

  /** The 32-bit buffer is never masked, yet every byte is the one the text encodes. */
  method Base64UrlDecode(value: string) returns (r: Result<seq<Byte>>)
    ensures r == Decode(value)
  {
    var text := StripPadding(value);
    var bits, buffer := 0, 0;
    var output: seq<Byte> := [];
    for k := 0 to |text|
      invariant Decodable(text[..k])
      invariant output == BytesOf(Values(text[..k]))
      invariant bits == 6 * k - 8 * |output|
      invariant k > 0 ==> buffer % 64 == Values(text[..k])[k - 1]
    {
      var index := ValueOf(text[k]);
      if index.Err? { return Err; }
      ghost var s := Values(text[..k + 1]);
      assert s[..k] == Values(text[..k]);
      TakeIn(s, buffer, bits);
      buffer := Or(ShiftLeft(buffer, 6), index.value);
      bits := bits + 6;
      if bits >= 8 {
        bits := bits - 8;
        output := output + [And(ShiftRight(buffer, bits), 255)];
      }
    }
    assert text[..|text|] == text;
    return Ok(output);
  }
}
