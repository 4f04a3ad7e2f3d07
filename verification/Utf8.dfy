/** How long text is in bytes. */
module Utf8 {

  function Width(c: char): (w: nat)
    ensures 1 <= w <= 4
  {
    if c as int < 0x80 then 1 else if c as int < 0x800 then 2 else if c as int < 0x10000 then 3 else 4
  }

  function Bytes(s: string): (n: nat)
    ensures n >= |s|
  {
    if s == [] then 0 else Width(s[0]) + Bytes(s[1..])
  }

  lemma {:induction false} BytesConcat(a: string, b: string)
    ensures Bytes(a + b) == Bytes(a) + Bytes(b)
  {
    if a == [] {
      assert a + b == b;
    } else {
      assert (a + b)[1..] == a[1..] + b;
      BytesConcat(a[1..], b);
    }
  }

  // ---------------------------------------------------------------- what is counted

  type byte = x: int | 0 <= x < 0x100

  /** The bytes of a character (section 3 of RFC 3629). */
  function Encode(c: char): (r: seq<byte>)
    ensures r != []
  {
    var n := c as int;
    if n < 0x80 then [n]
    else if n < 0x800 then [0xC0 + n / 0x40, 0x80 + n % 0x40]
    else if n < 0x1_0000 then [0xE0 + n / 0x40 / 0x40, 0x80 + n / 0x40 % 0x40, 0x80 + n % 0x40]
    else [0xF0 + n / 0x40 / 0x40 / 0x40, 0x80 + n / 0x40 / 0x40 % 0x40, 0x80 + n / 0x40 % 0x40, 0x80 + n % 0x40]
  }

  function EncodeAll(text: string): seq<byte>
  {
    if text == "" then [] else Encode(text[0]) + EncodeAll(text[1..])
  }

  /** How many bytes belong together, as the first one tells. */
  function Led(first: byte): nat
  {
    if first < 0x80 then 1 else if first < 0xE0 then 2 else if first < 0xF0 then 3 else 4
  }

  /** What a byte behind the first one adds. */
  function More(sum: int, b: byte): int { sum * 0x40 + (b as int - 0x80) }

  /** The number that the first bytes stand for. */
  function Decode(bytes: seq<byte>): int
    requires bytes != [] && Led(bytes[0]) <= |bytes|
  {
    var first := bytes[0] as int;
    match Led(bytes[0])
    case 1 => first
    case 2 => More(first - 0xC0, bytes[1])
    case 3 => More(More(first - 0xE0, bytes[1]), bytes[2])
    case _ => More(More(More(first - 0xF0, bytes[1]), bytes[2]), bytes[3])
  }

  /** The bytes are those of the text, read from the front. */
  ghost predicate Reads(bytes: seq<byte>, text: string)
    decreases |text|
  {
    if text == "" then bytes == [] else
      && bytes != [] && Led(bytes[0]) <= |bytes| && Decode(bytes) == text[0] as int
      && Reads(bytes[Led(bytes[0])..], text[1..])
  }

  lemma MoreIs(n: nat)
    ensures More(n / 0x40, 0x80 + n % 0x40) == n
  {
  }

  lemma EncodedIs(c: char)
    ensures var bytes := Encode(c);
            Led(bytes[0]) == |bytes| == Width(c) && Decode(bytes) == c as int
  {
    var n := c as int;
    MoreIs(n);
    MoreIs(n / 0x40);
    MoreIs(n / 0x40 / 0x40);
  }

  lemma OneReads(c: char, rest: seq<byte>)
    ensures var bytes := Encode(c) + rest;
            && Led(bytes[0]) == |Encode(c)| == Width(c) && Decode(bytes) == c as int
            && bytes[Led(bytes[0])..] == rest
  {
    EncodedIs(c);
    ReadsFirst(Encode(c), rest);
  }

  lemma ReadsFirst(bytes: seq<byte>, rest: seq<byte>)
    requires bytes != [] && Led(bytes[0]) == |bytes|
    ensures Decode(bytes + rest) == Decode(bytes) && (bytes + rest)[Led((bytes + rest)[0])..] == rest
  {
  }

  /** The length in bytes is that of an encoding that can be read back. */
  lemma {:induction false} BytesAreRead(text: string)
    ensures |EncodeAll(text)| == Bytes(text) && Reads(EncodeAll(text), text)
  {
    if text != "" {
      OneReads(text[0], EncodeAll(text[1..]));
      BytesAreRead(text[1..]);
    }
  }
}
