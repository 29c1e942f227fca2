// UTF-8 (RFC 3629) between bytes and Unicode scalar values, as the strict codec has it.

module Utf8 {
  import opened Common

  // ---------------------------------------------------------------------------------------------
  // Encoding
  // ---------------------------------------------------------------------------------------------

  /** The number of bytes a character takes. */
  function Width(c: char): (n: nat)
    ensures 1 <= n <= 4
  {
    var v := c as int;
    if v < 0x80 then 1 else if v < 0x800 then 2 else if v < 0x1_0000 then 3 else 4
  }

  function EncodeChar(c: char): (b: Bytes)
    ensures |b| == Width(c)
  {
    var v := c as int;
    if v < 0x80 then [v]
    else if v < 0x800 then [0xC0 + v / 0x40, 0x80 + v % 0x40]
    else
      var u := v / 0x40;
      if v < 0x1_0000 then [0xE0 + u / 0x40, 0x80 + u % 0x40, 0x80 + v % 0x40]
      else var t := u / 0x40; [0xF0 + t / 0x40, 0x80 + t % 0x40, 0x80 + u % 0x40, 0x80 + v % 0x40]
  }

  function Encode(s: string): Bytes {
    if s == [] then [] else EncodeChar(s[0]) + Encode(s[1..])
  }

  /** `len(s.encode("utf-8"))`. */
  function Size(s: string): nat {
    if s == [] then 0 else Width(s[0]) + Size(s[1..])
  }

  // ---------------------------------------------------------------------------------------------
  // Decoding (the table of RFC 3629, section 4)
  // ---------------------------------------------------------------------------------------------

  predicate Tail(b: Byte) {
    0x80 <= b <= 0xBF
  }

  /** The six bits that a tail byte carries. */
  function Low(b: Byte): int {
    b - 0x80
  }

  datatype Head = Malformed | Head(value: char, width: nat)

  /** The first character of `b`: the shortest form only, no surrogates, nothing above U+10FFFF. */
  function DecodeHead(b: Bytes): (h: Head)
    requires b != []
    ensures h.Head? ==> 1 <= h.width <= |b|
  {
    var x: int := b[0];
    if x < 0x80 then Head(x as char, 1)
    else if 0xC2 <= x <= 0xDF && |b| >= 2 && Tail(b[1]) then
      Head(((x - 0xC0) * 0x40 + Low(b[1])) as char, 2)
    else if 0xE0 <= x <= 0xEF && |b| >= 3 && Tail(b[1]) && Tail(b[2])
      && (x == 0xE0 ==> 0xA0 <= b[1]) && (x == 0xED ==> b[1] <= 0x9F)
    then Head((((x - 0xE0) * 0x40 + Low(b[1])) * 0x40 + Low(b[2])) as char, 3)
    else if 0xF0 <= x <= 0xF4 && |b| >= 4 && Tail(b[1]) && Tail(b[2]) && Tail(b[3])
      && (x == 0xF0 ==> 0x90 <= b[1]) && (x == 0xF4 ==> b[1] <= 0x8F)
    then Head(((((x - 0xF0) * 0x40 + Low(b[1])) * 0x40 + Low(b[2])) * 0x40 + Low(b[3])) as char, 4)
    else Malformed
  }

  function Decode(b: Bytes): Option<string>
    decreases |b|
  {
    if b == [] then Some([])
    else
      var h := DecodeHead(b);
      if h.Malformed? then None
      else
        var rest := Decode(b[h.width..]);
        if rest.None? then None else Some([h.value] + rest.value)
  }

  // ---------------------------------------------------------------------------------------------
  // Each undoes the other
  // ---------------------------------------------------------------------------------------------

  lemma DecodeHeadOfEncoded(c: char, rest: Bytes)
    ensures DecodeHead(EncodeChar(c) + rest) == Head(c, Width(c))
  {
  }

  lemma Digit(x: int, y: int)
    requires 0 <= x && 0 <= y < 0x40
    ensures (x * 0x40 + y) / 0x40 == x && (x * 0x40 + y) % 0x40 == y
  {
  }

  lemma EncodedPair(b: Bytes)
    requires b != [] && DecodeHead(b).Head? && DecodeHead(b).width == 2
    ensures EncodeChar(DecodeHead(b).value) == b[..2]
  {
    Digit(b[0] - 0xC0, Low(b[1]));
  }

  lemma EncodedTriple(b: Bytes)
    requires b != [] && DecodeHead(b).Head? && DecodeHead(b).width == 3
    ensures EncodeChar(DecodeHead(b).value) == b[..3]
  {
    Digit(b[0] - 0xE0, Low(b[1]));
    Digit((b[0] - 0xE0) * 0x40 + Low(b[1]), Low(b[2]));
  }

  lemma EncodedFour(b: Bytes)
    requires b != [] && DecodeHead(b).Head? && DecodeHead(b).width == 4
    ensures EncodeChar(DecodeHead(b).value) == b[..4]
  {
    Digit(b[0] - 0xF0, Low(b[1]));
    Digit((b[0] - 0xF0) * 0x40 + Low(b[1]), Low(b[2]));
    Digit(((b[0] - 0xF0) * 0x40 + Low(b[1])) * 0x40 + Low(b[2]), Low(b[3]));
  }

  lemma WidthIs(b: Bytes)
    requires b != [] && DecodeHead(b).Head?
    ensures DecodeHead(b).width <= 4
    ensures DecodeHead(b).width == 1 ==> EncodeChar(DecodeHead(b).value) == b[..1]
  {
  }

  lemma EncodedHead(b: Bytes)
    requires b != [] && DecodeHead(b).Head?
    ensures var h := DecodeHead(b); EncodeChar(h.value) == b[..h.width]
  {
    hide DecodeHead, EncodeChar;
    WidthIs(b);
    if DecodeHead(b).width == 2 {
      EncodedPair(b);
    } else if DecodeHead(b).width == 3 {
      EncodedTriple(b);
    } else if DecodeHead(b).width == 4 {
      EncodedFour(b);
    }
  }

  lemma {:induction false} DecodeOfEncode(s: string)
    ensures Decode(Encode(s)) == Some(s)
  {
    if s != [] {
      DecodeHeadOfEncoded(s[0], Encode(s[1..]));
      assert Encode(s)[Width(s[0])..] == Encode(s[1..]);
      DecodeOfEncode(s[1..]);
      assert [s[0]] + s[1..] == s;
    }
  }

  lemma {:induction false} EncodeOfDecode(b: Bytes)
    requires Decode(b).Some?
    ensures Encode(Decode(b).value) == b
    decreases |b|
  {
    if b != [] {
      var h := DecodeHead(b);
      EncodedHead(b);
      EncodeOfDecode(b[h.width..]);
      assert Decode(b).value[1..] == Decode(b[h.width..]).value;
      assert b[..h.width] + b[h.width..] == b;
    }
  }

  lemma {:induction false} SizeIsEncodedLength(s: string)
    ensures Size(s) == |Encode(s)|
  {
    if s != [] {
      SizeIsEncodedLength(s[1..]);
    }
  }

  lemma {:induction false} EncodeConcat(s: string, t: string)
    ensures Encode(s + t) == Encode(s) + Encode(t)
    ensures Size(s + t) == Size(s) + Size(t)
  {
    if s == [] {
      assert s + t == t;
    } else {
      assert (s + t)[1..] == s[1..] + t;
      EncodeConcat(s[1..], t);
    }
  }

  /** A byte below 0x80 stands for itself alone: an ASCII byte of the encoding is a character of the text. */
  lemma {:induction false} AsciiBytesAreCharacters(s: string, x: Byte)
    requires x < 0x80
    ensures x in Encode(s) <==> x as char in s
  {
    if s != [] {
      AsciiBytesAreCharacters(s[1..], x);
      assert x in EncodeChar(s[0]) <==> x as char == s[0];
      assert s == [s[0]] + s[1..];
    }
  }
}
