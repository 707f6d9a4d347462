/**
 A Go string that holds valid UTF-8 is modelled as the sequence of its Unicode scalar values.
 `Encode` gives its bytes (section 3 of RFC 3629), and `Len` is what Go's `len` returns.
 */
module Utf8 {

  type Byte = x: int | 0 <= x < 256

  function EncodeChar(c: char): (bytes: seq<Byte>)
    ensures 1 <= |bytes| <= 4
  {
    var u := c as int;
    if u < 0x80 then [u]
    else if u < 0x800 then [0xC0 + u / 0x40, 0x80 + u % 0x40]
    else if u < 0x10000 then [0xE0 + u / 0x1000, 0x80 + u / 0x40 % 0x40, 0x80 + u % 0x40]
    else [0xF0 + u / 0x40000, 0x80 + u / 0x1000 % 0x40, 0x80 + u / 0x40 % 0x40, 0x80 + u % 0x40]
  }

  function Encode(text: string): seq<Byte> {
    if text == "" then [] else EncodeChar(text[0]) + Encode(text[1..])
  }

  function Len(text: string): nat {
    |Encode(text)|
  }

  lemma {:induction false} EncodeConcat(a: string, b: string)
    ensures Encode(a + b) == Encode(a) + Encode(b)
    ensures Len(a + b) == Len(a) + Len(b)
  {
    if a == "" {
      assert a + b == b;
    } else {
      assert (a + b)[1..] == a[1..] + b;
      EncodeConcat(a[1..], b);
    }
  }

  /** Only a space encodes to a byte 0x20, so cutting after spaces never cuts inside a character. */
  lemma {:induction false} SpaceByte(text: string)
    ensures 0x20 in Encode(text) <==> ' ' in text
  {
    if text != "" {
      SpaceByte(text[1..]);
      assert 0x20 in EncodeChar(text[0]) <==> text[0] == ' ';
      assert text == [text[0]] + text[1..];
    }
  }
}
