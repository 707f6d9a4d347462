/**
 Go strings that need not be UTF-8.  `splitWords` ranges over runes, and a range reads every byte
 that starts no valid encoding as U+FFFD, so streaming rewrites such bytes while completion
 returns them as they are.  This file says exactly when that makes a difference.
 */
module RawText {
  import opened Domain
  import opened Texts
  import opened Utf8
  import Words

  type Bytes = seq<Byte>

  predicate Continues(b: int) {
    0x80 <= b <= 0xBF
  }

  /** How many bytes the valid encoding at the front of b takes (section 4 of RFC 3629), 0 if none. */
  function RuneLen(b: Bytes): (n: nat)
    ensures n <= |b| && n <= 4
  {
    if b == [] then 0
    else if b[0] < 0x80 then 1
    else if |b| < 2 then 0
    else if 0xC2 <= b[0] <= 0xDF then
      if Continues(b[1]) then 2 else 0
    else if |b| < 3 then 0
    else if 0xE0 <= b[0] <= 0xEF then
      var low := if b[0] == 0xE0 then 0xA0 else 0x80;
      var high := if b[0] == 0xED then 0x9F else 0xBF;
      if low <= b[1] <= high && Continues(b[2]) then 3 else 0
    else if |b| < 4 then 0
    else if 0xF0 <= b[0] <= 0xF4 then
      var low := if b[0] == 0xF0 then 0x90 else 0x80;
      var high := if b[0] == 0xF4 then 0x8F else 0xBF;
      if low <= b[1] <= high && Continues(b[2]) && Continues(b[3]) then 4 else 0
    else 0
  }

  function Join2(x: int, y: int): int {
    (x - 0xC0) * 0x40 + (y - 0x80)
  }

  function Join3(x: int, y: int, z: int): int {
    (x - 0xE0) * 0x1000 + (y - 0x80) * 0x40 + (z - 0x80)
  }

  function Join4(w: int, x: int, y: int, z: int): int {
    (w - 0xF0) * 0x40000 + (x - 0x80) * 0x1000 + (y - 0x80) * 0x40 + (z - 0x80)
  }

  /** The scalar value of a valid encoding. */
  function ScalarValue(b: Bytes): int
    requires RuneLen(b) > 0
  {
    match RuneLen(b)
    case 1 => b[0]
    case 2 => Join2(b[0], b[1])
    case 3 => Join3(b[0], b[1], b[2])
    case _ => Join4(b[0], b[1], b[2], b[3])
  }

  const REPLACEMENT: char := '\U{FFFD}'

  /** One step of a range loop: the rune, and how many bytes it stands for. */
  function NextRune(b: Bytes): (r: (char, nat))
    requires b != []
    ensures 1 <= r.1 <= |b|
  {
    var n := RuneLen(b);
    if n == 0 then (REPLACEMENT, 1)
    else
      var u := ScalarValue(b);
      assert 0 <= u < 0xD800 || 0xE000 <= u < 0x11_0000;
      (u as char, n)
  }

  /** The runes a range loop sees. */
  function Runes(b: Bytes): string
    decreases |b|
  {
    if b == [] then ""
    else
      var (c, n) := NextRune(b);
      [c] + Runes(b[n..])
  }

  /** The bytes of those runes: what is left of b when it passes through a range loop. */
  function Sanitize(b: Bytes): Bytes {
    Encode(Runes(b))
  }

  predicate IsUtf8(b: Bytes)
    decreases |b|
  {
    b == [] || (RuneLen(b) > 0 && IsUtf8(b[RuneLen(b)..]))
  }

  /** A valid encoding is the encoding of its scalar value. */
  lemma EncodingOfRune(b: Bytes)
    requires RuneLen(b) > 0
    ensures EncodeChar(NextRune(b).0) == b[..RuneLen(b)]
  {
    var u, n := ScalarValue(b), RuneLen(b);
    var x: int := b[0];
    if n == 2 {
      var y: int := b[1];
      Digits2(u, x - 0xC0, y - 0x80);
    } else if n == 3 {
      var y: int, z: int := b[1], b[2];
      Digits3(u, x - 0xE0, y - 0x80, z - 0x80);
    } else if n == 4 {
      var y: int, z: int, t: int := b[1], b[2], b[3];
      Digits4(u, x - 0xF0, y - 0x80, z - 0x80, t - 0x80);
    }
  }

  lemma Digits2(u: int, x: int, y: int)
    requires u == x * 0x40 + y && 0 <= y < 0x40
    ensures u / 0x40 == x && u % 0x40 == y
  {
  }

  lemma Digits3(u: int, x: int, y: int, z: int)
    requires u == x * 0x1000 + y * 0x40 + z && 0 <= y < 0x40 && 0 <= z < 0x40
    ensures u / 0x1000 == x && u / 0x40 % 0x40 == y && u % 0x40 == z
  {
    Digits2(u, x * 0x40 + y, z);
    Digits2(x * 0x40 + y, x, y);
    assert u == x * 0x1000 + (y * 0x40 + z);
  }

  lemma Digits4(u: int, w: int, x: int, y: int, z: int)
    requires u == w * 0x40000 + x * 0x1000 + y * 0x40 + z
    requires 0 <= x < 0x40 && 0 <= y < 0x40 && 0 <= z < 0x40
    ensures u / 0x40000 == w && u / 0x1000 % 0x40 == x && u / 0x40 % 0x40 == y && u % 0x40 == z
  {
    var t := w * 0x1000 + x * 0x40 + y;
    Digits2(u, t, z);
    Digits3(t, w, x, y);
    assert u / 0x1000 == w * 0x40 + x;
    Digits2(w * 0x40 + x, w, x);
    assert u / 0x40000 == w;
  }

  /** And the encoding of any character is valid and decodes to it. */
  lemma RuneOfEncoding(c: char, rest: Bytes)
    ensures var b := EncodeChar(c) + rest;
      RuneLen(b) == |EncodeChar(c)| && NextRune(b) == (c, |EncodeChar(c)|)
  {
    var b := EncodeChar(c) + rest;
    var u := c as int;
    forall i | 0 <= i < |EncodeChar(c)|
      ensures b[i] == EncodeChar(c)[i]
    {
    }
    if u < 0x80 {
    } else if u < 0x800 {
      Parts2(u);
    } else if u < 0x10000 {
      Parts3(u);
    } else {
      Parts4(u);
    }
  }

  lemma Parts2(u: int)
    requires 0x80 <= u < 0x800
    ensures 2 <= u / 0x40 < 0x20 && u == u / 0x40 * 0x40 + u % 0x40
  {
  }

  lemma Parts3(u: int)
    requires 0x800 <= u < 0x10000
    ensures 0 <= u / 0x1000 < 0x10
    ensures u == u / 0x1000 * 0x1000 + u / 0x40 % 0x40 * 0x40 + u % 0x40
    ensures u / 0x1000 == 0 ==> u / 0x40 % 0x40 >= 0x20
    ensures u / 0x1000 == 0xD && u < 0xD800 ==> u / 0x40 % 0x40 < 0x20
    ensures u / 0x1000 == 0xD ==> u < 0xE000
  {
    var t := u / 0x40;
    assert u == t * 0x40 + u % 0x40;
    assert t == t / 0x40 * 0x40 + t % 0x40;
    assert u / 0x1000 == t / 0x40;
  }

  lemma Parts4(u: int)
    requires 0x10000 <= u < 0x11_0000
    ensures 0 <= u / 0x40000 < 5
    ensures u == u / 0x40000 * 0x40000 + u / 0x1000 % 0x40 * 0x1000 + u / 0x40 % 0x40 * 0x40 + u % 0x40
    ensures u / 0x40000 == 0 ==> u / 0x1000 % 0x40 >= 0x10
    ensures u / 0x40000 == 4 ==> u / 0x1000 % 0x40 < 0x10
  {
    var t := u / 0x40;
    var q := t / 0x40;
    Quotients(u);
    assert u == t * 0x40 + u % 0x40;
    assert t == q * 0x40 + t % 0x40;
    assert q == q / 0x40 * 0x40 + q % 0x40;
    assert 0x10 <= q < 0x110;
  }

  lemma Quotients(u: int)
    requires 0 <= u
    ensures u / 0x1000 == u / 0x40 / 0x40
    ensures u / 0x40000 == u / 0x40 / 0x40 / 0x40
  {
    var t := u / 0x40;
    Digits3(u, t / 0x40, t % 0x40, u % 0x40);
    Digits3(t, t / 0x40 / 0x40, t / 0x40 % 0x40, t % 0x40);
    DivDiv(u, t, t / 0x40 / 0x40, t % 0x1000);
  }

  lemma DivDiv(u: int, t: int, q: int, r: int)
    requires t == u / 0x40 && t == q * 0x1000 + r && 0 <= r < 0x1000
    ensures u / 0x40000 == q
  {
  }

  /** Encoding a text and ranging over it gives the text back. */
  lemma {:induction false} RunesOfEncode(text: string)
    ensures Runes(Encode(text)) == text
    ensures IsUtf8(Encode(text))
  {
    if text != "" {
      var rest := Encode(text[1..]);
      var b := EncodeChar(text[0]) + rest;
      RuneOfEncoding(text[0], rest);
      RunesOfEncode(text[1..]);
      assert b[|EncodeChar(text[0])|..] == rest;
      assert [text[0]] + text[1..] == text;
    }
  }

  /** Every byte that starts no valid encoding costs two extra bytes. */
  function BadBytes(b: Bytes): nat
    decreases |b|
  {
    if b == [] then 0 else (if RuneLen(b) == 0 then 1 else 0) + BadBytes(b[NextRune(b).1..])
  }

  lemma SanitizeStep(b: Bytes)
    requires b != []
    ensures Sanitize(b) == EncodeChar(NextRune(b).0) + Sanitize(b[NextRune(b).1..])
  {
    var (c, n) := NextRune(b);
    assert Runes(b)[1..] == Runes(b[n..]);
  }

  lemma {:induction false} SanitizedLength(b: Bytes)
    ensures |Sanitize(b)| == |b| + 2 * BadBytes(b)
    decreases |b|
  {
    if b != [] {
      SanitizeStep(b);
      SanitizedLength(b[NextRune(b).1..]);
      if RuneLen(b) > 0 {
        EncodingOfRune(b);
      }
    }
  }

  lemma {:induction false} Utf8HasNoBadBytes(b: Bytes)
    ensures BadBytes(b) == 0 <==> IsUtf8(b)
    decreases |b|
  {
    if b != [] {
      Utf8HasNoBadBytes(b[NextRune(b).1..]);
    }
  }

  lemma Rejoin(b: Bytes, n: nat, whole: Bytes, tail: Bytes)
    requires n <= |b| && whole == b[..n] + tail && tail == b[n..]
    ensures whole == b
  {
  }

  lemma {:induction false} Utf8IsKept(b: Bytes)
    requires IsUtf8(b)
    ensures Sanitize(b) == b
    decreases |b|
  {
    if b != [] {
      var n := RuneLen(b);
      Utf8IsKept(b[n..]);
      SanitizeStep(b);
      EncodingOfRune(b);
      Rejoin(b, n, Sanitize(b), Sanitize(b[n..]));
    }
  }

  /** Ranging over a text changes nothing exactly when the text is UTF-8. */
  lemma SanitizeKeepsUtf8Only(b: Bytes)
    ensures Sanitize(b) == b <==> IsUtf8(b)
  {
    SanitizedLength(b);
    Utf8HasNoBadBytes(b);
    if IsUtf8(b) {
      Utf8IsKept(b);
    }
  }

  // ---- splitWords on bytes ----

  function EncodeAll(pieces: seq<string>): (r: seq<Bytes>)
    ensures |r| == |pieces|
    ensures forall i :: 0 <= i < |pieces| ==> r[i] == Encode(pieces[i])
  {
    seq(|pieces|, i requires 0 <= i < |pieces| => Encode(pieces[i]))
  }

  lemma {:induction false} ConcatEncoded(pieces: seq<string>)
    ensures Concat(EncodeAll(pieces)) == Encode(Concat(pieces))
  {
    if pieces != [] {
      ConcatEncoded(pieces[1..]);
      assert EncodeAll(pieces)[1..] == EncodeAll(pieces[1..]);
      EncodeConcat(pieces[0], Concat(pieces[1..]));
    }
  }

  /** The pieces of any text: those of its runes, encoded again. */
  function SplitBytes(b: Bytes): seq<Bytes> {
    EncodeAll(Words.SplitWords(Runes(b)))
  }

  lemma EncodeAllSnoc(pieces: seq<string>, piece: string)
    ensures EncodeAll(pieces + [piece]) == EncodeAll(pieces) + [Encode(piece)]
    ensures Concat(pieces + [piece]) == Concat(pieces) + piece
  {
    ConcatSnoc(pieces, piece);
  }

  lemma RunesStep(b: Bytes)
    requires b != []
    ensures Runes(b) == [NextRune(b).0] + Runes(b[NextRune(b).1..])
  {
  }

  /** What the loop knows: the bytes it holds are the encodings of pieces of the runes seen. */
  ghost predicate Cut(b: Bytes, rest: Bytes, pieces: seq<string>, open: string) {
    && Concat(pieces) + open + Runes(rest) == Runes(b)
    && ' ' !in open
    && forall k :: 0 <= k < |pieces| ==> Words.Closed(pieces[k])
  }

  /** The body of the loop on runes. */
  lemma CutStep(b: Bytes, rest: Bytes, pieces: seq<string>, open: string)
    requires rest != [] && Cut(b, rest, pieces, open)
    ensures var (c, n) := NextRune(rest);
      if c == ' ' then Cut(b, rest[n..], pieces + [open + [c]], "")
      else Cut(b, rest[n..], pieces, open + [c])
  {
    var (c, n) := NextRune(rest);
    RunesStep(rest);
    var all := Concat(pieces);
    assert all + (open + [c]) + Runes(rest[n..]) == all + open + Runes(rest);
    if c == ' ' {
      EncodeAllSnoc(pieces, open + [c]);
      assert all + (open + [c]) + "" == all + (open + [c]);
      assert (open + [c])[..|open|] == open;
    }
  }

  /** After the loop the pieces, with the open one if there is any, are the split. */
  lemma CutEnd(b: Bytes, pieces: seq<string>, open: string)
    requires Cut(b, [], pieces, open)
    ensures open != "" ==> Words.SplitWords(Runes(b)) == pieces + [open]
    ensures open == "" && pieces != [] ==> Words.SplitWords(Runes(b)) == pieces
    ensures open == "" && pieces == [] ==> b == []
  {
    var all := Concat(pieces);
    assert all + open + "" == all + open;
    if open != "" {
      EncodeAllSnoc(pieces, open);
      Words.SplitIsUnique(Runes(b), pieces + [open], Words.SplitWords(Runes(b)));
    } else if pieces != [] {
      assert all + "" == all;
      Words.SplitIsUnique(Runes(b), pieces, Words.SplitWords(Runes(b)));
    }
  }

  lemma SplitOfNothing()
    ensures SplitBytes([]) == [[]]
  {
    assert Words.SplitWords("") == [""];
  }

  method SplitBytesLoop(b: Bytes) returns (out: seq<Bytes>)
    ensures out == SplitBytes(b)
  {
    out := [];
    var cur: Bytes := [];
    var rest := b;
    ghost var pieces: seq<string> := [];
    ghost var open := "";
    assert "" + "" + Runes(b) == Runes(b);
    while rest != []
      invariant out == EncodeAll(pieces) && cur == Encode(open)
      invariant Cut(b, rest, pieces, open)
      decreases |rest|
    {
      var (r, n) := NextRune(rest);
      CutStep(b, rest, pieces, open);
      EncodeSnoc(open, r);
      cur := cur + EncodeChar(r);
      open := open + [r];
      if r == ' ' {
        EncodeAllSnoc(pieces, open);
        out := out + [cur];
        pieces := pieces + [open];
        cur := [];
        open := "";
      }
      rest := rest[n..];
    }
    CutEnd(b, pieces, open);
    if cur != [] {
      EncodeAllSnoc(pieces, open);
      out := out + [cur];
    }
    if |out| == 0 {
      SplitOfNothing();
      out := [b];
    }
  }

  lemma EncodeSnoc(text: string, c: char)
    ensures Encode(text + [c]) == Encode(text) + EncodeChar(c)
  {
    EncodeConcat(text, [c]);
    assert [c][1..] == "";
  }

  /**
   What a stream of any text delivers is its sanitized form; that is the text itself, the one
   `Complete` returns, exactly when the text is UTF-8.
   */
  lemma StreamedBytes(b: Bytes)
    ensures Concat(SplitBytes(b)) == Sanitize(b)
    ensures Concat(SplitBytes(b)) == b <==> IsUtf8(b)
  {
    ConcatEncoded(Words.SplitWords(Runes(b)));
    SanitizeKeepsUtf8Only(b);
  }

  /** On UTF-8 the byte-level split is the character-level one. */
  lemma SplitOfUtf8(text: string)
    ensures SplitBytes(Encode(text)) == EncodeAll(Words.SplitWords(text))
  {
    RunesOfEncode(text);
  }

  /** Sanitizing again changes nothing. */
  lemma SanitizeTwice(b: Bytes)
    ensures IsUtf8(Sanitize(b)) && Sanitize(Sanitize(b)) == Sanitize(b)
  {
    RunesOfEncode(Runes(b));
  }

  /**
   Go's JSON encoder replaces the same bytes in every string it writes, so no client sees the
   difference: the encoder changes nothing in any streamed piece, and the pieces join to what it
   makes of the whole text in a plain answer.
   */
  lemma JsonHidesStrayBytes(b: Bytes)
    ensures forall i :: 0 <= i < |SplitBytes(b)| ==> Sanitize(SplitBytes(b)[i]) == SplitBytes(b)[i]
    ensures Concat(SplitBytes(b)) == Sanitize(b)
  {
    var pieces := Words.SplitWords(Runes(b));
    forall i | 0 <= i < |pieces|
      ensures Sanitize(EncodeAll(pieces)[i]) == EncodeAll(pieces)[i]
    {
      RunesOfEncode(pieces[i]);
    }
    StreamedBytes(b);
  }

  /** One lone continuation byte is streamed as three others. */
  lemma LoneByteIsRewritten()
    ensures !IsUtf8([0x80]) && Concat(SplitBytes([0x80])) == [0xEF, 0xBF, 0xBD]
  {
    var b: Bytes := [0x80];
    StreamedBytes(b);
    assert b[1..] == [];
    assert Runes(b) == [REPLACEMENT] + Runes(b[1..]);
    assert Runes(b)[1..] == "";
    assert Encode(Runes(b)) == EncodeChar(REPLACEMENT) + Encode("");
    assert EncodeChar(REPLACEMENT) == [0xEF, 0xBF, 0xBD];
  }
}
