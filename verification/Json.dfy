/**
 JSON texts: the printer that stands for Go's `json.Marshal`, and a parser for RFC 8259.
 A provider's SDK struct reaches this model as a `Json` value.
 */
module Json {
  import opened Domain

  datatype Json =
    | Null
    | Bool(b: bool)
    | Num(numeral: Numeral)
    | Str(s: string)
    | Arr(items: seq<Json>)
    | Obj(members: seq<Member>)

  datatype Member = Member(name: string, value: Json)

  // ---- Numbers (section 6) ----

  predicate IsDigit(c: char) {
    '0' <= c <= '9'
  }

  /** The characters a number can be made of; none of them can follow a number in a JSON text. */
  predicate IsNumberChar(c: char) {
    IsDigit(c) || c in "+-.eE"
  }

  /** How many characters from the front are digits. */
  function Digits(s: string): (n: nat)
    ensures n <= |s|
    ensures forall i :: 0 <= i < n ==> IsDigit(s[i])
  {
    if s == "" || !IsDigit(s[0]) then 0 else 1 + Digits(s[1..])
  }

  /** After the integer part: an optional fraction, then an optional exponent. */
  predicate IsFractionAndExponent(s: string) {
    if s != "" && s[0] == '.' then
      var n := Digits(s[1..]);
      n > 0 && IsExponent(s[1 + n..])
    else IsExponent(s)
  }

  predicate IsExponent(s: string) {
    s == "" ||
    (s[0] in "eE" &&
     var digits := if |s| > 1 && s[1] in "+-" then s[2..] else s[1..];
     digits != "" && Digits(digits) == |digits|)
  }

  predicate IsNumeral(s: string) {
    var t := if s != "" && s[0] == '-' then s[1..] else s;
    var n := Digits(t);
    n > 0 && (t[0] == '0' ==> n == 1) && IsFractionAndExponent(t[n..])
  }

  type Numeral = s: string | IsNumeral(s) witness ZeroNumeral()

  function ZeroNumeral(): (s: string)
    ensures IsNumeral(s)
  {
    assert Digits("0") == 1 by { assert "0"[1..] == ""; }
    assert "0"[1..] == "";
    "0"
  }

  ghost predicate AllNumberChars(s: string) {
    forall c :: c in s ==> IsNumberChar(c)
  }

  lemma GlueChars(s: string, n: nat)
    requires n <= |s|
    requires forall i :: 0 <= i < n ==> IsNumberChar(s[i])
    requires AllNumberChars(s[n..])
    ensures AllNumberChars(s)
  {
    forall i | 0 <= i < |s|
      ensures IsNumberChar(s[i])
    {
      if i >= n {
        assert s[i] == s[n..][i - n];
      }
    }
  }

  lemma DigitsOnly(s: string)
    requires Digits(s) == |s|
    ensures AllNumberChars(s)
  {
  }

  lemma ExponentChars(s: string)
    requires IsExponent(s)
    ensures AllNumberChars(s)
  {
    if s != "" {
      var k := if |s| > 1 && s[1] in "+-" then 2 else 1;
      DigitsOnly(s[k..]);
      GlueChars(s, k);
    }
  }

  lemma FractionChars(s: string)
    requires IsFractionAndExponent(s)
    ensures AllNumberChars(s)
  {
    if s != "" && s[0] == '.' {
      var t := s[1..];
      var n := Digits(t);
      assert t[n..] == s[1 + n..];
      ExponentChars(t[n..]);
      GlueChars(t, n);
      GlueChars(s, 1);
    } else {
      ExponentChars(s);
    }
  }

  lemma NumeralChars(s: Numeral)
    ensures s != ""
    ensures AllNumberChars(s)
  {
    var k := if s != "" && s[0] == '-' then 1 else 0;
    var t := s[k..];
    assert k == 0 ==> t == s;
    FractionChars(t[Digits(t)..]);
    GlueChars(t, Digits(t));
    GlueChars(s, k);
  }

  // ---- Strings (section 7) ----

  function Hex(n: int): char
    requires 0 <= n < 16
  {
    if n < 10 then ('0' as int + n) as char else ('a' as int + n - 10) as char
  }

  /** The value of a hexadecimal digit of either case. */
  function HexValue(c: char): (r: Option<int>)
    ensures r.Some? ==> 0 <= r.value < 16
  {
    if IsDigit(c) then Some(c as int - '0' as int)
    else if 'a' <= c <= 'f' then Some(c as int - 'a' as int + 10)
    else if 'A' <= c <= 'F' then Some(c as int - 'A' as int + 10)
    else None
  }

  const BACKSPACE: char := '\U{08}'
  const FORM_FEED: char := '\U{0C}'
  const LINE_SEPARATOR: char := '\U{2028}'
  const PARAGRAPH_SEPARATOR: char := '\U{2029}'

  function UnicodeEscape(c: char): string
    requires c as int < 0x10000
  {
    var (high, low) := (c as int / 256, c as int % 256);
    "\\u" + [Hex(high / 16), Hex(high % 16), Hex(low / 16), Hex(low % 16)]
  }

  /** Go's escaping of one character, with HTML escaping on as `json.Marshal` has it. */
  function EscapeChar(c: char): (s: string)
    ensures s != ""
    ensures forall d :: d in s ==> d >= ' '
  {
    if c == '"' then "\\\""
    else if c == '\\' then "\\\\"
    else if c == BACKSPACE then "\\b"
    else if c == FORM_FEED then "\\f"
    else if c == '\n' then "\\n"
    else if c == '\r' then "\\r"
    else if c == '\t' then "\\t"
    else if c < ' ' || c in "<>&" || c == LINE_SEPARATOR || c == PARAGRAPH_SEPARATOR then UnicodeEscape(c)
    else [c]
  }

  function Escape(s: string): (t: string)
    ensures forall d :: d in t ==> d >= ' '
  {
    if s == "" then "" else EscapeChar(s[0]) + Escape(s[1..])
  }

  /** One character of a string body, and what follows it.  Surrogate escapes are not accepted. */
  function ParseChar(s: string): (r: Option<(char, string)>)
    ensures r.Some? ==> |r.value.1| < |s|
  {
    if s == "" || s[0] < ' ' || s[0] == '"' then None
    else if s[0] != '\\' then Some((s[0], s[1..]))
    else if |s| < 2 then None
    else match s[1]
      case '"' => Some(('"', s[2..]))
      case '\\' => Some(('\\', s[2..]))
      case '/' => Some(('/', s[2..]))
      case 'b' => Some((BACKSPACE, s[2..]))
      case 'f' => Some((FORM_FEED, s[2..]))
      case 'n' => Some(('\n', s[2..]))
      case 'r' => Some(('\r', s[2..]))
      case 't' => Some(('\t', s[2..]))
      case 'u' => ParseUnicodeEscape(s)
      case _ => None
  }

  function ParseUnicodeEscape(s: string): (r: Option<(char, string)>)
    requires |s| >= 2
    ensures r.Some? ==> |r.value.1| < |s|
  {
    if |s| < 6 then None
    else
      var (a, b, c, d) := (HexValue(s[2]), HexValue(s[3]), HexValue(s[4]), HexValue(s[5]));
      if a.None? || b.None? || c.None? || d.None? then None
      else
        var u := 256 * (16 * a.value + b.value) + (16 * c.value + d.value);
        if 0xD800 <= u < 0xE000 then None else Some((u as char, s[6..]))
  }

  /** The rest of a string after its opening quote, and what follows the closing one. */
  function ParseStringBody(s: string): (r: Option<(string, string)>)
    ensures r.Some? ==> |r.value.1| < |s|
    decreases |s|
  {
    if s != "" && s[0] == '"' then Some(("", s[1..]))
    else match ParseChar(s)
      case None => None
      case Some((c, rest)) =>
        match ParseStringBody(rest)
        case None => None
        case Some((text, rest')) => Some(([c] + text, rest'))
  }

  lemma HexRoundTrip(n: int)
    requires 0 <= n < 16
    ensures HexValue(Hex(n)) == Some(n)
  {
  }

  lemma UnicodeRoundTrip(c: char, rest: string)
    requires c as int < 0x10000
    ensures ParseChar(UnicodeEscape(c) + rest) == Some((c, rest))
  {
    var (high, low) := (c as int / 256, c as int % 256);
    var s := UnicodeEscape(c) + rest;
    assert s[0] == '\\' && s[1] == 'u';
    assert s[2] == Hex(high / 16) && s[3] == Hex(high % 16) && s[4] == Hex(low / 16) && s[5] == Hex(low % 16);
    assert s[6..] == rest;
    HexRoundTrip(high / 16);
    HexRoundTrip(high % 16);
    HexRoundTrip(low / 16);
    HexRoundTrip(low % 16);
    assert ParseUnicodeEscape(s) == Some((c, rest));
  }

  lemma CharRoundTrip(c: char, rest: string)
    ensures ParseChar(EscapeChar(c) + rest) == Some((c, rest))
    ensures EscapeChar(c)[0] != '"'
  {
    var s := EscapeChar(c) + rest;
    if EscapeChar(c) == [c] {
      assert s[0] == c && s[1..] == rest;
    } else if |EscapeChar(c)| == 2 {
      assert s[0] == '\\' && s[1] == EscapeChar(c)[1] && s[2..] == rest;
    } else {
      UnicodeRoundTrip(c, rest);
    }
  }

  lemma {:induction false} StringRoundTrip(text: string, rest: string)
    ensures ParseStringBody(Escape(text) + "\"" + rest) == Some((text, rest))
  {
    var s := Escape(text) + "\"" + rest;
    if text == "" {
      assert s[0] == '"' && s[1..] == rest;
    } else {
      var tail := Escape(text[1..]) + "\"" + rest;
      assert s == EscapeChar(text[0]) + tail;
      CharRoundTrip(text[0], tail);
      assert s[0] == EscapeChar(text[0])[0];
      StringRoundTrip(text[1..], rest);
      assert [text[0]] + text[1..] == text;
    }
  }

  // ---- Values ----

  function PrintString(s: string): string {
    "\"" + Escape(s) + "\""
  }

  function Print(j: Json): string
    decreases j, 1
  {
    match j
    case Null => "null"
    case Bool(b) => if b then "true" else "false"
    case Num(n) => n
    case Str(s) => PrintString(s)
    case Arr(items) => "[" + PrintItems(items) + "]"
    case Obj(members) => "{" + PrintMembers(members) + "}"
  }

  function PrintItems(items: seq<Json>): string
    decreases items, 0
  {
    if items == [] then ""
    else if |items| == 1 then Print(items[0])
    else Print(items[0]) + "," + PrintItems(items[1..])
  }

  function PrintMember(m: Member): string
    decreases m, 1
  {
    PrintString(m.name) + ":" + Print(m.value)
  }

  function PrintMembers(members: seq<Member>): string
    decreases members, 0
  {
    if members == [] then ""
    else if |members| == 1 then PrintMember(members[0])
    else PrintMember(members[0]) + "," + PrintMembers(members[1..])
  }

  predicate IsWhitespace(c: char) {
    c in " \t\n\r"
  }

  function SkipWhitespace(s: string): (t: string)
    ensures |t| <= |s|
    ensures t != "" ==> !IsWhitespace(t[0])
  {
    if s == "" || !IsWhitespace(s[0]) then s else SkipWhitespace(s[1..])
  }

  function NumberRun(s: string): (n: nat)
    ensures n <= |s|
  {
    if s == "" || !IsNumberChar(s[0]) then 0 else 1 + NumberRun(s[1..])
  }

  predicate StartsWith(s: string, prefix: string) {
    prefix <= s
  }

  /** A literal name or a number at the front of t. */
  function ParseScalar(t: string): (r: Option<(Json, string)>)
    ensures r.Some? ==> |r.value.1| < |t|
  {
    if StartsWith(t, "null") then Some((Null, t[4..]))
    else if StartsWith(t, "true") then Some((Bool(true), t[4..]))
    else if StartsWith(t, "false") then Some((Bool(false), t[5..]))
    else
      var n := NumberRun(t);
      if n > 0 && IsNumeral(t[..n]) then Some((Num(t[..n]), t[n..])) else None
  }

  /** A value at the front of s, with any whitespace before it, and what follows it. */
  function ParseValue(s: string): (r: Option<(Json, string)>)
    ensures r.Some? ==> |r.value.1| < |s|
    decreases |s|, 1
  {
    var t := SkipWhitespace(s);
    if t == "" then None
    else match t[0]
      case '"' =>
        (match ParseStringBody(t[1..])
         case None => None
         case Some((text, rest)) => Some((Str(text), rest)))
      case '[' => ParseArray(t[1..])
      case '{' => ParseObject(t[1..])
      case _ => ParseScalar(t)
  }

  /** The rest of an array after its opening bracket. */
  function ParseArray(s: string): (r: Option<(Json, string)>)
    ensures r.Some? ==> |r.value.1| < |s|
    decreases |s|, 3
  {
    var u := SkipWhitespace(s);
    if u != "" && u[0] == ']' then Some((Arr([]), u[1..]))
    else
      match ParseItems(s)
      case None => None
      case Some((items, rest)) => Some((Arr(items), rest))
  }

  /** The rest of an object after its opening brace. */
  function ParseObject(s: string): (r: Option<(Json, string)>)
    ensures r.Some? ==> |r.value.1| < |s|
    decreases |s|, 3
  {
    var u := SkipWhitespace(s);
    if u != "" && u[0] == '}' then Some((Obj([]), u[1..]))
    else
      match ParseMembers(s)
      case None => None
      case Some((members, rest)) => Some((Obj(members), rest))
  }

  /** One or more values separated by commas, up to and including the closing bracket. */
  function ParseItems(s: string): (r: Option<(seq<Json>, string)>)
    ensures r.Some? ==> |r.value.1| < |s|
    decreases |s|, 2
  {
    match ParseValue(s)
    case None => None
    case Some((item, rest)) =>
      var t := SkipWhitespace(rest);
      if t == "" then None
      else if t[0] == ']' then Some(([item], t[1..]))
      else if t[0] != ',' then None
      else
        match ParseItems(t[1..])
        case None => None
        case Some((items, rest')) => Some(([item] + items, rest'))
  }

  function ParseMember(s: string): (r: Option<(Member, string)>)
    ensures r.Some? ==> |r.value.1| < |s|
    decreases |s|, 0
  {
    var t := SkipWhitespace(s);
    if t == "" || t[0] != '"' then None
    else
      match ParseStringBody(t[1..])
      case None => None
      case Some((name, rest)) =>
        var u := SkipWhitespace(rest);
        if u == "" || u[0] != ':' then None
        else
          match ParseValue(u[1..])
          case None => None
          case Some((value, rest')) => Some((Member(name, value), rest'))
  }

  function ParseMembers(s: string): (r: Option<(seq<Member>, string)>)
    ensures r.Some? ==> |r.value.1| < |s|
    decreases |s|, 2
  {
    match ParseMember(s)
    case None => None
    case Some((m, rest)) =>
      var t := SkipWhitespace(rest);
      if t == "" then None
      else if t[0] == '}' then Some(([m], t[1..]))
      else if t[0] != ',' then None
      else
        match ParseMembers(t[1..])
        case None => None
        case Some((members, rest')) => Some(([m] + members, rest'))
  }

  /** A whole JSON text: one value and nothing but whitespace around it (section 2). */
  function Parse(s: string): Option<Json> {
    match ParseValue(s)
    case None => None
    case Some((j, rest)) => if SkipWhitespace(rest) == "" then Some(j) else None
  }

  /** A decoder that gets back whatever was encoded. */
  ghost predicate Undoes<T(!new)>(dec: Json -> Option<T>, enc: T -> Json) {
    forall x :: dec(enc(x)) == Some(x)
  }

  /** A client's view of a JSON text: parse it, then decode it. */
  function ParseWith<T>(s: string, dec: Json -> Option<T>): Option<T> {
    match Parse(s)
    case None => None
    case Some(j) => dec(j)
  }

  /** The items of an array, if all of them decode. */
  function DecodeAll<T>(items: seq<Json>, dec: Json -> Option<T>): Option<seq<T>> {
    if items == [] then Some([])
    else
      var x, rest := dec(items[0]), DecodeAll(items[1..], dec);
      if x.Some? && rest.Some? then Some([x.value] + rest.value) else None
  }

  // ---- Parsing undoes printing ----

  /** What may stand after a printed value: nothing that could be read as more of a number. */
  predicate Delimits(rest: string) {
    rest == "" || !IsNumberChar(rest[0])
  }

  lemma {:induction false} NumberRunStops(n: string, rest: string)
    requires forall c :: c in n ==> IsNumberChar(c)
    requires Delimits(rest)
    ensures NumberRun(n + rest) == |n|
  {
    if n == "" {
      assert n + rest == rest;
    } else {
      assert (n + rest)[1..] == n[1..] + rest;
      NumberRunStops(n[1..], rest);
    }
  }

  lemma ScalarValue(s: string)
    requires s != "" && !IsWhitespace(s[0]) && s[0] !in "\"[{"
    ensures ParseValue(s) == ParseScalar(s)
  {
  }

  lemma OtherStart(s: string, prefix: string)
    requires s != "" && prefix != "" && s[0] != prefix[0]
    ensures !StartsWith(s, prefix)
  {
  }

  lemma NumberRoundTrip(n: Numeral, rest: string)
    requires Delimits(rest)
    ensures ParseValue(n + rest) == Some((Num(n), rest))
  {
    NumeralChars(n);
    NumberRunStops(n, rest);
    var s := n + rest;
    assert s[0] == n[0] && n[0] in n;
    ScalarValue(s);
    OtherStart(s, "null");
    OtherStart(s, "true");
    OtherStart(s, "false");
    assert s[..|n|] == n && s[|n|..] == rest;
  }

  lemma LiteralRoundTrip(j: Json, rest: string)
    requires j.Null? || j.Bool?
    ensures ParseValue(Print(j) + rest) == Some((j, rest))
  {
    var s := Print(j) + rest;
    assert s[0] == Print(j)[0];
    ScalarValue(s);
    assert Print(j) <= s;
    assert s[|Print(j)|..] == rest;
    if j == Bool(false) {
      OtherStart(s, "null");
      OtherStart(s, "true");
    } else if j == Bool(true) {
      OtherStart(s, "null");
    }
  }

  lemma TextRoundTrip(text: string, rest: string)
    ensures ParseValue(PrintString(text) + rest) == Some((Str(text), rest))
  {
    var s := PrintString(text) + rest;
    assert s[0] == '"';
    assert s[1..] == Escape(text) + "\"" + rest;
    StringRoundTrip(text, rest);
  }

  // How the parser moves over one token, whatever stands behind it.

  lemma ReadArray(t: string, items: seq<Json>, rest: string)
    requires t != "" && !IsWhitespace(t[0]) && t[0] != ']'
    requires ParseItems(t) == Some((items, rest))
    ensures ParseValue("[" + t) == Some((Arr(items), rest))
  {
    assert ("[" + t)[1..] == t;
  }

  lemma ReadEmptyArray(rest: string)
    ensures ParseValue("[]" + rest) == Some((Arr([]), rest))
  {
    var s := "[]" + rest;
    assert s[1..][0] == ']' && s[1..][1..] == rest;
    assert SkipWhitespace(s[1..]) == s[1..];
    assert ParseArray(s[1..]) == Some((Arr([]), rest));
  }

  lemma ReadObject(t: string, members: seq<Member>, rest: string)
    requires t != "" && !IsWhitespace(t[0]) && t[0] != '}'
    requires ParseMembers(t) == Some((members, rest))
    ensures ParseValue("{" + t) == Some((Obj(members), rest))
  {
    assert ("{" + t)[1..] == t;
  }

  lemma ReadEmptyObject(rest: string)
    ensures ParseValue("{}" + rest) == Some((Obj([]), rest))
  {
    var s := "{}" + rest;
    assert s[1..][0] == '}' && s[1..][1..] == rest;
    assert SkipWhitespace(s[1..]) == s[1..];
    assert ParseObject(s[1..]) == Some((Obj([]), rest));
  }

  lemma ReadLastItem(s: string, item: Json, rest: string)
    requires ParseValue(s) == Some((item, "]" + rest))
    ensures ParseItems(s) == Some(([item], rest))
  {
    assert ("]" + rest)[1..] == rest;
  }

  lemma ReadItem(s: string, item: Json, tail: string, items: seq<Json>, rest: string)
    requires ParseValue(s) == Some((item, "," + tail))
    requires ParseItems(tail) == Some((items, rest))
    ensures ParseItems(s) == Some(([item] + items, rest))
  {
    assert ("," + tail)[1..] == tail;
  }

  lemma ReadLastMember(s: string, m: Member, rest: string)
    requires ParseMember(s) == Some((m, "}" + rest))
    ensures ParseMembers(s) == Some(([m], rest))
  {
    assert ("}" + rest)[1..] == rest;
  }

  lemma ReadMember(s: string, m: Member, tail: string, members: seq<Member>, rest: string)
    requires ParseMember(s) == Some((m, "," + tail))
    requires ParseMembers(tail) == Some((members, rest))
    ensures ParseMembers(s) == Some(([m] + members, rest))
  {
    assert ("," + tail)[1..] == tail;
  }

  lemma ReadName(t: string, name: string, after: string, value: Json, rest: string)
    requires ParseStringBody(t) == Some((name, ":" + after))
    requires ParseValue(after) == Some((value, rest))
    ensures ParseMember("\"" + t) == Some((Member(name, value), rest))
  {
    assert ("\"" + t)[1..] == t;
    assert (":" + after)[1..] == after;
  }

  /** A printed value starts with a character that is neither white nor a closing bracket. */
  lemma PrintStart(j: Json)
    ensures Print(j) != ""
    ensures !IsWhitespace(Print(j)[0]) && Print(j)[0] != ']'
  {
    if j.Num? {
      NumeralChars(j.numeral);
      assert j.numeral[0] in j.numeral;
    }
  }

  // How a printed list falls apart at its first comma.

  lemma Regroup(a: string, b: string, c: string, d: string, e: string)
    ensures (a + b + c) + d + e == a + (b + (c + d + e))
  {
    assert (a + b + c) + d == a + b + (c + d);
  }

  lemma PrintLastItem(items: seq<Json>, rest: string)
    requires |items| == 1
    ensures PrintItems(items) + "]" + rest == Print(items[0]) + ("]" + rest)
  {
  }

  lemma PrintFirstItem(items: seq<Json>, rest: string)
    requires |items| > 1
    ensures PrintItems(items) + "]" + rest == Print(items[0]) + ("," + (PrintItems(items[1..]) + "]" + rest))
  {
    Regroup(Print(items[0]), ",", PrintItems(items[1..]), "]", rest);
  }

  lemma PrintLastMember(members: seq<Member>, rest: string)
    requires |members| == 1
    ensures PrintMembers(members) + "}" + rest == PrintMember(members[0]) + ("}" + rest)
  {
  }

  lemma PrintFirstMember(members: seq<Member>, rest: string)
    requires |members| > 1
    ensures PrintMembers(members) + "}" + rest ==
            PrintMember(members[0]) + ("," + (PrintMembers(members[1..]) + "}" + rest))
  {
    Regroup(PrintMember(members[0]), ",", PrintMembers(members[1..]), "}", rest);
  }

  lemma PrintNameValue(m: Member, rest: string)
    ensures PrintMember(m) + rest == "\"" + (Escape(m.name) + "\"" + (":" + (Print(m.value) + rest)))
  {
  }

  lemma PrintArray(items: seq<Json>, rest: string)
    ensures Print(Arr(items)) + rest == "[" + (PrintItems(items) + "]" + rest)
    ensures items == [] ==> Print(Arr(items)) + rest == "[]" + rest
  {
    var body := PrintItems(items);
    assert Print(Arr(items)) == "[" + body + "]";
    assert items == [] ==> body == "";
  }

  lemma PrintObject(members: seq<Member>, rest: string)
    ensures Print(Obj(members)) + rest == "{" + (PrintMembers(members) + "}" + rest)
    ensures members == [] ==> Print(Obj(members)) + rest == "{}" + rest
  {
    var body := PrintMembers(members);
    assert Print(Obj(members)) == "{" + body + "}";
    assert members == [] ==> body == "";
  }

  lemma ItemsStart(items: seq<Json>, rest: string)
    requires items != []
    ensures var t := PrintItems(items) + "]" + rest; !IsWhitespace(t[0]) && t[0] != ']'
  {
    PrintStart(items[0]);
    assert PrintItems(items)[0] == Print(items[0])[0];
  }

  lemma MembersStart(members: seq<Member>, rest: string)
    requires members != []
    ensures (PrintMembers(members) + "}" + rest)[0] == '"'
  {
    assert PrintMember(members[0])[0] == '"';
    assert PrintMembers(members)[0] == PrintMember(members[0])[0];
  }

  lemma {:induction false} ValueRoundTrip(j: Json, rest: string)
    requires Delimits(rest)
    ensures ParseValue(Print(j) + rest) == Some((j, rest))
    decreases j, 1
  {
    match j
    case Null => LiteralRoundTrip(j, rest);
    case Bool(b) => LiteralRoundTrip(j, rest);
    case Num(n) => NumberRoundTrip(n, rest);
    case Str(text) => TextRoundTrip(text, rest);
    case Arr(items) => ArrayRoundTrip(items, rest);
    case Obj(members) => ObjectRoundTrip(members, rest);
  }

  lemma {:induction false} ArrayRoundTrip(items: seq<Json>, rest: string)
    ensures ParseValue(Print(Arr(items)) + rest) == Some((Arr(items), rest))
    decreases items, 1
  {
    PrintArray(items, rest);
    if items == [] {
      ReadEmptyArray(rest);
    } else {
      ItemsRoundTrip(items, rest);
      ItemsStart(items, rest);
      ReadArray(PrintItems(items) + "]" + rest, items, rest);
    }
  }

  lemma {:induction false} ObjectRoundTrip(members: seq<Member>, rest: string)
    ensures ParseValue(Print(Obj(members)) + rest) == Some((Obj(members), rest))
    decreases members, 1
  {
    PrintObject(members, rest);
    if members == [] {
      ReadEmptyObject(rest);
    } else {
      MembersRoundTrip(members, rest);
      MembersStart(members, rest);
      ReadObject(PrintMembers(members) + "}" + rest, members, rest);
    }
  }

  lemma {:induction false} ItemsRoundTrip(items: seq<Json>, rest: string)
    requires items != []
    ensures ParseItems(PrintItems(items) + "]" + rest) == Some((items, rest))
    decreases items, 0
  {
    var s := PrintItems(items) + "]" + rest;
    if |items| == 1 {
      PrintLastItem(items, rest);
      ValueRoundTrip(items[0], "]" + rest);
      ReadLastItem(s, items[0], rest);
      assert items == [items[0]];
    } else {
      var tail := PrintItems(items[1..]) + "]" + rest;
      PrintFirstItem(items, rest);
      ValueRoundTrip(items[0], "," + tail);
      ItemsRoundTrip(items[1..], rest);
      ReadItem(s, items[0], tail, items[1..], rest);
      assert items == [items[0]] + items[1..];
    }
  }

  lemma {:induction false} MemberRoundTrip(m: Member, rest: string)
    requires Delimits(rest)
    ensures ParseMember(PrintMember(m) + rest) == Some((m, rest))
    decreases m, 1
  {
    var after := Print(m.value) + rest;
    PrintNameValue(m, rest);
    StringRoundTrip(m.name, ":" + after);
    ValueRoundTrip(m.value, rest);
    ReadName(Escape(m.name) + "\"" + (":" + after), m.name, after, m.value, rest);
  }

  lemma {:induction false} MembersRoundTrip(members: seq<Member>, rest: string)
    requires members != []
    ensures ParseMembers(PrintMembers(members) + "}" + rest) == Some((members, rest))
    decreases members, 0
  {
    var s := PrintMembers(members) + "}" + rest;
    if |members| == 1 {
      PrintLastMember(members, rest);
      MemberRoundTrip(members[0], "}" + rest);
      ReadLastMember(s, members[0], rest);
      assert members == [members[0]];
    } else {
      var tail := PrintMembers(members[1..]) + "}" + rest;
      PrintFirstMember(members, rest);
      MemberRoundTrip(members[0], "," + tail);
      MembersRoundTrip(members[1..], rest);
      ReadMember(s, members[0], tail, members[1..], rest);
      assert members == [members[0]] + members[1..];
    }
  }

  /** Every printed value reads back as itself. */
  lemma ParsePrint(j: Json)
    ensures Parse(Print(j)) == Some(j)
  {
    ValueRoundTrip(j, "");
    assert Print(j) + "" == Print(j);
  }

  /** A printed value has no control character, so no line break, whatever text it carries. */
  lemma {:induction false} PrintHasNoControl(j: Json)
    ensures forall c :: c in Print(j) ==> c >= ' '
    decreases j, 1
  {
    match j
    case Null =>
    case Bool(_) =>
    case Num(n) => NumeralChars(n);
    case Str(_) =>
    case Arr(items) => ItemsHaveNoControl(items);
    case Obj(members) => MembersHaveNoControl(members);
  }

  lemma {:induction false} ItemsHaveNoControl(items: seq<Json>)
    ensures forall c :: c in PrintItems(items) ==> c >= ' '
    decreases items, 0
  {
    if items != [] {
      PrintHasNoControl(items[0]);
      ItemsHaveNoControl(items[1..]);
    }
  }

  lemma {:induction false} MembersHaveNoControl(members: seq<Member>)
    ensures forall c :: c in PrintMembers(members) ==> c >= ' '
    decreases members, 0
  {
    if members != [] {
      PrintHasNoControl(members[0].value);
      assert forall c :: c in PrintMember(members[0]) ==> c >= ' ';
      MembersHaveNoControl(members[1..]);
    }
  }
}
