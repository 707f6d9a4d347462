/**
 Server-sent events: the frames the OpenAI adapter prints, and the event-stream interpretation
 of section 9.2.6 of the WHATWG HTML standard.
 */
module Sse {
  import opened Texts

  datatype Event = Event(kind: string, data: string)

  /** The two frame shapes: an anonymous data line, or an event line and a data line. */
  datatype Frame = Data(payload: string) | Named(kind: string, payload: string)

  function FrameText(f: Frame): string {
    match f
    case Data(p) => "data: " + p + "\n\n"
    case Named(k, p) => "event: " + k + "\ndata: " + p + "\n\n"
  }

  function FrameTexts(fs: seq<Frame>): (texts: seq<string>)
    ensures |texts| == |fs|
    ensures forall i :: 0 <= i < |fs| ==> texts[i] == FrameText(fs[i])
  {
    seq(|fs|, i requires 0 <= i < |fs| => FrameText(fs[i]))
  }

  lemma FrameTextsSnoc(fs: seq<Frame>, f: Frame)
    ensures FrameTexts(fs + [f]) == FrameTexts(fs) + [FrameText(f)]
  {
  }

  /** The text of a whole stream. */
  function Frames(fs: seq<Frame>): string {
    Concat(FrameTexts(fs))
  }

  // ---- The receiving side ----

  const BYTE_ORDER_MARK: char := '\U{FEFF}'

  predicate OneLine(s: string) {
    '\n' !in s && '\r' !in s
  }

  /** Where the first line of s ends. */
  function LineEnd(s: string): (n: nat)
    ensures n <= |s|
    ensures n < |s| ==> s[n] in "\r\n"
  {
    if s == "" || s[0] in "\r\n" then 0 else 1 + LineEnd(s[1..])
  }

  function Colon(s: string): (n: nat)
    ensures n <= |s|
  {
    if s == "" || s[0] == ':' then 0 else 1 + Colon(s[1..])
  }

  /** The event type buffer and the data buffer. */
  datatype Buffers = Buffers(kind: string, data: string)

  const EMPTY := Buffers("", "")

  /** One non-empty line: a comment, a field with a value, or a field name alone. */
  function Field(line: string, b: Buffers): Buffers {
    var n := Colon(line);
    var name := line[..n];
    var value :=
      if n == |line| then ""
      else if n + 1 < |line| && line[n + 1] == ' ' then line[n + 2..]
      else line[n + 1..];
    if name == "event" then b.(kind := value)
    else if name == "data" then b.(data := b.data + value + "\n")
    else b
  }

  /** An empty line: the event that the buffers hold, if they hold any data. */
  function Dispatch(b: Buffers): seq<Event> {
    if b.data == "" then []
    else [Event(if b.kind == "" then "message" else b.kind, b.data[..|b.data| - 1])]
  }

  function Interpret(s: string, b: Buffers): seq<Event>
    decreases |s|
  {
    var n := LineEnd(s);
    if n == |s| then []
    else
      var line := s[..n];
      var rest := if s[n] == '\r' && n + 1 < |s| && s[n + 1] == '\n' then s[n + 2..] else s[n + 1..];
      if line == "" then Dispatch(b) + Interpret(rest, EMPTY) else Interpret(rest, Field(line, b))
  }

  /** All the events of a stream; one leading byte order mark is ignored. */
  function ParseStream(s: string): seq<Event> {
    if s != "" && s[0] == BYTE_ORDER_MARK then Interpret(s[1..], EMPTY) else Interpret(s, EMPTY)
  }

  // ---- Parsing undoes printing ----

  lemma {:induction false} LineEndAt(line: string, rest: string)
    requires OneLine(line)
    ensures LineEnd(line + "\n" + rest) == |line|
  {
    if line == "" {
      assert (line + "\n" + rest)[0] == '\n';
    } else {
      assert (line + "\n" + rest)[1..] == line[1..] + "\n" + rest;
      LineEndAt(line[1..], rest);
    }
  }

  lemma {:induction false} ColonAt(name: string, rest: string)
    requires ':' !in name
    ensures Colon(name + ":" + rest) == |name|
  {
    if name == "" {
      assert (name + ":" + rest)[0] == ':';
    } else {
      assert (name + ":" + rest)[1..] == name[1..] + ":" + rest;
      ColonAt(name[1..], rest);
    }
  }

  lemma ReadLine(s: string, line: string, rest: string, b: Buffers)
    requires OneLine(line)
    requires s == line + "\n" + rest
    ensures Interpret(s, b) ==
            if line == "" then Dispatch(b) + Interpret(rest, EMPTY) else Interpret(rest, Field(line, b))
  {
    LineEndAt(line, rest);
    assert s[..|line|] == line && s[|line|] == '\n' && s[|line| + 1..] == rest;
  }

  lemma DataField(p: string, b: Buffers)
    ensures Field("data: " + p, b) == b.(data := b.data + p + "\n")
  {
    var line := "data: " + p;
    assert line == "data" + ":" + (" " + p);
    ColonAt("data", " " + p);
    assert line[..4] == "data" && line[5] == ' ' && line[6..] == p;
  }

  lemma EventField(k: string, b: Buffers)
    ensures Field("event: " + k, b) == b.(kind := k)
  {
    var line := "event: " + k;
    assert line == "event" + ":" + (" " + k);
    ColonAt("event", " " + k);
    assert line[..5] == "event" && line[6] == ' ' && line[7..] == k;
  }

  ghost predicate Printable(f: Frame) {
    OneLine(f.payload) && (f.Named? ==> OneLine(f.kind) && f.kind != "")
  }

  function Received(f: Frame): Event {
    match f
    case Data(p) => Event("message", p)
    case Named(k, p) => Event(k, p)
  }

  lemma ReadData(s: string, p: string, rest: string, kind: string)
    requires OneLine(p)
    requires s == "data: " + p + "\n" + rest
    ensures Interpret(s, Buffers(kind, "")) == Interpret(rest, Buffers(kind, p + "\n"))
  {
    DataField(p, Buffers(kind, ""));
    assert "" + p + "\n" == p + "\n";
    ReadLine(s, "data: " + p, rest, Buffers(kind, ""));
  }

  lemma ReadEvent(s: string, k: string, rest: string)
    requires OneLine(k)
    requires s == "event: " + k + "\n" + rest
    ensures Interpret(s, EMPTY) == Interpret(rest, Buffers(k, ""))
  {
    EventField(k, EMPTY);
    ReadLine(s, "event: " + k, rest, EMPTY);
  }

  lemma ReadBlank(s: string, kind: string, p: string, rest: string)
    requires s == "\n" + rest
    ensures Interpret(s, Buffers(kind, p + "\n")) ==
            [Event(if kind == "" then "message" else kind, p)] + Interpret(rest, EMPTY)
  {
    var b := Buffers(kind, p + "\n");
    ReadLine(s, "", rest, b);
    assert b.data[..|b.data| - 1] == p;
  }

  /** A data line and the empty line after it deliver one event. */
  lemma ReadDataLines(s: string, kind: string, p: string, rest: string)
    requires OneLine(p)
    requires s == "data: " + p + "\n" + ("\n" + rest)
    ensures Interpret(s, Buffers(kind, "")) ==
            [Event(if kind == "" then "message" else kind, p)] + Interpret(rest, EMPTY)
  {
    ReadData(s, p, "\n" + rest, kind);
    ReadBlank("\n" + rest, kind, p, rest);
  }

  lemma DataLines(p: string, rest: string)
    ensures FrameText(Data(p)) + rest == "data: " + p + "\n" + ("\n" + rest)
  {
    assert "\n\n" == "\n" + "\n";
  }

  lemma NamedLines(k: string, p: string, rest: string)
    ensures FrameText(Named(k, p)) + rest == "event: " + k + "\n" + ("data: " + p + "\n" + ("\n" + rest))
  {
    var data: string := "data: ";
    assert "\ndata: " == "\n" + data;
    assert "\n\n" == "\n" + "\n";
  }

  lemma FrameRoundTrip(f: Frame, rest: string)
    requires Printable(f)
    ensures Interpret(FrameText(f) + rest, EMPTY) == [Received(f)] + Interpret(rest, EMPTY)
  {
    match f
    case Data(p) =>
      DataLines(p, rest);
      ReadDataLines(FrameText(f) + rest, "", p, rest);
    case Named(k, p) =>
      var lines := "data: " + p + "\n" + ("\n" + rest);
      NamedLines(k, p, rest);
      ReadEvent(FrameText(f) + rest, k, lines);
      ReadDataLines(lines, k, p, rest);
  }

  function ReceivedAll(fs: seq<Frame>): (es: seq<Event>)
    ensures |es| == |fs|
    ensures forall i :: 0 <= i < |fs| ==> es[i] == Received(fs[i])
  {
    seq(|fs|, i requires 0 <= i < |fs| => Received(fs[i]))
  }

  lemma ReceivedCons(fs: seq<Frame>)
    requires fs != []
    ensures ReceivedAll(fs) == [Received(fs[0])] + ReceivedAll(fs[1..])
  {
  }

  lemma {:induction false} FramesRoundTrip(fs: seq<Frame>)
    requires forall f :: f in fs ==> Printable(f)
    ensures Interpret(Frames(fs), EMPTY) == ReceivedAll(fs)
  {
    if fs != [] {
      assert FrameTexts(fs)[1..] == FrameTexts(fs[1..]);
      FrameRoundTrip(fs[0], Frames(fs[1..]));
      FramesRoundTrip(fs[1..]);
      ReceivedCons(fs);
    }
  }

  /** A client recovers exactly the frames that were printed, in order. */
  lemma StreamRoundTrip(fs: seq<Frame>)
    requires forall f :: f in fs ==> Printable(f)
    ensures ParseStream(Frames(fs)) == ReceivedAll(fs)
  {
    FramesRoundTrip(fs);
    if fs != [] {
      assert Frames(fs)[0] == FrameText(fs[0])[0];
    }
  }
}
