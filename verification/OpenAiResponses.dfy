/** The Responses API stream: internal/adapters/inbound/http/openai/responses_handler.go. */
module OpenAiResponses {
  import opened Domain
  import opened StreamProtocol
  import opened Texts
  import opened Wire
  import Json
  import Sse

  datatype OutputItem = OutputItem(id: string, role: Role, status: string, text: string)

  datatype SdkResponse = SdkResponse(
    id: string, createdAt: int, model: string, status: string, output: OutputItem, usage: TokenUsage)

  /** `toSDKResponse`: the text of the first choice, or none. */
  function ToSdkResponse(resp: ChatResponse): SdkResponse {
    var text := if resp.choices != [] then MessageText(resp.choices[0].message.content) else "";
    SdkResponse(resp.id, resp.created, resp.model, "completed",
                OutputItem(resp.id + "-msg", ROLE_ASSISTANT, "completed", text), resp.usage)
  }

  datatype ResponseEvent =
    | Created(seqNo: int, response: SdkResponse)
    | ItemAdded(seqNo: int, item: OutputItem)
    | TextDelta(seqNo: int, itemId: string, delta: string)
    | ItemDone(seqNo: int, item: OutputItem)
    | Completed(seqNo: int, response: SdkResponse)

  function EventType(e: ResponseEvent): string {
    match e
    case Created(_, _) => "response.created"
    case ItemAdded(_, _) => "response.output_item.added"
    case TextDelta(_, _, _) => "response.output_text.delta"
    case ItemDone(_, _) => "response.output_item.done"
    case Completed(_, _) => "response.completed"
  }

  /** The event types of the wire format, one for each kind of event. */
  lemma EventTypes(e: ResponseEvent)
    ensures e.Created? <==> EventType(e) == "response.created"
    ensures e.ItemAdded? <==> EventType(e) == "response.output_item.added"
    ensures e.TextDelta? <==> EventType(e) == "response.output_text.delta"
    ensures e.ItemDone? <==> EventType(e) == "response.output_item.done"
    ensures e.Completed? <==> EventType(e) == "response.completed"
  {
  }

  /** The id that stands for "no chunk seen yet". */
  const SENTINEL := "resp-0"

  /** The handler's variables. */
  datatype Progress = Progress(id: string, seqNo: int, itemId: string, fullText: string, log: seq<ResponseEvent>)

  const START := Progress(SENTINEL, 0, "", "", [])

  function UsageOrZero(c: StreamChunk): TokenUsage {
    if c.usage.Some? then c.usage.value else NO_USAGE
  }

  /** The first chunk announces the response and its one item. */
  function OpeningEvents(s: Progress, c: StreamChunk): seq<ResponseEvent> {
    if s.id != SENTINEL then []
    else [Created(s.seqNo + 1, ToSdkResponse(ChatResponse(c.id, c.model, c.created, [], NO_USAGE))),
          ItemAdded(s.seqNo + 2, OutputItem(c.id + "-msg", ROLE_ASSISTANT, "in_progress", ""))]
  }

  function Opening(s: Progress, c: StreamChunk): Progress {
    if s.id != SENTINEL then s
    else Progress(c.id, s.seqNo + 2, c.id + "-msg", s.fullText, s.log + OpeningEvents(s, c))
  }

  function DeltaEvents(s: Progress, c: StreamChunk): seq<ResponseEvent> {
    if c.deltaContent == "" then [] else [TextDelta(s.seqNo + 1, s.itemId, c.deltaContent)]
  }

  function Delta(s: Progress, c: StreamChunk): Progress {
    s.(fullText := s.fullText + c.deltaContent,
       seqNo := if c.deltaContent == "" then s.seqNo else s.seqNo + 1,
       log := s.log + DeltaEvents(s, c))
  }

  function FinalResponse(s: Progress, c: StreamChunk): SdkResponse {
    var message := ChatMessage(ROLE_ASSISTANT, TextContent(s.fullText), "");
    ToSdkResponse(ChatResponse(s.id, c.model, c.created, [Choice(0, message, c.finishReason)], UsageOrZero(c)))
  }

  function ClosingEvents(s: Progress, c: StreamChunk): seq<ResponseEvent> {
    if c.finishReason == Unset then []
    else
      var final := FinalResponse(s, c);
      [ItemDone(s.seqNo + 1, final.output), Completed(s.seqNo + 2, final)]
  }

  function Closing(s: Progress, c: StreamChunk): Progress {
    s.(seqNo := if c.finishReason == Unset then s.seqNo else s.seqNo + 2, log := s.log + ClosingEvents(s, c))
  }

  /** One turn of the loop over the channel. */
  function Handle(s: Progress, c: StreamChunk): Progress {
    Closing(Delta(Opening(s, c), c), c)
  }

  /** The events of one turn, in order. */
  function TurnEvents(s: Progress, c: StreamChunk): seq<ResponseEvent> {
    var a := Opening(s, c);
    OpeningEvents(s, c) + (DeltaEvents(a, c) + ClosingEvents(Delta(a, c), c))
  }

  lemma TurnLog(s: Progress, c: StreamChunk)
    ensures Handle(s, c).log == s.log + TurnEvents(s, c)
  {
    assert s.log + [] == s.log;
  }

  function Run(chunks: seq<StreamChunk>): Progress {
    if chunks == [] then START else Handle(Run(chunks[..|chunks| - 1]), chunks[|chunks| - 1])
  }

  lemma RunNext(chunks: seq<StreamChunk>, i: nat)
    requires i < |chunks|
    ensures Run(chunks[..i + 1]) == Handle(Run(chunks[..i]), chunks[i])
  {
    assert chunks[..i + 1][..i] == chunks[..i];
  }

  type Encoder = ResponseEvent -> Json.Json

  function EventFrame(e: ResponseEvent, enc: Encoder): Sse.Frame {
    Sse.Named(EventType(e), Json.Print(enc(e)))
  }

  function EventFrames(log: seq<ResponseEvent>, enc: Encoder): (fs: seq<Sse.Frame>)
    ensures |fs| == |log|
    ensures forall i :: 0 <= i < |log| ==> fs[i] == EventFrame(log[i], enc)
  {
    seq(|log|, i requires 0 <= i < |log| => EventFrame(log[i], enc))
  }

  function Printed(log: seq<ResponseEvent>, enc: Encoder): seq<string> {
    Sse.FrameTexts(EventFrames(log, enc))
  }

  lemma PrintedConcat(a: seq<ResponseEvent>, b: seq<ResponseEvent>, enc: Encoder)
    ensures Printed(a + b, enc) == Printed(a, enc) + Printed(b, enc)
  {
  }

  lemma PrintedOne(e: ResponseEvent, enc: Encoder)
    ensures Printed([e], enc) == [Sse.FrameText(EventFrame(e, enc))]
  {
  }

  /** One write, and one flush, per event. */
  method WriteEvent(e: ResponseEvent, enc: Encoder, w: Writer<string>)
    modifies w
    ensures w.log == old(w.log) + Printed([e], enc)
  {
    w.Write("event: " + EventType(e) + "\ndata: " + Json.Print(enc(e)) + "\n\n");
    PrintedOne(e, enc);
  }

  method WritePair(e: ResponseEvent, e': ResponseEvent, enc: Encoder, w: Writer<string>)
    modifies w
    ensures w.log == old(w.log) + Printed([e, e'], enc)
  {
    WriteEvent(e, enc, w);
    WriteEvent(e', enc, w);
    PrintedConcat([e], [e'], enc);
    assert [e] + [e'] == [e, e'];
  }

  // The three parts of the loop body, in order.

  method Open(s: Progress, chunk: StreamChunk, enc: Encoder, w: Writer<string>) returns (s': Progress)
    modifies w
    ensures s' == Opening(s, chunk)
    ensures w.log == old(w.log) + Printed(OpeningEvents(s, chunk), enc)
  {
    s' := s;
    if s.id == SENTINEL {
      var itemId := chunk.id + "-msg";
      var response := ToSdkResponse(ChatResponse(chunk.id, chunk.model, chunk.created, [], NO_USAGE));
      var created := Created(s.seqNo + 1, response);
      var added := ItemAdded(s.seqNo + 2, OutputItem(itemId, ROLE_ASSISTANT, "in_progress", ""));
      assert OpeningEvents(s, chunk) == [created, added];
      WritePair(created, added, enc, w);
      s' := Progress(chunk.id, s.seqNo + 2, itemId, s.fullText, s.log + [created, added]);
    }
  }

  method AddDelta(s: Progress, chunk: StreamChunk, enc: Encoder, w: Writer<string>) returns (s': Progress)
    modifies w
    ensures s' == Delta(s, chunk)
    ensures w.log == old(w.log) + Printed(DeltaEvents(s, chunk), enc)
  {
    s' := s.(fullText := s.fullText + chunk.deltaContent);
    if chunk.deltaContent != "" {
      var delta := TextDelta(s.seqNo + 1, s.itemId, chunk.deltaContent);
      WriteEvent(delta, enc, w);
      s' := s'.(seqNo := s.seqNo + 1, log := s.log + [delta]);
    }
  }

  method Finish(s: Progress, chunk: StreamChunk, enc: Encoder, w: Writer<string>) returns (s': Progress)
    modifies w
    ensures s' == Closing(s, chunk)
    ensures w.log == old(w.log) + Printed(ClosingEvents(s, chunk), enc)
  {
    s' := s;
    if chunk.finishReason != Unset {
      var final := FinalResponse(s, chunk);
      var done, completed := ItemDone(s.seqNo + 1, final.output), Completed(s.seqNo + 2, final);
      assert ClosingEvents(s, chunk) == [done, completed];
      WritePair(done, completed, enc, w);
      s' := s.(seqNo := s.seqNo + 2, log := s.log + [done, completed]);
    }
  }

  lemma PrintedTurn(s: Progress, c: StreamChunk, enc: Encoder)
    ensures var a := Opening(s, c);
      Printed(TurnEvents(s, c), enc) ==
      Printed(OpeningEvents(s, c), enc) +
      (Printed(DeltaEvents(a, c), enc) + Printed(ClosingEvents(Delta(a, c), c), enc))
  {
    var a := Opening(s, c);
    PrintedConcat(DeltaEvents(a, c), ClosingEvents(Delta(a, c), c), enc);
    PrintedConcat(OpeningEvents(s, c), DeltaEvents(a, c) + ClosingEvents(Delta(a, c), c), enc);
  }

  method Turn(s: Progress, chunk: StreamChunk, enc: Encoder, w: Writer<string>) returns (s': Progress)
    modifies w
    ensures s' == Handle(s, chunk)
    ensures w.log == old(w.log) + Printed(TurnEvents(s, chunk), enc)
  {
    ghost var before := w.log;
    var a := Open(s, chunk, enc, w);
    ghost var middle := w.log;
    var b := AddDelta(a, chunk, enc, w);
    s' := Finish(b, chunk, enc, w);
    Associative(middle, Printed(DeltaEvents(a, chunk), enc), Printed(ClosingEvents(b, chunk), enc));
    Associative(before, Printed(OpeningEvents(s, chunk), enc),
                Printed(DeltaEvents(a, chunk), enc) + Printed(ClosingEvents(b, chunk), enc));
    PrintedTurn(s, chunk, enc);
  }

  lemma PrintedNext(chunks: seq<StreamChunk>, i: nat, enc: Encoder)
    requires i < |chunks|
    ensures Printed(Run(chunks[..i + 1]).log, enc) ==
            Printed(Run(chunks[..i]).log, enc) + Printed(TurnEvents(Run(chunks[..i]), chunks[i]), enc)
  {
    RunNext(chunks, i);
    TurnLog(Run(chunks[..i]), chunks[i]);
    PrintedConcat(Run(chunks[..i]).log, TurnEvents(Run(chunks[..i]), chunks[i]), enc);
  }

  method StreamResponses(chunks: seq<StreamChunk>, enc: Encoder, w: Writer<string>)
    modifies w
    ensures w.log == old(w.log) + Printed(Run(chunks).log, enc)
  {
    var s := START;
    for i := 0 to |chunks|
      invariant s == Run(chunks[..i])
      invariant w.log == old(w.log) + Printed(Run(chunks[..i]).log, enc)
    {
      ghost var before, turn := Printed(s.log, enc), Printed(TurnEvents(s, chunks[i]), enc);
      Associative(old(w.log), before, turn);
      PrintedNext(chunks, i, enc);
      RunNext(chunks, i);
      s := Turn(s, chunks[i], enc, w);
    }
    assert chunks[..|chunks|] == chunks;
  }

  // ---- Any chunks ----

  ghost predicate Numbered(s: Progress) {
    s.seqNo == |s.log| && forall i :: 0 <= i < |s.log| ==> s.log[i].seqNo == i + 1
  }

  lemma TurnKeepsNumbers(s: Progress, c: StreamChunk)
    requires Numbered(s)
    ensures Numbered(Handle(s, c))
  {
    var a := Opening(s, c);
    assert Numbered(a);
    var b := Delta(a, c);
    assert Numbered(b);
  }

  /** Events are numbered 1, 2, 3, ... whatever the channel yields. */
  lemma {:induction false} SequenceNumbers(chunks: seq<StreamChunk>)
    ensures forall i :: 0 <= i < |Run(chunks).log| ==> Run(chunks).log[i].seqNo == i + 1
    ensures Run(chunks).seqNo == |Run(chunks).log|
  {
    RunNumbered(chunks);
  }

  lemma {:induction false} RunNumbered(chunks: seq<StreamChunk>)
    ensures Numbered(Run(chunks))
  {
    if chunks != [] {
      RunNumbered(chunks[..|chunks| - 1]);
      TurnKeepsNumbers(Run(chunks[..|chunks| - 1]), chunks[|chunks| - 1]);
    }
  }

  function CountCreated(log: seq<ResponseEvent>): nat {
    if log == [] then 0 else (if log[0].Created? then 1 else 0) + CountCreated(log[1..])
  }

  lemma {:induction false} CountConcat(a: seq<ResponseEvent>, b: seq<ResponseEvent>)
    ensures CountCreated(a + b) == CountCreated(a) + CountCreated(b)
  {
    if a == [] {
      assert a + b == b;
    } else {
      assert (a + b)[1..] == a[1..] + b;
      CountConcat(a[1..], b);
    }
  }

  lemma {:induction false} CountNone(log: seq<ResponseEvent>)
    requires forall e :: e in log ==> !e.Created?
    ensures CountCreated(log) == 0
  {
    if log != [] {
      CountNone(log[1..]);
    }
  }

  lemma OpeningCount(s: Progress, c: StreamChunk)
    ensures CountCreated(OpeningEvents(s, c)) == if s.id == SENTINEL then 1 else 0
  {
    if s.id == SENTINEL {
      CountNone(OpeningEvents(s, c)[1..]);
    }
  }

  lemma TurnCount(s: Progress, c: StreamChunk)
    ensures CountCreated(TurnEvents(s, c)) == if s.id == SENTINEL then 1 else 0
  {
    var a := Opening(s, c);
    var rest := DeltaEvents(a, c) + ClosingEvents(Delta(a, c), c);
    CountNone(rest);
    CountConcat(OpeningEvents(s, c), rest);
    OpeningCount(s, c);
  }

  lemma HandleCount(s: Progress, c: StreamChunk)
    ensures CountCreated(Handle(s, c).log) == CountCreated(s.log) + if s.id == SENTINEL then 1 else 0
  {
    TurnLog(s, c);
    CountConcat(s.log, TurnEvents(s, c));
    TurnCount(s, c);
  }

  /**
   Exactly when the stream's own id is the sentinel does the handler open the response again at
   every chunk; for any other id it opens it once, at the first chunk.
   */
  lemma {:induction false} CreatedCount(chunks: seq<StreamChunk>, id: string)
    requires forall c :: c in chunks ==> c.id == id
    ensures CountCreated(Run(chunks).log) ==
            if id == SENTINEL then |chunks| else if chunks == [] then 0 else 1
    ensures Run(chunks).id == if chunks == [] then SENTINEL else id
  {
    if chunks != [] {
      var init := chunks[..|chunks| - 1];
      CreatedCount(init, id);
      HandleCount(Run(init), chunks[|chunks| - 1]);
    }
  }

  /** The ids that `Stream` makes are never the sentinel. */
  lemma StreamIdIsNoSentinel(number: string)
    ensures "chatcmpl-" + number != SENTINEL
  {
    assert ("chatcmpl-" + number)[0] == 'c';
  }

  // ---- The chunks of a stream ----

  /** A plan whose stream opens a response once and whose word chunks all say something. */
  predicate Proper(p: Plan) {
    p.id != SENTINEL && p.words != [] && forall i :: 0 <= i < |p.words| ==> p.words[i] != ""
  }

  function CreatedEvent(p: Plan): ResponseEvent {
    Created(1, ToSdkResponse(ChatResponse(p.id, p.model, p.created, [], NO_USAGE)))
  }

  function AddedEvent(p: Plan): ResponseEvent {
    ItemAdded(2, OutputItem(p.id + "-msg", ROLE_ASSISTANT, "in_progress", ""))
  }

  function WordEvents(p: Plan, k: nat): (es: seq<ResponseEvent>)
    requires k <= |p.words|
    ensures |es| == k
    ensures forall i :: 0 <= i < k ==> es[i] == TextDelta(i + 3, p.id + "-msg", p.words[i])
  {
    seq(k, i requires 0 <= i < k => TextDelta(i + 3, p.id + "-msg", p.words[i]))
  }

  function FinalAnswer(p: Plan): ChatResponse {
    var message := ChatMessage(ROLE_ASSISTANT, TextContent(Concat(p.words)), "");
    ChatResponse(p.id, p.model, p.created, [Choice(0, message, Stop)], p.usage)
  }

  function LastEvents(p: Plan): seq<ResponseEvent> {
    var final := ToSdkResponse(FinalAnswer(p));
    [ItemDone(|p.words| + 3, final.output), Completed(|p.words| + 4, final)]
  }

  /** created, item added, one delta per word; then item done and completed. */
  function Expected(p: Plan, k: nat): seq<ResponseEvent>
    requires k <= |p.words| + 1
  {
    if k == 0 then []
    else if k <= |p.words| then [CreatedEvent(p), AddedEvent(p)] + WordEvents(p, k)
    else [CreatedEvent(p), AddedEvent(p)] + WordEvents(p, |p.words|) + LastEvents(p)
  }

  /** `completed` comes last, and only after the finish chunk. */
  lemma CompletedLast(p: Plan, k: nat)
    requires k <= |p.words| + 1
    ensures forall i :: 0 <= i < |Expected(p, k)| ==>
              (Expected(p, k)[i].Completed? <==> k == |p.words| + 1 && i == |Expected(p, k)| - 1)
    ensures k == |p.words| + 1 ==> |Expected(p, k)| == k + 3
    ensures k == |p.words| + 1 ==> Expected(p, k)[k + 2] == Completed(k + 3, ToSdkResponse(FinalAnswer(p)))
  {
    var n := if k <= |p.words| then k else |p.words|;
    var log := Expected(p, k);
    forall i | 2 <= i < n + 2 && k > 0
      ensures log[i] == WordEvents(p, n)[i - 2]
    {
    }
  }

  /** Every log on the way is a prefix of the last one. */
  lemma ExpectedGrows(p: Plan, k: nat)
    requires k <= |p.words| + 1
    ensures Expected(p, k) <= Expected(p, |p.words| + 1)
  {
    if 0 < k <= |p.words| {
      assert WordEvents(p, k) <= WordEvents(p, |p.words|);
    }
  }

  lemma ExpectedShape(p: Plan, k: nat)
    requires k <= |p.words| + 1
    ensures forall i :: 0 <= i < |Expected(p, k)| ==>
              Expected(p, k)[i].seqNo == i + 1 && (Expected(p, k)[i].Created? <==> i == 0)
  {
  }

  /** Where the handler stands after k word chunks. */
  function Reached(p: Plan, k: nat): Progress
    requires 0 < k <= |p.words|
  {
    Progress(p.id, k + 2, p.id + "-msg", Concat(p.words[..k]), Expected(p, k))
  }

  lemma FirstWord(p: Plan)
    requires Proper(p)
    ensures Handle(START, WordChunk(p, 0)) == Reached(p, 1)
  {
    var c := WordChunk(p, 0);
    var a := Opening(START, c);
    assert a.log == [CreatedEvent(p), AddedEvent(p)];
    assert WordEvents(p, 1) == DeltaEvents(a, c);
    ConcatOne(p.words[0]);
    assert p.words[..1] == [p.words[0]];
    assert Delta(a, c) == Reached(p, 1);
  }

  lemma NextWord(p: Plan, k: nat)
    requires Proper(p) && 0 < k < |p.words|
    ensures Handle(Reached(p, k), WordChunk(p, k)) == Reached(p, k + 1)
  {
    var s, c := Reached(p, k), WordChunk(p, k);
    assert WordEvents(p, k + 1) == WordEvents(p, k) + DeltaEvents(s, c);
    assert Expected(p, k + 1) == Expected(p, k) + DeltaEvents(s, c);
    ConcatSnoc(p.words[..k], p.words[k]);
    assert p.words[..k + 1] == p.words[..k] + [p.words[k]];
    assert Delta(s, c) == Reached(p, k + 1);
  }

  lemma LastChunk(p: Plan)
    requires Proper(p)
    ensures Handle(Reached(p, |p.words|), FinalChunk(p)).log == Expected(p, |p.words| + 1)
  {
    var n := |p.words|;
    var s, c := Reached(p, n), FinalChunk(p);
    assert p.words[..n] == p.words;
    assert s.fullText + "" == s.fullText;
    var b := Delta(s, c);
    assert b == s;
    assert ClosingEvents(b, c) == LastEvents(p);
  }

  /**
   The event log after any number k of chunks of a stream, so at any moment of any run: always a
   prefix of created, item added, deltas, item done, completed, one delta per delivered word, and
   the closing pair exactly when the finish chunk came.
   */
  lemma {:induction false} LogOfStream(p: Plan, k: nat)
    requires Proper(p) && k <= |p.words| + 1
    ensures Run(FullStream(p)[..k]).log == Expected(p, k)
    ensures 0 < k <= |p.words| ==> Run(FullStream(p)[..k]) == Reached(p, k)
  {
    if k > 0 {
      LogOfStream(p, k - 1);
      RunNext(FullStream(p), k - 1);
      if k == 1 {
        FirstWord(p);
      } else if k <= |p.words| {
        NextWord(p, k - 1);
      } else {
        LastChunk(p);
      }
    }
  }

  function DeltaOf(e: ResponseEvent): string {
    if e.TextDelta? then e.delta else ""
  }

  /** The deltas of a log, joined. */
  function LogText(log: seq<ResponseEvent>): string {
    Joined(log, DeltaOf)
  }

  lemma TurnText(s: Progress, c: StreamChunk)
    ensures LogText(TurnEvents(s, c)) == c.deltaContent
  {
    var a := Opening(s, c);
    var (x, y, z) := (OpeningEvents(s, c), DeltaEvents(a, c), ClosingEvents(Delta(a, c), c));
    JoinedConcat(x, y + z, DeltaOf);
    JoinedConcat(y, z, DeltaOf);
    JoinedNothing(x, DeltaOf);
    JoinedNothing(z, DeltaOf);
    DeltaEventsText(a, c);
  }

  lemma DeltaEventsText(s: Progress, c: StreamChunk)
    ensures LogText(DeltaEvents(s, c)) == c.deltaContent
  {
    if c.deltaContent != "" {
      JoinedOne(DeltaEvents(s, c)[0], DeltaOf);
    }
  }

  lemma TurnExtendsText(s: Progress, c: StreamChunk)
    ensures LogText(Handle(s, c).log) == LogText(s.log) + c.deltaContent
    ensures Handle(s, c).fullText == s.fullText + c.deltaContent
  {
    TurnLog(s, c);
    TurnText(s, c);
    JoinedConcat(s.log, TurnEvents(s, c), DeltaOf);
  }

  /** The deltas carry exactly the text of the chunks, and so does the running full text. */
  lemma {:induction false} RunText(chunks: seq<StreamChunk>)
    ensures LogText(Run(chunks).log) == DeltaText(chunks)
    ensures Run(chunks).fullText == DeltaText(chunks)
  {
    if chunks != [] {
      var init, last := chunks[..|chunks| - 1], chunks[|chunks| - 1];
      RunText(init);
      TurnExtendsText(Run(init), last);
      assert DeltaText(chunks) == DeltaText(init) + last.deltaContent by {
        DeltaTextSnoc(init, last);
        assert chunks == init + [last];
      }
    }
  }

  lemma EventTypesAreOneLine(e: ResponseEvent)
    ensures Sse.OneLine(EventType(e)) && EventType(e) != ""
  {
  }

  /** A client that follows the event-stream standard reads exactly the typed events of the log. */
  lemma ClientReads(log: seq<ResponseEvent>, enc: Encoder)
    ensures var events := Sse.ParseStream(Concat(Printed(log, enc)));
      && |events| == |log|
      && forall i :: 0 <= i < |log| ==>
           && events[i].kind == EventType(log[i])
           && Json.Parse(events[i].data) == Some(enc(log[i]))
  {
    var fs := EventFrames(log, enc);
    forall f | f in fs
      ensures Sse.Printable(f)
    {
      var i :| 0 <= i < |log| && f == EventFrame(log[i], enc);
      Json.PrintHasNoControl(enc(log[i]));
      EventTypesAreOneLine(log[i]);
    }
    Sse.StreamRoundTrip(fs);
    forall i | 0 <= i < |log|
      ensures Json.Parse(Json.Print(enc(log[i]))) == Some(enc(log[i]))
    {
      Json.ParsePrint(enc(log[i]));
    }
  }

  /** How a client that knows the encoding reads an event's payload. */
  type Decoder = Json.Json -> Option<ResponseEvent>

  /** The events of a body, if each is announced as what its payload is. */
  function Received(events: seq<Sse.Event>, dec: Decoder): Option<seq<ResponseEvent>> {
    if events == [] then Some([])
    else
      var e := Json.ParseWith(events[0].data, dec);
      var rest := Received(events[1..], dec);
      if e.Some? && rest.Some? && events[0].kind == EventType(e.value) then Some([e.value] + rest.value) else None
  }

  /** The text that such a client puts together. */
  function ReceivedText(body: string, dec: Decoder): Option<string> {
    match Received(Sse.ParseStream(body), dec)
    case None => None
    case Some(log) => Some(LogText(log))
  }

  lemma {:induction false} ReceivedAll(events: seq<Sse.Event>, log: seq<ResponseEvent>, enc: Encoder, dec: Decoder)
    requires Json.Undoes(dec, enc) && |events| == |log|
    requires forall i :: 0 <= i < |log| ==>
               events[i].kind == EventType(log[i]) && Json.Parse(events[i].data) == Some(enc(log[i]))
    ensures Received(events, dec) == Some(log)
  {
    if log != [] {
      assert dec(enc(log[0])) == Some(log[0]);
      ReceivedAll(events[1..], log[1..], enc, dec);
      assert log == [log[0]] + log[1..];
    }
  }

  /** A client whose decoder undoes the encoder gets back the log itself. */
  lemma ClientDecodes(log: seq<ResponseEvent>, enc: Encoder, dec: Decoder)
    requires Json.Undoes(dec, enc)
    ensures Received(Sse.ParseStream(Concat(Printed(log, enc))), dec) == Some(log)
  {
    ClientReads(log, enc);
    ReceivedAll(Sse.ParseStream(Concat(Printed(log, enc))), log, enc, dec);
  }
}
