/** The OpenAI chat adapter's stream: internal/adapters/inbound/http/openai/chat_handler.go. */
module OpenAiChat {
  import opened Domain
  import opened Texts
  import opened Wire
  import Json
  import Sse
  import StreamProtocol

  datatype ChunkPayload = ChunkPayload(
    id: string,
    role: Role,
    content: string,
    finishReason: FinishReason,
    index: int,
    created: int,
    model: string,
    usage: TokenUsage)

  /** `toSDKChatCompletionChunk`; a chunk without usage carries the zero value. */
  function ToChunkPayload(c: StreamChunk): ChunkPayload {
    ChunkPayload(c.id, c.deltaRole, c.deltaContent, c.finishReason, c.index, c.created, c.model,
                 if c.usage.Some? then c.usage.value else NO_USAGE)
  }

  datatype CompletionChoice = CompletionChoice(finishReason: FinishReason, index: int, content: string)

  datatype ChatCompletion = ChatCompletion(
    id: string,
    choices: seq<CompletionChoice>,
    created: int,
    model: string,
    usage: TokenUsage)

  /** `toSDKChatCompletion`, the non-streaming answer. */
  function ToChatCompletion(resp: ChatResponse): ChatCompletion {
    var choices := seq(|resp.choices|, i requires 0 <= i < |resp.choices| =>
      var c := resp.choices[i];
      CompletionChoice(c.finishReason, c.index, MessageText(c.message.content)));
    ChatCompletion(resp.id, choices, resp.created, resp.model, resp.usage)
  }

  /** How the SDK's chunk struct becomes JSON; nothing below depends on its field names. */
  type Encoder = ChunkPayload -> Json.Json

  function ChunkFrame(c: StreamChunk, enc: Encoder): Sse.Frame {
    Sse.Data(Json.Print(enc(ToChunkPayload(c))))
  }

  function ChunkFrames(chunks: seq<StreamChunk>, enc: Encoder): (fs: seq<Sse.Frame>)
    ensures |fs| == |chunks|
    ensures forall i :: 0 <= i < |chunks| ==> fs[i] == ChunkFrame(chunks[i], enc)
  {
    seq(|chunks|, i requires 0 <= i < |chunks| => ChunkFrame(chunks[i], enc))
  }

  const DONE := "[DONE]"

  function AllFrames(chunks: seq<StreamChunk>, enc: Encoder): seq<Sse.Frame> {
    ChunkFrames(chunks, enc) + [Sse.Data(DONE)]
  }

  lemma OneMoreFrame(chunks: seq<StreamChunk>, i: nat, enc: Encoder)
    requires i < |chunks|
    ensures Sse.FrameTexts(ChunkFrames(chunks[..i + 1], enc)) ==
            Sse.FrameTexts(ChunkFrames(chunks[..i], enc)) + [Sse.FrameText(ChunkFrame(chunks[i], enc))]
  {
    assert ChunkFrames(chunks[..i + 1], enc) == ChunkFrames(chunks[..i], enc) + [ChunkFrame(chunks[i], enc)];
  }

  /** One write, and one flush, per frame. */
  method WriteData(data: string, w: Writer<string>)
    modifies w
    ensures w.log == old(w.log) + [Sse.FrameText(Sse.Data(data))]
  {
    w.Write("data: " + data + "\n\n");
  }

  /** The loop over the channel, with `chunks` what it yields until it is closed. */
  method StreamChatCompletions(chunks: seq<StreamChunk>, enc: Encoder, w: Writer<string>)
    modifies w
    ensures w.log == old(w.log) + Sse.FrameTexts(AllFrames(chunks, enc))
  {
    for i := 0 to |chunks|
      invariant w.log == old(w.log) + Sse.FrameTexts(ChunkFrames(chunks[..i], enc))
    {
      WriteData(Json.Print(enc(ToChunkPayload(chunks[i]))), w);
      OneMoreFrame(chunks, i, enc);
    }
    assert chunks[..|chunks|] == chunks;
    WriteData(DONE, w);
    Sse.FrameTextsSnoc(ChunkFrames(chunks, enc), Sse.Data(DONE));
  }

  /** The sentinel is not a JSON text, so no payload can be taken for it. */
  lemma DoneIsNoPayload(j: Json.Json)
    ensures Json.Parse(DONE) == None
    ensures Json.Print(j) != DONE
  {
    var t := DONE[1..];
    assert t[0] == 'D';
    assert Json.SkipWhitespace(DONE) == DONE && Json.SkipWhitespace(t) == t;
    assert Json.ParseScalar(t) == None by {
      Json.OtherStart(t, "null");
      Json.OtherStart(t, "true");
      Json.OtherStart(t, "false");
      assert Json.NumberRun(t) == 0;
    }
    Json.ScalarValue(t);
    assert Json.ParseItems(t) == None;
    assert Json.ParseArray(t) == None;
    assert Json.ParseValue(DONE) == None;
    Json.ParsePrint(j);
  }

  /**
   A client that follows the event-stream standard reads one message event per chunk, whose data
   is the JSON of exactly that chunk, and then the sentinel -- for every text the chunks carry.
   */
  lemma ClientReads(chunks: seq<StreamChunk>, enc: Encoder)
    ensures var events := Sse.ParseStream(Concat(Sse.FrameTexts(AllFrames(chunks, enc))));
      && |events| == |chunks| + 1
      && events[|chunks|] == Sse.Event("message", DONE)
      && forall i :: 0 <= i < |chunks| ==>
           && events[i].kind == "message"
           && events[i].data != DONE
           && Json.Parse(events[i].data) == Some(enc(ToChunkPayload(chunks[i])))
  {
    var fs := ChunkFrames(chunks, enc) + [Sse.Data(DONE)];
    forall f | f in fs
      ensures Sse.Printable(f)
    {
      if f != Sse.Data(DONE) {
        var i :| 0 <= i < |chunks| && f == ChunkFrame(chunks[i], enc);
        Json.PrintHasNoControl(enc(ToChunkPayload(chunks[i])));
      }
    }
    Sse.StreamRoundTrip(fs);
    forall i | 0 <= i < |chunks|
      ensures fs[i] == ChunkFrame(chunks[i], enc)
      ensures Json.Print(enc(ToChunkPayload(chunks[i]))) != DONE
      ensures Json.Parse(Json.Print(enc(ToChunkPayload(chunks[i])))) == Some(enc(ToChunkPayload(chunks[i])))
    {
      DoneIsNoPayload(enc(ToChunkPayload(chunks[i])));
      Json.ParsePrint(enc(ToChunkPayload(chunks[i])));
    }
  }

  function Payloads(chunks: seq<StreamChunk>): (ps: seq<ChunkPayload>)
    ensures |ps| == |chunks|
    ensures forall i :: 0 <= i < |chunks| ==> ps[i] == ToChunkPayload(chunks[i])
  {
    seq(|chunks|, i requires 0 <= i < |chunks| => ToChunkPayload(chunks[i]))
  }

  /** The payloads carry exactly the text of the chunks. */
  lemma {:induction false} PayloadText(chunks: seq<StreamChunk>)
    ensures Joined(Payloads(chunks), (p: ChunkPayload) => p.content) == StreamProtocol.DeltaText(chunks)
  {
    if chunks != [] {
      PayloadText(chunks[1..]);
      assert Payloads(chunks)[1..] == Payloads(chunks[1..]);
    }
  }

  /** How a client that knows the encoding reads a payload. */
  type Decoder = Json.Json -> Option<ChunkPayload>

  /** The payloads before the sentinel; a body without it is incomplete. */
  function Received(events: seq<Sse.Event>, dec: Decoder): Option<seq<ChunkPayload>> {
    if events == [] then None
    else if events[0].data == DONE then Some([])
    else
      var p, rest := Json.ParseWith(events[0].data, dec), Received(events[1..], dec);
      if p.Some? && rest.Some? then Some([p.value] + rest.value) else None
  }

  /** The text that such a client puts together. */
  function ReceivedText(body: string, dec: Decoder): Option<string> {
    match Received(Sse.ParseStream(body), dec)
    case None => None
    case Some(ps) => Some(Joined(ps, (p: ChunkPayload) => p.content))
  }

  lemma {:induction false} ReceivedAll(events: seq<Sse.Event>, chunks: seq<StreamChunk>, enc: Encoder, dec: Decoder)
    requires Json.Undoes(dec, enc) && |events| == |chunks| + 1 && events[|chunks|].data == DONE
    requires forall i :: 0 <= i < |chunks| ==>
               events[i].data != DONE && Json.Parse(events[i].data) == Some(enc(ToChunkPayload(chunks[i])))
    ensures Received(events, dec) == Some(Payloads(chunks))
  {
    if chunks != [] {
      var p := ToChunkPayload(chunks[0]);
      assert dec(enc(p)) == Some(p);
      ReceivedAll(events[1..], chunks[1..], enc, dec);
      assert Payloads(chunks) == [p] + Payloads(chunks[1..]);
    }
  }

  /** A client whose decoder undoes the encoder gets back the payloads themselves. */
  lemma ClientDecodes(chunks: seq<StreamChunk>, enc: Encoder, dec: Decoder)
    requires Json.Undoes(dec, enc)
    ensures Received(Sse.ParseStream(Concat(Sse.FrameTexts(AllFrames(chunks, enc)))), dec) == Some(Payloads(chunks))
  {
    ClientReads(chunks, enc);
    ReceivedAll(Sse.ParseStream(Concat(Sse.FrameTexts(AllFrames(chunks, enc)))), chunks, enc, dec);
  }
}
