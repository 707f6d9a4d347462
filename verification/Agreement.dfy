/**
 The system as a whole: what clients of the five streaming adapters receive in a run of the
 protocol, against what the non-streaming endpoints answer to the same request.
 */
module Agreement {
  import opened Chat
  import opened Domain
  import opened Integers
  import opened StreamProtocol
  import opened Texts
  import opened Wire
  import Bedrock
  import Json
  import OpenAiChat
  import OpenAiResponses
  import ScenarioStore
  import Sse
  import Tokens
  import Vertex
  import Words

  // ---- One text for every client ----

  function OpenAiText(chunks: seq<StreamChunk>): string {
    Joined(OpenAiChat.Payloads(chunks), (p: OpenAiChat.ChunkPayload) => p.content)
  }

  function ResponsesText(chunks: seq<StreamChunk>): string {
    OpenAiResponses.LogText(OpenAiResponses.Run(chunks).log)
  }

  function ConverseText(chunks: seq<StreamChunk>): string {
    Joined(Bedrock.ConverseLog(chunks), Bedrock.ConverseText)
  }

  function ClaudeText(modelId: string, chunks: seq<StreamChunk>): string {
    Joined(Bedrock.ClaudeLog(modelId, chunks), Bedrock.ClaudeText)
  }

  function VertexText(chunks: seq<StreamChunk>): string {
    Joined(Vertex.Elements(chunks), Vertex.ElementText)
  }

  /** Whatever the channel yields, all five clients put together the same text. */
  lemma OneText(modelId: string, chunks: seq<StreamChunk>)
    ensures OpenAiText(chunks) == ResponsesText(chunks) == ConverseText(chunks)
         == ClaudeText(modelId, chunks) == VertexText(chunks) == DeltaText(chunks)
  {
    OpenAiChat.PayloadText(chunks);
    OpenAiResponses.RunText(chunks);
    Bedrock.ConverseLogIsWellFormed(chunks);
    Bedrock.ClaudeLogIsWellFormed(modelId, chunks);
    Vertex.ElementsText(chunks);
  }

  // ---- Plans that `Stream` makes ----

  /** Every plan `Stream` makes opens one response, and each of its word chunks says something. */
  lemma PlansAreProper(req: ChatRequest, scenarios: Resolver, now: int, p: Plan, later: int)
    requires StreamOutcome(req, scenarios, now) == Outcome(Ok(p), later)
    ensures OpenAiResponses.Proper(p)
  {
    var sc := Resolved(req, scenarios, now, p, later);
    OpenAiResponses.StreamIdIsNoSentinel(Decimal(later));
    Words.PiecesNonEmpty(ReplyText(sc));
  }

  // ---- Every moment of every run ----

  /**
   At any moment of any run, the Responses log is the expected one for the chunks handled so far;
   `completed` is in it exactly when the finish chunk was handled.
   */
  lemma ResponsesLogInEveryRun(p: Plan, s0: State, run: seq<Step>)
    requires OpenAiResponses.Proper(p) && Init(s0) && Legal(p, s0, run)
    ensures var handled := After(p, s0, run).handled; var log := OpenAiResponses.Run(handled).log;
      && |handled| <= |p.words| + 1
      && log == OpenAiResponses.Expected(p, |handled|)
      && ((exists e :: e in log && e.Completed?) <==> |handled| == |p.words| + 1)
      && OpenAiResponses.CountCreated(log) == (if handled == [] then 0 else 1)
      && forall i :: 0 <= i < |log| ==> log[i].seqNo == i + 1
  {
    var k := HandledPrefix(p, s0, run);
    LogAfter(p, k);
    CompletedIffWhole(p, k);
  }

  lemma HandledPrefix(p: Plan, s0: State, run: seq<Step>) returns (k: nat)
    requires Init(s0) && Legal(p, s0, run)
    ensures k <= |p.words| + 1 && k == |After(p, s0, run).handled|
    ensures After(p, s0, run).handled == FullStream(p)[..k]
  {
    EveryRunIsSafe(p, s0, run);
    k := |After(p, s0, run).handled|;
  }

  lemma LogAfter(p: Plan, k: nat)
    requires OpenAiResponses.Proper(p) && k <= |p.words| + 1
    ensures var log := OpenAiResponses.Run(FullStream(p)[..k]).log;
      && log == OpenAiResponses.Expected(p, k)
      && OpenAiResponses.CountCreated(log) == (if k == 0 then 0 else 1)
      && forall i :: 0 <= i < |log| ==> log[i].seqNo == i + 1
  {
    OpenAiResponses.LogOfStream(p, k);
    OpenAiResponses.SequenceNumbers(FullStream(p)[..k]);
    OpenAiResponses.CreatedCount(FullStream(p)[..k], p.id);
  }

  /** What the Responses handler may have written: inside a turn, any part of its events. */
  ghost predicate MayHaveWritten(s: State, log: seq<OpenAiResponses.ResponseEvent>) {
    if s.consumer.Handling? then
      OpenAiResponses.Run(s.handled).log <= log <= OpenAiResponses.Run(s.handled + [s.consumer.chunk]).log
    else log == OpenAiResponses.Run(s.handled).log
  }

  /**
   Between any two writes of any run: the log is a prefix of the whole stream's log, numbered
   without gaps, with `created` first and only there, and with `completed` only if every word and
   the finish chunk were sent.
   */
  lemma ResponsesLogAtEveryWrite(p: Plan, s0: State, run: seq<Step>, log: seq<OpenAiResponses.ResponseEvent>)
    requires OpenAiResponses.Proper(p) && Init(s0) && Legal(p, s0, run) && MayHaveWritten(After(p, s0, run), log)
    ensures log <= OpenAiResponses.Expected(p, |p.words| + 1)
    ensures forall i :: 0 <= i < |log| ==> log[i].seqNo == i + 1 && (log[i].Created? <==> i == 0)
    ensures forall e :: e in log && e.Completed? ==> After(p, s0, run).sent == FullStream(p)
  {
    InitInv(p, s0);
    RunKeepsInv(p, s0, run);
    var s := After(p, s0, run);
    var k := |s.sent|;
    WrittenIsExpected(p, s, log);
    OpenAiResponses.ExpectedGrows(p, k);
    OpenAiResponses.ExpectedShape(p, k);
    OpenAiResponses.CompletedLast(p, k);
  }

  lemma WrittenIsExpected(p: Plan, s: State, log: seq<OpenAiResponses.ResponseEvent>)
    requires OpenAiResponses.Proper(p) && Inv(p, s) && MayHaveWritten(s, log)
    ensures log <= OpenAiResponses.Expected(p, |s.sent|)
  {
    assert s.sent == FullStream(p)[..|s.sent|];
    OpenAiResponses.LogOfStream(p, |s.sent|);
  }

  lemma CompletedIffWhole(p: Plan, k: nat)
    requires k <= |p.words| + 1
    ensures (exists e :: e in OpenAiResponses.Expected(p, k) && e.Completed?) <==> k == |p.words| + 1
  {
    OpenAiResponses.CompletedLast(p, k);
    if k == |p.words| + 1 {
      assert OpenAiResponses.Expected(p, k)[k + 2] in OpenAiResponses.Expected(p, k);
    }
  }

  /** At the end of any run, cancelled or not, the Bedrock logs hold one delta per delivered word. */
  lemma BedrockLogsInEveryRun(modelId: string, p: Plan, s0: State, run: seq<Step>)
    requires OpenAiResponses.Proper(p) && Init(s0) && Legal(p, s0, run) && After(p, s0, run).consumer.Done?
    ensures var s := After(p, s0, run);
      var words := p.words[..WordsSent(p, s)];
      var usage := if |words| == |p.words| then p.usage else NO_USAGE;
      && Bedrock.ConverseGrammar(Bedrock.ConverseLog(s.handled))
      && Bedrock.ClaudeGrammar(modelId, Bedrock.ClaudeLog(modelId, s.handled))
      && Bedrock.ConverseLog(s.handled) ==
         [Bedrock.MessageStart(ROLE_ASSISTANT)] + Bedrock.ConverseDeltas(words) + Bedrock.ConverseEnd(usage)
      && Bedrock.ClaudeLog(modelId, s.handled) ==
         Bedrock.ClaudeStart(modelId) + Bedrock.ClaudeDeltas(words) + Bedrock.ClaudeEnd(Stop, usage)
  {
    InitInv(p, s0);
    RunKeepsInv(p, s0, run);
    ClosedOutcome(p, s0, run);
    var s := After(p, s0, run);
    assert s.handled == FullStream(p)[..|s.sent|];
    Bedrock.LogsOfStream(modelId, p, |s.sent|);
    Bedrock.ConverseLogIsWellFormed(s.handled);
    Bedrock.ClaudeLogIsWellFormed(modelId, s.handled);
  }

  // ---- Streaming against not streaming, on the wire ----

  /** The last event of a whole Responses stream is the response the plain endpoint would return. */
  lemma ResponsesStreamEndsInAnswer(p: Plan, text: string)
    requires OpenAiResponses.Proper(p) && p.words == Words.SplitWords(text)
    ensures var log := OpenAiResponses.Run(FullStream(p)).log;
      && log != []
      && log[|log| - 1] == OpenAiResponses.Completed(|log|, OpenAiResponses.ToSdkResponse(Answer(p, text)))
  {
    WholeResponsesLog(p);
    FinalAnswerIs(p, text);
  }

  lemma WholeResponsesLog(p: Plan)
    requires OpenAiResponses.Proper(p)
    ensures var log := OpenAiResponses.Run(FullStream(p)).log;
      log != [] && log[|log| - 1] ==
        OpenAiResponses.Completed(|log|, OpenAiResponses.ToSdkResponse(OpenAiResponses.FinalAnswer(p)))
  {
    var n := |p.words| + 1;
    assert FullStream(p)[..n] == FullStream(p);
    OpenAiResponses.LogOfStream(p, n);
    OpenAiResponses.CompletedLast(p, n);
  }

  lemma FinalAnswerIs(p: Plan, text: string)
    requires p.words == Words.SplitWords(text)
    ensures OpenAiResponses.FinalAnswer(p) == Answer(p, text)
  {
  }

  /** The usage reports of a whole OpenAI chat stream: one, in the last chunk. */
  lemma OpenAiUsageOnce(p: Plan)
    requires p.usage.totalTokens != 0
    ensures var payloads := OpenAiChat.Payloads(FullStream(p));
      forall i :: 0 <= i < |payloads| ==>
        && (payloads[i].usage.totalTokens != 0 <==> i == |payloads| - 1)
        && (i == |payloads| - 1 ==> payloads[i].usage == p.usage && payloads[i].finishReason == Stop)
  {
  }

  /** The usage reports of a whole Vertex stream: one, in the last element, exact below 2^31. */
  lemma VertexUsageOnce(p: Plan)
    ensures var elements := Vertex.Elements(FullStream(p));
      && (forall i :: 0 <= i < |elements| ==> (elements[i].usage.Some? <==> i == |elements| - 1))
      && elements[|elements| - 1].usage == Some(Vertex.ToUsageMetadata(p.usage))
      && (elements[|elements| - 1].usage.value.totalTokenCount == p.usage.totalTokens <==>
          -TWO31 <= p.usage.totalTokens < TWO31)
  {
  }

  /** What each client of a whole stream has in hand at the end. */
  ghost predicate ClientsAgree(modelId: string, chunks: seq<StreamChunk>, resp: ChatResponse) {
    && |resp.choices| == 1
    // texts
    && OpenAiText(chunks) == OpenAiChat.ToChatCompletion(resp).choices[0].content
    && ResponsesText(chunks) == OpenAiResponses.ToSdkResponse(resp).output.text
    && ConverseText(chunks) == Bedrock.Converse(resp).text
    && ClaudeText(modelId, chunks) == Bedrock.InvokeModel(modelId, resp).text
    && VertexText(chunks) == Vertex.ToGenaiResponse(resp).candidates[0].text
    // stop reasons and usage
    && (var log := Bedrock.ConverseLog(chunks);
        && log[|log| - 2] == Bedrock.MessageStop(Bedrock.Converse(resp).stopReason)
        && log[|log| - 1] == Bedrock.Metadata(Bedrock.Converse(resp).usage))
    && (var log := Bedrock.ClaudeLog(modelId, chunks); var answer := Bedrock.InvokeModel(modelId, resp);
        log[|log| - 2] == Bedrock.ClaudeMessageDelta(answer.stopReason, answer.usage))
    && (var log := OpenAiResponses.Run(chunks).log;
        log != [] && log[|log| - 1] == OpenAiResponses.Completed(|log|, OpenAiResponses.ToSdkResponse(resp)))
    && (var payloads := OpenAiChat.Payloads(chunks);
        && payloads != []
        && payloads[|payloads| - 1].usage == OpenAiChat.ToChatCompletion(resp).usage
        && payloads[|payloads| - 1].finishReason == OpenAiChat.ToChatCompletion(resp).choices[0].finishReason)
    && (var elements := Vertex.Elements(chunks);
        && elements != []
        && elements[|elements| - 1].usage == Vertex.ToGenaiResponse(resp).usage
        && elements[|elements| - 1].candidates[0].finishReason == Vertex.ToGenaiResponse(resp).candidates[0].finishReason)
  }

  lemma FullStreamAgrees(modelId: string, p: Plan, text: string)
    requires OpenAiResponses.Proper(p) && p.words == Words.SplitWords(text)
    ensures ClientsAgree(modelId, FullStream(p), Answer(p, text))
  {
    var full, resp := FullStream(p), Answer(p, text);
    assert full[..|p.words| + 1] == full;
    OneText(modelId, full);
    FullStreamSays(p, text);
    Bedrock.LogsOfStream(modelId, p, |p.words| + 1);
    ResponsesStreamEndsInAnswer(p, text);
  }

  /**
   For one request, store and clock: in every complete, uncancelled run, each of the five clients
   ends up with the text, the stop reason and the usage that the non-streaming endpoint of the
   same provider answers.
   */
  lemma StreamingClientsSeeTheCompletion(modelId: string, req: ChatRequest, scenarios: Resolver, now: int,
                                         p: Plan, later: int, s0: State, run: seq<Step>)
    requires StreamOutcome(req, scenarios, now) == Outcome(Ok(p), later)
    requires Whole(p, s0, run)
    ensures CompleteOutcome(req, scenarios, now).result.Ok?
    ensures ClientsAgree(modelId, After(p, s0, run).handled, CompleteOutcome(req, scenarios, now).result.value)
  {
    var sc := Resolved(req, scenarios, now, p, later);
    PlansAreProper(req, scenarios, now, p, later);
    UncancelledOutcome(p, s0, run);
    FullStreamAgrees(modelId, p, ReplyText(sc));
  }

  /**
   From the bytes on the wire: in every complete, uncancelled run, clients of the three text
   framings whose decoders undo the encoders read exactly the text that `Complete` answers.
   */
  lemma ClientsReadTheCompletion(req: ChatRequest, scenarios: Resolver, now: int, p: Plan, later: int,
                                 s0: State, run: seq<Step>,
                                 chatEnc: OpenAiChat.Encoder, chatDec: OpenAiChat.Decoder,
                                 eventEnc: OpenAiResponses.Encoder, eventDec: OpenAiResponses.Decoder,
                                 vertexEnc: Vertex.Encoder, vertexDec: Vertex.Decoder)
    requires StreamOutcome(req, scenarios, now) == Outcome(Ok(p), later)
    requires Whole(p, s0, run)
    requires Json.Undoes(chatDec, chatEnc) && Json.Undoes(eventDec, eventEnc) && Json.Undoes(vertexDec, vertexEnc)
    ensures var chunks := After(p, s0, run).handled; var r := CompleteOutcome(req, scenarios, now).result;
      && r.Ok? && |r.value.choices| == 1
      && var text := MessageText(r.value.choices[0].message.content);
         && OpenAiChat.ReceivedText(
              Concat(Sse.FrameTexts(OpenAiChat.AllFrames(chunks, chatEnc))), chatDec) == Some(text)
         && OpenAiResponses.ReceivedText(
              Concat(OpenAiResponses.Printed(OpenAiResponses.Run(chunks).log, eventEnc)), eventDec) == Some(text)
         && Vertex.ReceivedText(Concat(Vertex.OpenArray(chunks, vertexEnc) + ["]"]), vertexDec) == Some(text)
  {
    var chunks := After(p, s0, run).handled;
    StreamDeliversCompletion(req, scenarios, now, p, later, s0, run);
    UncancelledOutcome(p, s0, run);
    OneText("", chunks);
    OpenAiChat.ClientDecodes(chunks, chatEnc, chatDec);
    OpenAiResponses.ClientDecodes(OpenAiResponses.Run(chunks).log, eventEnc, eventDec);
    Vertex.ClientDecodes(chunks, vertexEnc, vertexDec);
  }

  // ---- The store behind the chat use case ----

  /** The scenario port as the in-memory store serves it. */
  function StoreResolver(scenarios: map<string, Scenario>): Resolver {
    k => Ok(ScenarioStore.Lookup(scenarios, k))
  }

  /**
   After any history of loader and admin writes, the entry of the last accepted write to
   `model|chat` decides everything: how long both entry points wait, the error they inject, the
   text they answer with, and the pace of the stream.  The usage is always an estimate.
   */
  lemma CompletionAfterWrites(ws: seq<ScenarioStore.Write>, i: nat, req: ChatRequest, now: int)
    requires req.model != "" && req.messages != []
    requires ScenarioStore.IsLastWrite(ws, i, ScenarioKey(req.model, "chat"))
    ensures var store := StoreResolver(ScenarioStore.ApplyAll(map[], ws)); var e := ws[i].entry;
      var c, s := CompleteOutcome(req, store, now), StreamOutcome(req, store, now);
      && c.now == s.now == now + Latency(e.latencyMs)
      && (e.error.Some? ==> c.result == Err(Injected(e.error.value)) && s.result == Err(Injected(e.error.value)))
      && (e.error.None? ==>
            && c.result.Ok? && |c.result.value.choices| == 1
            && MessageText(c.result.value.choices[0].message.content) ==
               (if e.responseText != "" then e.responseText else DEFAULT_REPLY)
            && s.result.Ok? && s.result.value.interDelay == InterDelay(e.tokensPerSecond)
            && s.result.value.usage == c.result.value.usage
            && c.result.value.usage ==
               Tokens.Estimate(req.messages, MessageText(c.result.value.choices[0].message.content)))
  {
    var k := ScenarioKey(req.model, "chat");
    ScenarioStore.ResolveIsLastEntry(ws, i, k);
    var sc := ScenarioStore.Lookup(ScenarioStore.ApplyAll(map[], ws), k);
    TextContentText(ReplyText(sc));
  }

  /** Without such a write both answer the canned reply at once, and the stream does not pause. */
  lemma CompletionWithoutWrites(ws: seq<ScenarioStore.Write>, req: ChatRequest, now: int)
    requires req.model != "" && req.messages != []
    requires forall i: nat :: !ScenarioStore.IsLastWrite(ws, i, ScenarioKey(req.model, "chat"))
    ensures var store := StoreResolver(ScenarioStore.ApplyAll(map[], ws));
      var c, s := CompleteOutcome(req, store, now), StreamOutcome(req, store, now);
      && c.now == s.now == now
      && c.result.Ok? && |c.result.value.choices| == 1
      && MessageText(c.result.value.choices[0].message.content) == DEFAULT_REPLY
      && c.result.value.usage == Tokens.Estimate(req.messages, DEFAULT_REPLY)
      && s.result.Ok? && s.result.value.interDelay == 0
  {
    var k := ScenarioKey(req.model, "chat");
    ScenarioStore.ResolveDefault(ws, k);
    TextContentText(DEFAULT_REPLY);
  }

  /**
   `countTokens` of some contents is the prompt count that `generateContent` reports for them,
   raised to one, when there is no system instruction and the scenario sets no usage.
   */
  lemma CountTokensMatchesGenerateContent(contents: seq<Vertex.Content>, req: ChatRequest, scenarios: Resolver,
                                          now: int, resp: ChatResponse, later: int, sc: Scenario)
    requires req.messages == Vertex.SystemMessages(None) + Vertex.Turns(contents)
    requires CompleteOutcome(req, scenarios, now) == Outcome(Ok(resp), later)
    requires scenarios(ScenarioKey(req.model, "chat")) == Ok(sc) && sc.usage.totalTokens == 0
    ensures Vertex.TokenCount(contents) == Int32(if resp.usage.promptTokens >= 1 then resp.usage.promptTokens else 1)
    ensures resp.usage.promptTokens >= 1 ==>
              Vertex.ToGenaiResponse(resp).usage.value.promptTokenCount == Vertex.TokenCount(contents)
  {
    assert req.messages == Vertex.Turns(contents);
  }
}
