/**
 What a client finds on the wire, field by field, against the use case's own answer: for each
 adapter the plain answer, and the stream of every complete, uncancelled run.
 */
module Answers {
  import opened Chat
  import opened Domain
  import opened Integers
  import opened StreamProtocol
  import opened Wire
  import Agreement
  import Bedrock
  import OpenAiChat
  import OpenAiResponses
  import Vertex
  import Words

  /** The text of an answer with one choice. */
  function TextOf(resp: ChatResponse): string
    requires |resp.choices| == 1
  {
    MessageText(resp.choices[0].message.content)
  }

  /** What every whole run delivers, and what the completion is. */
  lemma WholeRun(req: ChatRequest, scenarios: Resolver, now: int, p: Plan, later: int, s0: State, run: seq<Step>)
    returns (text: string)
    requires StreamOutcome(req, scenarios, now) == Outcome(Ok(p), later) && Whole(p, s0, run)
    ensures CompleteOutcome(req, scenarios, now) == Outcome(Ok(Answer(p, text)), later)
    ensures After(p, s0, run).handled == FullStream(p)
    ensures p.words == Words.SplitWords(text) && OpenAiResponses.Proper(p)
    ensures TextOf(Answer(p, text)) == text == DeltaText(FullStream(p))
  {
    var sc := Resolved(req, scenarios, now, p, later);
    text := ReplyText(sc);
    UncancelledOutcome(p, s0, run);
    Agreement.PlansAreProper(req, scenarios, now, p, later);
    TextContentText(text);
  }

  // ---- OpenAI chat ----

  ghost predicate OpenAiStreamSays(ps: seq<OpenAiChat.ChunkPayload>, resp: ChatResponse)
    requires |resp.choices| == 1
  {
    var n := |ps| - 1;
    && n >= 1
    && (forall i :: 0 <= i <= n ==>
          && ps[i].id == resp.id && ps[i].model == resp.model && ps[i].created == resp.created && ps[i].index == 0
          && ps[i].role == (if i == 0 then "assistant" else "")
          && (ps[i].content == "" <==> i == n)
          && ps[i].finishReason == (if i == n then resp.choices[0].finishReason else Unset)
          && ps[i].usage == (if i == n then resp.usage else TokenUsage(0, 0, 0)))
    && Joined(ps, (p: OpenAiChat.ChunkPayload) => p.content) == TextOf(resp)
  }

  ghost predicate OpenAiPlainSays(a: OpenAiChat.ChatCompletion, resp: ChatResponse)
    requires |resp.choices| == 1
  {
    && a.id == resp.id && a.model == resp.model && a.created == resp.created && a.usage == resp.usage
    && |a.choices| == 1
    && a.choices[0].content == TextOf(resp)
    && a.choices[0].finishReason == resp.choices[0].finishReason
    && a.choices[0].index == resp.choices[0].index
  }

  lemma OpenAiPlain(resp: ChatResponse)
    requires |resp.choices| == 1
    ensures OpenAiPlainSays(OpenAiChat.ToChatCompletion(resp), resp)
  {
  }

  lemma OpenAiStream(p: Plan, text: string)
    requires OpenAiResponses.Proper(p) && TextOf(Answer(p, text)) == text == DeltaText(FullStream(p))
    ensures OpenAiStreamSays(OpenAiChat.Payloads(FullStream(p)), Answer(p, text))
  {
    OpenAiChat.PayloadText(FullStream(p));
  }

  lemma OpenAiAnswers(req: ChatRequest, scenarios: Resolver, now: int, p: Plan, later: int, s0: State, run: seq<Step>)
    requires StreamOutcome(req, scenarios, now) == Outcome(Ok(p), later) && Whole(p, s0, run)
    ensures var r := CompleteOutcome(req, scenarios, now).result;
      && r.Ok? && |r.value.choices| == 1
      && OpenAiPlainSays(OpenAiChat.ToChatCompletion(r.value), r.value)
      && OpenAiStreamSays(OpenAiChat.Payloads(After(p, s0, run).handled), r.value)
  {
    var text := WholeRun(req, scenarios, now, p, later, s0, run);
    OpenAiStream(p, text);
    OpenAiPlain(Answer(p, text));
  }

  // ---- OpenAI responses ----

  ghost predicate ResponseSays(r: OpenAiResponses.SdkResponse, resp: ChatResponse)
    requires |resp.choices| == 1
  {
    && r.id == resp.id && r.model == resp.model && r.createdAt == resp.created && r.status == "completed"
    && r.usage.promptTokens == resp.usage.promptTokens
    && r.usage.completionTokens == resp.usage.completionTokens
    && r.usage.totalTokens == resp.usage.totalTokens
    && r.output == OpenAiResponses.OutputItem(resp.id + "-msg", "assistant", "completed", TextOf(resp))
  }

  type Log = seq<OpenAiResponses.ResponseEvent>

  ghost predicate Opens(log: Log, resp: ChatResponse) {
    && |log| >= 2 && log[0].Created?
    && log[0].response.id == resp.id && log[0].response.model == resp.model
    && log[0].response.createdAt == resp.created && log[0].response.output.text == ""
    && log[0].response.usage == TokenUsage(0, 0, 0)
    && log[1] == OpenAiResponses.ItemAdded(
         2, OpenAiResponses.OutputItem(resp.id + "-msg", "assistant", "in_progress", ""))
  }

  ghost predicate Deltas(log: Log, n: nat, resp: ChatResponse) {
    |log| >= n + 2 && forall i :: 2 <= i < n + 2 ==>
      log[i].TextDelta? && log[i].seqNo == i + 1 && log[i].itemId == resp.id + "-msg" && log[i].delta != ""
  }

  ghost predicate Closes(log: Log, n: nat, resp: ChatResponse)
    requires |resp.choices| == 1
  {
    && |log| == n + 4 && log[n + 2].ItemDone? && log[n + 3].Completed?
    && log[n + 2].item == log[n + 3].response.output
    && ResponseSays(log[n + 3].response, resp)
  }

  /** One item id runs through the log, from the announcement to the response. */
  ghost predicate ResponsesStreamSays(log: Log, resp: ChatResponse)
    requires |resp.choices| == 1
  {
    && |log| >= 5
    && Opens(log, resp) && Deltas(log, |log| - 4, resp) && Closes(log, |log| - 4, resp)
    && OpenAiResponses.LogText(log) == TextOf(resp)
  }

  lemma ResponsesPlain(resp: ChatResponse)
    requires |resp.choices| == 1
    ensures ResponseSays(OpenAiResponses.ToSdkResponse(resp), resp)
  {
  }

  lemma ExpectedOpens(p: Plan, text: string)
    requires OpenAiResponses.Proper(p)
    ensures var log := OpenAiResponses.Expected(p, |p.words| + 1);
      Opens(log, Answer(p, text)) && Deltas(log, |p.words|, Answer(p, text))
  {
    var n := |p.words|;
    var log := OpenAiResponses.Expected(p, n + 1);
    forall i | 2 <= i < n + 2
      ensures log[i] == OpenAiResponses.WordEvents(p, n)[i - 2]
    {
    }
  }

  lemma ExpectedCloses(p: Plan, text: string)
    requires OpenAiResponses.Proper(p) && p.words == Words.SplitWords(text)
    ensures Closes(OpenAiResponses.Expected(p, |p.words| + 1), |p.words|, Answer(p, text))
  {
    Agreement.FinalAnswerIs(p, text);
    ResponsesPlain(Answer(p, text));
    var (n, last) := (|p.words|, OpenAiResponses.LastEvents(p));
    var log := OpenAiResponses.Expected(p, n + 1);
    assert |log| == n + 4 && log[n + 2] == last[0] && log[n + 3] == last[1];
  }

  lemma WholeLog(p: Plan)
    requires OpenAiResponses.Proper(p)
    ensures OpenAiResponses.Run(FullStream(p)).log == OpenAiResponses.Expected(p, |p.words| + 1)
  {
    assert FullStream(p)[..|p.words| + 1] == FullStream(p);
    OpenAiResponses.LogOfStream(p, |p.words| + 1);
  }

  lemma Assemble(log: Log, n: nat, resp: ChatResponse)
    requires |resp.choices| == 1 && n >= 1
    requires Opens(log, resp) && Deltas(log, n, resp) && Closes(log, n, resp)
    requires OpenAiResponses.LogText(log) == TextOf(resp)
    ensures ResponsesStreamSays(log, resp)
  {
  }

  lemma ResponsesStream(p: Plan, text: string)
    requires OpenAiResponses.Proper(p) && p.words == Words.SplitWords(text)
    requires TextOf(Answer(p, text)) == text == DeltaText(FullStream(p))
    ensures ResponsesStreamSays(OpenAiResponses.Run(FullStream(p)).log, Answer(p, text))
  {
    WholeLog(p);
    ExpectedOpens(p, text);
    ExpectedCloses(p, text);
    OpenAiResponses.RunText(FullStream(p));
    Assemble(OpenAiResponses.Run(FullStream(p)).log, |p.words|, Answer(p, text));
  }

  lemma ResponsesAnswers(req: ChatRequest, scenarios: Resolver, now: int, p: Plan, later: int,
                         s0: State, run: seq<Step>)
    requires StreamOutcome(req, scenarios, now) == Outcome(Ok(p), later) && Whole(p, s0, run)
    ensures var r := CompleteOutcome(req, scenarios, now).result;
      && r.Ok? && |r.value.choices| == 1
      && ResponseSays(OpenAiResponses.ToSdkResponse(r.value), r.value)
      && ResponsesStreamSays(OpenAiResponses.Run(After(p, s0, run).handled).log, r.value)
  {
    var text := WholeRun(req, scenarios, now, p, later, s0, run);
    ResponsesPlain(Answer(p, text));
    ResponsesStream(p, text);
  }

  // ---- Bedrock ----

  ghost predicate ConverseStreamSays(log: seq<Bedrock.ConverseEvent>, resp: ChatResponse)
    requires |resp.choices| == 1
  {
    var n := |log| - 4;
    && n >= 1
    && log[0] == Bedrock.MessageStart("assistant")
    && (forall i :: 1 <= i <= n ==> log[i].ContentBlockDelta? && log[i].text != "")
    && log[n + 1].ContentBlockStop?
    && log[n + 2] == Bedrock.MessageStop("end_turn")
    && log[n + 3].Metadata?
    && log[n + 3].usage.promptTokens == resp.usage.promptTokens
    && log[n + 3].usage.completionTokens == resp.usage.completionTokens
    && log[n + 3].usage.totalTokens == resp.usage.totalTokens
    && Joined(log, Bedrock.ConverseText) == TextOf(resp)
  }

  ghost predicate ConversePlainSays(a: Bedrock.ConverseAnswer, resp: ChatResponse)
    requires |resp.choices| == 1
  {
    && a.role == "assistant" && a.text == TextOf(resp) && a.stopReason == "end_turn"
    && a.usage.promptTokens == resp.usage.promptTokens
    && a.usage.completionTokens == resp.usage.completionTokens
    && a.usage.totalTokens == resp.usage.totalTokens
  }

  /** The stream is named after the model, the plain answer after the response. */
  ghost predicate ClaudeStreamSays(modelId: string, log: seq<Bedrock.ClaudeEvent>, resp: ChatResponse)
    requires |resp.choices| == 1
  {
    var n := |log| - 5;
    && n >= 1
    && log[0] == Bedrock.ClaudeMessageStart("msg_" + modelId, modelId)
    && log[1].ClaudeBlockStart?
    && (forall i :: 2 <= i < n + 2 ==> log[i].ClaudeBlockDelta? && log[i].text != "")
    && log[n + 2].ClaudeBlockStop?
    && log[n + 3].ClaudeMessageDelta? && log[n + 3].stopReason == "end_turn"
    && log[n + 3].usage.inputTokens == resp.usage.promptTokens
    && log[n + 3].usage.outputTokens == resp.usage.completionTokens
    && log[n + 4].ClaudeMessageStop?
    && Joined(log, Bedrock.ClaudeText) == TextOf(resp)
  }

  ghost predicate ClaudePlainSays(modelId: string, a: Bedrock.ClaudeAnswer, resp: ChatResponse)
    requires |resp.choices| == 1
  {
    && a.id == "msg_" + resp.id && a.model == modelId && a.text == TextOf(resp) && a.stopReason == "end_turn"
    && a.usage.inputTokens == resp.usage.promptTokens
    && a.usage.outputTokens == resp.usage.completionTokens
  }

  lemma BedrockPlain(modelId: string, resp: ChatResponse)
    requires |resp.choices| == 1 && resp.choices[0].finishReason == Stop
    ensures ConversePlainSays(Bedrock.Converse(resp), resp)
    ensures ClaudePlainSays(modelId, Bedrock.InvokeModel(modelId, resp), resp)
  {
  }

  lemma BedrockStreams(modelId: string, p: Plan, text: string)
    requires OpenAiResponses.Proper(p) && TextOf(Answer(p, text)) == text == DeltaText(FullStream(p))
    ensures ConverseStreamSays(Bedrock.ConverseLog(FullStream(p)), Answer(p, text))
    ensures ClaudeStreamSays(modelId, Bedrock.ClaudeLog(modelId, FullStream(p)), Answer(p, text))
  {
    var n := |p.words|;
    assert FullStream(p)[..n + 1] == FullStream(p) && p.words[..n] == p.words;
    Bedrock.LogsOfStream(modelId, p, n + 1);
    Bedrock.ConverseLogIsWellFormed(FullStream(p));
    Bedrock.ClaudeLogIsWellFormed(modelId, FullStream(p));
  }

  lemma BedrockAnswers(modelId: string, req: ChatRequest, scenarios: Resolver, now: int, p: Plan, later: int,
                       s0: State, run: seq<Step>)
    requires StreamOutcome(req, scenarios, now) == Outcome(Ok(p), later) && Whole(p, s0, run)
    ensures var r := CompleteOutcome(req, scenarios, now).result;
      && r.Ok? && |r.value.choices| == 1
      && ConversePlainSays(Bedrock.Converse(r.value), r.value)
      && ConverseStreamSays(Bedrock.ConverseLog(After(p, s0, run).handled), r.value)
      && ClaudePlainSays(modelId, Bedrock.InvokeModel(modelId, r.value), r.value)
      && ClaudeStreamSays(modelId, Bedrock.ClaudeLog(modelId, After(p, s0, run).handled), r.value)
  {
    var text := WholeRun(req, scenarios, now, p, later, s0, run);
    BedrockStreams(modelId, p, text);
    BedrockPlain(modelId, Answer(p, text));
  }

  // ---- Vertex ----

  /** The counts as int32: equal modulo 2^32, so equal when they fit. */
  ghost predicate CountsAs(m: Vertex.UsageMetadata, u: TokenUsage) {
    && IsInt32Of(m.promptTokenCount, u.promptTokens)
    && IsInt32Of(m.candidatesTokenCount, u.completionTokens)
    && IsInt32Of(m.totalTokenCount, u.totalTokens)
  }

  ghost predicate IsInt32Of(x: int, y: int) {
    -0x8000_0000 <= x < 0x8000_0000 && (x - y) % 0x1_0000_0000 == 0
  }

  /** Every element, not only the last, says that the candidate stopped. */
  ghost predicate ElementSays(e: Vertex.Element, resp: ChatResponse) {
    && e.modelVersion == resp.model && e.responseId == resp.id
    && |e.candidates| == 1
    && e.candidates[0].role == "model" && e.candidates[0].index == 0 && e.candidates[0].finishReason == "STOP"
  }

  ghost predicate VertexStreamSays(es: seq<Vertex.Element>, resp: ChatResponse)
    requires |resp.choices| == 1
  {
    var n := |es| - 1;
    && n >= 1
    && (forall i :: 0 <= i <= n ==> ElementSays(es[i], resp) && (es[i].usage.Some? <==> i == n))
    && CountsAs(es[n].usage.value, resp.usage)
    && Joined(es, Vertex.ElementText) == TextOf(resp)
  }

  ghost predicate VertexPlainSays(e: Vertex.Element, resp: ChatResponse)
    requires |resp.choices| == 1
  {
    ElementSays(e, resp) && e.candidates[0].text == TextOf(resp) && e.usage.Some? && CountsAs(e.usage.value, resp.usage)
  }

  lemma UsageCounts(u: TokenUsage)
    ensures CountsAs(Vertex.ToUsageMetadata(u), u)
  {
    Int32Meaning(u.promptTokens);
    Int32Meaning(u.completionTokens);
    Int32Meaning(u.totalTokens);
  }

  lemma VertexPlain(resp: ChatResponse)
    requires |resp.choices| == 1 && resp.choices[0].finishReason == Stop && resp.choices[0].index == 0
    ensures VertexPlainSays(Vertex.ToGenaiResponse(resp), resp)
  {
    UsageCounts(resp.usage);
  }

  lemma VertexStream(p: Plan, text: string)
    requires OpenAiResponses.Proper(p) && TextOf(Answer(p, text)) == text == DeltaText(FullStream(p))
    ensures VertexStreamSays(Vertex.Elements(FullStream(p)), Answer(p, text))
  {
    Vertex.ElementsText(FullStream(p));
    UsageCounts(p.usage);
    forall i | 0 <= i < |FullStream(p)|
      ensures ElementSays(Vertex.ToElement(FullStream(p)[i]), Answer(p, text))
    {
      ElementOf(FullStream(p)[i], Answer(p, text));
    }
  }

  lemma ElementOf(c: StreamChunk, resp: ChatResponse)
    requires c.id == resp.id && c.model == resp.model && c.index == 0 && c.finishReason in {Unset, Stop}
    ensures ElementSays(Vertex.ToElement(c), resp)
  {
  }

  lemma VertexAnswers(req: ChatRequest, scenarios: Resolver, now: int, p: Plan, later: int, s0: State, run: seq<Step>)
    requires StreamOutcome(req, scenarios, now) == Outcome(Ok(p), later) && Whole(p, s0, run)
    ensures var r := CompleteOutcome(req, scenarios, now).result;
      && r.Ok? && |r.value.choices| == 1
      && VertexPlainSays(Vertex.ToGenaiResponse(r.value), r.value)
      && VertexStreamSays(Vertex.Elements(After(p, s0, run).handled), r.value)
  {
    var text := WholeRun(req, scenarios, now, p, later, s0, run);
    VertexStream(p, text);
    VertexPlain(Answer(p, text));
  }
}
