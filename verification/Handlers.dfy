/**
 The Bedrock and Vertex chat handlers from a decoded body to the answer, and the one pair of
 handlers that does not put the same request to the use case.
 */
module Handlers {
  import opened Bedrock
  import opened Chat
  import opened Domain
  import opened StreamProtocol
  import opened Wire
  import Agreement
  import Tokens
  import Utf8
  import Vertex
  import Words

  datatype ClaudeBody = ClaudeBody(messages: seq<Bedrock.Message>, system: string, maxTokens: int)

  // ---- Requests ----

  function ConverseRequest(modelId: string, msgs: seq<Bedrock.Message>, system: seq<string>): ChatRequest {
    ChatRequest(modelId, Tokens.BlockMessages(system) + Bedrock.Turns(msgs), 0, false)
  }

  function VertexRequest(model: string, contents: seq<Vertex.Content>, system: Option<Vertex.Content>): ChatRequest {
    ChatRequest(model, Vertex.SystemMessages(system) + Vertex.Turns(contents), 0, false)
  }

  /** `invokeModel` sends the system prompt first. */
  function InvokeRequest(modelId: string, body: ClaudeBody): ChatRequest {
    var system := if body.system != "" then [Tokens.TextMessage(ROLE_SYSTEM, body.system)] else [];
    ChatRequest(modelId, system + Bedrock.Turns(body.messages), body.maxTokens, false)
  }

  /** `invokeModelStream` leaves it out. */
  function InvokeStreamRequest(modelId: string, body: ClaudeBody): ChatRequest {
    ChatRequest(modelId, Bedrock.Turns(body.messages), body.maxTokens, false)
  }

  // ---- Answers ----

  /** A handler refuses a body without messages before it asks the use case. */
  function Guarded<T>(present: bool, outcome: Outcome<T>, now: int): Outcome<T> {
    if present then outcome else Outcome(Err(InvalidRequest), now)
  }

  function ConverseOutcome(modelId: string, msgs: seq<Bedrock.Message>, system: seq<string>,
                           scenarios: Resolver, now: int): Outcome<ChatResponse> {
    Guarded(msgs != [], CompleteOutcome(ConverseRequest(modelId, msgs, system), scenarios, now), now)
  }

  function ConverseStreamOutcome(modelId: string, msgs: seq<Bedrock.Message>, system: seq<string>,
                                 scenarios: Resolver, now: int): Outcome<Plan> {
    Guarded(msgs != [], StreamOutcome(ConverseRequest(modelId, msgs, system), scenarios, now), now)
  }

  function InvokeOutcome(modelId: string, body: ClaudeBody, scenarios: Resolver, now: int): Outcome<ChatResponse> {
    Guarded(body.messages != [], CompleteOutcome(InvokeRequest(modelId, body), scenarios, now), now)
  }

  function InvokeStreamOutcome(modelId: string, body: ClaudeBody, scenarios: Resolver, now: int): Outcome<Plan> {
    Guarded(body.messages != [], StreamOutcome(InvokeStreamRequest(modelId, body), scenarios, now), now)
  }

  function VertexOutcome(model: string, contents: seq<Vertex.Content>, system: Option<Vertex.Content>,
                         scenarios: Resolver, now: int): Outcome<ChatResponse> {
    Guarded(contents != [], CompleteOutcome(VertexRequest(model, contents, system), scenarios, now), now)
  }

  function VertexStreamOutcome(model: string, contents: seq<Vertex.Content>, system: Option<Vertex.Content>,
                               scenarios: Resolver, now: int): Outcome<Plan> {
    Guarded(contents != [], StreamOutcome(VertexRequest(model, contents, system), scenarios, now), now)
  }

  /** A body without messages is refused by all six handlers, at once. */
  lemma EmptyBodyIsInvalid(modelId: string, body: ClaudeBody, system: seq<string>, instruction: Option<Vertex.Content>,
                           scenarios: Resolver, now: int)
    requires body.messages == []
    ensures ConverseOutcome(modelId, [], system, scenarios, now) == Outcome(Err(InvalidRequest), now)
    ensures ConverseStreamOutcome(modelId, [], system, scenarios, now) == Outcome(Err(InvalidRequest), now)
    ensures InvokeOutcome(modelId, body, scenarios, now) == Outcome(Err(InvalidRequest), now)
    ensures InvokeStreamOutcome(modelId, body, scenarios, now) == Outcome(Err(InvalidRequest), now)
    ensures VertexOutcome(modelId, [], instruction, scenarios, now) == Outcome(Err(InvalidRequest), now)
    ensures VertexStreamOutcome(modelId, [], instruction, scenarios, now) == Outcome(Err(InvalidRequest), now)
  {
  }

  /** What a non-streaming handler sends for the use case's outcome. */
  ghost predicate Sends<A>(r: Result<A, UseCaseError>, outcome: Result<ChatResponse, UseCaseError>,
                           answer: ChatResponse --> A) {
    match outcome
    case Err(e) => r == Err(e)
    case Ok(resp) => answer.requires(resp) && r == Ok(answer(resp))
  }

  method AppendTurns(start: seq<ChatMessage>, msgs: seq<Bedrock.Message>) returns (messages: seq<ChatMessage>)
    ensures messages == start + Bedrock.Turns(msgs)
  {
    messages := start;
    for i := 0 to |msgs|
      invariant messages == start + Bedrock.Turns(msgs[..i])
    {
      var text := BlockText(msgs[i].content);
      Bedrock.TurnsNext(msgs, i);
      messages := messages + [ChatMessage(msgs[i].role, TextContent(text), "")];
    }
    assert msgs[..|msgs|] == msgs;
  }

  method BuildRequest(modelId: string, body: ClaudeBody) returns (req: ChatRequest)
    ensures req == InvokeRequest(modelId, body)
  {
    var messages: seq<ChatMessage> := [];
    if body.system != "" {
      messages := messages + [ChatMessage(ROLE_SYSTEM, TextContent(body.system), "")];
    }
    messages := AppendTurns(messages, body.messages);
    req := ChatRequest(modelId, messages, body.maxTokens, false);
  }

  method BuildStreamRequest(modelId: string, body: ClaudeBody) returns (req: ChatRequest)
    ensures req == InvokeStreamRequest(modelId, body)
  {
    var messages := AppendTurns([], body.messages);
    req := ChatRequest(modelId, messages, body.maxTokens, false);
  }

  method Converse(chat: Chat, modelId: string, msgs: seq<Bedrock.Message>, system: seq<string>)
    returns (r: Result<ConverseAnswer, UseCaseError>)
    modifies chat.clock
    ensures var outcome := ConverseOutcome(modelId, msgs, system, chat.scenarios, old(chat.clock.now));
      Sends(r, outcome.result, Bedrock.Converse) && chat.clock.now == outcome.now
  {
    if |msgs| == 0 {
      return Err(InvalidRequest);
    }
    var req := Bedrock.ToDomainRequest(modelId, msgs, system);
    var resp := chat.Complete(req);
    if resp.Err? {
      return Err(resp.error);
    }
    var choice := resp.value.choices[0];
    var text := Text(choice.message);
    r := Ok(ConverseAnswer("assistant", text, StopReasonFor(choice.finishReason), resp.value.usage));
  }

  method InvokeModel(chat: Chat, modelId: string, body: ClaudeBody) returns (r: Result<ClaudeAnswer, UseCaseError>)
    modifies chat.clock
    ensures var outcome := InvokeOutcome(modelId, body, chat.scenarios, old(chat.clock.now));
      Sends(r, outcome.result, (resp: ChatResponse) requires resp.choices != [] => Bedrock.InvokeModel(modelId, resp))
      && chat.clock.now == outcome.now
  {
    if |body.messages| == 0 {
      return Err(InvalidRequest);
    }
    var req := BuildRequest(modelId, body);
    var resp := chat.Complete(req);
    if resp.Err? {
      return Err(resp.error);
    }
    var choice := resp.value.choices[0];
    var text := Text(choice.message);
    var usage := resp.value.usage;
    r := Ok(ClaudeAnswer("msg_" + resp.value.id, modelId, text, ClaudeStopReasonFor(choice.finishReason),
                         ClaudeUsage(usage.promptTokens, usage.completionTokens)));
  }

  method GenerateContent(chat: Chat, model: string, contents: seq<Vertex.Content>, system: Option<Vertex.Content>)
    returns (r: Result<Vertex.Element, UseCaseError>)
    modifies chat.clock
    ensures var outcome := VertexOutcome(model, contents, system, chat.scenarios, old(chat.clock.now));
      Sends(r, outcome.result, Vertex.ToGenaiResponse) && chat.clock.now == outcome.now
  {
    if |contents| == 0 {
      return Err(InvalidRequest);
    }
    var req := Vertex.ToDomainRequest(model, contents, system);
    var resp := chat.Complete(req);
    if resp.Err? {
      return Err(resp.error);
    }
    r := Ok(Vertex.ToGenaiResponse(resp.value));
  }

  // ---- Streams ----

  /** The chunks that reach a draining handler; `done(i)` is the context's state before word i. */
  function Delivered(p: Plan, done: nat -> bool): seq<StreamChunk> {
    FullStream(p)[..ChunksSent(p, done, 0)]
  }

  method Drain(chat: Chat, p: Plan, done: nat -> bool) returns (chunks: seq<StreamChunk>)
    modifies chat.clock
    ensures chunks == Delivered(p, done)
  {
    var ch := new Channel();
    chat.Produce(p, done, ch);
    chunks := ch.sent;
  }

  method ConverseStream(chat: Chat, modelId: string, msgs: seq<Bedrock.Message>, system: seq<string>,
                        done: nat -> bool, w: Writer<ConverseEvent>)
    returns (r: Result<Plan, UseCaseError>)
    modifies chat.clock, w
    ensures r == ConverseStreamOutcome(modelId, msgs, system, chat.scenarios, old(chat.clock.now)).result
    ensures w.log == old(w.log) + if r.Ok? then Bedrock.ConverseLog(Delivered(r.value, done)) else []
  {
    if |msgs| == 0 {
      return Err(InvalidRequest);
    }
    var req := Bedrock.ToDomainRequest(modelId, msgs, system);
    r := chat.Stream(req);
    if r.Err? {
      return;
    }
    var chunks := Drain(chat, r.value, done);
    Bedrock.ConverseStream(chunks, w);
  }

  method InvokeModelStream(chat: Chat, modelId: string, body: ClaudeBody, done: nat -> bool, w: Writer<ClaudeEvent>)
    returns (r: Result<Plan, UseCaseError>)
    modifies chat.clock, w
    ensures r == InvokeStreamOutcome(modelId, body, chat.scenarios, old(chat.clock.now)).result
    ensures w.log == old(w.log) + if r.Ok? then Bedrock.ClaudeLog(modelId, Delivered(r.value, done)) else []
  {
    if |body.messages| == 0 {
      return Err(InvalidRequest);
    }
    var req := BuildStreamRequest(modelId, body);
    r := chat.Stream(req);
    if r.Err? {
      return;
    }
    var chunks := Drain(chat, r.value, done);
    Bedrock.InvokeModelStream(modelId, chunks, w);
  }

  /** A streaming handler's own error, beside those of the use case. */
  datatype StreamError = FromUseCase(error: UseCaseError) | StreamingUnsupported

  /**
   The Vertex handler asks whether its writer can flush only after the goroutine was started; when
   it cannot, the goroutine is left without a receiver.
   */
  method StreamGenerateContent(chat: Chat, model: string, contents: seq<Vertex.Content>,
                               system: Option<Vertex.Content>, canFlush: bool, done: nat -> bool,
                               enc: Vertex.Encoder, w: Writer<string>)
    returns (r: Result<Plan, StreamError>)
    modifies chat.clock, w
    ensures match VertexStreamOutcome(model, contents, system, chat.scenarios, old(chat.clock.now)).result
      case Err(e) => r == Err(FromUseCase(e))
      case Ok(p) => r == if canFlush then Ok(p) else Err(StreamingUnsupported)
    ensures w.log == old(w.log) + if r.Ok? then Vertex.OpenArray(Delivered(r.value, done), enc) + ["]"] else []
  {
    if |contents| == 0 {
      return Err(FromUseCase(InvalidRequest));
    }
    var req := Vertex.ToDomainRequest(model, contents, system);
    var plan := chat.Stream(req);
    if plan.Err? {
      return Err(FromUseCase(plan.error));
    }
    if !canFlush {
      return Err(StreamingUnsupported);
    }
    var chunks := Drain(chat, plan.value, done);
    Vertex.StreamGenerateContent(chunks, enc, w);
    r := Ok(plan.value);
  }

  // ---- One body sent to both endpoints of a provider ----

  /** Both endpoints fail, at the same time and with the same error, or neither does. */
  ghost predicate FailAlike(plain: Outcome<ChatResponse>, stream: Outcome<Plan>) {
    && stream.now == plain.now
    && (stream.result.Err? <==> plain.result.Err?)
    && (stream.result.Err? ==> stream.result.error == plain.result.error)
  }

  /** A whole Converse event log says what a plain answer says. */
  ghost predicate ConverseMatches(log: seq<ConverseEvent>, answer: ConverseAnswer) {
    && ConverseGrammar(log)
    && log[0] == MessageStart(answer.role)
    && Joined(log, Bedrock.ConverseText) == answer.text
    && log[|log| - 2] == MessageStop(answer.stopReason)
    && log[|log| - 1] == Metadata(answer.usage)
  }

  /** One body to both Converse endpoints, over every whole run of the stream. */
  lemma ConversePair(modelId: string, msgs: seq<Bedrock.Message>, system: seq<string>,
                     scenarios: Resolver, now: int, s0: State, run: seq<Step>)
    ensures var plain := ConverseOutcome(modelId, msgs, system, scenarios, now);
      var stream := ConverseStreamOutcome(modelId, msgs, system, scenarios, now);
      && FailAlike(plain, stream)
      && (stream.result.Ok? && Whole(stream.result.value, s0, run) ==>
            && |plain.result.value.choices| == 1
            && ConverseMatches(Bedrock.ConverseLog(After(stream.result.value, s0, run).handled),
                               Bedrock.Converse(plain.result.value)))
  {
    var req := ConverseRequest(modelId, msgs, system);
    StreamFailsAsComplete(req, scenarios, now);
    var stream := ConverseStreamOutcome(modelId, msgs, system, scenarios, now);
    if stream.result.Ok? && Whole(stream.result.value, s0, run) {
      var p := stream.result.value;
      Agreement.StreamingClientsSeeTheCompletion(modelId, req, scenarios, now, p, stream.now, s0, run);
      ConverseLogIsWellFormed(After(p, s0, run).handled);
    }
  }

  /** The elements of a whole Vertex stream say what a plain answer says. */
  ghost predicate VertexMatches(elements: seq<Vertex.Element>, answer: Vertex.Element) {
    && |answer.candidates| == 1 && elements != []
    && Joined(elements, Vertex.ElementText) == answer.candidates[0].text
    && (forall e :: e in elements ==> e.modelVersion == answer.modelVersion && e.responseId == answer.responseId)
    && var last := elements[|elements| - 1];
       && last.usage == answer.usage
       && |last.candidates| == 1 && last.candidates[0].finishReason == answer.candidates[0].finishReason
  }

  lemma ElementsMatch(chunks: seq<StreamChunk>, resp: ChatResponse)
    requires SayTheSame(chunks, resp)
    ensures VertexMatches(Vertex.Elements(chunks), Vertex.ToGenaiResponse(resp))
  {
    Vertex.ElementsText(chunks);
    var elements := Vertex.Elements(chunks);
    assert elements[|elements| - 1] == Vertex.ToElement(chunks[|chunks| - 1]);
  }

  /** One body to both Vertex endpoints, over every whole run of the stream. */
  lemma VertexPair(model: string, contents: seq<Vertex.Content>, system: Option<Vertex.Content>,
                   scenarios: Resolver, now: int, s0: State, run: seq<Step>)
    ensures var plain := VertexOutcome(model, contents, system, scenarios, now);
      var stream := VertexStreamOutcome(model, contents, system, scenarios, now);
      && FailAlike(plain, stream)
      && (stream.result.Ok? && Whole(stream.result.value, s0, run) ==>
            VertexMatches(Vertex.Elements(After(stream.result.value, s0, run).handled),
                          Vertex.ToGenaiResponse(plain.result.value)))
  {
    var req := VertexRequest(model, contents, system);
    StreamFailsAsComplete(req, scenarios, now);
    var stream := VertexStreamOutcome(model, contents, system, scenarios, now);
    if stream.result.Ok? && Whole(stream.result.value, s0, run) {
      var p := stream.result.value;
      StreamDeliversCompletion(req, scenarios, now, p, stream.now, s0, run);
      UncancelledOutcome(p, s0, run);
      ElementsMatch(After(p, s0, run).sent, CompleteOutcome(req, scenarios, now).result.value);
    }
  }

  // ---- The Claude pair ----

  /** The two requests for one body: the same turns, and the system prompt only in the plain one. */
  lemma ClaudeRequests(modelId: string, body: ClaudeBody)
    ensures var plain, stream := InvokeRequest(modelId, body), InvokeStreamRequest(modelId, body);
      && plain.model == stream.model == modelId
      && stream.messages == Bedrock.Turns(body.messages)
      && (body.system == "" ==> plain.messages == stream.messages)
      && (body.system != "" ==>
            && |plain.messages| == 1 + |stream.messages|
            && plain.messages[0].role == "system"
            && MessageText(plain.messages[0].content) == body.system
            && plain.messages[1..] == stream.messages)
  {
    TextContentText(body.system);
  }

  /** What the dropped system prompt takes off the estimate. */
  lemma DroppedSystem(modelId: string, body: ClaudeBody)
    ensures Tokens.PromptTokens(InvokeRequest(modelId, body).messages) ==
            Tokens.PromptTokens(InvokeStreamRequest(modelId, body).messages) + Utf8.Len(body.system) / 4
  {
    var m := Tokens.TextMessage(ROLE_SYSTEM, body.system);
    if body.system != "" {
      Tokens.PromptTokensAdd([m], Bedrock.Turns(body.messages));
      Tokens.OneMessage(m);
      Tokens.TextMessageBytes(ROLE_SYSTEM, body.system);
    } else {
      assert InvokeRequest(modelId, body).messages == Bedrock.Turns(body.messages);
    }
  }

  /**
   One Claude body sent to both endpoints: they fail alike; otherwise a whole stream carries the
   plain answer's text, stop reason and output count, but its input count is lower by a quarter
   of the system prompt's bytes unless the scenario sets the usage.  So the reported usages are
   equal exactly when the scenario sets one or the system prompt is shorter than four bytes.
   */
  lemma ClaudeStreamAgainstInvoke(modelId: string, body: ClaudeBody, scenarios: Resolver, now: int, sc: Scenario,
                                  p: Plan, later: int, s0: State, run: seq<Step>)
    requires scenarios(ScenarioKey(modelId, "chat")) == Ok(sc)
    requires InvokeStreamOutcome(modelId, body, scenarios, now) == Outcome(Ok(p), later) && Whole(p, s0, run)
    ensures var plain := InvokeOutcome(modelId, body, scenarios, now);
      && plain.result.Ok? && plain.now == later
      && |plain.result.value.choices| == 1
      && Matches(ClaudeLog(modelId, After(p, s0, run).handled), Bedrock.InvokeModel(modelId, plain.result.value),
                 DroppedTokens(body, sc))
    ensures DroppedTokens(body, sc) == 0 <==> sc.usage.totalTokens != 0 || Utf8.Len(body.system) < 4
  {
    StreamSide(modelId, body, scenarios, now, sc, p, later, s0, run);
    var resp := PlainSide(modelId, body, scenarios, now, sc);
    CompareSides(modelId, body, sc, p, resp);
  }

  lemma StreamSide(modelId: string, body: ClaudeBody, scenarios: Resolver, now: int, sc: Scenario,
                   p: Plan, later: int, s0: State, run: seq<Step>)
    requires scenarios(ScenarioKey(modelId, "chat")) == Ok(sc)
    requires InvokeStreamOutcome(modelId, body, scenarios, now) == Outcome(Ok(p), later) && Whole(p, s0, run)
    ensures modelId != "" && body.messages != [] && sc.error.None? && later == now + Latency(sc.latencyMs)
    ensures After(p, s0, run).handled == FullStream(p)
    ensures p.words == Words.SplitWords(ReplyText(sc)) && p.usage == UsageFor(sc, InvokeStreamRequest(modelId, body))
  {
    var sc' := Resolved(InvokeStreamRequest(modelId, body), scenarios, now, p, later);
    UncancelledOutcome(p, s0, run);
  }

  ghost predicate Says(resp: ChatResponse, text: string, usage: TokenUsage) {
    && |resp.choices| == 1
    && MessageText(resp.choices[0].message.content) == text
    && resp.choices[0].finishReason == Stop
    && resp.usage == usage
  }

  /** What `invokeModel` is answered when the scenario injects no error. */
  lemma PlainSide(modelId: string, body: ClaudeBody, scenarios: Resolver, now: int, sc: Scenario)
    returns (resp: ChatResponse)
    requires scenarios(ScenarioKey(modelId, "chat")) == Ok(sc) && sc.error.None?
    requires modelId != "" && body.messages != []
    ensures InvokeOutcome(modelId, body, scenarios, now) == Outcome(Ok(resp), now + Latency(sc.latencyMs))
    ensures Says(resp, ReplyText(sc), UsageFor(sc, InvokeRequest(modelId, body)))
  {
    assert InvokeRequest(modelId, body).messages != [];
    resp := CompleteOutcome(InvokeRequest(modelId, body), scenarios, now).result.value;
    TextContentText(ReplyText(sc));
  }

  lemma CompareSides(modelId: string, body: ClaudeBody, sc: Scenario, p: Plan, resp: ChatResponse)
    requires p.words == Words.SplitWords(ReplyText(sc)) && p.usage == UsageFor(sc, InvokeStreamRequest(modelId, body))
    requires Says(resp, ReplyText(sc), UsageFor(sc, InvokeRequest(modelId, body)))
    ensures Matches(ClaudeLog(modelId, FullStream(p)), Bedrock.InvokeModel(modelId, resp), DroppedTokens(body, sc))
  {
    WholeClaudeLog(modelId, p, ReplyText(sc));
    UsageGap(modelId, body, sc);
    MatchesWhole(ClaudeLog(modelId, FullStream(p)), Bedrock.InvokeModel(modelId, resp), p.usage, resp.usage,
                 DroppedTokens(body, sc));
  }

  function DroppedTokens(body: ClaudeBody, sc: Scenario): nat {
    if sc.usage.totalTokens == 0 then Utf8.Len(body.system) / 4 else 0
  }

  /** A whole Claude event log against a plain answer that counts `dropped` more input tokens. */
  ghost predicate Matches(log: seq<ClaudeEvent>, answer: ClaudeAnswer, dropped: nat) {
    && |log| >= 2 && log[|log| - 2].ClaudeMessageDelta?
    && var last := log[|log| - 2];
       && Joined(log, Bedrock.ClaudeText) == answer.text
       && last.stopReason == answer.stopReason
       && last.usage.outputTokens == answer.usage.outputTokens
       && last.usage.inputTokens + dropped == answer.usage.inputTokens
       && (last.usage == answer.usage <==> dropped == 0)
  }

  lemma MatchesWhole(log: seq<ClaudeEvent>, answer: ClaudeAnswer, stream: TokenUsage, plain: TokenUsage, dropped: nat)
    requires |log| >= 2 && Joined(log, Bedrock.ClaudeText) == answer.text
    requires log[|log| - 2] ==
             ClaudeMessageDelta(answer.stopReason, ClaudeUsage(stream.promptTokens, stream.completionTokens))
    requires answer.usage == ClaudeUsage(plain.promptTokens, plain.completionTokens)
    requires plain.completionTokens == stream.completionTokens && plain.promptTokens == stream.promptTokens + dropped
    ensures Matches(log, answer, dropped)
  {
  }

  lemma UsageGap(modelId: string, body: ClaudeBody, sc: Scenario)
    ensures var plain := UsageFor(sc, InvokeRequest(modelId, body));
      var stream := UsageFor(sc, InvokeStreamRequest(modelId, body));
      && plain.completionTokens == stream.completionTokens
      && plain.promptTokens ==
         stream.promptTokens + DroppedTokens(body, sc)
  {
    DroppedSystem(modelId, body);
  }

  lemma NextToLast<E>(a: seq<E>, b: seq<E>)
    requires |b| >= 2
    ensures (a + b)[|a + b| - 2] == b[|b| - 2]
  {
  }

  /** The end of a whole Claude stream, and its text. */
  lemma WholeClaudeLog(modelId: string, p: Plan, text: string)
    requires text != "" && p.words == Words.SplitWords(text)
    ensures var log := ClaudeLog(modelId, FullStream(p));
      && |log| >= 2
      && Joined(log, Bedrock.ClaudeText) == text
      && log[|log| - 2] ==
         ClaudeMessageDelta("end_turn", ClaudeUsage(p.usage.promptTokens, p.usage.completionTokens))
  {
    ClaudeLogIsWellFormed(modelId, FullStream(p));
    WholeText(p, text);
    Words.PiecesNonEmpty(text);
    WholeClaudeEnd(modelId, p);
    NextToLast(ClaudeStart(modelId) + ClaudeDeltas(p.words), ClaudeEnd(Stop, p.usage));
  }

  lemma WholeClaudeEnd(modelId: string, p: Plan)
    requires forall i :: 0 <= i < |p.words| ==> p.words[i] != ""
    ensures ClaudeLog(modelId, FullStream(p)) ==
            ClaudeStart(modelId) + ClaudeDeltas(p.words) + ClaudeEnd(Stop, p.usage)
  {
    LogsOfStream(modelId, p, |p.words| + 1);
    WholeSlices(p);
  }

  /** And both endpoints fail on the same bodies with the same error. */
  lemma ClaudePairFailsAlike(modelId: string, body: ClaudeBody, scenarios: Resolver, now: int)
    ensures FailAlike(InvokeOutcome(modelId, body, scenarios, now), InvokeStreamOutcome(modelId, body, scenarios, now))
  {
    if body.messages != [] {
      assert InvokeRequest(modelId, body).messages != [];
      assert InvokeStreamRequest(modelId, body).messages != [];
    }
  }
}
