/** The chat use case: `Chat.Complete`, `Chat.Stream` and the goroutine it starts. */
module Chat {
  import opened Domain
  import opened Integers
  import opened StreamProtocol
  import opened Texts
  import Tokens
  import Utf8
  import Words

  /** Written in two parts, so that the verifier does not compute with its characters. */
  const DEFAULT_REPLY := "This is a " + "mocked response."
  const MILLISECOND := 1_000_000

  /** The scenario port, as it answers during one request. */
  type Resolver = ScenarioKey -> Result<Scenario, UseCaseError>

  /** The clock port with the behaviour of the unit tests' fake: only `Sleep` moves it (nanoseconds). */
  class Clock {
    var now: int

    constructor (start: int)
      ensures now == start
    {
      now := start;
    }

    method Now() returns (t: int)
      ensures t == now
    {
      t := now;
    }

    /** As in the fake, a negative duration moves the clock back; `time.Sleep` would return at once. */
    method Sleep(d: int)
      modifies this
      ensures now == old(now) + d
    {
      now := now + d;
    }
  }

  /** The sending side of the chunk channel: what has been handed over so far. */
  class Channel {
    var sent: seq<StreamChunk>

    constructor ()
      ensures sent == []
    {
      sent := [];
    }

    method Send(c: StreamChunk)
      modifies this
      ensures sent == old(sent) + [c]
    {
      sent := sent + [c];
    }
  }

  // ---- What the two entry points answer ----

  /** A result, and the clock when it is returned. */
  datatype Outcome<+T> = Outcome(result: Result<T, UseCaseError>, now: int)

  /** `time.Duration(ms) * time.Millisecond`, which wraps like every int64 product. */
  function Milliseconds(n: int): int {
    Int64(n * MILLISECOND)
  }

  function Latency(latencyMs: int): int {
    if latencyMs > 0 then Milliseconds(latencyMs) else 0
  }

  function ResponseId(now: int): string {
    "chatcmpl-" + Decimal(now)
  }

  function UnixSeconds(now: int): int {
    now / SECOND
  }

  function ReplyText(sc: Scenario): string {
    if sc.responseText == "" then DEFAULT_REPLY else sc.responseText
  }

  function UsageFor(sc: Scenario, req: ChatRequest): TokenUsage {
    if sc.usage.totalTokens == 0 then Tokens.Estimate(req.messages, ReplyText(sc)) else sc.usage
  }

  function CompleteOutcome(req: ChatRequest, scenarios: Resolver, now: int): Outcome<ChatResponse> {
    if req.model == "" || req.messages == [] then Outcome(Err(InvalidRequest), now)
    else
      match scenarios(ScenarioKey(req.model, "chat"))
      case Err(e) => Outcome(Err(e), now)
      case Ok(sc) =>
        var later := now + Latency(sc.latencyMs);
        if sc.error.Some? then Outcome(Err(Injected(sc.error.value)), later)
        else
          var message := ChatMessage(ROLE_ASSISTANT, TextContent(ReplyText(sc)), "");
          Outcome(Ok(ChatResponse(
                       ResponseId(later), req.model, UnixSeconds(later),
                       [Choice(0, message, Stop)], UsageFor(sc, req))), later)
  }

  function StreamOutcome(req: ChatRequest, scenarios: Resolver, now: int): Outcome<Plan> {
    if req.model == "" || req.messages == [] then Outcome(Err(InvalidRequest), now)
    else
      match scenarios(ScenarioKey(req.model, "chat"))
      case Err(e) => Outcome(Err(e), now)
      case Ok(sc) =>
        var later := now + Latency(sc.latencyMs);
        if sc.error.Some? then Outcome(Err(Injected(sc.error.value)), later)
        else Outcome(Ok(PlanFor(sc, req, later)), later)
  }

  function PlanFor(sc: Scenario, req: ChatRequest, now: int): Plan {
    Plan(ResponseId(now), req.model, UnixSeconds(now), Words.SplitWords(ReplyText(sc)),
         InterDelay(sc.tokensPerSecond), UsageFor(sc, req))
  }

  /** How many chunks the goroutine sends when `done(i)` says what it reads before word i. */
  function ChunksSent(p: Plan, done: nat -> bool, i: nat): (k: nat)
    requires i <= |p.words|
    ensures i <= k <= |p.words| + 1
    decreases |p.words| - i
  {
    if i == |p.words| then i + 1 else if done(i) then i else ChunksSent(p, done, i + 1)
  }

  /**
   Which prefix that is: the goroutine leaves at the first poll that finds the context done, and
   sends the finish chunk only if no poll does.
   */
  lemma {:induction false} LeavesAtFirstDone(p: Plan, done: nat -> bool, i: nat)
    requires i <= |p.words|
    ensures var k := ChunksSent(p, done, i);
      && (k <= |p.words| ==> k < |p.words| && done(k))
      && forall j :: i <= j < k && j < |p.words| ==> !done(j)
    decreases |p.words| - i
  {
    if i < |p.words| && !done(i) {
      LeavesAtFirstDone(p, done, i + 1);
    }
  }

  class Chat {
    const scenarios: Resolver
    const clock: Clock

    constructor (scenarios: Resolver, clock: Clock)
      ensures this.scenarios == scenarios && this.clock == clock
    {
      this.scenarios := scenarios;
      this.clock := clock;
    }

    method Complete(req: ChatRequest) returns (r: Result<ChatResponse, UseCaseError>)
      modifies clock
      ensures Outcome(r, clock.now) == CompleteOutcome(req, scenarios, old(clock.now))
    {
      if req.model == "" || |req.messages| == 0 {
        return Err(InvalidRequest);
      }
      var resolved := scenarios(ScenarioKey(req.model, "chat"));
      if resolved.Err? {
        return Err(resolved.error);
      }
      var scenario := resolved.value;
      if scenario.latencyMs > 0 {
        clock.Sleep(Milliseconds(scenario.latencyMs));
      }
      if scenario.error.Some? {
        return Err(Injected(scenario.error.value));
      }
      var text := scenario.responseText;
      if text == "" {
        text := DEFAULT_REPLY;
      }
      var usage := scenario.usage;
      if usage.totalTokens == 0 {
        usage := Tokens.EstimateUsage(req, text);
      }
      var nanos := clock.Now();
      var id := "chatcmpl-" + Decimal(nanos);
      var at := clock.Now();
      var message := ChatMessage(ROLE_ASSISTANT, TextContent(text), "");
      r := Ok(ChatResponse(id, req.model, at / SECOND, [Choice(0, message, Stop)], usage));
    }

    /** Returns what the goroutine captures; the channel it sends on starts out empty. */
    method Stream(req: ChatRequest) returns (r: Result<Plan, UseCaseError>)
      modifies clock
      ensures Outcome(r, clock.now) == StreamOutcome(req, scenarios, old(clock.now))
    {
      if req.model == "" || |req.messages| == 0 {
        return Err(InvalidRequest);
      }
      var resolved := scenarios(ScenarioKey(req.model, "chat"));
      if resolved.Err? {
        return Err(resolved.error);
      }
      var scenario := resolved.value;
      if scenario.latencyMs > 0 {
        clock.Sleep(Milliseconds(scenario.latencyMs));
      }
      if scenario.error.Some? {
        return Err(Injected(scenario.error.value));
      }
      var plan := Start(req, scenario);
      r := Ok(plan);
    }

    /** The rest of `Stream`: cut the reply, name the response, fix the pace and the usage. */
    method Start(req: ChatRequest, scenario: Scenario) returns (p: Plan)
      ensures p == PlanFor(scenario, req, clock.now)
    {
      var text := scenario.responseText;
      if text == "" {
        text := DEFAULT_REPLY;
      }
      var words := Words.SplitWordsLoop(text);
      var nanos := clock.Now();
      var id := "chatcmpl-" + Decimal(nanos);
      var created := clock.Now();
      var interDelay := 0;
      if scenario.tokensPerSecond > 0 {
        interDelay := SECOND / scenario.tokensPerSecond;
      }
      var usage := scenario.usage;
      if usage.totalTokens == 0 {
        usage := Tokens.EstimateUsage(req, text);
      }
      p := Plan(id, req.model, created / SECOND, words, interDelay, usage);
    }

    /**
     The goroutine, run on its own against a receiver that always takes the next chunk.
     `done(i)` is what the context says when it is polled before word i.
     */
    method Produce(p: Plan, done: nat -> bool, ch: Channel)
      modifies ch, clock
      ensures var k := ChunksSent(p, done, 0);
        && ch.sent == old(ch.sent) + FullStream(p)[..k]
        && clock.now == old(clock.now) + (if k <= |p.words| then k else |p.words|) * p.interDelay
        && (k <= |p.words| ==> k < |p.words| && done(k))
        && forall j :: 0 <= j < k && j < |p.words| ==> !done(j)
    {
      LeavesAtFirstDone(p, done, 0);
      var full := FullStream(p);
      var n := |p.words|;
      for i := 0 to n
        invariant ChunksSent(p, done, i) == ChunksSent(p, done, 0)
        invariant ch.sent == old(ch.sent) + full[..i]
        invariant clock.now == old(clock.now) + i * p.interDelay
      {
        if done(i) {
          return;
        }
        var deltaRole: Role := "";
        if i == 0 {
          deltaRole := ROLE_ASSISTANT;
        }
        ch.Send(StreamChunk(p.id, p.model, p.created, 0, deltaRole, p.words[i], Unset, None));
        if p.interDelay > 0 {
          clock.Sleep(p.interDelay);
        }
        assert full[..i + 1] == full[..i] + [WordChunk(p, i)];
        assert (i + 1) * p.interDelay == i * p.interDelay + p.interDelay;
      }
      ch.Send(StreamChunk(p.id, p.model, p.created, 0, "", "", Stop, Some(p.usage)));
      assert full[..n + 1] == full[..n] + [FinalChunk(p)];
    }
  }

  /** A context that is done stays done. */
  ghost predicate StaysDone(done: nat -> bool) {
    forall i: nat, j: nat :: i <= j && done(i) ==> done(j)
  }

  /** What the goroutine does by itself under a context, as `Produce` states it. */
  ghost predicate Produces(p: Plan, done: nat -> bool, sent: seq<StreamChunk>, paced: nat) {
    var k := ChunksSent(p, done, 0);
    && sent == FullStream(p)[..k]
    && paced == (if k <= |p.words| then k else |p.words|) * p.interDelay
  }

  /**
   Every finished run of the protocol is a run of the goroutine's own code: it sends and sleeps as
   `Produce` does under some context that stays done, and is done at all only if the request was
   cancelled.
   */
  lemma RunIsAProducerRun(p: Plan, s0: State, run: seq<Step>)
    requires Init(s0) && Legal(p, s0, run) && After(p, s0, run).pc.Closed?
    ensures var s := After(p, s0, run);
      exists done: nat -> bool ::
        StaysDone(done) && Produces(p, done, s.sent, s.paced) && ((exists i :: done(i)) ==> s.cancelled)
  {
    var s := After(p, s0, run);
    InitInv(p, s0);
    RunKeepsInv(p, s0, run);
    var k := |s.sent|;
    var done: nat -> bool := i => k <= i && k <= |p.words|;
    assert StaysDone(done);
    StopsAt(p, done, s);
  }

  lemma StopsAt(p: Plan, done: nat -> bool, s: State)
    requires Inv(p, s) && s.pc.Closed?
    requires forall i: nat :: done(i) <==> |s.sent| <= i && |s.sent| <= |p.words|
    ensures Produces(p, done, s.sent, s.paced)
  {
    LeavesAtFirstDone(p, done, 0);
    var k := |s.sent|;
    assert k < |p.words| ==> done(k);
    assert s.sent == FullStream(p)[..k];
  }

  /**
   And every run of the goroutine's code under a context that stays done is a run of the protocol
   with a draining handler, cancelled exactly if the finish chunk is missing.
   */
  lemma ProducerRunIsARun(p: Plan, done: nat -> bool, s0: State) returns (run: seq<Step>)
    requires Init(s0) && s0.consumer.Waiting? && !s0.cancelled
    ensures Complete(p, s0, run)
    ensures var s := After(p, s0, run);
      s.consumer.Done? && Produces(p, done, s.sent, s.paced) && (s.cancelled <==> s.sent != FullStream(p))
  {
    var k := ChunksSent(p, done, 0);
    LeavesAtFirstDone(p, done, 0);
    var full := FullStream(p);
    assert full[..|full|] == full;
    if k <= |p.words| {
      run := CancelAfterAnyWord(p, s0, k);
      ClosedOutcome(p, s0, run);
    } else {
      run := DeliverAll(p, s0);
      UncancelledOutcome(p, s0, run);
    }
  }

  // ---- What a completion says, in terms of the scenario ----

  /** `Complete` fails on an incomplete request at once, on a store error at once, and on an injected one late. */
  lemma CompleteFails(req: ChatRequest, scenarios: Resolver, now: int)
    ensures var o := CompleteOutcome(req, scenarios, now); var found := scenarios(ScenarioKey(req.model, "chat"));
      var invalid := req.model == "" || req.messages == [];
      && (invalid ==> o == Outcome(Err(InvalidRequest), now))
      && (!invalid && found.Err? ==> o == Outcome(Err(found.error), now))
      && (!invalid && found.Ok? ==>
            && o.now == now + Latency(found.value.latencyMs)
            && (found.value.error.Some? ==> o.result == Err(Injected(found.value.error.value)))
            && (found.value.error.None? ==> o.result.Ok?))
  {
  }

  /**
   What an answer says: an id and a creation time that come from the clock, the scenario's text or
   the canned one from the assistant, and the scenario's usage or an estimate that adds up -- a
   quarter of the prompt's bytes less rounding, and of the answered text's bytes but at least one.
   */
  lemma CompleteAnswers(req: ChatRequest, scenarios: Resolver, now: int, sc: Scenario)
    requires scenarios(ScenarioKey(req.model, "chat")) == Ok(sc)
    requires CompleteOutcome(req, scenarios, now).result.Ok?
    ensures var o := CompleteOutcome(req, scenarios, now); var resp := o.result.value;
      && |resp.choices| == 1
      && resp.model == req.model
      && |resp.id| >= 9 && resp.id[..9] == "chatcmpl-" && (o.now >= 0 ==> Value(resp.id[9..]) == o.now)
      && resp.created * 1_000_000_000 <= o.now < (resp.created + 1) * 1_000_000_000
      && resp.choices[0].index == 0
      && resp.choices[0].message.role == "assistant"
      && resp.choices[0].finishReason == Stop
      && (sc.responseText != "" ==> MessageText(resp.choices[0].message.content) == sc.responseText)
      && (sc.responseText == "" ==> MessageText(resp.choices[0].message.content) == DEFAULT_REPLY)
      && (sc.usage.totalTokens != 0 ==> resp.usage == sc.usage)
      && (sc.usage.totalTokens == 0 ==>
            var bytes := Utf8.Len(MessageText(resp.choices[0].message.content));
            && resp.usage.totalTokens == resp.usage.promptTokens + resp.usage.completionTokens
            && 4 * resp.usage.promptTokens <= Tokens.TotalBytes(req.messages)
            && Tokens.TotalBytes(req.messages) <= 4 * resp.usage.promptTokens + 3 * |req.messages|
            && (if bytes < 4 then resp.usage.completionTokens == 1
                else 4 * resp.usage.completionTokens <= bytes <= 4 * resp.usage.completionTokens + 3))
  {
    var o := CompleteOutcome(req, scenarios, now);
    var resp := o.result.value;
    TextContentText(ReplyText(sc));
    assert resp.id[9..] == Decimal(o.now);
    if o.now >= 0 {
      DecimalValue(o.now);
    }
    Seconds(o.now);
    Tokens.FloorSumBounds(req.messages);
    Tokens.CompletionBounds(ReplyText(sc));
  }

  lemma Seconds(now: int)
    ensures UnixSeconds(now) * 1_000_000_000 <= now < (UnixSeconds(now) + 1) * 1_000_000_000
  {
  }

  // ---- Streaming refines completion ----

  /** `Stream` starts a goroutine exactly when `Complete` answers; otherwise both fail alike. */
  lemma StreamFailsAsComplete(req: ChatRequest, scenarios: Resolver, now: int)
    ensures var c, s := CompleteOutcome(req, scenarios, now), StreamOutcome(req, scenarios, now);
      && s.now == c.now
      && (c.result.Err? <==> s.result.Err?)
      && (c.result.Err? ==> s.result.error == c.result.error)
  {
  }

  function Answer(p: Plan, text: string): ChatResponse {
    ChatResponse(p.id, p.model, p.created, [Choice(0, ChatMessage(ROLE_ASSISTANT, TextContent(text), ""), Stop)], p.usage)
  }

  /** The scenario behind a stream, and how the plan and the completion follow from it. */
  lemma Resolved(req: ChatRequest, scenarios: Resolver, now: int, p: Plan, later: int) returns (sc: Scenario)
    requires StreamOutcome(req, scenarios, now) == Outcome(Ok(p), later)
    ensures scenarios(ScenarioKey(req.model, "chat")) == Ok(sc)
    ensures later == now + Latency(sc.latencyMs)
    ensures p.words == Words.SplitWords(ReplyText(sc))
    ensures p.interDelay == InterDelay(sc.tokensPerSecond)
    ensures p.usage == UsageFor(sc, req)
    ensures CompleteOutcome(req, scenarios, now) == Outcome(Ok(Answer(p, ReplyText(sc))), later)
  {
    sc := scenarios(ScenarioKey(req.model, "chat")).value;
  }

  /** The chunks of a stream say what a completion says. */
  ghost predicate SayTheSame(chunks: seq<StreamChunk>, resp: ChatResponse) {
    && |resp.choices| == 1 && |chunks| >= 2
    && DeltaText(chunks) == MessageText(resp.choices[0].message.content)
    && chunks[0].deltaRole == resp.choices[0].message.role
    && chunks[|chunks| - 1].finishReason == resp.choices[0].finishReason
    && chunks[|chunks| - 1].usage == Some(resp.usage)
    && (forall i :: 0 <= i < |chunks| ==>
          chunks[i].id == resp.id && chunks[i].model == resp.model && chunks[i].created == resp.created)
  }

  lemma WholeSlices(p: Plan)
    ensures FullStream(p)[..|p.words| + 1] == FullStream(p)
    ensures p.words[..|p.words|] == p.words
  {
  }

  lemma WholeText(p: Plan, text: string)
    requires p.words == Words.SplitWords(text)
    ensures DeltaText(FullStream(p)) == text
  {
    DeltaTextOfPrefix(p, |p.words| + 1);
    WholeSlices(p);
  }

  lemma FullStreamSays(p: Plan, text: string)
    requires p.words == Words.SplitWords(text)
    ensures SayTheSame(FullStream(p), Answer(p, text))
  {
    WholeText(p, text);
    TextContentText(text);
  }

  /**
   For one request, one scenario store and one clock: every complete, uncancelled run of the
   stream says exactly what `Complete` answers -- text, role, finish reason, usage, identity.
   */
  lemma StreamDeliversCompletion(req: ChatRequest, scenarios: Resolver, now: int, p: Plan, later: int,
                                 s0: State, run: seq<Step>)
    requires StreamOutcome(req, scenarios, now) == Outcome(Ok(p), later)
    requires Whole(p, s0, run)
    ensures CompleteOutcome(req, scenarios, now).result.Ok?
    ensures SayTheSame(After(p, s0, run).sent, CompleteOutcome(req, scenarios, now).result.value)
  {
    var sc := Resolved(req, scenarios, now, p, later);
    UncancelledOutcome(p, s0, run);
    FullStreamSays(p, ReplyText(sc));
  }

  /** And every run at all, at every moment, has sent a prefix of what `Complete` answers. */
  lemma StreamPrefixOfCompletion(req: ChatRequest, scenarios: Resolver, now: int, p: Plan, later: int,
                                 s0: State, run: seq<Step>)
    requires StreamOutcome(req, scenarios, now) == Outcome(Ok(p), later)
    requires Init(s0) && Legal(p, s0, run)
    ensures CompleteOutcome(req, scenarios, now).result.Ok?
    ensures var resp := CompleteOutcome(req, scenarios, now).result.value;
      |resp.choices| == 1 && DeltaText(After(p, s0, run).sent) <= MessageText(resp.choices[0].message.content)
  {
    var sc := Resolved(req, scenarios, now, p, later);
    EveryRunIsSafe(p, s0, run);
    ConcatPrefix(p.words, WordsSent(p, After(p, s0, run)));
    TextContentText(ReplyText(sc));
  }

  /** The usage a stream or a completion reports is never all zero. */
  lemma UsageIsReported(req: ChatRequest, scenarios: Resolver, now: int, p: Plan, later: int)
    requires StreamOutcome(req, scenarios, now) == Outcome(Ok(p), later)
    ensures p.usage.totalTokens != 0
  {
    var sc := Resolved(req, scenarios, now, p, later);
  }

  // ---- Pacing ----

  /**
   The initial delay is the configured one exactly up to 9223372036854 ms.  Above that it wraps, and
   may turn negative: then the fake clock goes back, while the system clock does not wait at all.
   */
  lemma LatencyExact(latencyMs: int)
    ensures latencyMs <= 0 ==> Latency(latencyMs) == 0
    ensures latencyMs > 0 ==> Same(Latency(latencyMs), latencyMs * 1_000_000)
    ensures -TWO63 <= Latency(latencyMs) < TWO63
    ensures latencyMs > 0 ==> (Latency(latencyMs) == latencyMs * 1_000_000 <==> latencyMs <= 9_223_372_036_854)
  {
    Int64Meaning(latencyMs * MILLISECOND);
  }

  /** An uncancelled stream of n words moves the clock by the latency and n equal delays. */
  lemma FullStreamTime(req: ChatRequest, scenarios: Resolver, now: int, p: Plan, later: int, sc: Scenario,
                       s0: State, run: seq<Step>)
    requires StreamOutcome(req, scenarios, now) == Outcome(Ok(p), later)
    requires scenarios(ScenarioKey(req.model, "chat")) == Ok(sc)
    requires Whole(p, s0, run)
    ensures |p.words| == |Words.SplitWords(ReplyText(sc))|
    ensures later + After(p, s0, run).paced ==
            now + Latency(sc.latencyMs) + |p.words| * InterDelay(sc.tokensPerSecond)
  {
    var sc' := Resolved(req, scenarios, now, p, later);
    UncancelledOutcome(p, s0, run);
  }

  /**
   So n words at tps words a second take at most n/tps seconds, less than n ns short of that; and a
   scenario without a positive rate makes no run wait at all.
   */
  lemma StreamPace(req: ChatRequest, scenarios: Resolver, now: int, p: Plan, later: int, sc: Scenario,
                   s0: State, run: seq<Step>)
    requires StreamOutcome(req, scenarios, now) == Outcome(Ok(p), later)
    requires scenarios(ScenarioKey(req.model, "chat")) == Ok(sc)
    requires Init(s0) && Legal(p, s0, run)
    ensures sc.tokensPerSecond <= 0 ==> After(p, s0, run).paced == 0
    ensures var n, tps := |p.words|, sc.tokensPerSecond;
      tps > 0 && Whole(p, s0, run) ==>
        n * (1_000_000_000 - tps) < tps * After(p, s0, run).paced <= n * 1_000_000_000
  {
    var sc' := Resolved(req, scenarios, now, p, later);
    InterDelayFits(sc.tokensPerSecond);
    if sc.tokensPerSecond <= 0 {
      NoDelayNoPace(p, s0, run);
    } else if Whole(p, s0, run) {
      FullStreamPace(p, sc.tokensPerSecond, s0, run);
    }
  }

  lemma FullStreamPace(p: Plan, tps: int, s0: State, run: seq<Step>)
    requires tps > 0 && p.interDelay == InterDelay(tps) && p.words != [] && Whole(p, s0, run)
    ensures |p.words| * (SECOND - tps) < tps * After(p, s0, run).paced <= |p.words| * SECOND
  {
    UncancelledOutcome(p, s0, run);
    PacingBounds(|p.words|, tps);
  }

  lemma NoDelayNoPace(p: Plan, s0: State, run: seq<Step>)
    requires Init(s0) && Legal(p, s0, run) && p.interDelay == 0
    ensures After(p, s0, run).paced == 0
  {
    InitInv(p, s0);
    RunKeepsInv(p, s0, run);
  }
}
