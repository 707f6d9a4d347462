/** The Bedrock adapter: internal/adapters/inbound/http/bedrock. */
module Bedrock {
  import opened Domain
  import opened StreamProtocol
  import opened Texts
  import opened Wire
  import Tokens

  // ---- Requests ----

  datatype Message = Message(role: Role, content: seq<string>)

  function Turn(m: Message): ChatMessage {
    Tokens.TextMessage(m.role, Concat(m.content))
  }

  /** The messages of a conversation, each with the text of all its blocks. */
  function Turns(msgs: seq<Message>): (messages: seq<ChatMessage>)
    ensures |messages| == |msgs|
    ensures forall i :: 0 <= i < |msgs| ==> messages[i] == Turn(msgs[i])
  {
    seq(|msgs|, i requires 0 <= i < |msgs| => Turn(msgs[i]))
  }

  lemma TurnsNext(msgs: seq<Message>, i: nat)
    requires i < |msgs|
    ensures Turns(msgs[..i + 1]) == Turns(msgs[..i]) + [Turn(msgs[i])]
  {
  }

  /** Every turn keeps its role and the text of all its blocks, after the system's messages. */
  lemma TurnsKept(msgs: seq<Message>, system: seq<string>, i: nat)
    requires i < |msgs|
    ensures var messages := Tokens.BlockMessages(system) + Turns(msgs); var k := |Tokens.NonEmpty(system)|;
      && |messages| == k + |msgs|
      && messages[k + i].role == msgs[i].role
      && MessageText(messages[k + i].content) == Concat(msgs[i].content)
  {
    Tokens.BlockMessagesSay(system);
    TextContentText(Concat(msgs[i].content));
  }

  /** `toDomainRequest`: the non-empty system blocks, then the conversation. */
  method ToDomainRequest(modelId: string, msgs: seq<Message>, system: seq<string>) returns (req: ChatRequest)
    ensures req == ChatRequest(modelId, Tokens.BlockMessages(system) + Turns(msgs), 0, false)
  {
    var messages: seq<ChatMessage> := [];
    for i := 0 to |system|
      invariant messages == Tokens.BlockMessages(system[..i])
    {
      Tokens.BlockMessagesSnoc(system[..i], system[i]);
      assert system[..i + 1] == system[..i] + [system[i]];
      if system[i] != "" {
        messages := messages + [ChatMessage(ROLE_SYSTEM, TextContent(system[i]), "")];
      }
    }
    assert system[..|system|] == system;
    for i := 0 to |msgs|
      invariant messages == Tokens.BlockMessages(system) + Turns(msgs[..i])
    {
      var text := BlockText(msgs[i].content);
      TurnsNext(msgs, i);
      messages := messages + [ChatMessage(msgs[i].role, TextContent(text), "")];
    }
    assert msgs[..|msgs|] == msgs;
    req := ChatRequest(modelId, messages, 0, false);
  }

  method BlockText(content: seq<string>) returns (text: string)
    ensures text == Concat(content)
  {
    text := "";
    for i := 0 to |content|
      invariant text == Concat(content[..i])
    {
      ConcatSnoc(content[..i], content[i]);
      assert content[..i + 1] == content[..i] + [content[i]];
      text := text + content[i];
    }
    assert content[..|content|] == content;
  }

  // ---- Answers ----

  function StopReasonFor(f: FinishReason): string {
    match f
    case Length => "max_tokens"
    case ContentFilter => "content_filtered"
    case _ => "end_turn"
  }

  function ClaudeStopReasonFor(f: FinishReason): string {
    match f
    case Length => "max_tokens"
    case ContentFilter => "stop_sequence"
    case _ => "end_turn"
  }

  /** The whole table of both mappings. */
  lemma StopReasons(f: FinishReason)
    ensures StopReasonFor(f) == "max_tokens" <==> f == Length
    ensures StopReasonFor(f) == "content_filtered" <==> f == ContentFilter
    ensures StopReasonFor(f) == "end_turn" <==> f != Length && f != ContentFilter
    ensures ClaudeStopReasonFor(f) == "max_tokens" <==> f == Length
    ensures ClaudeStopReasonFor(f) == "stop_sequence" <==> f == ContentFilter
    ensures ClaudeStopReasonFor(f) == "end_turn" <==> f != Length && f != ContentFilter
  {
  }

  datatype ConverseAnswer = ConverseAnswer(role: Role, text: string, stopReason: string, usage: TokenUsage)

  /** `converse`, the non-streaming twin of `converseStream`. */
  function Converse(resp: ChatResponse): ConverseAnswer
    requires resp.choices != []
  {
    var choice := resp.choices[0];
    ConverseAnswer(ROLE_ASSISTANT, MessageText(choice.message.content), StopReasonFor(choice.finishReason), resp.usage)
  }

  datatype ClaudeUsage = ClaudeUsage(inputTokens: int, outputTokens: int)

  datatype ClaudeAnswer = ClaudeAnswer(id: string, model: string, text: string, stopReason: string, usage: ClaudeUsage)

  /** `invokeModel`, the non-streaming twin of `invokeModelStream`. */
  function InvokeModel(modelId: string, resp: ChatResponse): ClaudeAnswer
    requires resp.choices != []
  {
    var choice := resp.choices[0];
    ClaudeAnswer("msg_" + resp.id, modelId, MessageText(choice.message.content),
                 ClaudeStopReasonFor(choice.finishReason),
                 ClaudeUsage(resp.usage.promptTokens, resp.usage.completionTokens))
  }

  // ---- What both stream handlers fold out of the channel ----

  /** The texts of the chunks that carry one. */
  function SpokenTexts(chunks: seq<StreamChunk>): seq<string> {
    if chunks == [] then []
    else (if chunks[0].deltaContent != "" then [chunks[0].deltaContent] else []) + SpokenTexts(chunks[1..])
  }

  /** The last finish reason seen, `stop` if none was. */
  function FoldFinish(chunks: seq<StreamChunk>): FinishReason {
    if chunks == [] then Stop
    else
      var last := chunks[|chunks| - 1];
      if last.finishReason != Unset then last.finishReason else FoldFinish(chunks[..|chunks| - 1])
  }

  /** The last usage seen, zero if none was. */
  function FoldUsage(chunks: seq<StreamChunk>): TokenUsage {
    if chunks == [] then NO_USAGE
    else
      var last := chunks[|chunks| - 1];
      if last.usage.Some? then last.usage.value else FoldUsage(chunks[..|chunks| - 1])
  }

  lemma {:induction false} SpokenSnoc(chunks: seq<StreamChunk>, c: StreamChunk)
    ensures SpokenTexts(chunks + [c]) ==
            SpokenTexts(chunks) + if c.deltaContent != "" then [c.deltaContent] else []
  {
    if chunks == [] {
      assert [c][1..] == [];
    } else {
      assert (chunks + [c])[1..] == chunks[1..] + [c];
      SpokenSnoc(chunks[1..], c);
    }
  }

  lemma FoldSnoc(chunks: seq<StreamChunk>, c: StreamChunk)
    ensures FoldFinish(chunks + [c]) == if c.finishReason != Unset then c.finishReason else FoldFinish(chunks)
    ensures FoldUsage(chunks + [c]) == if c.usage.Some? then c.usage.value else FoldUsage(chunks)
  {
    assert (chunks + [c])[..|chunks|] == chunks;
  }

  /** One more chunk for all three folds. */
  lemma FoldsNext(chunks: seq<StreamChunk>, i: nat)
    requires i < |chunks|
    ensures var c := chunks[i];
      && SpokenTexts(chunks[..i + 1]) ==
         SpokenTexts(chunks[..i]) + (if c.deltaContent != "" then [c.deltaContent] else [])
      && FoldFinish(chunks[..i + 1]) == (if c.finishReason != Unset then c.finishReason else FoldFinish(chunks[..i]))
      && FoldUsage(chunks[..i + 1]) == (if c.usage.Some? then c.usage.value else FoldUsage(chunks[..i]))
  {
    assert chunks[..i + 1] == chunks[..i] + [chunks[i]];
    SpokenSnoc(chunks[..i], chunks[i]);
    FoldSnoc(chunks[..i], chunks[i]);
  }

  lemma {:induction false} SpokenText(chunks: seq<StreamChunk>)
    ensures Concat(SpokenTexts(chunks)) == DeltaText(chunks)
  {
    if chunks != [] {
      SpokenText(chunks[1..]);
      if chunks[0].deltaContent == "" {
        assert SpokenTexts(chunks) == SpokenTexts(chunks[1..]);
      } else {
        assert SpokenTexts(chunks)[1..] == SpokenTexts(chunks[1..]);
      }
    }
  }

  /**
   After k chunks of a stream: one text per delivered word, always the finish reason `stop`, and
   the usage exactly when the finish chunk came.
   */
  lemma {:induction false} FoldsOfStream(p: Plan, k: nat)
    requires k <= |p.words| + 1
    requires forall i :: 0 <= i < |p.words| ==> p.words[i] != ""
    ensures var chunks := FullStream(p)[..k];
      && SpokenTexts(chunks) == p.words[..if k <= |p.words| then k else |p.words|]
      && FoldFinish(chunks) == Stop
      && FoldUsage(chunks) == if k == |p.words| + 1 then p.usage else NO_USAGE
  {
    if k > 0 {
      var full := FullStream(p);
      FoldsOfStream(p, k - 1);
      FoldsNext(full, k - 1);
      if k <= |p.words| {
        assert p.words[..k] == p.words[..k - 1] + [p.words[k - 1]];
      } else {
        assert p.words[..k - 1] == p.words[..|p.words|];
      }
    }
  }

  // ---- ConverseStream ----

  datatype ConverseEvent =
    | MessageStart(role: Role)
    | ContentBlockDelta(text: string)
    | ContentBlockStop
    | MessageStop(stopReason: string)
    | Metadata(usage: TokenUsage)

  function ConverseDeltas(texts: seq<string>): (es: seq<ConverseEvent>)
    ensures |es| == |texts|
    ensures forall i :: 0 <= i < |texts| ==> es[i] == ContentBlockDelta(texts[i])
  {
    seq(|texts|, i requires 0 <= i < |texts| => ContentBlockDelta(texts[i]))
  }

  /** What the handler has written while the channel is still open. */
  function ConverseSoFar(chunks: seq<StreamChunk>): seq<ConverseEvent> {
    [MessageStart(ROLE_ASSISTANT)] + ConverseDeltas(SpokenTexts(chunks))
  }

  function ConverseLog(chunks: seq<StreamChunk>): seq<ConverseEvent> {
    ConverseSoFar(chunks)
    + [ContentBlockStop, MessageStop(StopReasonFor(FoldFinish(chunks))), Metadata(FoldUsage(chunks))]
  }

  method ConverseStream(chunks: seq<StreamChunk>, w: Writer<ConverseEvent>)
    modifies w
    ensures w.log == old(w.log) + ConverseLog(chunks)
  {
    w.Write(MessageStart("assistant"));
    var finish := Stop;
    var usage := TokenUsage(0, 0, 0);
    for i := 0 to |chunks|
      invariant w.log == old(w.log) + ConverseSoFar(chunks[..i])
      invariant finish == FoldFinish(chunks[..i])
      invariant usage == FoldUsage(chunks[..i])
    {
      var chunk := chunks[i];
      FoldsNext(chunks, i);
      if chunk.deltaContent != "" {
        w.Write(ContentBlockDelta(chunk.deltaContent));
      }
      if chunk.finishReason != Unset {
        finish := chunk.finishReason;
      }
      if chunk.usage.Some? {
        usage := chunk.usage.value;
      }
    }
    assert chunks[..|chunks|] == chunks;
    w.Write(ContentBlockStop);
    w.Write(MessageStop(StopReasonFor(finish)));
    w.Write(Metadata(usage));
  }

  /** messageStart, contentBlockDelta*, contentBlockStop, messageStop, metadata */
  predicate ConverseGrammar(log: seq<ConverseEvent>) {
    && |log| >= 4
    && log[0] == MessageStart(ROLE_ASSISTANT)
    && (forall i :: 1 <= i < |log| - 3 ==> log[i].ContentBlockDelta? && log[i].text != "")
    && log[|log| - 3].ContentBlockStop?
    && log[|log| - 2].MessageStop?
    && log[|log| - 1].Metadata?
  }

  function ConverseText(e: ConverseEvent): string {
    if e.ContentBlockDelta? then e.text else ""
  }

  lemma {:induction false} SpokenNonEmpty(chunks: seq<StreamChunk>)
    ensures forall i :: 0 <= i < |SpokenTexts(chunks)| ==> SpokenTexts(chunks)[i] != ""
  {
    if chunks != [] {
      SpokenNonEmpty(chunks[1..]);
    }
  }

  lemma {:induction false} DeltasText(texts: seq<string>)
    ensures Joined(ConverseDeltas(texts), ConverseText) == Concat(texts)
  {
    if texts != [] {
      DeltasText(texts[1..]);
      assert ConverseDeltas(texts)[1..] == ConverseDeltas(texts[1..]);
    }
  }

  /** Whatever the channel yields, the log is a sentence of the grammar and carries all the text. */
  lemma ConverseLogIsWellFormed(chunks: seq<StreamChunk>)
    ensures ConverseGrammar(ConverseLog(chunks))
    ensures Joined(ConverseLog(chunks), ConverseText) == DeltaText(chunks)
  {
    var log, texts := ConverseLog(chunks), SpokenTexts(chunks);
    SpokenNonEmpty(chunks);
    var start, ending := [MessageStart(ROLE_ASSISTANT)], log[|texts| + 1..];
    assert log == start + ConverseDeltas(texts) + ending;
    JoinedConcat(start + ConverseDeltas(texts), ending, ConverseText);
    JoinedConcat(start, ConverseDeltas(texts), ConverseText);
    JoinedNothing(start, ConverseText);
    JoinedNothing(ending, ConverseText);
    DeltasText(texts);
    SpokenText(chunks);
  }

  // ---- InvokeModelWithResponseStream, the Claude event stream ----

  datatype ClaudeEvent =
    | ClaudeMessageStart(id: string, model: string)
    | ClaudeBlockStart
    | ClaudeBlockDelta(text: string)
    | ClaudeBlockStop
    | ClaudeMessageDelta(stopReason: string, usage: ClaudeUsage)
    | ClaudeMessageStop

  function ClaudeDeltas(texts: seq<string>): (es: seq<ClaudeEvent>)
    ensures |es| == |texts|
    ensures forall i :: 0 <= i < |texts| ==> es[i] == ClaudeBlockDelta(texts[i])
  {
    seq(|texts|, i requires 0 <= i < |texts| => ClaudeBlockDelta(texts[i]))
  }

  function ClaudeStart(modelId: string): seq<ClaudeEvent> {
    [ClaudeMessageStart("msg_" + modelId, modelId), ClaudeBlockStart]
  }

  function ClaudeEnd(finish: FinishReason, usage: TokenUsage): seq<ClaudeEvent> {
    [ClaudeBlockStop,
     ClaudeMessageDelta(ClaudeStopReasonFor(finish), ClaudeUsage(usage.promptTokens, usage.completionTokens)),
     ClaudeMessageStop]
  }

  function ClaudeLog(modelId: string, chunks: seq<StreamChunk>): seq<ClaudeEvent> {
    ClaudeStart(modelId) + ClaudeDeltas(SpokenTexts(chunks)) + ClaudeEnd(FoldFinish(chunks), FoldUsage(chunks))
  }

  method InvokeModelStream(modelId: string, chunks: seq<StreamChunk>, w: Writer<ClaudeEvent>)
    modifies w
    ensures w.log == old(w.log) + ClaudeLog(modelId, chunks)
  {
    w.Write(ClaudeMessageStart("msg_" + modelId, modelId));
    w.Write(ClaudeBlockStart);
    var finish := Stop;
    var usage := TokenUsage(0, 0, 0);
    for i := 0 to |chunks|
      invariant w.log == old(w.log) + (ClaudeStart(modelId) + ClaudeDeltas(SpokenTexts(chunks[..i])))
      invariant finish == FoldFinish(chunks[..i])
      invariant usage == FoldUsage(chunks[..i])
    {
      var chunk := chunks[i];
      FoldsNext(chunks, i);
      if chunk.deltaContent != "" {
        w.Write(ClaudeBlockDelta(chunk.deltaContent));
      }
      if chunk.finishReason != Unset {
        finish := chunk.finishReason;
      }
      if chunk.usage.Some? {
        usage := chunk.usage.value;
      }
    }
    assert chunks[..|chunks|] == chunks;
    w.Write(ClaudeBlockStop);
    w.Write(ClaudeMessageDelta(ClaudeStopReasonFor(finish), ClaudeUsage(usage.promptTokens, usage.completionTokens)));
    w.Write(ClaudeMessageStop);
  }

  /** message_start, content_block_start, content_block_delta*, content_block_stop, message_delta, message_stop */
  predicate ClaudeGrammar(modelId: string, log: seq<ClaudeEvent>) {
    && |log| >= 5
    && log[0] == ClaudeMessageStart("msg_" + modelId, modelId)
    && log[1].ClaudeBlockStart?
    && (forall i :: 2 <= i < |log| - 3 ==> log[i].ClaudeBlockDelta? && log[i].text != "")
    && log[|log| - 3].ClaudeBlockStop?
    && log[|log| - 2].ClaudeMessageDelta?
    && log[|log| - 1].ClaudeMessageStop?
  }

  function ClaudeText(e: ClaudeEvent): string {
    if e.ClaudeBlockDelta? then e.text else ""
  }

  lemma {:induction false} ClaudeDeltasText(texts: seq<string>)
    ensures Joined(ClaudeDeltas(texts), ClaudeText) == Concat(texts)
  {
    if texts != [] {
      ClaudeDeltasText(texts[1..]);
      assert ClaudeDeltas(texts)[1..] == ClaudeDeltas(texts[1..]);
    }
  }

  lemma ClaudeLogText(modelId: string, chunks: seq<StreamChunk>)
    ensures Joined(ClaudeLog(modelId, chunks), ClaudeText) == DeltaText(chunks)
  {
    var start, ending := ClaudeStart(modelId), ClaudeEnd(FoldFinish(chunks), FoldUsage(chunks));
    var deltas := ClaudeDeltas(SpokenTexts(chunks));
    JoinedConcat(start + deltas, ending, ClaudeText);
    JoinedConcat(start, deltas, ClaudeText);
    JoinedNothing(start, ClaudeText);
    JoinedNothing(ending, ClaudeText);
    ClaudeDeltasText(SpokenTexts(chunks));
    SpokenText(chunks);
  }

  lemma ClaudeLogIsWellFormed(modelId: string, chunks: seq<StreamChunk>)
    ensures ClaudeGrammar(modelId, ClaudeLog(modelId, chunks))
    ensures Joined(ClaudeLog(modelId, chunks), ClaudeText) == DeltaText(chunks)
  {
    SpokenNonEmpty(chunks);
    ClaudeLogText(modelId, chunks);
  }

  // ---- Streams, cancelled or not ----

  /** How a Converse log of a stream ends. */
  function ConverseEnd(usage: TokenUsage): seq<ConverseEvent> {
    [ContentBlockStop, MessageStop("end_turn"), Metadata(usage)]
  }

  /** The two logs after k chunks of a stream.  A stream that was cut short still says `end_turn`. */
  lemma LogsOfStream(modelId: string, p: Plan, k: nat)
    requires k <= |p.words| + 1
    requires forall i :: 0 <= i < |p.words| ==> p.words[i] != ""
    ensures var chunks := FullStream(p)[..k];
      var words := p.words[..if k <= |p.words| then k else |p.words|];
      var usage := if k == |p.words| + 1 then p.usage else NO_USAGE;
      && ConverseLog(chunks) ==
         [MessageStart(ROLE_ASSISTANT)] + ConverseDeltas(words) + ConverseEnd(usage)
      && ClaudeLog(modelId, chunks) == ClaudeStart(modelId) + ClaudeDeltas(words) + ClaudeEnd(Stop, usage)
  {
    FoldsOfStream(p, k);
  }

  /**
   A stream cut after k words against a whole stream of just those words.  Only the reported usage
   can tell them apart; for Claude, whose usage has no total, it must have a non-zero count.
   */
  lemma CutLooksWhole(modelId: string, p: Plan, k: nat)
    requires k <= |p.words|
    requires forall i :: 0 <= i < |p.words| ==> p.words[i] != ""
    ensures var cut, whole := FullStream(p)[..k], FullStream(p.(words := p.words[..k]));
      && (ConverseLog(cut) == ConverseLog(whole) <==> p.usage == NO_USAGE)
      && (ClaudeLog(modelId, cut) == ClaudeLog(modelId, whole) <==>
          p.usage.promptTokens == 0 && p.usage.completionTokens == 0)
  {
    var short := p.(words := p.words[..k]);
    var whole := FullStream(short);
    assert whole[..k + 1] == whole && short.words[..k] == p.words[..k];
    LogsOfStream(modelId, p, k);
    LogsOfStream(modelId, short, k + 1);
    var words := p.words[..k];
    SameStart([MessageStart(ROLE_ASSISTANT)] + ConverseDeltas(words), ConverseEnd(NO_USAGE), ConverseEnd(p.usage));
    SameStart(ClaudeStart(modelId) + ClaudeDeltas(words), ClaudeEnd(Stop, NO_USAGE), ClaudeEnd(Stop, p.usage));
    EndsDiffer(p.usage);
  }

  lemma EndsDiffer(u: TokenUsage)
    ensures ConverseEnd(NO_USAGE) == ConverseEnd(u) <==> u == NO_USAGE
    ensures ClaudeEnd(Stop, NO_USAGE) == ClaudeEnd(Stop, u) <==> u.promptTokens == 0 && u.completionTokens == 0
  {
    assert ConverseEnd(u)[2] == Metadata(u);
    assert ConverseEnd(NO_USAGE)[2] == Metadata(NO_USAGE);
    assert ClaudeEnd(Stop, u)[1] == ClaudeMessageDelta("end_turn", ClaudeUsage(u.promptTokens, u.completionTokens));
    assert ClaudeEnd(Stop, NO_USAGE)[1] == ClaudeMessageDelta("end_turn", ClaudeUsage(0, 0));
  }

  lemma SameStart<E>(a: seq<E>, b: seq<E>, b': seq<E>)
    ensures a + b == a + b' <==> b == b'
  {
    assert b == (a + b)[|a|..] && b' == (a + b')[|a|..];
  }
}
