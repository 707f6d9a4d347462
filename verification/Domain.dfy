/** The generic, provider-agnostic types of internal/core/domain. */
module Domain {

  datatype Option<+T> = None | Some(value: T)

  datatype Result<+T, +E> = Ok(value: T) | Err(error: E)

  /** Roles are open strings: the Bedrock adapters pass the client's role through unchanged. */
  type Role = string

  const ROLE_SYSTEM: Role := "system"
  const ROLE_USER: Role := "user"
  const ROLE_ASSISTANT: Role := "assistant"

  datatype PartKind = TextPart | ImagePart

  datatype ContentPart = ContentPart(kind: PartKind, text: string, imageUrl: string)

  datatype ChatMessage = ChatMessage(role: Role, content: seq<ContentPart>, name: string)

  datatype ChatRequest = ChatRequest(model: string, messages: seq<ChatMessage>, maxTokens: int, stream: bool)

  /** `Unset` is the empty finish reason that every chunk but the last one carries. */
  datatype FinishReason = Unset | Stop | Length | ContentFilter | Failed

  datatype TokenUsage = TokenUsage(promptTokens: int, completionTokens: int, totalTokens: int)

  const NO_USAGE := TokenUsage(0, 0, 0)

  datatype Choice = Choice(index: int, message: ChatMessage, finishReason: FinishReason)

  datatype ChatResponse = ChatResponse(id: string, model: string, created: int, choices: seq<Choice>, usage: TokenUsage)

  datatype StreamChunk = StreamChunk(
    id: string,
    model: string,
    created: int,
    index: int,
    deltaRole: Role,
    deltaContent: string,
    finishReason: FinishReason,
    usage: Option<TokenUsage>)

  datatype ErrorInjection = ErrorInjection(statusCode: int, message: string, category: string)

  datatype Scenario = Scenario(
    key: string,
    responseText: string,
    latencyMs: int,
    tokensPerSecond: int,
    error: Option<ErrorInjection>,
    usage: TokenUsage)

  datatype ScenarioKey = ScenarioKey(model: string, operation: string)

  /** The errors a use case can return; `Repository` stands for any error of the scenario port. */
  datatype UseCaseError =
    | InvalidRequest
    | NotFound
    | Injected(injection: ErrorInjection)
    | Repository(reason: string)

  /** One text part, the only shape of content the adapters build. */
  function TextContent(text: string): seq<ContentPart> {
    [ContentPart(TextPart, text, "")]
  }

  function PartText(p: ContentPart): string {
    if p.kind.TextPart? then p.text else ""
  }

  /** The text of a message: all its text parts in order. */
  function MessageText(content: seq<ContentPart>): string {
    if content == [] then "" else PartText(content[0]) + MessageText(content[1..])
  }

  lemma {:induction false} MessageTextSnoc(content: seq<ContentPart>, p: ContentPart)
    ensures MessageText(content + [p]) == MessageText(content) + PartText(p)
  {
    if content == [] {
      assert [p][1..] == [];
    } else {
      assert (content + [p])[1..] == content[1..] + [p];
      MessageTextSnoc(content[1..], p);
    }
  }

  lemma {:induction false} MessageTextConcat(a: seq<ContentPart>, b: seq<ContentPart>)
    ensures MessageText(a + b) == MessageText(a) + MessageText(b)
  {
    if a == [] {
      assert a + b == b;
    } else {
      assert (a + b)[1..] == a[1..] + b;
      MessageTextConcat(a[1..], b);
    }
  }

  /** An image adds nothing to a message's text wherever it stands, a text part exactly its own. */
  lemma PartInMessage(a: seq<ContentPart>, p: ContentPart, b: seq<ContentPart>)
    ensures p.kind.ImagePart? ==> MessageText(a + [p] + b) == MessageText(a + b)
    ensures p.kind.TextPart? ==> MessageText(a + [p] + b) == MessageText(a) + p.text + MessageText(b)
  {
    MessageTextSnoc(a, p);
    MessageTextConcat(a + [p], b);
    MessageTextConcat(a, b);
  }

  method Text(m: ChatMessage) returns (out: string)
    ensures out == MessageText(m.content)
  {
    out := "";
    for i := 0 to |m.content|
      invariant out == MessageText(m.content[..i])
    {
      MessageTextSnoc(m.content[..i], m.content[i]);
      assert m.content[..i + 1] == m.content[..i] + [m.content[i]];
      if m.content[i].kind.TextPart? {
        out := out + m.content[i].text;
      }
    }
    assert m.content[..|m.content|] == m.content;
  }

  /** A message built by an adapter says exactly the text it was built from. */
  lemma TextContentText(text: string)
    ensures MessageText(TextContent(text)) == text
  {
    var c := TextContent(text);
    assert c[1..] == [];
    assert MessageText(c) == PartText(c[0]) + MessageText(c[1..]);
  }
}
