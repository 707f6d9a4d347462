/** The Vertex adapter: internal/adapters/inbound/http/vertex. */
module Vertex {
  import opened Domain
  import opened Integers
  import opened Separators
  import opened StreamProtocol
  import opened Texts
  import opened Wire
  import Bedrock
  import Json
  import Tokens
  import Utf8

  // ---- Requests ----

  /** Parts are pointers on the wire; `None` is a null one. */
  datatype Content = Content(role: string, parts: seq<Option<string>>)

  function ContentToDomainRole(role: string): Role {
    if role == "model" then ROLE_ASSISTANT else ROLE_USER
  }

  function PartText(p: Option<string>): string {
    if p.Some? then p.value else ""
  }

  function PartsText(parts: seq<Option<string>>): string {
    if parts == [] then "" else PartText(parts[0]) + PartsText(parts[1..])
  }

  lemma {:induction false} PartsTextSnoc(parts: seq<Option<string>>, p: Option<string>)
    ensures PartsText(parts + [p]) == PartsText(parts) + PartText(p)
  {
    if parts == [] {
      assert [p][1..] == [];
    } else {
      assert (parts + [p])[1..] == parts[1..] + [p];
      PartsTextSnoc(parts[1..], p);
    }
  }

  method PartsTextLoop(parts: seq<Option<string>>) returns (out: string)
    ensures out == PartsText(parts)
  {
    out := "";
    for i := 0 to |parts|
      invariant out == PartsText(parts[..i])
    {
      PartsTextSnoc(parts[..i], parts[i]);
      assert parts[..i + 1] == parts[..i] + [parts[i]];
      if parts[i].Some? {
        out := out + parts[i].value;
      }
    }
    assert parts[..|parts|] == parts;
  }

  function Turn(c: Content): ChatMessage {
    Tokens.TextMessage(ContentToDomainRole(c.role), PartsText(c.parts))
  }

  function Turns(contents: seq<Content>): (messages: seq<ChatMessage>)
    ensures |messages| == |contents|
    ensures forall i :: 0 <= i < |contents| ==> messages[i] == Turn(contents[i])
  {
    seq(|contents|, i requires 0 <= i < |contents| => Turn(contents[i]))
  }

  lemma TurnsNext(contents: seq<Content>, i: nat)
    requires i < |contents|
    ensures Turns(contents[..i + 1]) == Turns(contents[..i]) + [Turn(contents[i])]
  {
  }

  function SystemMessages(system: Option<Content>): seq<ChatMessage> {
    if system.Some? then [Tokens.TextMessage(ROLE_SYSTEM, PartsText(system.value.parts))] else []
  }

  /** The texts of the parts that are there. */
  function PresentTexts(parts: seq<Option<string>>): seq<string> {
    if parts == [] then []
    else if parts[0].None? then PresentTexts(parts[1..])
    else [parts[0].value] + PresentTexts(parts[1..])
  }

  lemma {:induction false} PartsTextJoins(parts: seq<Option<string>>)
    ensures PartsText(parts) == Concat(PresentTexts(parts))
  {
    if parts != [] {
      PartsTextJoins(parts[1..]);
    }
  }

  /** Every content keeps its text and its side of the conversation, after the instruction if there is one. */
  lemma TurnsKept(contents: seq<Content>, system: Option<Content>, i: nat)
    requires i < |contents|
    ensures var messages := SystemMessages(system) + Turns(contents); var k := if system.Some? then 1 else 0;
      && |messages| == k + |contents|
      && messages[k + i].role == (if contents[i].role == "model" then "assistant" else "user")
      && MessageText(messages[k + i].content) == Concat(PresentTexts(contents[i].parts))
      && (system.Some? ==>
            && messages[0].role == "system"
            && MessageText(messages[0].content) == Concat(PresentTexts(system.value.parts)))
  {
    PartsTextJoins(contents[i].parts);
    TextContentText(PartsText(contents[i].parts));
    if system.Some? {
      PartsTextJoins(system.value.parts);
      TextContentText(PartsText(system.value.parts));
    }
  }

  method ToDomainRequest(model: string, contents: seq<Content>, system: Option<Content>) returns (req: ChatRequest)
    ensures req == ChatRequest(model, SystemMessages(system) + Turns(contents), 0, false)
  {
    var messages: seq<ChatMessage> := [];
    if system.Some? {
      var text := PartsTextLoop(system.value.parts);
      messages := messages + [ChatMessage(ROLE_SYSTEM, TextContent(text), "")];
    }
    for i := 0 to |contents|
      invariant messages == SystemMessages(system) + Turns(contents[..i])
    {
      var text := PartsTextLoop(contents[i].parts);
      TurnsNext(contents, i);
      messages := messages + [ChatMessage(ContentToDomainRole(contents[i].role), TextContent(text), "")];
    }
    assert contents[..|contents|] == contents;
    req := ChatRequest(model, messages, 0, false);
  }

  // ---- countTokens ----

  lemma CountNext(contents: seq<Content>, i: nat)
    requires i < |contents|
    ensures Tokens.PromptTokens(Turns(contents[..i + 1])) ==
            Tokens.PromptTokens(Turns(contents[..i])) + Utf8.Len(PartsText(contents[i].parts)) / 4
  {
    var m := Turn(contents[i]);
    TurnsNext(contents, i);
    Tokens.PromptTokensAdd(Turns(contents[..i]), [m]);
    Tokens.OneMessage(m);
    Tokens.TextMessageBytes(m.role, PartsText(contents[i].parts));
  }

  /** The count on the wire, an int32. */
  function TokenCount(contents: seq<Content>): int {
    var prompt := Tokens.PromptTokens(Turns(contents));
    Int32(if prompt >= 1 then prompt else 1)
  }

  /** A request with no contents is refused. */
  method CountTokens(contents: seq<Content>) returns (r: Result<int, UseCaseError>)
    ensures r == if contents == [] then Err(InvalidRequest) else Ok(TokenCount(contents))
  {
    if |contents| == 0 {
      return Err(InvalidRequest);
    }
    var total := 0;
    for i := 0 to |contents|
      invariant total == Tokens.PromptTokens(Turns(contents[..i]))
    {
      var text := PartsTextLoop(contents[i].parts);
      CountNext(contents, i);
      total := total + Utf8.Len(text) / 4;
    }
    assert contents[..|contents|] == contents;
    if total == 0 {
      total := 1;
    }
    r := Ok(Int32(total));
  }

  // ---- Answers ----

  function FinishReasonFor(f: FinishReason): string {
    match f
    case Length => "MAX_TOKENS"
    case ContentFilter => "SAFETY"
    case _ => "STOP"
  }

  /** The whole table; the empty reason of a word chunk is a stop as well. */
  lemma FinishReasons(f: FinishReason)
    ensures FinishReasonFor(f) == "MAX_TOKENS" <==> f == Length
    ensures FinishReasonFor(f) == "SAFETY" <==> f == ContentFilter
    ensures FinishReasonFor(f) == "STOP" <==> f != Length && f != ContentFilter
  {
  }

  datatype Candidate = Candidate(role: string, text: string, finishReason: string, index: int)

  datatype UsageMetadata = UsageMetadata(promptTokenCount: int, candidatesTokenCount: int, totalTokenCount: int)

  datatype Element = Element(
    modelVersion: string, responseId: string, candidates: seq<Candidate>, usage: Option<UsageMetadata>)

  function ToUsageMetadata(u: TokenUsage): UsageMetadata {
    UsageMetadata(Int32(u.promptTokens), Int32(u.completionTokens), Int32(u.totalTokens))
  }

  /** `toGenaiResponse`, the non-streaming answer. */
  function ToGenaiResponse(resp: ChatResponse): Element {
    var candidates := seq(|resp.choices|, i requires 0 <= i < |resp.choices| =>
      var c := resp.choices[i];
      Candidate("model", MessageText(c.message.content), FinishReasonFor(c.finishReason), Int32(c.index)));
    Element(resp.model, resp.id, candidates, Some(ToUsageMetadata(resp.usage)))
  }

  function ToElement(c: StreamChunk): Element {
    Element(c.model, c.id, [Candidate("model", c.deltaContent, FinishReasonFor(c.finishReason), Int32(c.index))],
            if c.usage.Some? then Some(ToUsageMetadata(c.usage.value)) else None)
  }

  function Elements(chunks: seq<StreamChunk>): (es: seq<Element>)
    ensures |es| == |chunks|
    ensures forall i :: 0 <= i < |chunks| ==> es[i] == ToElement(chunks[i])
  {
    seq(|chunks|, i requires 0 <= i < |chunks| => ToElement(chunks[i]))
  }

  // ---- The incremental array ----

  /** How the SDK's struct becomes JSON; nothing below depends on its field names. */
  type Encoder = Element -> Json.Json

  function Items(chunks: seq<StreamChunk>, enc: Encoder): (items: seq<Json.Json>)
    ensures |items| == |chunks|
    ensures forall i :: 0 <= i < |chunks| ==> items[i] == enc(ToElement(chunks[i]))
  {
    seq(|chunks|, i requires 0 <= i < |chunks| => enc(ToElement(chunks[i])))
  }

  /** The writes for each element: a comma first, unless it is the first one. */
  function ItemWrites(items: seq<Json.Json>): seq<string> {
    if items == [] then []
    else
      var n := |items| - 1;
      ItemWrites(items[..n]) + (if n == 0 then [] else [","]) + [Json.Print(items[n])]
  }

  /** Everything written while the channel is still open. */
  function OpenArray(chunks: seq<StreamChunk>, enc: Encoder): seq<string> {
    ["["] + ItemWrites(Items(chunks, enc))
  }

  lemma ItemWritesSnoc(items: seq<Json.Json>, j: Json.Json)
    ensures ItemWrites(items + [j]) == ItemWrites(items) + (if items == [] then [] else [","]) + [Json.Print(j)]
  {
    assert (items + [j])[..|items|] == items;
  }

  lemma OpenArrayNext(chunks: seq<StreamChunk>, i: nat, enc: Encoder)
    requires i < |chunks|
    ensures OpenArray(chunks[..i + 1], enc) ==
            OpenArray(chunks[..i], enc) + (if i == 0 then [] else [","]) + [Json.Print(enc(ToElement(chunks[i])))]
  {
    var before, j := Items(chunks[..i], enc), enc(ToElement(chunks[i]));
    assert Items(chunks[..i + 1], enc) == before + [j];
    ItemWritesSnoc(before, j);
  }

  method StreamGenerateContent(chunks: seq<StreamChunk>, enc: Encoder, w: Writer<string>)
    modifies w
    ensures w.log == old(w.log) + (OpenArray(chunks, enc) + ["]"])
  {
    w.Write("[");
    var first := true;
    for i := 0 to |chunks|
      invariant first <==> i == 0
      invariant w.log == old(w.log) + OpenArray(chunks[..i], enc)
    {
      var data := Json.Print(enc(ToElement(chunks[i])));
      OpenArrayNext(chunks, i, enc);
      if !first {
        w.Write(",");
      }
      first := false;
      w.Write(data);
    }
    assert chunks[..|chunks|] == chunks;
    w.Write("]");
  }

  lemma {:induction false} PrintItemsSnoc(items: seq<Json.Json>, j: Json.Json)
    ensures Json.PrintItems(items + [j]) ==
            Json.PrintItems(items) + (if items == [] then "" else ",") + Json.Print(j)
  {
    var longer := items + [j];
    if items == [] {
      assert longer == [j];
    } else {
      assert longer[0] == items[0] && longer[1..] == items[1..] + [j];
      PrintItemsSnoc(items[1..], j);
      if |items| == 1 {
        assert items[1..] == [] && Json.PrintItems(items[1..] + [j]) == Json.Print(j);
      } else {
        var (a, b, c) := (Json.Print(items[0]), Json.PrintItems(items[1..]), Json.Print(j));
        assert Json.PrintItems(longer) == a + "," + (b + "," + c);
        assert a + "," + (b + "," + c) == a + "," + b + "," + c;
      }
    }
  }

  lemma Concat3(a: seq<string>, b: seq<string>, c: seq<string>)
    ensures Concat(a + b + c) == Concat(a) + Concat(b) + Concat(c)
  {
    ConcatAppend(a + b, c);
    ConcatAppend(a, b);
  }

  lemma {:induction false} ItemWritesBody(items: seq<Json.Json>)
    ensures Concat(ItemWrites(items)) == Json.PrintItems(items)
  {
    if items != [] {
      var init, last := items[..|items| - 1], items[|items| - 1];
      assert items == init + [last];
      ItemWritesBody(init);
      ItemWritesSnoc(init, last);
      PrintItemsSnoc(init, last);
      Concat3(ItemWrites(init), if init == [] then [] else [","], [Json.Print(last)]);
      ConcatOne(",");
      ConcatOne(Json.Print(last));
    }
  }

  /**
   For any number of chunks, zero included, and any text in them, the body is one JSON array, and
   an RFC 8259 parser reads back exactly the elements that were sent, in order.
   */
  lemma ClientReads(chunks: seq<StreamChunk>, enc: Encoder)
    ensures var body := Concat(OpenArray(chunks, enc) + ["]"]);
      && body == Json.Print(Json.Arr(Items(chunks, enc)))
      && Json.Parse(body) == Some(Json.Arr(Items(chunks, enc)))
  {
    var items := Items(chunks, enc);
    ItemWritesBody(items);
    ConcatAppend(["["] + ItemWrites(items), ["]"]);
    ConcatAppend(["["], ItemWrites(items));
    ConcatOne("[");
    ConcatOne("]");
    Json.ParsePrint(Json.Arr(items));
  }

  function ElementText(e: Element): string {
    if e.candidates != [] then e.candidates[0].text else ""
  }

  /** The elements carry exactly the text of the chunks. */
  lemma {:induction false} ElementsText(chunks: seq<StreamChunk>)
    ensures Joined(Elements(chunks), ElementText) == DeltaText(chunks)
  {
    if chunks != [] {
      ElementsText(chunks[1..]);
      assert Elements(chunks)[1..] == Elements(chunks[1..]);
    }
  }

  /** How a client that knows the encoding reads an element. */
  type Decoder = Json.Json -> Option<Element>

  /** The elements of a body, if it is an array of them. */
  function Received(body: string, dec: Decoder): Option<seq<Element>> {
    match Json.Parse(body)
    case Some(Arr(items)) => Json.DecodeAll(items, dec)
    case _ => None
  }

  /** The text that such a client puts together. */
  function ReceivedText(body: string, dec: Decoder): Option<string> {
    match Received(body, dec)
    case None => None
    case Some(es) => Some(Joined(es, ElementText))
  }

  lemma {:induction false} DecodedItems(chunks: seq<StreamChunk>, enc: Encoder, dec: Decoder)
    requires Json.Undoes(dec, enc)
    ensures Json.DecodeAll(Items(chunks, enc), dec) == Some(Elements(chunks))
  {
    if chunks != [] {
      var e := ToElement(chunks[0]);
      assert dec(enc(e)) == Some(e);
      DecodedItems(chunks[1..], enc, dec);
      assert Items(chunks, enc)[1..] == Items(chunks[1..], enc);
      assert Elements(chunks) == [e] + Elements(chunks[1..]);
    }
  }

  /** A client whose decoder undoes the encoder gets back the elements themselves. */
  lemma ClientDecodes(chunks: seq<StreamChunk>, enc: Encoder, dec: Decoder)
    requires Json.Undoes(dec, enc)
    ensures Received(Concat(OpenArray(chunks, enc) + ["]"]), dec) == Some(Elements(chunks))
  {
    ClientReads(chunks, enc);
    DecodedItems(chunks, enc, dec);
  }

  // ---- Routing ----

  /** The path segment up to its last colon, and what follows it; no action without a colon. */
  method SplitAction(segment: string) returns (model: string, action: string)
    ensures ':' in segment ==> segment == model + ":" + action && ':' !in action
    ensures ':' !in segment ==> model == segment && action == ""
  {
    model, action := segment, "";
    var i := |segment| - 1;
    while i >= 0
      invariant -1 <= i < |segment|
      invariant forall k :: i < k < |segment| ==> segment[k] != ':'
    {
      if segment[i] == ':' {
        action := segment[i + 1..];
        model := segment[..i];
        assert segment == segment[..i] + [segment[i]] + segment[i + 1..];
        return;
      }
      i := i - 1;
    }
  }

  /** The split is unique: a model name may hold colons, an action may not. */
  lemma SplitIsUnique(m: string, a: string, m': string, a': string)
    requires m + ":" + a == m' + ":" + a'
    requires ':' !in a && ':' !in a'
    ensures m == m' && a == a'
  {
    LastSeparatorUnique(':', m, a, m', a');
  }

  // ---- The same conversation on Bedrock and on Vertex ----

  /** The same turns, however each provider cuts them into blocks or parts. */
  ghost predicate SameTurns(contents: seq<Content>, msgs: seq<Bedrock.Message>) {
    && |contents| == |msgs|
    && forall i :: 0 <= i < |contents| ==> PartsText(contents[i].parts) == Concat(msgs[i].content)
  }

  lemma {:induction false} SameTurnsSameTokens(contents: seq<Content>, msgs: seq<Bedrock.Message>)
    requires SameTurns(contents, msgs)
    ensures Tokens.PromptTokens(Turns(contents)) == Tokens.PromptTokens(Bedrock.Turns(msgs))
  {
    if contents != [] {
      SameTurnsSameTokens(contents[1..], msgs[1..]);
      var text := PartsText(contents[0].parts);
      Tokens.TextMessageBytes(ContentToDomainRole(contents[0].role), text);
      Tokens.TextMessageBytes(msgs[0].role, text);
      assert Turns(contents)[1..] == Turns(contents[1..]);
      assert Bedrock.Turns(msgs)[1..] == Bedrock.Turns(msgs[1..]);
    }
  }

  /**
   One conversation with the same system prompt is estimated at most as high on Bedrock, which
   rounds each of the k non-empty system blocks down by itself, as on Vertex, which rounds the
   whole prompt; the difference is at most 3k/4.
   */
  lemma PromptTokensAcrossProviders(contents: seq<Content>, system: Content,
                                    msgs: seq<Bedrock.Message>, blocks: seq<string>)
    requires SameTurns(contents, msgs)
    requires PartsText(system.parts) == Concat(blocks)
    ensures var vertex := Tokens.PromptTokens(SystemMessages(Some(system)) + Turns(contents));
      var bedrock := Tokens.PromptTokens(Tokens.BlockMessages(blocks) + Bedrock.Turns(msgs));
      vertex - 3 * |Tokens.BlockMessages(blocks)| / 4 <= bedrock <= vertex
  {
    SameTurnsSameTokens(contents, msgs);
    Tokens.PromptTokensAdd(SystemMessages(Some(system)), Turns(contents));
    Tokens.PromptTokensAdd(Tokens.BlockMessages(blocks), Bedrock.Turns(msgs));
    Tokens.SystemPromptCost(blocks);
  }
}
