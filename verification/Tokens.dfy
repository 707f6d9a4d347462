/** Token estimates: `estimateUsage`, and the counts each adapter's requests lead to. */
module Tokens {
  import opened Domain
  import opened Integers
  import opened Texts
  import Utf8

  function MessageBytes(m: ChatMessage): nat {
    Utf8.Len(MessageText(m.content))
  }

  /** A quarter of each message's bytes, rounded down message by message. */
  function PromptTokens(messages: seq<ChatMessage>): nat {
    if messages == [] then 0 else MessageBytes(messages[0]) / 4 + PromptTokens(messages[1..])
  }

  function TotalBytes(messages: seq<ChatMessage>): nat {
    if messages == [] then 0 else MessageBytes(messages[0]) + TotalBytes(messages[1..])
  }

  function CompletionTokens(text: string): (n: nat)
    ensures n >= 1
  {
    if Utf8.Len(text) / 4 == 0 then 1 else Utf8.Len(text) / 4
  }

  function Estimate(messages: seq<ChatMessage>, text: string): TokenUsage {
    var (prompt, completion) := (PromptTokens(messages), CompletionTokens(text));
    TokenUsage(prompt, completion, prompt + completion)
  }

  lemma {:induction false} PromptTokensAdd(xs: seq<ChatMessage>, ys: seq<ChatMessage>)
    ensures PromptTokens(xs + ys) == PromptTokens(xs) + PromptTokens(ys)
    ensures TotalBytes(xs + ys) == TotalBytes(xs) + TotalBytes(ys)
  {
    if xs == [] {
      assert xs + ys == ys;
    } else {
      assert (xs + ys)[1..] == xs[1..] + ys;
      PromptTokensAdd(xs[1..], ys);
    }
  }

  lemma OneMessage(m: ChatMessage)
    ensures PromptTokens([m]) == MessageBytes(m) / 4
    ensures TotalBytes([m]) == MessageBytes(m)
  {
    assert [m][1..] == [];
  }

  method EstimateUsage(req: ChatRequest, responseText: string) returns (usage: TokenUsage)
    ensures usage == Estimate(req.messages, responseText)
  {
    var prompt := 0;
    for i := 0 to |req.messages|
      invariant prompt == PromptTokens(req.messages[..i])
    {
      var text := Text(req.messages[i]);
      PromptTokensAdd(req.messages[..i], [req.messages[i]]);
      OneMessage(req.messages[i]);
      assert req.messages[..i + 1] == req.messages[..i] + [req.messages[i]];
      prompt := prompt + Utf8.Len(text) / 4;
    }
    assert req.messages[..|req.messages|] == req.messages;
    var completion := Utf8.Len(responseText) / 4;
    if completion == 0 {
      completion := 1;
    }
    usage := TokenUsage(prompt, completion, prompt + completion);
  }

  lemma CompletionBounds(text: string)
    ensures if Utf8.Len(text) < 4 then CompletionTokens(text) == 1
            else 4 * CompletionTokens(text) <= Utf8.Len(text) <= 4 * CompletionTokens(text) + 3
  {
  }

  /** The bytes counted are those of the messages' texts, joined. */
  lemma {:induction false} TotalBytesOfTexts(messages: seq<ChatMessage>, texts: seq<string>)
    requires |texts| == |messages| && forall i :: 0 <= i < |texts| ==> texts[i] == MessageText(messages[i].content)
    ensures TotalBytes(messages) == Utf8.Len(Concat(texts))
  {
    if messages != [] {
      TotalBytesOfTexts(messages[1..], texts[1..]);
      Utf8.EncodeConcat(texts[0], Concat(texts[1..]));
    }
  }

  /** Rounding message by message loses at most three bytes a message. */
  lemma {:induction false} FloorSumBounds(messages: seq<ChatMessage>)
    ensures 4 * PromptTokens(messages) <= TotalBytes(messages) <= 4 * PromptTokens(messages) + 3 * |messages|
  {
    if messages != [] {
      FloorSumBounds(messages[1..]);
    }
  }

  // ---- A system prompt: several Bedrock blocks, or one Vertex message ----

  function TextMessage(role: Role, text: string): ChatMessage {
    ChatMessage(role, TextContent(text), "")
  }

  lemma TextMessageBytes(role: Role, text: string)
    ensures MessageBytes(TextMessage(role, text)) == Utf8.Len(text)
  {
    TextContentText(text);
  }

  /** Bedrock: one system message for each non-empty block. */
  function BlockMessages(blocks: seq<string>): seq<ChatMessage> {
    if blocks == [] then []
    else (if blocks[0] != "" then [TextMessage(ROLE_SYSTEM, blocks[0])] else []) + BlockMessages(blocks[1..])
  }

  function NonEmpty(blocks: seq<string>): seq<string> {
    if blocks == [] then []
    else if blocks[0] == "" then NonEmpty(blocks[1..])
    else [blocks[0]] + NonEmpty(blocks[1..])
  }

  /** Exactly the non-empty blocks become messages, in order, all from the system. */
  lemma {:induction false} BlockMessagesSay(blocks: seq<string>)
    ensures |BlockMessages(blocks)| == |NonEmpty(blocks)|
    ensures forall i :: 0 <= i < |BlockMessages(blocks)| ==>
              && BlockMessages(blocks)[i].role == "system"
              && MessageText(BlockMessages(blocks)[i].content) == NonEmpty(blocks)[i]
  {
    if blocks != [] {
      BlockMessagesSay(blocks[1..]);
      if blocks[0] == "" {
        assert BlockMessages(blocks) == BlockMessages(blocks[1..]);
      } else {
        var m := TextMessage(ROLE_SYSTEM, blocks[0]);
        assert m.role == "system" && MessageText(m.content) == blocks[0] by { TextContentText(blocks[0]); }
        assert BlockMessages(blocks) == [m] + BlockMessages(blocks[1..]);
        assert NonEmpty(blocks) == [blocks[0]] + NonEmpty(blocks[1..]);
      }
    }
  }

  lemma {:induction false} BlockMessagesSnoc(blocks: seq<string>, b: string)
    ensures BlockMessages(blocks + [b]) ==
            BlockMessages(blocks) + if b != "" then [TextMessage(ROLE_SYSTEM, b)] else []
  {
    if blocks == [] {
      assert [b][1..] == [];
    } else {
      assert (blocks + [b])[1..] == blocks[1..] + [b];
      BlockMessagesSnoc(blocks[1..], b);
    }
  }

  lemma {:induction false} BlockBytes(blocks: seq<string>)
    ensures TotalBytes(BlockMessages(blocks)) == Utf8.Len(Concat(blocks))
  {
    if blocks != [] {
      BlockBytes(blocks[1..]);
      Utf8.EncodeConcat(blocks[0], Concat(blocks[1..]));
      if blocks[0] != "" {
        PromptTokensAdd([TextMessage(ROLE_SYSTEM, blocks[0])], BlockMessages(blocks[1..]));
        OneMessage(TextMessage(ROLE_SYSTEM, blocks[0]));
        TextMessageBytes(ROLE_SYSTEM, blocks[0]);
      } else {
        assert BlockMessages(blocks) == BlockMessages(blocks[1..]);
      }
    }
  }

  /**
   The same system prompt costs a Bedrock caller, who sends it as k non-empty blocks, at most
   as many tokens as a Vertex caller, who sends it as one message, and at most 3k/4 fewer.
   */
  lemma SystemPromptCost(blocks: seq<string>)
    ensures var k := |BlockMessages(blocks)|;
      var bedrock := PromptTokens(BlockMessages(blocks));
      var vertex := PromptTokens([TextMessage(ROLE_SYSTEM, Concat(blocks))]);
      vertex - 3 * k / 4 <= bedrock <= vertex
  {
    BlockBytes(blocks);
    FloorSumBounds(BlockMessages(blocks));
    OneMessage(TextMessage(ROLE_SYSTEM, Concat(blocks)));
    TextMessageBytes(ROLE_SYSTEM, Concat(blocks));
  }

  function Repeat(text: string, k: nat): seq<string> {
    seq(k, i => text)
  }

  /** The bound is reached for every k: blocks of three bytes are free on Bedrock. */
  lemma {:induction false} SystemPromptBoundIsTight(k: nat)
    ensures var blocks := Repeat("abc", k);
      && |BlockMessages(blocks)| == k
      && PromptTokens(BlockMessages(blocks)) == 0
      && PromptTokens([TextMessage(ROLE_SYSTEM, Concat(blocks))]) == 3 * k / 4
  {
    ThreeByteBlocks(k);
    var text := Concat(Repeat("abc", k));
    OneMessage(TextMessage(ROLE_SYSTEM, text));
    TextMessageBytes(ROLE_SYSTEM, text);
  }

  lemma AbcBytes()
    ensures Utf8.Len("abc") == 3
  {
    assert "abc"[1..] == "bc" && "bc"[1..] == "c" && "c"[1..] == "";
    assert Utf8.Len("c") == 1;
    assert Utf8.Len("bc") == 2;
  }

  lemma {:induction false} ThreeByteBlocks(k: nat)
    ensures var blocks := Repeat("abc", k);
      && |BlockMessages(blocks)| == k
      && PromptTokens(BlockMessages(blocks)) == 0
      && Utf8.Len(Concat(blocks)) == 3 * k
  {
    if k > 0 {
      var blocks := Repeat("abc", k);
      assert blocks[0] == "abc" && blocks[1..] == Repeat("abc", k - 1);
      ThreeByteBlocks(k - 1);
      AbcBytes();
      var m := TextMessage(ROLE_SYSTEM, "abc");
      assert BlockMessages(blocks) == [m] + BlockMessages(blocks[1..]);
      PromptTokensAdd([m], BlockMessages(blocks[1..]));
      OneMessage(m);
      TextMessageBytes(ROLE_SYSTEM, "abc");
      assert Concat(blocks) == "abc" + Concat(blocks[1..]);
      Utf8.EncodeConcat("abc", Concat(blocks[1..]));
    }
  }
}
