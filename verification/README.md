# LLM mock API: a verified model

The mock API answers OpenAI, Bedrock and Vertex clients with canned replies. This project models the
part of it that carries state, arithmetic or concurrency, and proves what that part promises.

- **Streaming.** `Chat.Stream` starts a goroutine that sends one chunk per word over an unbuffered
  channel, polls the request context before each word, sleeps between words, and ends with a finish
  chunk. `StreamProtocol` is the step system of producer, channel, handler and cancellation; a run is
  any sequence of enabled steps, so a lemma about every run covers every interleaving. `Chat` holds
  `Complete`, `Stream` and the goroutine itself as methods over a clock object, each tied to an outcome
  function, and proves that streaming refines completion. `Chat.RunIsAProducerRun` connects the two views.
- **Wire formats.** `OpenAiChat` and `OpenAiResponses` (server-sent events), `Bedrock` (Converse and
  Claude event logs) and `Vertex` (a JSON array printed while it grows) turn the chunks into what a
  client receives. `Sse` and `Json` hold printers and independent parsers -- section 9.2.6 of the WHATWG
  HTML standard and RFC 8259 -- and the framings are proved readable for every way the providers' SDK
  structs may become JSON (an arbitrary encoder). `Handlers` runs the Bedrock and Vertex handlers from a
  decoded body to the answer. `Agreement` compares all five streaming clients with each other and with
  the plain endpoints, `Answers` each of them field by field with the use case's own answer.
- **Texts.** `Words` proves that `splitWords` gives the only decomposition of a text with the expected
  shape. Texts are sequences of Unicode scalar values; `Utf8` gives their bytes, `Texts` joins pieces.
  `RawText` drops the assumption: it follows Go's range loop over arbitrary bytes and says exactly when
  streaming rewrites a reply.
- **Embeddings.** `Embedding` models FNV-1a, the 64-bit generator and the truncating remainder; `Lcg`
  and `Integers` prove the generator's full period from its constants.
- **Video jobs.** `VideoJobs` models `Create` as it runs concurrently: an atomic counter step and a
  separately locked insert.
- **Scenario store and token counts.** `ScenarioStore` models the string-keyed store and its two writers;
  `Tokens` and `Vertex` bound and compare the token estimates of the providers.

## What the proofs turned up

- `invokeModelStream` does not forward the system prompt that `invokeModel` forwards, so the two report
  the same usage exactly when the scenario sets one or the prompt is shorter than four bytes
  (`Handlers.ClaudeStreamAgainstInvoke`).
- A cancelled Bedrock stream still ends in `end_turn`, and only its zero usage tells it from a whole one.
  For Converse that always does, since a stream's usage has a non-zero total (`Chat.UsageIsReported`);
  Claude reports no total, so there it takes a non-zero prompt or completion count
  (`Bedrock.CutLooksWhole`).
- The store's string key is ambiguous. A pair shares its key with another one exactly when its model
  holds a `|` or its operation holds one before its last character (`ScenarioStore.KeyAmbiguity`); with
  bar-free operations on both sides it never does (`ScenarioStore.KeyInjective`).
- The loader accepts entries without a model, the admin API does not. When the two agree on a list is
  said exactly by `ScenarioStore.LoadEqualsPuts`.
- The canned latency is the configured one exactly up to 9223372036854 ms; above that the `int64`
  product wraps (`Chat.LatencyExact`).
- A handler that gives up before it receives anything leaves the goroutine blocked for good exactly when
  the context was not cancelled before its first poll (`StreamProtocol.AbandonedOutcome`). The Vertex
  handler does so when its response writer cannot flush. The program as shipped hides the case: its
  access log wraps every writer in one that has `Flush`
  (internal/platform/httpserver/logging_middleware.go:11-30, wired in cmd/server/main.go:62).
- For a reply that is not valid UTF-8 the use cases differ: `Stream` replaces each stray byte by the three
  bytes of U+FFFD, `Complete` returns the bytes as they are (`RawText.StreamedBytes`). Clients do not see
  it, because every endpoint answers in JSON and Go's encoder replaces the same bytes
  (`RawText.JsonHidesStrayBytes`).

## Model

| member | source | states |
|---|---|---|
| StreamProtocol.EveryRunIsSafe | internal/core/usecase/chat.go:96-131 | at every moment of every interleaving the chunks sent are a prefix of the full stream: chunk i carries word i at index 0, all share one identity, the role is on chunk 0 only, and a finish chunk with the usage stands exactly at the last position |
| StreamProtocol.ClosedOutcome | internal/core/usecase/chat.go:105-130 | a closed channel has delivered everything, or the request was cancelled and the finish chunk is missing; one delay was paid per delivered word |
| StreamProtocol.AtMostOneWordAfterCancel | internal/core/usecase/chat.go:105-116 | from any moment at which the context is cancelled at most one more word is delivered |
| StreamProtocol.OneWordAfterCancel | internal/core/usecase/chat.go:105-116 | that one more word does happen, after any number of words |
| StreamProtocol.CancelAfterAnyWord | internal/core/usecase/chat.go:105-110 | every cut point is reachable: for each k some complete run delivers exactly the first k words |
| StreamProtocol.DeliverAll | internal/core/usecase/chat.go:97-131 | a complete run that is never cancelled exists |
| StreamProtocol.Progress | internal/core/usecase/chat.go:97-131 | a reachable state can move unless the stream is over or its receiver is missing; a drained stream is never stuck |
| StreamProtocol.EveryRunEnds | internal/core/usecase/chat.go:97-131 | no run of a stream of n words has more than 6n + 8 steps, with or without cancellation |
| StreamProtocol.UncancelledOutcome | internal/core/usecase/chat.go:97-131 | every complete, drained, uncancelled run sends and handles the full stream and closes the channel |
| StreamProtocol.AbandonedOutcome | internal/adapters/inbound/http/vertex/streamgeneratecontent_handler.go:31-35 | without a receiver nothing is delivered, and in every complete run the goroutine stays blocked if and only if the context was not yet cancelled at its first poll |
| StreamProtocol.AbandonedRuns | internal/adapters/inbound/http/vertex/streamgeneratecontent_handler.go:31-35 | concrete runs: left blocked, left blocked although cancelled after the poll, and ended by a cancellation before it |
| StreamProtocol.LeakIsForever | internal/adapters/inbound/http/vertex/streamgeneratecontent_handler.go:31-35 | a goroutine blocked on an absent receiver stays blocked whatever happens later |
| StreamProtocol.PacingBounds | internal/core/usecase/chat.go:100-103 | n delays of the floored pace take at most n/tps seconds and fall short by less than n nanoseconds |
| StreamProtocol.InterDelayFits | internal/core/usecase/chat.go:100-103 | the delay is the largest whole number of nanoseconds that fits the rate, and zero without a positive rate |
| Chat.Chat.Complete | internal/core/usecase/chat.go:25-67 | returns the completion outcome, with every error path and the exact clock |
| Chat.Chat.Stream | internal/core/usecase/chat.go:69-95 | returns the stream outcome: the same checks, then the plan that the goroutine captures |
| Chat.Chat.Start | internal/core/usecase/chat.go:84-103 | the plan: split reply, identity from the clock, floored pace, usage |
| Chat.Chat.Produce | internal/core/usecase/chat.go:97-131 | under any context the goroutine leaves at the first poll that finds it done, having sent exactly the words before it, and sends the finish chunk only if no poll does; it sleeps once per word |
| Chat.LeavesAtFirstDone | internal/core/usecase/chat.go:105-110 | the same about the number of chunks sent, from any word on |
| Chat.RunIsAProducerRun | internal/core/usecase/chat.go:97-131 | every finished run of the step system sends the chunks and pays the delays of that loop under a context that stays done, and that is done at all only if the request was cancelled |
| Chat.ProducerRunIsARun | internal/core/usecase/chat.go:97-131 | conversely the loop under any context is a complete run of the step system, cancelled exactly if the finish chunk is missing |
| Chat.CompleteFails | internal/core/usecase/chat.go:26-41 | which error `Complete` returns and at what time: an incomplete request and a store error at once, an injected error after the latency, and otherwise none |
| Chat.CompleteAnswers | internal/core/usecase/chat.go:43-66 | id and creation second come from the clock, the text is the scenario's or the canned one, and without a scenario usage the total is prompt plus completion, each a quarter of its bytes up to rounding, the completion at least one |
| Chat.StreamFailsAsComplete | internal/core/usecase/chat.go:25-95 | both entry points fail on the same inputs with the same error at the same time |
| Chat.StreamDeliversCompletion | internal/core/usecase/chat.go:25-134 | every complete uncancelled run says exactly what `Complete` answers: text, role, finish reason, usage, id, model, created |
| Chat.StreamPrefixOfCompletion | internal/core/usecase/chat.go:25-134 | at every moment of every run the text sent is a prefix of the completion's text |
| Chat.UsageIsReported | internal/core/usecase/chat.go:122-129 | the usage of a stream never has a zero total, so the zero value on the wire means "none" |
| Chat.LatencyExact | internal/core/usecase/chat.go:79-81 | the initial delay is none for a non-positive latency, else the configured one modulo 2^64, and exactly it if and only if it is at most 9223372036854 ms |
| Chat.FullStreamTime | internal/core/usecase/chat.go:79-119 | an uncancelled stream of n words moves the clock by the latency and n delays |
| Chat.FullStreamPace | internal/core/usecase/chat.go:100-119 | n(10^9 - tps) < tps * paced <= n 10^9 for every complete uncancelled run |
| Chat.StreamPace | internal/core/usecase/chat.go:100-119 | the same for the scenario's own rate, and no delay in any run when the scenario has no positive rate |
| Words.SplitWords | internal/core/usecase/chat.go:136-153 | the pieces concatenate to the text and each closed piece has its only space at its end |
| Words.SplitWordsLoop | internal/core/usecase/chat.go:136-153 | the rune loop computes that split, the empty text included |
| Words.SplitIsUnique | internal/core/usecase/chat.go:136-153 | no other list of pieces meets that description |
| Words.PieceCount | internal/core/usecase/chat.go:136-153 | the number of pieces is the number of spaces, plus one unless the text ends in a space |
| Words.PieceBytes | internal/core/usecase/chat.go:136-153 | byte lengths of the pieces add up to the byte length of the text |
| Utf8.SpaceByte | internal/core/usecase/chat.go:139-141 | the byte 0x20 occurs in a text exactly when a space does, so cutting after spaces never cuts a character |
| RawText.SplitBytesLoop | internal/core/usecase/chat.go:136-153 | the same loop over arbitrary bytes gives the encodings of the pieces of the runes it sees |
| RawText.StreamedBytes | internal/core/usecase/chat.go:136-153 | the bytes of all pieces are the text with stray bytes replaced, and equal the text if and only if it is UTF-8 |
| RawText.SanitizeTwice | internal/core/usecase/chat.go:139-140 | the result is UTF-8 and ranging over it again changes nothing |
| RawText.JsonHidesStrayBytes | internal/core/usecase/chat.go:136-153 | a JSON encoder, which replaces stray bytes in the same way, leaves every streamed piece alone, and the pieces join to what it makes of the whole text in a plain answer |
| RawText.SanitizedLength | internal/core/usecase/chat.go:139-140 | every stray byte lengthens the streamed text by exactly two bytes |
| RawText.SplitOfUtf8 | internal/core/usecase/chat.go:136-153 | on UTF-8 the byte-level split is the split of the characters |
| Tokens.EstimateUsage | internal/core/usecase/chat.go:155-169 | the loop computes a quarter of each message's bytes, floored message by message, and a completion count of at least one |
| Tokens.FloorSumBounds | internal/core/usecase/chat.go:155-160 | 4 prompt <= total bytes <= 4 prompt + 3 messages |
| Tokens.CompletionBounds | internal/core/usecase/chat.go:161-166 | the completion count is one below four bytes and else within three bytes below a quarter |
| Tokens.PromptTokensAdd | internal/core/usecase/chat.go:155-160 | prompt counts of two lists of messages add up |
| Tokens.TotalBytesOfTexts | internal/core/usecase/chat.go:155-160 | the bytes that bound the prompt count are the UTF-8 length of the messages' joined texts |
| Tokens.BlockMessagesSay | internal/adapters/inbound/http/bedrock/convert.go:11-18 | exactly the non-empty system blocks become messages, in order, with the system role |
| Tokens.SystemPromptCost | internal/adapters/inbound/http/bedrock/convert.go:9-18 | k non-empty Bedrock system blocks cost at most as much as one Vertex message, and at most 3k/4 less |
| Tokens.SystemPromptBoundIsTight | internal/adapters/inbound/http/bedrock/convert.go:9-18 | that bound is reached for every k |
| Domain.Text | internal/core/domain/chat.go:35-44 | concatenates the text parts in order and skips the others |
| Domain.PartInMessage | internal/core/domain/chat.go:35-44 | wherever it stands, a text part adds exactly its text and any other part nothing |
| OpenAiChat.StreamChatCompletions | internal/adapters/inbound/http/openai/chat_handler.go:125-151 | writes one data frame per chunk, in order, then the `[DONE]` frame |
| OpenAiChat.ClientReads | internal/adapters/inbound/http/openai/chat_handler.go:143-150 | an event-stream parser reads one message per chunk, whose data parses to exactly that chunk's payload, then the sentinel, for any text |
| OpenAiChat.ClientDecodes | internal/adapters/inbound/http/openai/chat_handler.go:143-150 | a client whose decoder undoes the encoder gets exactly the payloads back from the bytes |
| OpenAiChat.DoneIsNoPayload | internal/adapters/inbound/http/openai/chat_handler.go:149-150 | the sentinel is no JSON text, so no payload can be taken for it |
| OpenAiChat.PayloadText | internal/adapters/inbound/http/openai/chat_handler.go:153-178 | the payloads' contents join to the text of the chunks |
| OpenAiResponses.StreamResponses | internal/adapters/inbound/http/openai/responses_handler.go:154-237 | the event loop prints one event/data frame for each event of the state machine's log, in order |
| OpenAiResponses.SequenceNumbers | internal/adapters/inbound/http/openai/responses_handler.go:178-236 | sequence numbers are 1, 2, 3, ... without gaps, whatever the channel yields |
| OpenAiResponses.CreatedCount | internal/adapters/inbound/http/openai/responses_handler.go:178-193 | `created` occurs once for any stream id but the sentinel, and at every chunk for the sentinel |
| OpenAiResponses.StreamIdIsNoSentinel | internal/adapters/inbound/http/openai/responses_handler.go:178-193 | an id that `Stream` makes is never `resp-0` |
| OpenAiResponses.EventTypes | internal/adapters/inbound/http/openai/responses_handler.go:178-234 | each kind of event has its own type on the wire |
| OpenAiResponses.LogOfStream | internal/adapters/inbound/http/openai/responses_handler.go:178-236 | after any k chunks the log is created, item added, one delta per word, and the closing pair exactly after the finish chunk |
| OpenAiResponses.RunText | internal/adapters/inbound/http/openai/responses_handler.go:194-208 | the deltas, and the running full text, join to the text of the chunks |
| OpenAiResponses.ClientReads | internal/adapters/inbound/http/openai/responses_handler.go:172-176 | an event-stream parser reads exactly the typed events and their payloads back |
| OpenAiResponses.ClientDecodes | internal/adapters/inbound/http/openai/responses_handler.go:172-176 | a client whose decoder undoes the encoder gets exactly the event log back from the bytes |
| Bedrock.ToDomainRequest | internal/adapters/inbound/http/bedrock/convert.go:9-30 | non-empty system blocks first, each its own message, then one message per turn |
| Bedrock.TurnsKept | internal/adapters/inbound/http/bedrock/convert.go:19-29 | every turn keeps its role and the text of all its blocks, after the system's messages |
| Bedrock.StopReasons | internal/adapters/inbound/http/bedrock/convert.go:32-41 | both stop reason mappings, for every finish reason |
| Bedrock.ConverseStream | internal/adapters/inbound/http/bedrock/converse_stream_handler.go:55-87 | writes the Converse log of the chunks, with the last finish reason and usage seen |
| Bedrock.ConverseLogIsWellFormed | internal/adapters/inbound/http/bedrock/converse_stream_handler.go:55-87 | for any chunks the log is in the grammar messageStart, contentBlockDelta*, contentBlockStop, messageStop, metadata and carries all their text |
| Bedrock.InvokeModelStream | internal/adapters/inbound/http/bedrock/invoke_stream_handler.go:70-95 | writes the Claude log of the chunks |
| Bedrock.ClaudeLogIsWellFormed | internal/adapters/inbound/http/bedrock/invoke_stream_handler.go:70-95 | for any chunks the log is in the Claude event grammar and carries all their text |
| Bedrock.LogsOfStream | internal/adapters/inbound/http/bedrock/converse_stream_handler.go:55-87 | after any k chunks of a stream both logs have one delta per delivered word, say `end_turn`, and report the usage exactly if the finish chunk came |
| Bedrock.CutLooksWhole | internal/adapters/inbound/http/bedrock/invoke_stream_handler.go:75-95 | a cut stream's log equals that of a whole stream of the same words if and only if the usage is zero (Converse) or its prompt and completion counts are (Claude) |
| Vertex.ToDomainRequest | internal/adapters/inbound/http/vertex/convert.go:19-34 | one system message if there is an instruction, then one message per content with the mapped role |
| Vertex.TurnsKept | internal/adapters/inbound/http/vertex/convert.go:12-34 | every content keeps its text and its side of the conversation, after the instruction with the system role |
| Vertex.PartsTextJoins | internal/adapters/inbound/http/vertex/convert.go:36-44 | a content's text joins the parts that are there |
| Vertex.FinishReasons | internal/adapters/inbound/http/vertex/convert.go:46-55 | the finish reason mapping, the empty reason being a stop |
| Vertex.PartsTextLoop | internal/adapters/inbound/http/vertex/convert.go:36-44 | concatenates the parts, skipping null ones |
| Vertex.CountTokens | internal/adapters/inbound/http/vertex/counttokens_handler.go:10-25 | the floored sum raised to one and cut to an int32; no contents is an error |
| Vertex.StreamGenerateContent | internal/adapters/inbound/http/vertex/streamgeneratecontent_handler.go:37-70 | writes the bracket, the elements with commas between them, and the closing bracket |
| Vertex.ClientReads | internal/adapters/inbound/http/vertex/streamgeneratecontent_handler.go:37-70 | for any number of chunks, zero included, the body is one JSON array that an RFC 8259 parser reads back to exactly the elements sent |
| Vertex.ClientDecodes | internal/adapters/inbound/http/vertex/streamgeneratecontent_handler.go:37-70 | a client whose decoder undoes the encoder gets exactly the elements back from the body |
| Vertex.ElementsText | internal/adapters/inbound/http/vertex/streamgeneratecontent_handler.go:42-51 | the elements' texts join to the text of the chunks |
| Vertex.SplitAction | internal/adapters/inbound/http/vertex/router.go:32-52 | the right-to-left scan splits a segment at its last colon |
| Vertex.SplitIsUnique | internal/adapters/inbound/http/vertex/router.go:32-52 | model and action are recovered whatever colons the model holds |
| Vertex.PromptTokensAcrossProviders | internal/adapters/inbound/http/vertex/convert.go:19-44 | one conversation is estimated at most as high on Bedrock as on Vertex, within 3k/4 for k system blocks |
| Handlers.Converse | internal/adapters/inbound/http/bedrock/converse_handler.go:9-42 | refuses a body without messages, otherwise answers with the completion of the converted request, errors unchanged |
| Handlers.InvokeModel | internal/adapters/inbound/http/bedrock/invoke_handler.go:14-65 | the same for the Claude body, with the system prompt as the first message |
| Handlers.GenerateContent | internal/adapters/inbound/http/vertex/generatecontent_handler.go:10-26 | the same for Vertex |
| Handlers.ConverseStream | internal/adapters/inbound/http/bedrock/converse_stream_handler.go:35-88 | on an error nothing is written; otherwise the log of the chunks that the goroutine delivers |
| Handlers.InvokeModelStream | internal/adapters/inbound/http/bedrock/invoke_stream_handler.go:33-96 | the same for the Claude stream, whose request has no system prompt |
| Handlers.StreamGenerateContent | internal/adapters/inbound/http/vertex/streamgeneratecontent_handler.go:17-71 | on an error, or when the writer cannot flush after the stream was started, nothing is written; otherwise the array of the delivered chunks |
| Handlers.ConversePair | internal/adapters/inbound/http/bedrock/converse_stream_handler.go:35-88 | one body to both Converse endpoints: they fail alike, missing messages included; otherwise every whole stream's log has the plain answer's role, text, stop reason and usage |
| Handlers.VertexPair | internal/adapters/inbound/http/vertex/streamgeneratecontent_handler.go:17-71 | one body to both Vertex endpoints: they fail alike, missing contents included; otherwise every whole stream has the plain answer's text, finish reason, usage, id and model |
| Handlers.EmptyBodyIsInvalid | internal/adapters/inbound/http/bedrock/invoke_handler.go:17-21 | all six handlers refuse a body without messages as invalid, at once |
| Handlers.ClaudeRequests | internal/adapters/inbound/http/bedrock/invoke_stream_handler.go:42-52 | the requests of the two Claude endpoints: the same turns, with the system prompt first in the plain one only |
| Handlers.ClaudeStreamAgainstInvoke | internal/adapters/inbound/http/bedrock/invoke_stream_handler.go:42-52 | one body to both Claude endpoints: same text, stop reason and output count; the stream's input count is lower by a quarter of the system prompt's bytes, and equal if and only if the scenario sets the usage or the prompt has fewer than four bytes |
| Handlers.ClaudePairFailsAlike | internal/adapters/inbound/http/bedrock/invoke_handler.go:14-45 | both Claude endpoints fail on the same bodies with the same error, missing messages included |
| Agreement.OneText | internal/adapters/inbound/http/openai/chat_handler.go:143-178 | whatever the channel yields, the clients of all five adapters put together the same text |
| Agreement.PlansAreProper | internal/core/usecase/chat.go:84-95 | every plan `Stream` makes has a usable id and only non-empty word chunks |
| Agreement.ResponsesLogInEveryRun | internal/adapters/inbound/http/openai/responses_handler.go:178-236 | after every whole turn of every run the Responses log is the expected one, with `completed` exactly when the finish chunk was handled |
| Agreement.ResponsesLogAtEveryWrite | internal/adapters/inbound/http/openai/responses_handler.go:178-236 | between any two writes of any run the log is a prefix of the whole log, numbered without gaps, with `created` first and only there, and `completed` only after every chunk was sent |
| Agreement.BedrockLogsInEveryRun | internal/adapters/inbound/http/bedrock/converse_stream_handler.go:55-87 | at the end of every run, cancelled or not, both Bedrock logs are grammatical with one delta per delivered word |
| Agreement.ResponsesStreamEndsInAnswer | internal/adapters/inbound/http/openai/responses_handler.go:209-235 | the last event of a whole stream carries the response that the plain endpoint returns |
| Agreement.OpenAiUsageOnce | internal/adapters/inbound/http/openai/chat_handler.go:153-178 | a whole OpenAI stream reports usage once, in its last chunk, together with `stop` |
| Agreement.VertexUsageOnce | internal/adapters/inbound/http/vertex/streamgeneratecontent_handler.go:52-58 | a whole Vertex stream reports usage once, in its last element, with an exact total if and only if that fits an int32 |
| Agreement.StreamingClientsSeeTheCompletion | internal/core/usecase/chat.go:25-134 | in every complete uncancelled run each of the five clients ends with the text, stop reason and usage that its provider's plain endpoint answers |
| Agreement.ClientsReadTheCompletion | internal/core/usecase/chat.go:25-134 | from the bytes of any complete uncancelled run, OpenAI, Responses and Vertex clients whose decoders undo the encoders read exactly the text that `Complete` answers |
| Agreement.CompletionAfterWrites | internal/core/usecase/chat.go:30-65 | after any history of store writes the entry of the last accepted write to the key decides the latency, the error, the text and the stream's pace, and the usage is the estimate |
| Agreement.CompletionWithoutWrites | internal/core/usecase/chat.go:30-65 | without such a write both entry points answer the canned reply at once, without pauses |
| Agreement.CountTokensMatchesGenerateContent | internal/adapters/inbound/http/vertex/counttokens_handler.go:16-22 | `countTokens` is max(1, prompt count of `generateContent`) on the same contents without system instruction or usage override |
| Answers.OpenAiAnswers | internal/adapters/inbound/http/openai/chat_handler.go:97-178 | against the use case's answer, field by field, for every complete uncancelled run: each chunk's id, model, time, role, content, finish reason and usage, and the plain answer's |
| Answers.ResponsesAnswers | internal/adapters/inbound/http/openai/responses_handler.go:80-236 | likewise for Responses: identity, time, status, each of the three counts and text in `created`, in `completed` and in the plain answer, with one item id throughout |
| Answers.BedrockAnswers | internal/adapters/inbound/http/bedrock/converse_stream_handler.go:55-87 | likewise for both Bedrock streams and plain answers: role, model, ids, stop reason and each count |
| Answers.VertexAnswers | internal/adapters/inbound/http/vertex/convert.go:57-79 | likewise for Vertex: identity, role, index and `STOP` on every element, and the counts modulo 2^32 on the last one and in the plain answer |
| Sse.StreamRoundTrip | internal/adapters/inbound/http/openai/responses_handler.go:172-176 | an event-stream parser recovers exactly the frames printed, for one-line payloads |
| Json.ParsePrint | internal/adapters/inbound/http/vertex/streamgeneratecontent_handler.go:60-65 | parsing undoes printing for every JSON value |
| Json.PrintHasNoControl | internal/adapters/inbound/http/openai/chat_handler.go:144-146 | printed JSON has no control character, so no payload breaks a frame |
| Lcg.LowBitsPeriod | internal/core/usecase/embedding.go:62-64 | the low k bits of the generator's state return exactly after the multiples of 2^k steps |
| Lcg.FullPeriod | internal/core/usecase/embedding.go:62-64 | the state is back at its start if and only if 2^64 divides the number of steps |
| Lcg.StatesDistinct | internal/core/usecase/embedding.go:61-66 | no two of 2^64 consecutive states are equal |
| Lcg.EveryStateReached | internal/core/usecase/embedding.go:61-66 | every 64-bit state is reached from every seed within one period |
| Lcg.IterateClosedForm | internal/core/usecase/embedding.go:62-64 | n wrapping steps are a^n x + c (1 + ... + a^(n-1)) modulo 2^64 |
| Lcg.GeometricValuation | internal/core/usecase/embedding.go:62-64 | that sum has exactly as many factors of two as n, for any multiplier that is 1 modulo 4 |
| Lcg.IterateInjective | internal/core/usecase/embedding.go:62-64 | different states stay different after any number of steps |
| Embedding.DeterministicVector | internal/core/usecase/embedding.go:54-67 | the loops write the vector of the specification, of the wanted length |
| Embedding.FnvOneByteApart | internal/core/usecase/embedding.go:57-59 | two byte strings of one length that differ in one byte hash differently, from any basis |
| Embedding.NearTextsDiverge | internal/core/usecase/embedding.go:57-63 | and their generators never share a state at the same step |
| Embedding.SeedsOfOneVector | internal/core/usecase/embedding.go:61-66 | all states behind one vector differ, for up to 2^64 dimensions |
| Embedding.EntriesModEight | internal/core/usecase/embedding.go:61-66 | two entries of a vector agree modulo 8 if and only if 8 divides their distance |
| Embedding.EightNeighboursDiffer | internal/core/usecase/embedding.go:61-66 | any eight neighbouring entries, a whole default vector, are pairwise different |
| Embedding.Numerator | internal/core/usecase/embedding.go:64-64 | an entry is k/1000 with -999 <= k <= 999 |
| Embedding.NumeratorMeaning | internal/core/usecase/embedding.go:64-64 | k is the one number in that range that has the residue of the state, read as int64, modulo 1000 and does not have the opposite sign |
| Embedding.VectorEntries | internal/core/usecase/embedding.go:61-66 | the same for entry i of a vector and the state after i + 1 steps |
| Embedding.AbsorbMeaning | internal/core/usecase/embedding.go:57-59 | one hash step multiplies by the prime after the byte went into the low eight bits, modulo 2^64 |
| Embedding.VectorOfA | internal/core/usecase/embedding.go:54-67 | the known hash of "a", and -157/1000 as its first entry |
| Embedding.Embed | internal/core/usecase/embedding.go:22-52 | the batch loop returns the specified items, indices and token count, and every error path |
| Embedding.EmbedAnswers | internal/core/usecase/embedding.go:22-52 | which error comes first; else one item per text with its index, text and number of entries, and a prompt count within three bytes per text of a quarter of all bytes |
| Embedding.EmbedBatches | internal/core/usecase/embedding.go:40-51 | embedding a joined batch is embedding its parts, with shifted indices and added counts |
| VideoJobs.VideoTable.Create | internal/core/usecase/video.go:46-89 | a refused request changes nothing; an accepted one takes the next number and stores the returned job under it |
| VideoJobs.VideoTable.Get | internal/core/usecase/video.go:91-99 | the stored job, or not found |
| VideoJobs.VideoTable.Content | internal/core/usecase/video.go:101-109 | succeeds exactly for stored ids |
| VideoJobs.CreateAlone | internal/core/usecase/video.go:46-89 | a call that meets no other has, in the step system, exactly the effect of the sequential method |
| VideoJobs.VideoIdCollision | internal/core/usecase/video.go:70-70 | two numbers give one id if and only if they differ by a multiple of 2^64 |
| VideoJobs.EveryRunKeepsJobsApart | internal/core/usecase/video.go:70-88 | in every interleaving of any number of calls each id is `video_k` for an issued number, all ids in flight or stored differ, no insert overwrites a job, and there is one job per returned call |
| VideoJobs.JobComesFromItsCall | internal/core/usecase/video.go:46-88 | in every interleaving a job in flight, stored or returned carries the model, prompt, seconds and size that its own call asked for, and the time at which it was made; only sound calls get one |
| VideoJobs.RefusedForItsFault | internal/core/usecase/video.go:46-57 | a refused call was refused for the first of its own faults |
| VideoJobs.ReturnedJobIsKept | internal/core/usecase/video.go:84-109 | a returned job is found unchanged at every later moment |
| ScenarioStore.Store.Resolve | internal/adapters/outbound/scenario/inmemory_store.go:29-37 | the stored scenario or the default one, never an error |
| ScenarioStore.Store.Put | internal/adapters/outbound/scenario/inmemory_store.go:41-46 | replaces the entry under the scenario's own key and keeps every scenario under its key |
| ScenarioStore.Store.List | internal/adapters/outbound/scenario/inmemory_store.go:48-56 | each stored scenario exactly once, no two with one key |
| ScenarioStore.Store.Load | internal/adapters/outbound/scenario/loader.go:44-65 | applies the entries in file order |
| ScenarioStore.Store.AdminPut | internal/adapters/admin/http/router.go:49-83 | refuses a scenario without a model and applies any other |
| ScenarioStore.ResolveIsLastWrite | internal/adapters/outbound/scenario/inmemory_store.go:29-46 | after any history of both writers a lookup gives the last accepted write to its key, or the default |
| ScenarioStore.ResolveIsLastEntry | internal/adapters/outbound/scenario/loader.go:44-65 | and it gives the last accepted entry's own text, latency, rate and error |
| ScenarioStore.ResolveDefault | internal/adapters/outbound/scenario/inmemory_store.go:33-36 | without such an entry it gives no text, delay, rate, error or usage |
| ScenarioStore.WritesToSamePair | internal/adapters/admin/http/router.go:55-63 | with bar-free operations a write goes to a key exactly if it names the same model and operation, an empty operation meaning `chat` |
| ScenarioStore.KeyInjective | internal/adapters/outbound/scenario/inmemory_store.go:59-61 | with bar-free operations the key determines model and operation, even if models contain bars |
| ScenarioStore.KeyCollision | internal/adapters/outbound/scenario/inmemory_store.go:59-61 | any two pairs share a key if and only if they are the same pair or one shadows the other: its operation has a bar and the part before it sits in the other's model |
| ScenarioStore.KeyAmbiguity | internal/adapters/outbound/scenario/inmemory_store.go:59-61 | a pair shares its key with some other pair if and only if its model holds a bar or its operation holds one before its last character |
| ScenarioStore.StoreRefinesPairMap | internal/adapters/outbound/scenario/inmemory_store.go:21-46 | with bar-free operations the store is a last-write-wins map on (model, operation) pairs |
| ScenarioStore.AdminIsLoadOfNamed | internal/adapters/admin/http/router.go:55-81 | PUTting a list is loading those of its entries that name a model, from any store |
| ScenarioStore.LoadEqualsPuts | internal/adapters/outbound/scenario/loader.go:44-65 | for any list and store, loading equals PUTting if and only if every entry without a model that is the last for its key says what the PUTs leave there anyway |
| ScenarioStore.NamedLoadEqualsPuts | internal/adapters/admin/http/router.go:55-81 | so they are equal, from any store, when every entry names a model |
| ScenarioStore.OnlyNamedLoadEqualsPuts | internal/adapters/outbound/scenario/loader.go:44-65 | and from an empty store, with bar-free operations, only then |
| ScenarioStore.WritersSetNoUsage | internal/adapters/outbound/scenario/loader.go:44-65 | neither writer can set a usage, so usage is always estimated for stored scenarios |

## Left out

- Chat.LatencyExact: a latency that wraps to a negative duration moves the modelled clock back, as it does the unit tests' fake; the system clock's `Sleep` would return at once.
- Chat.Clock: time is an unbounded integer of nanoseconds that only `Sleep` moves, as in the unit tests' fake; the system clock and the range of `UnixNano` are not modelled, nor is another request sleeping between two readings.
- Chat.Chat.Stream: usage is computed when the stream starts instead of in the goroutine, from the same captured values.
- Chat.Chat.Produce: runs the goroutine's body against a receiver that always takes the next chunk; the interleavings are the subject of the step system.
- Bedrock.ConverseStream: takes the sequence of chunks that the channel yields, as do the other streaming methods; when the channel yields them is the subject of the step system. The AWS binary event framing and its base64 envelope are not modelled, events are values.
- OpenAiChat.ClientDecodes: the SDK struct's field names are not modelled; the encoder from payload to JSON is arbitrary, and what a client can make of it is stated for encoders that a decoder undoes. The same holds for the Responses and Vertex payloads.
- Json.ParsePrint: the printer stands for `encoding/json`, whose choice of escapes beyond the mandatory ones is not modelled; the parser does not combine `\u` surrogate pairs, which the printer never writes.
- Embedding.DeterministicVector: keeps the integer numerator; the division by 1000 in floating point is not modelled.
- VideoJobs.EveryRunKeepsJobsApart: holds for up to 2^64 numbers taken; beyond that ids repeat exactly as `VideoJobs.VideoIdCollision` says.
- ScenarioStore.Store: read and write locks are modelled as atomic operations; the order of `List` is arbitrary, as Go's map order is.
- RawText.JsonHidesStrayBytes: the adapters and the token estimates are stated for UTF-8 texts only; that Go's encoder replaces exactly the bytes that a range loop replaces is taken from its documentation.
- Response writing errors: a write always succeeds and is flushed.
- Decoding of request bodies (JSON, YAML, multipart) and the OpenAI request structs, including message content given as parts; temperature and other sampling fields, which the use case ignores.
- Provider error envelopes and status codes: the handlers return the use case's error value.
- HTTP servers, routing tables, logging, configuration, graceful shutdown.
- Image, audio and moderation endpoints, the model catalogue and the media placeholders: constants and single branches.
- MongoDB repositories, OpenMeter ingest, the view script, the LiteLLM callback and the deployment files.
