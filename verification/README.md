# UniGateway, modelled and proved in Dafny

UniGateway stands between clients and LLM providers. This project models the parts of it that hold
state over a whole run, and proves what those parts promise.

1. **Streams.** An OpenAI chunk stream is translated into Anthropic events (`AnthropicStream`), on top
   of a splitter for reasoning tags (`ReasoningText`) and a merger for tool-call arguments
   (`ToolCalls`, `JsonStrings`; `MergeBytes` on the bytes of UTF-8, `Utf8`). `AnthropicEvents` holds a grammar for the event streams the
   translator may send and `WellFormed` a looser one for all that readers must cope with; both are
   independent of the code that prints and reads. `Aggregator` folds events back into a message,
   `OpenAiChat` turns events into OpenAI chunks, `Sse` cuts bytes into frames and reads them
   (sections 9.2.5 and 9.2.6 of the WHATWG HTML Living Standard, of which the code reads a subset).
   `AnthropicStreamTheorems`, `TranslationTheorems`, `TranslationContent`, `TranslationFallback`,
   `TranslationCalls`, `TranslationFraming`, `AggregatedTranslation`, `StreamRoundTrip`, `ForeignBlocks`,
   `Payloads` and `SsePrinting` hold the results that span several of these, and `ToolNames` what is
   announced of a tool call.
2. **The limiter of a gateway key.** A token bucket that may go into debt (`TokenBucket`), and a
   bounded queue woken by a notification (`RuntimeLimit` for the sections under the lock, `LimiterRuns`
   for the bucket in runs of them, `QueueTheorems` for all interleavings of the callers).
3. **Adaptive concurrency, retries, ordering.** `Aimd` (whole calls) and `AimdInterleaved` (single
   atomic accesses), `Fallback`, `FallbackTheorems` and `RetryRules` (the retry loop, its trace,
   and which failures it retries), `StreamDrain` (waiting for a stream to end before its request is reported), `Routing` and `RoundRobin` (the order
   of endpoints).
4. **Session prefixes.** `SessionStore`, `SessionTheorems`, `DeltaAssembly`, and `RedisStore`, which
   `RedisAgreement` holds against the in-memory store.
5. **Conversations.** `Conversion`, `ConversionForms` and `ConversionTheorems`: Anthropic messages to
   OpenAI messages and back.

Code that the repository writes as objects with mutable fields is modelled by classes; their methods
are proved equal to specification functions, and the theorems are about those functions. `Common` and
`Strings` hold what several modules share.

Inputs that the code gets from outside are parameters: clocks, what an endpoint answers, whether a weak
compare-and-exchange fails for no reason, the outcome of shuffling, lossy UTF-8 decoding, and JSON
printing and parsing (an inverse pair). Seconds, tokens and scores are real numbers.

Where the code and the claim one would like to make about it differ, the exact condition is proved:

- Tool arguments reach the client as the provider sent them if and only if no fragment repeats anything
  of what came before it and the whole is neither quoted nor `{}` with something behind it; otherwise
  characters are missing (`SentAsProvidedIff`, `MergedIsSentIff`, and `RepeatedDigitIsLost` for the
  fragments `{"n":1` and `1}`, which arrive as `{"n":1}`).
- A merge tries overlaps of so and so many bytes, and panics if and only if it gets as far as comparing and,
  beyond the overlap, there is a byte outside ASCII among the last bytes of the one text or the first of
  the other, as many as the shorter has (`MergePanicsIff`, `CollectedIff` for all fragments, and
  `UmlautPanics`).
- A completion's text that is the content over again changes nothing if and only if the chunks already
  gave the client something or had no content; if the reasoning parser held all content back, the client
  reads it twice (`FallbackDoublesIff`, and `UnclosedTagIsReadTwice` for `<think>abc`).
- Of content without a complete reasoning tag in front, leading blanks before a tag that is opened and
  never closed are lost, and nothing else is (`TextLostExactly`); before a complete tag, splitter and
  stream alike drop blanks (`StreamRefinesSplit`).
- "While the queue is not empty a slot is held or a waiter will wake" fails exactly when all that is left
  in the queue are callers that have timed out and are about to leave (`QueueNumberStrandedIff`, with a
  run in `QueueNumberStranded`); for callers that still wait it always holds (`NoStrandedWaiter`).
- A storage key gives its session key back if and only if the namespace contains no separator
  (`KeyComesBackIff`).
- No session of one namespace shares a storage key with one of another if and only if neither namespace
  begins with the other and a separator (`NamespacesApartIff`, `SharedStorageIff`).
- The Redis store does what the in-memory store does if and only if no operation meets a session that one
  of them still has and the other has not, whatever the clocks show (`RedisAgreesIff`; for one publish
  also Lua's rounding of epochs counts, `PublishAgreesIff`). Times that Redis keeps lose their fraction
  of a second, and so does its time to live: a session ends less than a second earlier there, and never
  later unless its times are before 1970 (`TruncatedIff`, `RedisLetsGoFirst`;
  `ContestedIff` gives the window for clocks that run alike; inputs in `LifetimeEndsEarly`,
  `IdleEndsEarly` and `TimeToLiveEndsEarly`).
- The task that reports on a stream waits for ever if and only if it reads the flag before it is set and
  the notification is sent before it has registered for it (`StrandedIff`, with a run in `WakeUpIsLost`);
  in every other case it can still report (`CanReportIff`).
- A tool input comes back from OpenAI's form if and only if it is no string that is JSON itself or that the
  repair of arguments turns into JSON (`InputComesBackIff`, and `OpenedByRepair`).
- On streams with blocks of unknown types the aggregator and an OpenAI client agree if and only if no such
  block gets tool input (`ForeignBlocksAgreeIff`, and a stream in `ForeignInputMisplaced`). On streams
  whose blocks start with payloads they agree if and only if all of these are empty (`PayloadsAgreeIff`).

## Model

| member | source | states |
|---|---|---|
| AnthropicEvents.AcceptedShape | unigateway-protocol/src/responses/anthropic_stream.rs:60-203 | a stream the grammar accepts has message_start and ping first and once, every block started once, given only content of its own kind, signed once just before its stop if it is a thinking block, stopped once, and message_delta and message_stop last |
| AnthropicEvents.ContentBlocksDoNotOverlap | unigateway-protocol/src/responses/anthropic_stream.rs:292-335 | between two starts of text or thinking blocks lies the stop of the first |
| AnthropicEvents.BlockStates | unigateway-protocol/src/responses/anthropic_stream.rs:387-426 | in every prefix each block is untouched, open with content of its kind only, signed, or closed, as the grammar's state says |
| AnthropicEvents.FramedAlways | unigateway-protocol/src/responses/anthropic_stream.rs:237-276 | in every prefix the phase tells which events have been sent where |
| AnthropicEvents.SignedByPlaceholder | unigateway-protocol/src/responses/anthropic_stream.rs:387-426 | every signature in a stream of the grammar is the placeholder |
| ReasoningText.ReasoningTextStreamParser.Push | unigateway-protocol/src/responses/reasoning_text.rs:149-163 | pushing a piece moves the parser and puts out chunks as the specification of one push says |
| ReasoningText.ReasoningTextStreamParser.Finish | unigateway-protocol/src/responses/reasoning_text.rs:165-179 | finishing puts out what is held back and resets the parser |
| ReasoningText.ReasoningTextStreamParser.PushDetectingOpen | unigateway-protocol/src/responses/reasoning_text.rs:181-207 | while the open tag is undecided: keep collecting, start thinking, or pass all through |
| ReasoningText.ReasoningTextStreamParser.PushCollectingThinking | unigateway-protocol/src/responses/reasoning_text.rs:209-236 | inside the tag: hold everything until the closing tag is complete |
| ReasoningText.FindSound | unigateway-protocol/src/responses/reasoning_text.rs:239-251 | searching a tag reports a real occurrence, the first, and misses none |
| ReasoningText.DigestStep | unigateway-protocol/src/responses/reasoning_text.rs:157-236 | one push leads from what a text amounts to on its own to what the longer text amounts to |
| ReasoningText.SplitDigest | unigateway-protocol/src/responses/reasoning_text.rs:106-236 | what the parser has made of a text so far, told by the one-shot splitter: it has let nothing through exactly while the text is held back, and with a finish the text comes out but for blanks before an opened tag |
| ReasoningText.CutsDoNotMatter | unigateway-protocol/src/responses/reasoning_text.rs:141-236 | however a text is cut into pieces the parser reaches the same state with the same thinking and text put out, thinking first |
| ReasoningText.StreamRefinesSplit | unigateway-protocol/src/responses/reasoning_text.rs:106-251 | for every cutting, the finished stream gives the thinking and text of the one-shot splitter; where that finds nothing, the text itself, but for leading blanks before an unclosed tag; a second finish gives nothing |
| ReasoningText.TextLostExactly | unigateway-protocol/src/responses/reasoning_text.rs:165-207 | text that the splitter finds nothing in comes back whole if and only if it is not blanks before an opened tag |
| ReasoningText.SplitTold | unigateway-protocol/src/responses/reasoning_text.rs:106-120 | behind blanks, `<think>`, thinking up to the first `</think>`, and the text are split into just these |
| Strings.WhitespaceTold | unigateway-protocol/src/responses/reasoning_text.rs:191 | which characters count as blanks, one by one |
| ToolCalls.MergeArguments | unigateway-core/src/conversion/tool_calls.rs:202-224 | the loop over suffix lengths finds the longest overlap |
| ToolCalls.MergeKeepsBoth | unigateway-core/src/conversion/tool_calls.rs:202-224 | merging keeps the existing text as a prefix and contains the incoming one |
| MergeBytes.MergeArgumentBytes | unigateway-core/src/conversion/tool_calls.rs:202-224 | the loop over numbers of bytes, which ends at an overlap, at nothing left, or at a slice that cuts a character |
| MergeBytes.MergePanicsIff | unigateway-core/src/conversion/tool_calls.rs:202-224 | on the bytes of any two texts: merging panics if and only if the loop is reached and, beyond the overlap, one of the bytes compared is outside ASCII; otherwise it gives the bytes of the merged text |
| MergeBytes.CollectedIff | unigateway-core/src/conversion/tool_calls.rs:202-224 | all fragments are collected as the bytes of the merged text, if and only if none makes a merge cut a character |
| MergeBytes.AsciiNeverCuts | unigateway-core/src/conversion/tool_calls.rs:202-224 | texts in ASCII never do |
| MergeBytes.UmlautPanics | unigateway-core/src/conversion/tool_calls.rs:216-221 | two texts of a letter each that do |
| JsonStrings.LiteralComesBack | unigateway-core/src/conversion/tool_calls.rs:226-251 | a string written as a JSON literal is decoded to itself |
| JsonStrings.UnicodeComesBack | unigateway-core/src/conversion/tool_calls.rs:239-240 | every character may be written as a \u escape, or a pair of them, with digits of either case |
| JsonStrings.LettersTold | unigateway-core/src/conversion/tool_calls.rs:239-240 | what the escapes of one letter stand for |
| JsonStrings.LiteralEnds | unigateway-core/src/conversion/tool_calls.rs:239-240 | behind the closing quote of a literal there may be JSON blanks and nothing else |
| JsonStrings.ControlRefused | unigateway-core/src/conversion/tool_calls.rs:239-240 | a control character is no part of a literal |
| ToolCalls.MergeRedelivery | unigateway-core/src/conversion/tool_calls.rs:202-224 | the same fragment delivered twice changes nothing the second time |
| ToolCalls.MergeAppendsExactly | unigateway-core/src/conversion/tool_calls.rs:202-224 | merging is plain appending if and only if one text is empty, or the first does not start with the second and no end of the first starts the second; otherwise characters are dropped |
| ToolCalls.MergedIsSentIff | unigateway-core/src/conversion/tool_calls.rs:202-224 | all fragments merged are all fragments glued together if and only if no fragment repeats anything of what came before it; otherwise fewer characters |
| ToolCalls.RepeatedDigitIsLost | unigateway-core/src/conversion/tool_calls.rs:202-224 | two fragments whose merged text is plain and means another number |
| ToolCalls.SnapshotsMerge | unigateway-core/src/conversion/tool_calls.rs:202-224 | a chain of growing snapshots merges to the last one |
| ToolCalls.NormalizeArguments | unigateway-core/src/conversion/tool_calls.rs:226-251 | the repair loop ends and gives the settled text |
| ToolCalls.StripEmptyObjectPrefix | unigateway-core/src/conversion/tool_calls.rs:253-259 | the loop drops every leading empty object that has something behind it |
| ToolCalls.SettleShrinks | unigateway-core/src/conversion/tool_calls.rs:226-251 | plain text settles to itself, any other text to something shorter or to the previous text |
| ToolNames.RepairUndoes | unigateway-core/src/conversion/tool_calls.rs:226-259 | plain arguments that were printed as strings or put behind empty objects, however often and in whatever order, are restored |
| ToolNames.NothingStays | unigateway-core/src/conversion/tool_calls.rs:226-229 | nothing collected leaves the previous arguments |
| ToolNames.BrokenLiteralStays | unigateway-core/src/conversion/tool_calls.rs:238-247 | quoted text that is no JSON literal leaves the previous arguments |
| ToolCalls.PendingToolCalls.ApplyDeltaUpdate | unigateway-core/src/conversion/tool_calls.rs:43-110 | one delta changes the pending table and announces start and fragment as specified, other calls untouched |
| ToolCalls.PendingToolCalls.TakeIn | unigateway-core/src/conversion/tool_calls.rs:63-84 | id, name and merged arguments of the delta are taken into the pending call |
| ToolCalls.PendingToolCalls.HandOut | unigateway-core/src/conversion/tool_calls.rs:86-110 | the block starts once id and name are known, and only unsent characters go out |
| ToolCalls.PendingToolCalls.FlushStopUpdate | unigateway-core/src/conversion/tool_calls.rs:112-170 | the final flush starts a late block, sends the rest and stops, once |
| ToolCalls.ArgumentsSentOnce | unigateway-core/src/conversion/tool_calls.rs:43-170 | for every sequence of deltas and the flush: a start before any fragment, nothing after the stop, and the fragments glued together are the merged raw arguments if and only if those are plain, and shorter otherwise |
| ToolCalls.SentAsProvidedIff | unigateway-core/src/conversion/tool_calls.rs:43-224 | the arguments sent to the client are what the provider sent if and only if no fragment repeats anything and the whole is plain; otherwise characters are missing |
| ToolNames.AnnouncedByTheDeltas | unigateway-core/src/conversion/tool_calls.rs:63-170 | for every sequence of deltas and the flush: a call is announced unless neither id, name nor arguments are known of it, and then with the last id and the last name given in the first prefix of its deltas that has both, or, if none has, with the last ones of all, and substitutes for empty ones |
| AnthropicStream.AnthropicOpenAiStreamState.constructor | unigateway-protocol/src/responses/anthropic_stream.rs:35-50 | a new translator has sent nothing and has no block open |
| AnthropicStream.AnthropicOpenAiStreamState.EnsurePrelude | unigateway-protocol/src/responses/anthropic_stream.rs:237-276 | message_start and ping go out unless they already did |
| AnthropicStream.AnthropicOpenAiStreamState.CloseActiveContentBlock | unigateway-protocol/src/responses/anthropic_stream.rs:387-426 | the open block is stopped, after its signature if it is a thinking block |
| AnthropicStream.AnthropicOpenAiStreamState.EmitContentBlockStart | unigateway-protocol/src/responses/anthropic_stream.rs:292-335 | a block of the wanted kind is open afterwards, with a fresh index if it was not before |
| AnthropicStream.AnthropicOpenAiStreamState.EmitTextDelta | unigateway-protocol/src/responses/anthropic_stream.rs:337-360 | text goes to an open text block |
| AnthropicStream.AnthropicOpenAiStreamState.EmitThinkingDelta | unigateway-protocol/src/responses/anthropic_stream.rs:362-385 | thinking goes to an open thinking block |
| AnthropicStream.AnthropicOpenAiStreamState.EmitReasoningTextChunks | unigateway-protocol/src/responses/anthropic_stream.rs:508-531 | parsed chunks go out in order, thinking as text unless the policy shows it |
| AnthropicStream.AnthropicOpenAiStreamState.EmitOpenAiTextDelta | unigateway-protocol/src/responses/anthropic_stream.rs:485-495 | content goes through the reasoning parser if there is one |
| AnthropicStream.AnthropicOpenAiStreamState.FlushReasoningTextParser | unigateway-protocol/src/responses/anthropic_stream.rs:497-506 | what the parser holds back goes out |
| AnthropicStream.AnthropicOpenAiStreamState.ApplyOpenAiToolCallDelta | unigateway-protocol/src/responses/anthropic_stream.rs:533-587 | a tool-call delta becomes start and fragment events, the open text or thinking block being closed before a start |
| AnthropicStream.AnthropicOpenAiStreamState.ProcessOpenAiChunk | unigateway-protocol/src/responses/anthropic_stream.rs:428-483 | one chunk: finish reason, reasoning, content, tool calls, in this order |
| AnthropicStream.AnthropicOpenAiStreamState.FlushPendingToolCallStops | unigateway-protocol/src/responses/anthropic_stream.rs:589-652 | every pending call is flushed and stopped, in index order |
| AnthropicStream.AnthropicOpenAiStreamState.Drive | unigateway-protocol/src/responses/anthropic_stream.rs:60-203 | a stream that ends without an error sends exactly the events of `Translation` |
| AnthropicStreamTheorems.ToolOutGood | unigateway-protocol/src/responses/anthropic_stream.rs:533-587 | a tool-call delta keeps the stream within the grammar, adds at most one start and one fragment of this call and touches no other block |
| AnthropicStreamTheorems.ToolFlushedGood | unigateway-protocol/src/responses/anthropic_stream.rs:589-652 | flushing a call keeps the stream within the grammar, closes this block only and says no text or thinking |
| AnthropicStreamTheorems.ContentOutGood | unigateway-protocol/src/responses/anthropic_stream.rs:485-531 | content keeps the stream within the grammar and says exactly what the reasoning parser lets through |
| TranslationTheorems.ChunksRun | unigateway-protocol/src/responses/anthropic_stream.rs:60-133 | after any chunks the stream keeps the grammar, says exactly what the chunks tell, and every call's events are those of the call seen alone |
| TranslationTheorems.CutShortStreamIsSound | unigateway-protocol/src/responses/anthropic_stream.rs:60-133 | a stream cut short has broken no rule so far |
| TranslationTheorems.TranslationIsFaithful | unigateway-protocol/src/responses/anthropic_stream.rs:60-203 | for every chunk sequence, parser, policy and completion text: the event stream is accepted, its text and thinking are what chunks and fallback tell, and the block of every tool call carries the whole life of that call |
| TranslationFraming.TranslationIsIntroduced | unigateway-protocol/src/responses/anthropic_stream.rs:237-276 | every translation begins with message_start, the id made of the request's, the requested model and the role; and it uses as many indexes as there are text and thinking blocks, and calls |
| TranslationFraming.ChunkOrder | unigateway-protocol/src/responses/anthropic_stream.rs:428-483 | a chunk adds first its reasoning, then its content, then its tool calls |
| TranslationFraming.CallsCloseInOrder | unigateway-protocol/src/responses/anthropic_stream.rs:589-652 | the last blocks to be stopped are those of calls, in ascending order of the calls' upstream indexes |
| TranslationContent.NothingBegunIff | unigateway-protocol/src/responses/anthropic_stream.rs:135-146 | the translator has used no index, and takes the completion's text, if and only if the chunks mention no tool call, show no reasoning, and have no content that was let through |
| TranslationContent.ReasoningTold | unigateway-protocol/src/responses/anthropic_stream.rs:446-462 | a chunk's reasoning is its reasoning_content if that is there at all, and otherwise its thinking, strings only |
| TranslationContent.PlainTranslationSays | unigateway-protocol/src/responses/anthropic_stream.rs:135-146 | without a reasoning parser the client reads the upstream content glued together, or the completion's text if the chunks gave nothing, and with placeholder thinking the upstream reasoning |
| TranslationContent.ParsedTranslationSays | unigateway-protocol/src/responses/anthropic_stream.rs:485-531 | with a reasoning parser, for all chunks and completion texts: what the client reads is what the one-shot splitter makes of the content, followed by the completion's text if the chunks gave nothing, with separate reasoning around the thinking; without a complete tag it reads it all as text, but for blanks before an opened tag |
| TranslationFallback.FallbackDoublesIff | unigateway-protocol/src/responses/anthropic_stream.rs:135-153 | a completion's text that is the content over again leaves the client's text as it is if and only if the chunks gave something or had no content; otherwise the client reads more |
| TranslationFallback.UnclosedTagIsReadTwice | unigateway-protocol/src/responses/anthropic_stream.rs:135-153 | a content for which it does: a tag that is opened and not closed |
| TranslationCalls.ToolBlocksAreCalls | unigateway-protocol/src/responses/anthropic_stream.rs:533-652 | every tool block of a translated stream lies at the index of a tool call of the chunks, and the stop reason kept is the mapped last finish reason |
| TranslationCalls.CallsIffDeltas | unigateway-protocol/src/responses/anthropic_stream.rs:169-175 | there are pending calls exactly when a chunk mentions one |
| WellFormed.BegunAlways | unigateway-protocol/src/responses/aggregator.rs:59-119 | in every stream that keeps the readers' looser grammar, a block that was started began empty, and an open one began as what it is open as |
| WellFormed.AcceptedIsComplete | unigateway-protocol/src/responses/anthropic_stream.rs:60-203 | whatever the translator's grammar accepts the readers' grammar accepts |
| Aggregator.AnthropicStreamAggregator.PushEvent | unigateway-protocol/src/responses/aggregator.rs:36-242 | one event changes the message as specified, or is refused and changes nothing |
| Aggregator.AnthropicStreamAggregator.ApplyDelta | unigateway-protocol/src/responses/aggregator.rs:121-219 | a delta extends the block at its index, or replaces one of another kind, and no other block |
| Aggregator.AnthropicStreamAggregator.SnapshotMessage | unigateway-protocol/src/responses/aggregator.rs:257-321 | the loop lists the values of the blocks in index order, tool inputs parsed and missing ones empty, or fails with the first tool input that is no JSON |
| Aggregator.SnapshotFailsIff | unigateway-protocol/src/responses/aggregator.rs:257-321 | a snapshot fails exactly if some tool block holds text that is no JSON; otherwise it has the value of each block, in ascending order of the indexes |
| Aggregator.SnapshotTold | unigateway-protocol/src/responses/aggregator.rs:257-281 | a snapshot has the message's id, model and stop reason, and its role, assistant if none was given |
| Aggregator.ValueTold | unigateway-protocol/src/responses/aggregator.rs:284-320 | what the value of each kind of block holds |
| Aggregator.AggregatorRebuilds | unigateway-protocol/src/responses/aggregator.rs:36-242 | on every stream that keeps the looser grammar no event is refused, the keys are exactly the started indexes, each block holds what the events of its index describe, and the message is complete exactly after message_stop |
| Aggregator.HeadTold | unigateway-protocol/src/responses/aggregator.rs:44-60 | on every stream that keeps the looser grammar the message has the id, model and role of its message_start and the last stop reason given |
| Aggregator.RefusedBecause | unigateway-protocol/src/responses/aggregator.rs:61-128 | an event is refused exactly if a block starts or changes without index, block, type or delta, and for the first of these reasons |
| Aggregator.MisfitReplaces | unigateway-protocol/src/responses/aggregator.rs:129-219 | a delta that does not fit the block at its index, or finds none, puts a new block there |
| Aggregator.MessageTextIsTextSent | unigateway-protocol/src/responses/aggregator.rs:257-321 | text and thinking of the blocks in index order are text and thinking in the order they were sent |
| AggregatedTranslation.CallRebuilt | unigateway-protocol/src/responses/aggregator.rs:59-219 | the block of a tool call holds the announced id and name and all fragments, or is absent if the call never said anything |
| AggregatedTranslation.ClientRebuildsTheMessage | unigateway-protocol/src/responses/anthropic_stream.rs:60-203 | the aggregator accepts every translation and ends complete; text and thinking are what the chunks tell; it holds one tool block for each call of which id, name or arguments are known, at an index of its own, with the id and name that its deltas tell, and no other tool block; and the input of a block is what the provider sent if and only if no fragment repeats anything and the whole is plain |
| AggregatedTranslation.MessageIntroduced | unigateway-protocol/src/responses/anthropic_stream.rs:237-276 | the client's message has the id made of the request's, the requested model and the role of an assistant, and every signature is the placeholder |
| AggregatedTranslation.SnapshotSucceedsIff | unigateway-protocol/src/responses/aggregator.rs:257-321 | the client's snapshot of a translated stream succeeds if and only if the arguments it holds for every call are empty or JSON; it does if all are intact and the provider's are |
| OpenAiChat.OpenAiChatStreamAdapter.RoleIfNeeded | unigateway-protocol/src/responses/openai_chat.rs:94-104 | the role goes out unless it did before |
| OpenAiChat.OpenAiChatStreamAdapter.EmitAfterRole | unigateway-protocol/src/responses/openai_chat.rs:298-403 | a chunk goes out behind the role |
| OpenAiChat.OpenAiChatStreamAdapter.StartToolUse | unigateway-protocol/src/responses/openai_chat.rs:106-140 | a tool block gets the next OpenAI index and is announced with id and name |
| OpenAiChat.OpenAiChatStreamAdapter.ApplyDelta | unigateway-protocol/src/responses/openai_chat.rs:141-175 | text, thinking and arguments become chunks; empty arguments none |
| OpenAiChat.OpenAiChatStreamAdapter.ChunksFromEvent | unigateway-protocol/src/responses/openai_chat.rs:63-209 | one event changes the adapter and gives chunks as specified |
| OpenAiChat.OpenAiChatStreamAdapter.Drive | unigateway-protocol/src/responses/openai_chat.rs:63-209 | a whole event stream gives the chunks of `AdaptAll` |
| OpenAiChat.SpeechIsHeard | unigateway-protocol/src/responses/openai_chat.rs:298-365 | an OpenAI client holds exactly the text and thinking deltas sent, for any events |
| OpenAiChat.EnvelopedAlways | unigateway-protocol/src/responses/openai_chat.rs:79-205 | at every moment the role was sent first and once, every chunk names the model, and a finish reason was sent last and once exactly when the stream is over |
| OpenAiChat.FinishTold | unigateway-core/src/conversion/response.rs:10-17 | the finish reason for every stop reason and for none |
| OpenAiChat.NumberTold | unigateway-protocol/src/responses/openai_chat.rs:106-175 | which number tool input goes to, also for indexes that are unknown or missing, and under which index a tool use is entered |
| OpenAiChat.AgreedAlways | unigateway-protocol/src/responses/openai_chat.rs:106-175 | at every moment the adapter numbers the tool blocks densely in the order of their starts, and the client's calls are the aggregator's tool blocks |
| OpenAiChat.TwoObserversAgree | unigateway-protocol/src/responses/openai_chat.rs:63-209 | on every complete well-formed stream, the translator's or another, the OpenAI client holds the aggregator's text and thinking, its call j is the j-th tool block to start with the same id, name and input, there are no other tool blocks, and it gets one role and one finish reason, the mapped stop reason |
| ForeignBlocks.ForeignBlocksAgreeIff | unigateway-protocol/src/responses/openai_chat.rs:405-435 | on streams that are well formed but for blocks of unknown types, OpenAI client and aggregator agree on everything if and only if no such block gets tool input |
| ForeignBlocks.ForeignInputMisplaced | unigateway-protocol/src/responses/openai_chat.rs:405-435 | a stream on which the input of such a block becomes that of another call |
| Payloads.PayloadsAgreeIff | unigateway-protocol/src/responses/openai_chat.rs:106-140 | on streams that are well formed but for payloads and signatures at the start of blocks, OpenAI client and aggregator agree on everything if and only if no text, thinking or tool use starts with a payload |
| StreamRoundTrip.SpeechThereAndBack | unigateway-protocol/src/responses/openai_chat.rs:63-209 | OpenAI chunks sent through translator and adapter bring an OpenAI client one role, one finish reason, and the text and thinking that an Anthropic client would read, with or without a reasoning parser |
| StreamRoundTrip.CallsThereAndBack | unigateway-protocol/src/responses/openai_chat.rs:367-435 | the client's calls are in one-to-one correspondence with the upstream calls of which anything is known, numbered in the order their blocks were started, with the id and name that their deltas tell, and with the arguments the provider sent if and only if no fragment repeats anything and the whole is plain |
| StreamRoundTrip.FinishThereAndBack | unigateway-core/src/conversion/response.rs:10-17 | the last finish reason arrives in canonical form; without one the client is told whether the chunks mentioned tool calls |
| StreamRoundTrip.TranslatedReason | unigateway-protocol/src/responses/anthropic_stream.rs:169-175 | the stop reason in between is max_tokens if and only if the last non-empty finish reason is length, tool_use if and only if that is tool_calls, function_call or tool_use, or there is none and the chunks mention a tool call, and end_turn in all other cases |
| Sse.FindSseDelimiter | unigateway-core/src/protocol/mod.rs:194-215 | finds the first delimiter and its length, and none only if there is none |
| Sse.FoundStaysFound | unigateway-core/src/protocol/mod.rs:194-215 | a delimiter that is found stays the first one whatever bytes follow |
| Sse.CutConserves | unigateway-core/src/protocol/mod.rs:178-191 | frames, delimiters and leftover glued together are the input; every frame ends at the first delimiter and contains none, nor does the leftover |
| Sse.CutIsTheOnlyCut | unigateway-core/src/protocol/mod.rs:178-191 | there is no other way to cut like that |
| Sse.CutTwice | unigateway-core/src/protocol/mod.rs:178-191 | draining, then draining the leftover with more bytes, is draining it all |
| Sse.PacketsDoNotMatter | unigateway-core/src/protocol/anthropic/streaming.rs:85-95 | appending and draining packet by packet gives the frames and leftover of one drain of the whole, for every split |
| Sse.ParseSseFrame | unigateway-core/src/protocol/mod.rs:146-175 | one frame is read as specified |
| Sse.JoinedLines | unigateway-core/src/protocol/mod.rs:151-173 | lines glued with line feeds are read as these lines, if the last one is not empty |
| Sse.ReturnsTrimmed | unigateway-core/src/protocol/mod.rs:152 | all carriage returns at the end of a line are dropped |
| Sse.SseReader.DrainSseFrames | unigateway-core/src/protocol/mod.rs:178-191 | the drain loop gives the events of all finished frames and leaves exactly the leftover |
| Sse.SseReader.DriveChatStream | unigateway-core/src/protocol/openai/streaming.rs:119-158 | what is delivered depends on the bytes only, not on the packets: all events before the first that says done |
| Sse.DoneEnds | unigateway-core/src/protocol/openai/streaming.rs:200-260 | what is delivered are the first events, none of which says [DONE], and the next one says it, if there is one |
| Utf8.EncodeTellsApart | unigateway-core/src/protocol/mod.rs:147 | UTF-8 encodes different strings differently, so the decoding that the round trips assume exists |
| SsePrinting.PrintedIsParsed | unigateway-core/src/protocol/mod.rs:146-175 | a frame of comments, names and data behind any blanks, and any other lines, with either line end, is read as its last event name and its data lines joined |
| SsePrinting.PrintedComesBack | unigateway-core/src/protocol/mod.rs:146-215 | a printed stream of such messages comes back in order, nothing else and nothing left over, under every split |
| SsePrinting.EmittedEventsComeBack | unigateway-protocol/src/responses/anthropic_stream.rs:654-666 | every event the translator prints comes back exactly and in order under every split, as long as type and JSON stay on one line and begin with no blank |
| TokenBucket.TurnedAwayInDebt | unigateway-config/src/runtime.rs:32-53 | a call is turned away exactly when taking the token would leave more than half a second of debt |
| TokenBucket.BucketAlways | unigateway-config/src/runtime.rs:18-55 | in every run tokens, passed calls and wake times stay in balance with burst and supply |
| TokenBucket.Shaping | unigateway-config/src/runtime.rs:18-55 | tokens stay between minus half a second and the burst, callers go on in order, and by any time no more have gone on than burst and rate allow |
| TokenBucket.TokensAreTheTightestWindow | unigateway-config/src/runtime.rs:18-55 | the tokens are exactly the smallest of all windows, so no call is held up without need |
| RuntimeLimit.GatewayState.TakeToken | unigateway-config/src/runtime.rs:18-55 | the first section under the lock shapes the key's bucket, creating the key if need be |
| LimiterRuns.FirstCallPasses | unigateway-config/src/runtime.rs:18-55 | the first call of a key that is not known passes at once and leaves the larger of two seconds' tokens and one, less one |
| LimiterRuns.UnlimitedPasses | unigateway-config/src/runtime.rs:18-55 | without a rate limit every call passes, and a known key stays as it is |
| LimiterRuns.LimiterIsTheBucket | unigateway-config/src/runtime.rs:18-165 | in every run of sections on any keys, a key that is not known at the start has the bucket of `TokenBucket`, full at its first call, and its calls pass and wait accordingly |
| LimiterRuns.LimiterShapes | unigateway-config/src/runtime.rs:18-165 | so the limiter's tokens stay between minus half a second and the burst, its calls go on in order, and no more of them than burst and rate allow |
| RuntimeLimit.GatewayState.Enter | unigateway-config/src/runtime.rs:67-88 | the second section gives a slot, a place in the queue, or an error, and changes nothing else |
| LimiterRuns.AdmittedIff | unigateway-config/src/runtime.rs:67-88 | who gets a slot, a place among a hundred in the queue, or neither |
| RuntimeLimit.GatewayState.Resume | unigateway-config/src/runtime.rs:106-126 | a woken caller takes a slot and leaves the queue, or finds none |
| RuntimeLimit.GatewayState.ReleaseInflight | unigateway-config/src/runtime.rs:129-139 | a slot is given back, and somebody is to be notified exactly when the queue is not empty |
| RuntimeLimit.GatewayState.RemoveQueuedRequest | unigateway-config/src/runtime.rs:158-165 | a timed-out caller leaves the queue |
| QueueTheorems.SoundAlways | unigateway-config/src/runtime.rs:67-165 | in every interleaving the numbers match the callers, a permit is stored only while nobody is registered, and somebody will wake those who wait |
| QueueTheorems.AccountingIsExact | unigateway-config/src/runtime.rs:67-139 | in every interleaving inFlight counts the holders and is at most the limit, inQueue counts those who wait or are leaving and is at most 100, the key's state is never lost, and no decrement meets a zero |
| QueueTheorems.NoStrandedWaiter | unigateway-config/src/runtime.rs:67-139 | while anybody waits a slot is held, a waiter is awake, or a stored permit meets a waiter yet to register |
| QueueTheorems.QueueNumberStrandedIff | unigateway-config/src/runtime.rs:93-102 | said of the queue's number, this holds if and only if the queue is empty, a slot is held, or not all in the queue have timed out |
| QueueTheorems.QueueNumberStranded | unigateway-config/src/runtime.rs:93-102 | a run in which it fails |
| QueueTheorems.NobodyWaitsInVain | unigateway-config/src/runtime.rs:90-139 | from every reachable state with waiters the callers already there can bring one of them to a slot |
| Aimd.AdaptiveConcurrency.Acquire | unigateway-core/src/engine/aimd.rs:84-104 | a guard is given exactly below the effective limit, however often the exchange fails for no reason |
| Aimd.AdaptiveConcurrency.Release | unigateway-core/src/engine/aimd.rs:106-108 | one connection less, by a subtraction that wraps around at zero |
| Aimd.AdaptiveConcurrency.RecordSuccess | unigateway-core/src/engine/aimd.rs:110-142 | outside the cooldown the limit is raised, however often the exchange fails for no reason |
| Aimd.AdaptiveConcurrency.RecordSaturation | unigateway-core/src/engine/aimd.rs:144-169 | outside the cooldown limit and threshold are halved down to the minimum and the cooldown begins |
| Aimd.SaturationsHalve | unigateway-core/src/engine/aimd.rs:144-169 | k effective saturations leave exactly the larger of the minimum and the k-fold half |
| Aimd.HalvedIsFloor | unigateway-core/src/engine/aimd.rs:151-164 | halving k times with rounding is dividing by the k-th power of two once |
| Aimd.SuccessesAdd | unigateway-core/src/engine/aimd.rs:110-142 | n effective successes add exactly n up to the maximum, whatever the threshold |
| Aimd.SawTooth | unigateway-core/src/engine/aimd.rs:110-169 | saturations, then successes: the exact limit |
| Aimd.CooldownHolds | unigateway-core/src/engine/aimd.rs:110-169 | within the cooldown of an effective saturation nothing changes, whatever is signalled |
| Aimd.SignalsTold | unigateway-core/src/engine/aimd.rs:110-169 | what one signal does, within the cooldown and after it, below the threshold and above |
| Aimd.EdgesTold | unigateway-core/src/engine/aimd.rs:106-142 | where subtraction wraps around and addition stays, and how a limiter begins |
| AimdInterleaved.SoundAlways | unigateway-core/src/engine/aimd.rs:84-169 | under every interleaving of single accesses limit and threshold stay in range, active connections equal the guards held and stay within the maximum and within any hard limit all acquires pass |
| AimdInterleaved.ReleaseNeverWraps | unigateway-core/src/engine/aimd.rs:106-108 | the unchecked subtraction never wraps around |
| AimdInterleaved.LimitMovesByTheRules | unigateway-core/src/engine/aimd.rs:119-164 | even under races the limit only moves up by one or down to its half or the minimum |
| AimdInterleaved.UninterruptedIsWhole | unigateway-core/src/engine/aimd.rs:84-169 | a call that nothing interrupts does what the whole call does |
| Fallback.ExecuteWithFallback | unigateway-core/src/engine/execution/fallback.rs:114-327 | the loop with its early exits gives exit, reports and trace of the specification; the context unwrapped at the end is always there |
| Fallback.FinalizeFailure | unigateway-core/src/engine/mod.rs:235-260 | with attempts the request is finished with their reports and the error wrapped, without any the error is passed on silently |
| Fallback.FailureTold | unigateway-core/src/engine/mod.rs:235-260 | with reports the request is finished and the error wrapped, without any neither |
| FallbackTheorems.ProtocolBalances | unigateway-core/src/engine/execution/fallback.rs:117-300 | a trace that keeps to the protocol holds one guard at most, has one attempt under way at most, and finishes the request once |
| FallbackTheorems.FirstDecisionSettles | unigateway-core/src/engine/execution/fallback.rs:178-300 | the first candidate whose outcome is neither saturated nor retried settles exit, reports, signals to the limiter and trace |
| FallbackTheorems.NoDecisionExhausts | unigateway-core/src/engine/execution/fallback.rs:303-327 | without one, all that got a slot are reported as retried and the last error is returned, or saturation, or for the empty list that there was none |
| FallbackTheorems.EveryRun | unigateway-core/src/engine/execution/fallback.rs:114-327 | reports are an in-order selection of the candidates, all but the last retried; a streaming run hands over one guard and one unfinished attempt, any other run neither; the request is finished once with these reports unless all were skipped; AllEndpointsSaturated exactly when all were, NoAvailableEndpoint only for the empty list |
| FallbackTheorems.FallbackReachesTheFirstAnswer | unigateway-core/src/engine/reporting.rs:121-139 | under the fallback strategy ordinary errors never keep the loop from the first candidate that answers |
| RetryRules.ShouldRetryIff | unigateway-core/src/engine/reporting.rs:121-159 | which errors are retried: all but three under the fallback strategy; otherwise upstream statuses that are listed or in a listed range, time-outs if listed, and broken transports if listed |
| RetryRules.DecidesIff | unigateway-core/src/engine/reporting.rs:121-159 | a candidate is passed over exactly if it has no free slot, or fails before the last one with an error that is retried |
| RetryRules.FirstAnswerSettles | unigateway-core/src/engine/reporting.rs:121-159 | whatever the strategy, behind candidates without a slot and failures that are retried the first one that answers, or fails otherwise, settles the run |
| RetryRules.SaturationIff | unigateway-core/src/engine/reporting.rs:480-491 | overload is an upstream status of 429, 502, 503 or 504, a broken transport or an aborted stream, behind any number of wrapped attempts |
| RetryRules.SignalsTold | unigateway-core/src/engine/reporting.rs:480-491 | of which candidates the limiter is told overload, and of which success |
| FallbackTheorems.StreamIsFinished | unigateway-core/src/engine/reporting.rs:504-648 | the stream's task finishes the attempt, gives the guard back and finishes the request once with all reports |
| StreamDrain.ReportsAreComplete | unigateway-core/src/engine/reporting.rs:364-460 | in every interleaving nothing is reported before all chunks have been forwarded, and the report counts every chunk that was recorded |
| StreamDrain.CanReportIff | unigateway-core/src/engine/reporting.rs:450-460 | in every interleaving the report can still be made if and only if the reporter is not left waiting after the notification |
| StreamDrain.StrandedIff | unigateway-core/src/engine/reporting.rs:450-460 | that happens if and only if the flag is read before it is set and the notification is sent before the reporter has registered |
| StreamDrain.WakeUpIsLost | unigateway-core/src/engine/reporting.rs:450-460 | a run in which it does |
| Routing.ApplyRoutingFeedback | unigateway-core/src/routing.rs:257-296 | the partition loop and the two sorts give the specified order |
| Routing.StableSortSound | unigateway-core/src/routing.rs:306-321 | the sort is sorted by score, then id, keeps every endpoint and keeps ties in order |
| Routing.StableSortUnique | unigateway-core/src/routing.rs:306-321 | only one list does that, so the algorithm does not matter |
| Routing.FeedbackReorders | unigateway-core/src/routing.rs:257-321 | feedback yields a permutation of the enabled endpoints, those not suppressed first, either group sorted by score and id |
| Routing.FeedbackTold | unigateway-core/src/routing.rs:257-321 | of two endpoints the one that comes first is not excluded or cooling down unless the other is; and if both or neither is, it has the higher score, or the same and no later id |
| Routing.IdLessIff | unigateway-core/src/routing.rs:319 | ids are in alphabetical order |
| Routing.NoFeedback | unigateway-core/src/routing.rs:262-272 | without feedback the endpoints stay as they are |
| Routing.EnabledOnes | unigateway-core/src/routing.rs:249-255 | filtering keeps each enabled endpoint as often as it occurs, and no other |
| RoundRobin.RoundRobinCounters.OrderedEndpoints | unigateway-core/src/routing.rs:37-65 | the order for each strategy, the counter moved for the rotating one only, the empty list refused |
| RoundRobin.KeptTold | unigateway-core/src/routing.rs:63 | how many endpoints are left by truncation |
| RoundRobin.TurnServes | unigateway-core/src/routing.rs:55-60 | which endpoint the t-th call in a row serves at which position |
| RoundRobin.EachPositionOnce | unigateway-core/src/routing.rs:55-60 | in any n calls in a row every endpoint is at every position exactly once |
| RoundRobin.TruncationIsFair | unigateway-core/src/routing.rs:63 | cut to m, every endpoint is in exactly m of the n lists |
| RoundRobin.FirstChoicesAreFair | unigateway-core/src/routing.rs:55-60 | in a run of any length first-choice counts differ by one at most |
| RoundRobin.RoundIsFair | unigateway-core/src/routing.rs:55-63 | in the lists served by any n calls in a row, whatever counter was found, every endpoint is once at every position that truncation leaves |
| RoundRobin.ServiceIsFair | unigateway-core/src/routing.rs:55-63 | and it is in exactly as many of these lists as truncation leaves positions |
| RoundRobin.FirstsServedAreFair | unigateway-core/src/routing.rs:55-63 | in a run of any length, in how many of the lists served two endpoints come first differs by one at most |
| SessionStore.KeyComesBackIff | unigateway-session/src/store.rs:33-35 | a key is parsed back from its storage key if and only if its namespace has no separator |
| SessionStore.SharedStorageIff | unigateway-session/src/store.rs:33-35 | two keys have the same storage key if and only if they are equal, or the namespace of one goes on with a separator where that of the other ends and the session id makes up for it |
| SessionStore.NamespacesApartIff | unigateway-session/src/store.rs:33-35 | two namespaces share no storage key, whatever the session ids, if and only if neither begins with the other and a separator |
| SessionStore.StorageKeyComesBack | unigateway-session/src/store.rs:591-596 | a storage key is written back from the key it is parsed to |
| SessionStore.ParsedTold | unigateway-session/src/store.rs:591-596 | the first separator ends the namespace; without one it is the default namespace |
| SessionStore.NormalizedTold | unigateway-session/src/store.rs:157-162 | a missing message count is filled in and nothing else changed |
| SessionStore.BytesArePrinted | unigateway-session/src/store.rs:318-322 | the size of messages is the length of their JSON array as it is printed |
| SessionStore.PrefixRefusedIff | unigateway-session/src/store.rs:64-91 | a prefix is refused for too many messages, or else for too many bytes |
| SessionStore.ExpiredIff | unigateway-session/src/lifetime.rs:29-49 | when a session lapses, in times |
| SessionStore.MemorySessionStore.RemoveIfExpired | unigateway-session/src/store.rs:394-415 | an entry goes exactly when it has lapsed |
| SessionStore.MemorySessionStore.PublishKey | unigateway-session/src/store.rs:417-492 | the compare-and-swap on epochs as specified, the rest of the map untouched |
| SessionStore.MemorySessionStore.GetKey | unigateway-session/src/store.rs:494-516 | the stored prefix, refreshed if reads refresh, or nothing, or expired |
| SessionStore.MemorySessionStore.DeleteKey | unigateway-session/src/store.rs:518-524 | the key is gone, the others are not |
| SessionStore.MemorySessionStore.TouchKey | unigateway-session/src/store.rs:526-544 | refreshed, or not found, or expired |
| SessionStore.MemorySessionStore.ExpiredKeys | unigateway-session/src/store.rs:551-566 | the parsed keys are those of the lapsed entries, each once |
| SessionStore.MemorySessionStore.PurgeExpired | unigateway-session/src/store.rs:546-572 | exactly the lapsed entries go, and their number is returned, although keys are parsed and written again in between |
| SessionTheorems.EpochsOnlyRise | unigateway-session/src/store.rs:417-572 | between removals an epoch never falls and the prefix at an epoch never changes, even if the clock goes back |
| SessionTheorems.StoredFollowsPublish | unigateway-session/src/store.rs:441-482 | what is stored follows every live publish, and at its epoch is that very prefix |
| SessionTheorems.StoredWasPublished | unigateway-session/src/store.rs:441-482 | whatever is stored was stored by a live publish |
| SessionTheorems.PublishTold | unigateway-session/src/store.rs:417-492 | the answer to every publish, and what it stores |
| SessionTheorems.ReadTold | unigateway-session/src/store.rs:494-544 | the answer to every read and touch, and what it leaves |
| DeltaAssembly.DeltaAssemblyMiddleware.AssembleDelta | unigateway-session/src/middleware.rs:137-213 | store, result and request after an assembly, for every way it can end |
| DeltaAssembly.MergesIff | unigateway-session/src/middleware.rs:215-333 | a prefix is accepted exactly under the listed conditions on epoch, fingerprint, position and sizes, and then prefix and tail are sent |
| DeltaAssembly.RefusedBecause | unigateway-session/src/middleware.rs:215-333 | why a prefix is refused, in epochs, values and algorithms of fingerprints, positions and printed sizes, and which reason comes first |
| DeltaAssembly.MissTold | unigateway-session/src/middleware.rs:147-157 | without a live session nothing is assembled, and the request stays as it is |
| DeltaAssembly.AssemblyUsesThePublishedPrefix | unigateway-session/src/middleware.rs:137-213 | in any run of the store: exactly when assembly succeeds, and that it then sends the one prefix published at the client's epoch, followed by the tail |
| RedisStore.RedisSessionStore.PublishScript | unigateway-session-redis/src/store.rs:12-44 | the script's decision, the hash it leaves, and when Redis is to drop it |
| RedisStore.RedisSessionStore.RemoveIfExpired | unigateway-session-redis/src/store.rs:225-248 | what is read of a key that Redis has not dropped: nothing, a prefix, a corrupt record, or an expired one, which is deleted |
| RedisStore.RedisSessionStore.PublishKey | unigateway-session-redis/src/store.rs:258-340 | expired records go first, then the script's codes become results and errors |
| RedisStore.RedisSessionStore.GetKey | unigateway-session-redis/src/store.rs:342-362 | the decoded prefix, refreshed if reads refresh, or nothing, or expired, or a corrupt record |
| RedisStore.RedisSessionStore.DeleteKey | unigateway-session-redis/src/store.rs:364-374 | the hash is gone |
| RedisStore.RedisSessionStore.TouchKey | unigateway-session-redis/src/store.rs:376-396 | access time and time to live are refreshed, or the key is not found, or expired |
| RedisStore.CorruptTold | unigateway-session-redis/src/store.rs:152-200 | a corrupt record is reported by reading and publishing and taken for expired by touching, and stays as it is |
| RedisStore.DeadlineTold | unigateway-session-redis/src/store.rs:130-150 | when a key is due that is given a time to live, and what happens to the deadline without one |
| RedisStore.RedisSessionStore.PurgeExpired | unigateway-session-redis/src/store.rs:398-442 | in whatever order keys are scanned, exactly the expired records go and their number is returned, unless a record is corrupt |
| RedisAgreement.TruncatedIff | unigateway-session-redis/src/store.rs:445-453 | a limit on a time that was cut to whole seconds is over exactly if the limit on the time itself is, or the fraction that was cut off makes the difference; for times before 1970 the other way round |
| RedisAgreement.RedisLetsGoFirst | unigateway-session-redis/src/store.rs:225-248 | Redis never reads a session that has lapsed in memory: it is expired, or dropped |
| RedisAgreement.PublishAgreesIff | unigateway-session-redis/src/store.rs:258-340 | whatever the clocks show, publishing has the in-memory store's result and leaves the same contents if and only if none of the two has lost a session that the other still has, and Lua does not take the new epoch and a live session's different one for the same number |
| RedisAgreement.StepAgreesIff | unigateway-session-redis/src/store.rs:256-442 | every operation gets the expected reply and leaves the same contents if and only if it meets no session that one store still has and the other has not; the expected reply is the in-memory store's, but for "expired" of a session that Redis has dropped |
| RedisAgreement.RedisAgreesIff | unigateway-session-redis/src/store.rs:256-442 | below two to the 53rd, a run agrees throughout if and only if no operation of it does |
| RedisAgreement.RedisAgreesForever | unigateway-session-redis/src/store.rs:256-442 | without lifetimes every run agrees, whatever the clocks show |
| RedisAgreement.RepliesAreTheSame | unigateway-session-redis/src/store.rs:256-396 | without an idle lifetime, agreeing means that every reply is the same, expiry included |
| RedisAgreement.DeadlinesAlways | unigateway-session-redis/src/store.rs:130-150 | with clocks that run alike, in every run that is not contested Redis drops each session the whole seconds of the idle lifetime, at least one, after its last access |
| RedisAgreement.ContestedIff | unigateway-session/src/lifetime.rs:29-49 | then one store has a session that the other has not if and only if it has not lapsed in memory and the time since its creation exceeds the longest lifetime less a fraction of a second, or the time since its access the idle lifetime less such a fraction or less its own |
| RedisAgreement.LifetimeEndsEarly | unigateway-session-redis/src/store.rs:225-248 | a stale publish in memory that creates the session in Redis |
| RedisAgreement.IdleEndsEarly | unigateway-session-redis/src/store.rs:225-248 | a session that is read in memory and has expired in Redis |
| RedisAgreement.TimeToLiveEndsEarly | unigateway-session-redis/src/store.rs:130-150 | a session that is read in memory and that Redis has dropped |
| Conversion.SortAssistantBlocks | unigateway-core/src/conversion/messages.rs:77-116 | content, tool calls and thinking of an assistant message, in order, or the first error |
| ConversionForms.AssistantTold | unigateway-core/src/conversion/messages.rs:77-116 | an assistant's message becomes one message with its other blocks, its tool uses as calls and its thinking on lines of its own, or is refused exactly if a tool use has no id or no name |
| ConversionForms.UserTold | unigateway-core/src/conversion/messages.rs:117-143 | a message of anybody else keeps its role, and becomes messages that hold just its blocks in their order, a tool result each by itself and no two others in a row; or is refused exactly if a tool result has no id |
| Conversion.FlushUserBlocks | unigateway-core/src/conversion/messages.rs:237-246 | the buffer becomes one message unless it is empty, and is empty afterwards |
| Conversion.SplitUserBlocks | unigateway-core/src/conversion/messages.rs:126-143 | a user message is split at its tool results |
| Conversion.AnthropicMessagesToOpenAiMessages | unigateway-core/src/conversion/messages.rs:58-148 | the conversation in OpenAI's form, or the first error |
| Conversion.OpenAiMessagesToAnthropicMessages | unigateway-core/src/conversion/messages.rs:12-56 | the messages in Anthropic's form with the system prompt: a single system text as it is, several as blocks, the given one if there is none; or the first error |
| ConversionForms.SystemPromptTold | unigateway-core/src/conversion/messages.rs:22-55 | the system prompt is the one text that system messages hold, the list of all their texts if they hold several, and the given one, if any, if they hold none; the messages are those of the conversation without them |
| ConversionForms.ToolMessageTold | unigateway-core/src/conversion/messages.rs:178-186 | a tool message becomes one tool result said by the user, or is refused without an id |
| ConversionForms.ChatTold | unigateway-core/src/conversion/messages.rs:166-176 | a message keeps its role, and its text, or texts and images, come before its tool calls |
| ConversionForms.CallsTold | unigateway-core/src/conversion/blocks.rs:559-575 | tool calls become tool uses one by one, with substitutes for missing ids and names |
| ConversionForms.ArgumentsTold | unigateway-core/src/conversion/tool_calls.rs:172-200 | which arguments are read as they are, and which as the empty object |
| ConversionForms.DataUrlIff | unigateway-core/src/conversion/blocks.rs:501-527 | an image reference is a data URL exactly if it reads data:, a media type without a comma, ;base64, and data, neither of them empty |
| ConversionForms.ImageTold | unigateway-core/src/conversion/blocks.rs:456-499 | an image comes from its file id, else from its reference, else nowhere |
| ConversionTheorems.InputComesBackIff | unigateway-core/src/conversion/tool_calls.rs:172-200 | a tool input survives being printed as arguments and read again if and only if it is no string, or one that is no JSON and that the repair of arguments does not turn into JSON |
| ConversionTheorems.OpenedByRepair | unigateway-core/src/conversion/tool_calls.rs:180-200 | a string that is no JSON and comes back as a number |
| ConversionTheorems.SortedParts | unigateway-core/src/conversion/blocks.rs:243-297 | an assistant's texts and images come back before its tool uses, both in order, thinking and empty texts gone |
| ConversionTheorems.MappedIsReturned | unigateway-core/src/conversion/blocks.rs:418-454 | a block is accepted exactly if it is a text of either kind or an OpenAI image with a file id or a reference, and then it comes back as a text or an Anthropic image, an empty text as nothing |
| ConversionTheorems.UserBlocksSay | unigateway-core/src/conversion/messages.rs:117-143 | a user's texts, images and tool results come back in order whatever the splitting, OpenAI's kinds as Anthropic's, or not at all if a block that the code refuses is among them |
| ConversionTheorems.SurvivesIff | unigateway-core/src/conversion/blocks.rs:418-454 | a conversation survives the way there and back if and only if every block is one its role usually says |
| ConversionTheorems.ThereAndBackKeepsTheConversation | unigateway-core/src/conversion/messages.rs:12-148 | and then it comes back in its normal form: the same blocks in the same roles and order, but for thinking and empty texts, which go, OpenAI's texts and images, which become Anthropic's, texts and images, which move before the tool uses of their message, and tool inputs, which are read again; these are the same if and only if no assistant uses a tool with a string that reading opens |

## Left out

- HTTP transport, provider drivers, routes, Redis connections, TOML persistence and the SDK examples: plumbing without state of its own.
- JSON parsing and printing, except for string literals in tool arguments: an inverse pair of functions.
- Native Anthropic chunks inside a translated stream: they are passed through unchanged.
- Token usage, stop sequences and request ids in the streams: one lookup each.
- Streams that end in an upstream error or a closed channel, beyond `CutShortStreamIsSound`; frames whose data is not JSON.
- The adapter's reasoning text encoding and raw OpenAI chunks passed to it: the parser they use is `ReasoningText`.
- OpenAiChat.TwoObserversAgree: payloads at the start of blocks are in `Payloads`, blocks of unknown types, with nothing but unknown deltas and tool input, in `ForeignBlocks`; streams with both are in neither.
- ToolCalls.PendingToolCalls.HandOut: what was sent is counted in characters. The code counts bytes; when arguments that are not plain shrink, cutting a character there is not modelled.
- AggregatedTranslation.ClientRebuildsTheMessage: for streams on which no merge panics (`MergeBytes.CollectedIff`).
- FallbackTheorems.StreamIsFinished: for a stream's task that gets to report; when it does is in `StreamDrain`.
- SsePrinting.PrintedComesBack: for decoders that are right on encoded text; the replacement of invalid bytes is a parameter.
- TokenBucket.Shaping: real numbers instead of doubles, and the number of sleeping callers is not counted; a caller may give up sleeping at any time.
- QueueTheorems.AccountingIsExact: for a fixed limit above zero and callers that run to completion; with no limit nobody queues. A caller that is dropped while it waits is not modelled.
- Aimd.SawTooth: milliseconds do not overflow.
- Hook contents, latencies, request metadata and header forwarding in the retry loop; the backoff delay itself.
- RoundRobin.RoundRobinCounters.OrderedEndpoints: the shuffle is an input; scores that are not numbers are not modelled, and negative infinity counts as no score.
- Snapshot building and policy resolution around routing: lookups.
- SessionStore.MemorySessionStore.PublishKey: lifecycle events and the keys inside errors are not recorded; the lock is not poisoned.
- RedisStore.RedisSessionStore.PurgeExpired: that a scan may hand out a key twice is not modelled; the second time the record is gone or kept as before.
- RedisAgreement.RedisAgreesIff: both stores count what a purge removes, but the numbers are not compared. What one operation asks of Redis is taken to happen at one moment of its clock. The configured key prefix is constant and dropped. What Lua makes of an epoch is any monotone function that is exact below two to the 53rd.
- ConversionTheorems.ThereAndBackKeepsTheConversation: fields beyond those of the block types are dropped by the conversion and not modelled, and a text block without a text counts as an empty one.
