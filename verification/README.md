# pogu, verified models

pogu routes calls to language models. It accepts OpenAI Chat, OpenAI Responses and Anthropic Messages requests,
translates between the three protocols (whole requests, and streams event by event), tries the keys of one or
several targets until one answers, layers prompt rules into the request, and keeps accounts that a monitoring page
shows live. These modules model that behaviour in Dafny and prove what it keeps over every input, every run and every
interleaving.

| module | program part |
|---|---|
| `Basics`, `Text`, `Wire` | options, lists, trimming and decimal numbers, the decoded shape of the streams |
| `ChatToAnthropic`, `ChatToAnthropicProofs`, `ChatToAnthropicFields` | the Chat to Anthropic stream translator, and a reader of Anthropic streams that knows nothing of it |
| `AnthropicToChat`, `AnthropicToChatProofs`, `AnthropicToolProofs`, `AnthropicToChatFields` | the Anthropic to Chat stream translator |
| `ResponsesToChat`, `ResponsesToChatProofs`, `ResponsesEvents`, `ResponsesFields` | the Responses to Chat stream translator, and what happens upstream of it with its printed forms |
| `ChatReader`, `ChatUnits` | a reader of Chat streams, and what Chat frames say |
| `StreamRoundTrip`, `StreamNormalForm` | Anthropic to Chat to Anthropic |
| `Pipeline`, `PipelineProofs`, `PipelineFields` | Responses to Chat to Anthropic, as the inlet proxy composes them |
| `Sse`, `SseForms` | the incremental event-stream parser, printing of frames, the pass-through proxy loop |
| `Monitor`, `MonitorSystem` | the monitor hub, the client's feed, and both under interleaved requests and subscribers |
| `PromptRules` | the rule cache, rule resolution, reordering |
| `Prompts`, `PromptFields` | prompt injection and layering |
| `Routing`, `RoutingProofs` | round-robin cursors, eligible keys, group targets |
| `Gateway`, `GatewayProofs` | the failover loop with its telemetry |
| `Translate`, `TranslateProofs`, `TranslateResponses`, `TranslateFields` | request translation |
| `JsonCodec` | a JSON library that meets the law the request theorems ask of one |
| `Monitoring` | totals and time series |
| `Import`, `ImportFields` | batch import of provider keys |

## How the models are built

A translator, hub or recorder that updates fields is a class with those fields. Each of its methods is proved equal to
a step of a pure specification, and the properties are proved about runs of that specification. Where a stream's
meaning matters, an independent reader is defined first (`ChatToAnthropicProofs.ReadFrame`, `ChatReader.ReadFrame`);
it accepts exactly the well-formed streams and yields the message a client would assemble, and the theorems say what
it yields for the stream the translator writes. Threads are interleaved steps, one step per critical section or I/O.

The specifications are themselves tied to the data they are about: the modules named `Fields`, `Events`, `Forms` and some
of the `Proofs` say what comes out in terms of the fields, statuses, characters and counts that go in, without naming
the decoding and classifying functions that the translators and their specifications share.

Inputs that the program takes from elsewhere are parameters: the supply of random ids, the JSON library (reading what
was written gives the value back; `JsonCodec.LawfulCodecExists` shows that this can be met), the fingerprint of a
secret, what an upstream does with each attempt and what the clock reads, and the answer of a stream callback.

## Where the code and its descriptions differ

The models follow the code.

- Failover statuses are 401, 402, 403 and 429; the repository's own README omits 402.
- The event-stream parser delivers a pending event at the end of input and treats only a line feed as a line end,
  unlike sections 9.2.5 and 9.2.6 of the WHATWG HTML Living Standard.
- An argument fragment for an earlier tool can be addressed to a block that is already closed. `StreamReads` gives
  the exact condition under which this does not happen.
- A stream of which no chunk decodes has no `message_start`, so a client rejects it; it does so exactly then.
- When several targets were planned and no key's secret was readable, the client is answered 503 while 502 is
  recorded (`OwnStatusIsRecorded`, `UnreadableKeysDisagree`).
- A rule load that fails is cached all the same (`FailedLoadIsCached`).
- When the upstream connection breaks, an Anthropic client of a Responses upstream gets no end of the message
  (`BrokenIsLeftOpen`).
- An argument fragment that comes before any tool start takes tool index 0 without a name (`OrphanTakesIndex`).
- In a body passed through to Responses, the legacy `max_tokens` wins over `max_completion_tokens`, the other way round
  than in a translated one (`BudgetTaken`).
- An empty tool result returns from Anthropic as the two quotes of an empty JSON string (`RoundTrip`).
- Tool calls of user messages are lost on the way to Responses, though their results are kept (`UserCallIsLost`).
- A generated key name turns negative when its number passes the largest integer (`NameOverflows`), and starts below a
  stored one whose number does not fit an integer (`LargeNumberIsPassedOver`).

## Model

| member | source | states |
|---|---|---|
| ChatToAnthropic.ChatToAnthropicTranslator.TextFrames | internal/provider/stream_anthropic.go:389-407 | a text fragment joins the open text block, or closes what is open and opens one; the emitted frames and the new state are those of the specification's unit step |
| ChatToAnthropic.ChatToAnthropicTranslator.ThinkingFrames | internal/provider/stream_anthropic.go:409-434 | the same for thinking blocks |
| ChatToAnthropic.ChatToAnthropicTranslator.ToolFrames | internal/provider/stream_anthropic.go:436-470 | a tool index seen first opens a block, with a drawn id when it has none; later fragments go to that index's block, open or not |
| ChatToAnthropic.ChatToAnthropicTranslator.FeedChunk | internal/provider/stream_anthropic.go:317-364 | one chunk: start once, content, reasoning and tool fragments in this order, then the close when it carries a finish reason; nothing after the end or for an undecodable chunk |
| ChatToAnthropic.ChatToAnthropicTranslator.FinishStream | internal/provider/stream_anthropic.go:366-372 | closes a started, unfinished stream exactly once; emits nothing otherwise |
| ChatToAnthropicProofs.StreamReads | internal/provider/stream_anthropic.go:317-484 | for every run ended by Finish: the independent reader accepts the frames exactly when some chunk decoded (one message_start first, blocks numbered from 0, one open at a time, each stopped once, one message_delta, one message_stop, nothing after) and reads the message the chunks describe; the strict reader, which wants every fragment in the open block, accepts exactly if besides no tool fragment goes back |
| ChatToAnthropicProofs.UnitsRead | internal/provider/stream_anthropic.go:389-470 | the same, before the close, for every sequence of text, thinking and tool fragments |
| ChatToAnthropicProofs.GoesBackIsGoesBackAt | internal/provider/stream_anthropic.go:436-469 | a fragment misses the open block exactly if its tool was called before and another block was opened since |
| ChatToAnthropicProofs.StreamConserves | internal/provider/stream_anthropic.go:343-363 | whatever the interleaving: text blocks concatenate to the content, thinking blocks to the reasoning; the tool map is injective, has an entry for each tool called and no other, and under it stands that tool's id, name and all its argument fragments |
| ChatToAnthropicProofs.StreamDraws | internal/provider/stream_anthropic.go:436-470 | the tools whose first fragment has no id, counted in order of introduction, have "call_" and the successive drawn ids in their blocks; no other tool draws one |
| ChatToAnthropicProofs.DraftConserves | internal/provider/stream_anthropic.go:389-470 | each tool index owns exactly one block, holding its fragments in order, at every point of every run |
| ChatToAnthropicFields.FieldsTell | internal/provider/stream_anthropic.go:317-484 | for every input, told from the chunks' fields: no delta sent is empty, and the client reads one message with the blocks that content, reasoning and tool fragments open in this order within a chunk, no text or thinking block empty; its text is the content fields, its thinking the reasoning fields, each tool's block has that tool's name, id and arguments; it has the id, the model, and the stop reason and output count of the chunk that finishes it; a stream in which no chunk counts is no message |
| AnthropicToChat.AnthropicToChatTranslator.BlockStarted | internal/provider/stream_anthropic.go:89-114 | a tool block gets its tool index, the next free one or the one it has, and its chunk carries index, id and name |
| AnthropicToChat.AnthropicToChatTranslator.JsonReceived | internal/provider/stream_anthropic.go:125-153 | an argument fragment is sent under its block's tool index, or announces a tool when none was |
| AnthropicToChat.AnthropicToChatTranslator.FeedEvent | internal/provider/stream_anthropic.go:62-186 | one event: its frames and the new state are those of the specification's action |
| AnthropicToChat.AnthropicToChatTranslator.TerminalFrames | internal/provider/stream_anthropic.go:195-206 | one final chunk and one [DONE], once |
| AnthropicToChat.AnthropicToChatTranslator.FinishStream | internal/provider/stream_anthropic.go:188-193 | terminates a stream that has not ended, and nothing else |
| AnthropicToChatProofs.StreamIsOneReply | internal/provider/stream_anthropic.go:62-214 | for every event sequence ended by Finish: exactly one finish reason, exactly one [DONE], which is last, and the role exactly once, on the first delta, if there is any; which reason is determined by the events |
| AnthropicToChatProofs.StartGetsItsPlace | internal/provider/stream_anthropic.go:89-114 | tool blocks announced by a start get indices 0, 1, 2, ... in order of first announcement; a block announced again keeps its index, and later ones change none |
| AnthropicToChatProofs.TextSurvives | internal/provider/stream_anthropic.go:62-214 | the content of the Chat stream is the text of the Anthropic stream, plus the error text when an error ends it |
| AnthropicToChatFields.FieldsTell | internal/provider/stream_anthropic.go:62-246 | for every event sequence, told from the events' fields: the content is the text of the text deltas up to the event that ends the stream, with the error's text; the finish reason is that of the stop reason, else whether a tool was started; the role is there exactly if anything is said; the last chunk has the model, the input tokens of the message start, the output tokens of the message delta and their sum; every chunk has the id |
| AnthropicToChatFields.ErrorEndsReply | internal/provider/stream_anthropic.go:169-182 | an event of type error, by its payload or by its name, ends the reply at once: the text so far, "[Error] " and its message, or the raw data without one, finish reason stop, and nothing after it |
| AnthropicToChatFields.AsksFor | internal/provider/stream_anthropic.go:62-186 | which fields of an event ask for each action, both ways |
| AnthropicToChatFields.Details | internal/provider/stream_anthropic.go:62-186 | with which details; a missing block index is -1 |
| AnthropicToolProofs.ToolsSurvive | internal/provider/stream_anthropic.go:89-153 | for every event sequence and every tool index: its argument text in the Chat stream is exactly that of the fragments attributed to it, and it is introduced by the start that announced it, with its name and, if it has one, its id; only index 0 is introduced by a fragment instead, without a name, exactly if one came before any start; no other index is introduced |
| AnthropicToolProofs.DrawnInOrder | internal/provider/stream_anthropic.go:89-153 | whatever came before, a start without an id and a fragment before any start are announced under "call_" and the next drawn id; nothing else draws one |
| AnthropicToolProofs.OrphanTakesIndex | internal/provider/stream_anthropic.go:125-153 | the case exists: a fragment that comes too early takes index 0 without a name, and the start after it announces index 0 again |
| ResponsesToChat.ResponsesToChatTranslator.ItemAdded | internal/provider/stream_responses.go:99-127 | an added function call is announced under the item's index, the next free one or the one it has |
| ResponsesToChat.ResponsesToChatTranslator.ArgumentsReceived | internal/provider/stream_responses.go:128-144 | an argument fragment is sent under its item's index, or the latest one's, and marks it |
| ResponsesToChat.ResponsesToChatTranslator.ItemDone | internal/provider/stream_responses.go:145-172 | a finished item's arguments are sent only if none were sent for its index |
| ResponsesToChat.ResponsesToChatTranslator.FeedEvent | internal/provider/stream_responses.go:76-204 | one event: its frames and the new state are those of the specification's action |
| ResponsesToChat.ResponsesToChatTranslator.FinishStream | internal/provider/stream_responses.go:206-221 | terminates a stream that has not ended, and nothing else |
| ResponsesToChatProofs.StreamIsOneReply | internal/provider/stream_responses.go:76-229 | for every event sequence ended by Finish: exactly one finish reason, one [DONE], last, and the role once, on the first delta, if there is any |
| ResponsesToChatProofs.ItemGetsItsPlace | internal/provider/stream_responses.go:99-127 | items announced get indices 0, 1, 2, ... in order of first announcement, and carry their call id or, without one, "call_" and the next drawn id |
| ResponsesToChatProofs.RunKeeps | internal/provider/stream_responses.go:76-204 | for every event sequence: content and reasoning of the Chat stream, and the argument text under each tool index, are exactly what the events carry |
| ResponsesToChatProofs.ItemArguments | internal/provider/stream_responses.go:128-172 | in a run whose argument events all name announced items, for each item whose deltas precede its finished form: the fragments concatenate to the arguments, from the deltas if there were any and else from the finished item, never from both |
| ResponsesEvents.DecodePrint | internal/provider/stream_responses.go:32-204 | whatever happens upstream, printed as an event under any of its names and with any other fields, is decoded as that: texts, reasons, announced items, argument fragments, finished items with arguments as a text or another value, completions with counts under either pair of names, failures |
| ResponsesEvents.EveryEvent | internal/provider/stream_responses.go:32-204 | every event is the print of some happening, so nothing is left out |
| ResponsesFields.HappeningsTell | internal/provider/stream_responses.go:76-272 | for every sequence of happenings: the reply's content is the texts, with the error's, its reasoning the reasons; finish reason, role and ids; the last chunk has the model, the input and output counts under their own names and their sum |
| StreamRoundTrip.DecodeEncode | internal/provider/stream_anthropic.go:62-186 | decoding the event of a well-formed frame gives the translator's action for it, for every frame and empty fragment |
| StreamRoundTrip.RoundTrip | internal/provider/stream_anthropic.go:62-272 | any well-formed Anthropic stream, with any pings and other ignored events between its frames, fed through both translators comes back as its normal form: blocks renumbered from 0, tool ids, names and fragments and the output token count unchanged, the stop reason as far as Chat can express it |
| StreamRoundTrip.ActiveRuns | internal/provider/stream_anthropic.go:62-186 | events the translator passes over change neither its state nor what it sends, wherever they stand |
| StreamRoundTrip.PingIsIgnored | internal/provider/stream_anthropic.go:66-158 | pings and data that do not decode are among them |
| StreamRoundTrip.StopSurvives | internal/provider/stream_anthropic.go:248-272 | the stop reason comes back unchanged exactly for end_turn, max_tokens, tool_use and refusal |
| StreamNormalForm.NormalizeIsNormal | internal/provider/stream_anthropic.go:389-470 | a normal form has no thinking, no empty fragment, no empty text block and no two text blocks in a row, and streams with these properties are exactly the ones a round trip leaves alone |
| StreamNormalForm.NormalizeSays | internal/provider/stream_anthropic.go:389-470 | the normal form has the text and the tool calls of the stream, in order |
| Pipeline.ProxyResponsesInletStream | internal/provider/proxy_responses.go:93-124 | the loop over upstream events, driving both translators frame by frame: a client that takes so many frames and then goes away gets exactly the composition of the two specifications up to there; only a response read to its end, or the [DONE] marker, finishes the stream; the outcome tells a refused write, a broken read and a cancellation apart |
| PipelineProofs.InletReads | internal/provider/proxy_responses.go:93-124 | for every Responses event sequence and every way its reads can end: what the client's reader has in the end. It holds a message exactly if some live event spoke or ended the stream, complete exactly if besides the stream was finished, else broken off in the middle; its content is the upstream text (with the error text if an error ends it), the reasoning, the stop reason and the output count; and, in a run whose argument events all name announced items, each item whose deltas precede its finished form has one tool block with its name, its call id and its arguments, from deltas or finished item but never both |
| PipelineFields.HappeningsRead | internal/provider/proxy_responses.go:93-124 | the same over happenings, for every sequence of them and every way the reads can end: message or none, complete or broken off; id, model, text, reasoning, stop reason and output count; and for each item a block of its own with its name, its call id and its arguments |
| PipelineProofs.AcceptedExactly | internal/provider/proxy_responses.go:98-124 | the client gets a complete message exactly if a live event spoke or ended the stream and, besides, the response was read to its end, or the [DONE] marker came, or a live event ended it |
| PipelineProofs.BrokenIsLeftOpen | internal/provider/proxy_responses.go:118-120 | the second condition is needed: one text delta and a broken connection leave the client in the middle of its message, with the text and no end |
| PipelineProofs.RunSends | internal/provider/stream_responses.go:76-204 | a Chat chunk reaches the second translator exactly if some live event speaks or ends the stream |
| PipelineProofs.RunIntroduces | internal/provider/stream_responses.go:99-127 | in a run whose argument events all name announced items: the first call under an item's index carries the name and, if it has one, the call id of the event that announced the item, and no index is called that no item was announced for |
| PipelineProofs.RunOutput | internal/provider/stream_responses.go:76-229 | the output count of the Chat chunks is the one of the completing event, if one ended the stream |
| Sse.HandleLine | internal/provider/sse.go:16-58 | one line: a blank line dispatches and resets, comments and lines without colon are skipped, event and data fields are collected |
| Sse.ScanSSE | internal/provider/sse.go:12-71 | for every split of the bytes into reads: the callback sees the events of the whole input, up to and including the first it refuses, and the scan ends as the input does |
| Sse.SplitAppend | internal/provider/sse.go:26-40 | splitting piece by piece, carrying the rest over, is splitting the whole |
| Sse.UnlinesSplit | internal/provider/sse.go:34-40 | every input is its lines followed by its rest, and neither holds a line feed |
| Sse.SplitUnlines | internal/provider/sse.go:34-40 | lines put together split into the same lines and the same rest |
| Sse.PrintParse | internal/provider/stream_anthropic.go:374-377 | parsing any sequence of printed frames, however it is cut into reads, returns exactly the names and payloads printed |
| SseForms.FormsMean | internal/provider/sse.go:12-71 | parsing any stream of comments, lines without colon, unknown fields, names and data lines, with or without a space after the colon or a carriage return at the end, gives the events it means: data joined by line feeds, the latest name, nothing without data; a group left open counts only at the end of the input |
| SseForms.ScanEnds | internal/provider/sse.go:27-69 | the scan ends as its input does, unless an event was refused |
| Sse.ProxyStream | internal/provider/client.go:180-233 | the client gets the reads as they came, up to the first it does not take; the usage collector sees the data lines of the whole input up to and including that read, whatever the split into reads; the outcome tells a refused write, a broken read and a cancellation apart |
| SseForms.DataShown | internal/provider/client.go:199-210 | a data line shows the collector its trimmed value, unless that is empty or the marker |
| SseForms.OnlyDataShown | internal/provider/client.go:199-210 | and no other line shows it anything |
| Monitor.MonitorHub.Subscribe | internal/httpapi/monitor_hub.go:59-70 | a new open channel, subscribed, and the active requests of that moment |
| Monitor.MonitorHub.Unsubscribe | internal/httpapi/monitor_hub.go:72-79 | a channel still subscribed is removed and closed, one that is not is left as it is; it is closed afterwards in either case |
| Monitor.MonitorHub.Publish | internal/httpapi/monitor_hub.go:81-95 | every subscriber with room gets the event, every other one is removed and closed, in whatever order they are visited; no send hits a closed channel and none is closed twice |
| Monitor.PublishedTo | internal/httpapi/monitor_hub.go:50-95 | a subscriber with fewer than 256 events waiting gets the event at the end of its queue and stays; any other is closed with the queue it had; nobody else is touched |
| Monitor.MonitorHub.Register | internal/httpapi/monitor_hub.go:105-113 | a started request is active |
| Monitor.MonitorHub.Remove | internal/httpapi/monitor_hub.go:145-153 | a finished one no longer is |
| Monitor.FeedStore.OnHello | ui/src/lib/monitor.svelte.ts:268-281 | the feed is the snapshot's requests followed by the recent records |
| Monitor.FeedStore.OnStarted | ui/src/lib/monitor.svelte.ts:282-292 | a request already shown is left alone, a new one goes first |
| Monitor.FeedStore.OnStreaming | ui/src/lib/monitor.svelte.ts:312-327 | an active entry becomes streaming, others stay |
| Monitor.FeedStore.OnFinished | ui/src/lib/monitor.svelte.ts:328-351 | the finished entry goes behind the active ones, in place or newly made |
| Monitor.StartedReduces | ui/src/lib/monitor.svelte.ts:282-292 | a start makes exactly its request shown, and active only if it was not shown before; the order of the feed is kept |
| Monitor.FinishedReduces | ui/src/lib/monitor.svelte.ts:328-351 | a finish makes exactly its request shown and not active, and no other entry changes; the order of the feed is kept |
| Monitor.HelloShows | ui/src/lib/monitor.svelte.ts:268-281 | a greeted client shows as active exactly the snapshot's requests |
| Monitor.StartedEntry | ui/src/lib/monitor.svelte.ts:282-327 | a started request that was not shown comes first; of a streaming one only the first entry changes, and only if it was active |
| Monitor.FinishedEntry | ui/src/lib/monitor.svelte.ts:328-351 | a finished request has an entry that says cancelled, failed (an error or a status from 400 on) or completed, and there is one entry more exactly if it had none |
| Monitor.HelloEntries | ui/src/lib/monitor.svelte.ts:268-281 | the feed of a greeted client, entry by entry |
| MonitorSystem.StepKeeps | internal/httpapi/monitor_hub.go:59-153 | every step of a request thread or a subscriber keeps the system invariant: a channel is subscribed exactly while open, and draining a client's queue will show each request as its phase demands |
| MonitorSystem.RunKeeps | internal/httpapi/monitor_hub.go:59-153 | so the invariant holds in every interleaving, over whatever records earlier servers stored |
| MonitorSystem.Agreement | internal/httpapi/monitoring.go:137-147 | in every interleaving, over whatever records earlier servers stored: channels are subscribed exactly while open, and a subscribed client whose queue is drained shows a request as active exactly if the hub does, for every request not between registration and its start event or between its finish and its finish event, in spite of a snapshot that races with events |
| MonitorSystem.StoredMayDisagree | internal/httpapi/monitoring.go:137-147 | the condition is needed: a run in which a request stored as finished between subscription and hello is active for the hub and finished for the client |
| PromptRules.LoadPromptRules | internal/service/promptrules.go:405-460 | the loaded rules are the rule rows with, for each, exactly the targets its rows claim; rows of unknown rules are skipped |
| PromptFields.LoadedClaims | internal/service/promptrules.go:405-460 | a loaded rule claims a target exactly if some target row of its id names it |
| PromptRules.CombineIsExclusive | internal/service/promptrules.go:405-460 | with unique rule ids and one row per target no two rules claim the same target, also when rules and targets were read at different times or only some target rows were |
| PromptRules.CachedIsExclusive | internal/service/promptrules.go:385-467 | in every interleaving over tables that keep their keys, what is cached, by a load across two versions or by one that failed, has exclusive claims, as rule resolution needs |
| PromptRules.ResolvePromptRules | internal/service/promptrules.go:472-503 | the segments are those of the enabled rules that claim the model or the group, in position order; the base prompt is suppressed exactly if the model's rule, or without one the group's, does not inherit |
| PromptFields.SegmentsPicked | internal/service/promptrules.go:472-503 | the segments are exactly the enabled rules that claim the model or the group, in order, with their ids, names and texts |
| PromptFields.SuppressedBy | internal/service/promptrules.go:472-503 | the enabled rule of the model, or without one that of the group, decides by whether it inherits; without either nothing is suppressed |
| PromptRules.ReorderPromptRules | internal/service/promptrules.go:341-376 | an order is accepted exactly if it names every rule once; then the same rows stand in that order |
| PromptRules.EveryRuleByCount | internal/service/promptrules.go:346-360 | a list of distinct known ids names every rule exactly if it is as long as the rule list |
| PromptRules.StepKeeps | internal/service/promptrules.go:385-467 | every commit, invalidation, lock, query and failure keeps the cache invariant |
| PromptRules.Coherence | internal/service/promptrules.go:385-467 | in every interleaving a cache filled by a successful load differs from the tables only while some committed mutation has not invalidated it yet |
| PromptRules.ReadYourWrites | internal/service/promptrules.go:385-467 | once a mutation has returned, rules cached at any later time come from its version of each table or a later one |
| PromptRules.FailedLoadIsCached | internal/service/promptrules.go:405-413 | a failed load breaks both: rules in the table, nothing pending, none in the cache, and no load before the next mutation |
| PromptRules.RuleCache.Snapshot | internal/service/promptrules.go:385-460 | as one thread runs it: a hit returns what is cached; a miss loads the tables, nothing if the first query fails and only the targets read so far if the second does, and the next call hits |
| PromptRules.RuleCache.Invalidate | internal/service/promptrules.go:462-467 | the next snapshot loads |
| Prompts.InjectChatPromptLabeled | internal/provider/prompts.go:36-65 | a blank prompt changes nothing; another becomes a system message right after the last one, or the first message |
| Prompts.InjectAnthropicPromptLabeled | internal/provider/prompts.go:76-103 | the prompt ends the system field, keeping its string or block shape; a foreign shape is left alone |
| Prompts.SystemEndUnique | internal/provider/prompts.go:49-54 | the scan finds the only place behind all system messages |
| Prompts.InjectPromptSegments | internal/httpapi/gateway.go:292-316 | injecting base prompt, rules and style prompt one after the other is layering all non-blank ones at once; the native body is layered for Anthropic clients only |
| Prompts.LayeringIsOneBlock | internal/provider/prompts.go:36-65 | the layers are one contiguous block of system messages in order, deleting it gives back the client's messages, and no system message follows it |
| Prompts.LayeredSnoc | internal/httpapi/gateway.go:292-316 | one more injection is one more layer, on both body shapes |
| PromptFields.LayerOrder | internal/httpapi/gateway.go:292-316 | the base prompt first unless suppressed, then the rules in order, the style prompt last |
| PromptFields.EntriesPicked | internal/provider/prompts.go:36-65 | the messages put in are of role system, one for each layer with words in it, with the header that names its title and the text without line feeds at its ends |
| PromptFields.TextsPicked | internal/provider/prompts.go:76-103 | the same words, in the same order, go into a system field |
| PromptFields.SystemGrows | internal/provider/prompts.go:85-97 | one more text makes a missing field that text, a text the text with a rule between, a list a longer one; a foreign field stays |
| PromptFields.BlockPlace | internal/provider/prompts.go:49-59 | the messages go right behind the last one of role system, in front without one |
| PromptFields.OnlyThere | internal/provider/prompts.go:36-103 | layering a body changes nothing but its messages, or for Anthropic its system field |
| Routing.RouterState.NextRoundRobinCursor | internal/service/service.go:66-79 | the cursor's remainder is drawn and the cursor moves on, wrapping at 64 bits; with at most one choice nothing moves |
| Routing.CursorKeyInjective | internal/service/service.go:75 | the text key of a cursor identifies domain and id: two lists never share one |
| Routing.CursorCounts | internal/service/service.go:66-79 | a list's cursor counts the draws for that list and no others |
| Routing.RotationIsCyclic | internal/service/groups.go:368-375 | a rotation keeps every element as often as it was, starts at the drawn place and keeps each successor around the circle |
| Routing.HeadsCycle | internal/service/service.go:66-79 | the heads drawn for one list run around the circle from where its cursor stands, whatever is drawn for others in between |
| Routing.CycleAt | internal/service/service.go:66-79 | the j-th head of such a circle is the remainder of start plus j |
| Routing.Fair | internal/service/service.go:66-79 | in any run with m draws of one list of fixed size n, each element heads it floor(m/n) or ceil(m/n) times, unless the cursor wraps at a width n does not divide |
| Routing.RouterState.EligibleKeys | internal/service/provider_keys.go:236-263 | the enabled keys, in order; for a round-robin provider with more than one the i-th key returned is the one at cursor plus i, around the end, with the cursor as it stood, which moves by one and wraps at 64 bits; other cursors stay |
| Routing.EnabledInOrder | internal/service/provider_keys.go:245-250 | the enabled keys are exactly those with the mark set, in the provider's order |
| Routing.RouterState.ResolveGroupTargets | internal/service/groups.go:323-377 | one target for each enabled member with a known route and an enabled key, in position order, its keys given as for the provider alone with the cursors as they stood then; for a round-robin group with more than one the i-th target is the one at the group's cursor plus i; an error exactly if there is none |
| RoutingProofs.AnswersAreFair | internal/service/groups.go:323-377 | in any run of calls for keys and for targets: a list that keeps its n elements, a round-robin provider's enabled keys or a round-robin group's usable routes, has each of them first in floor(m/n) or ceil(m/n) of the m such lists handed out, within targets or by themselves, whatever is asked for in between, unless its cursor wraps at a width n does not divide |
| RoutingProofs.ListsAreFair | internal/service/service.go:66-79 | the same for any history of lists read from their cursors on |
| Gateway.StatusWriter.Drive | internal/httpapi/gateway.go:496-518 | committed exactly if anything was written, with the first status, 200 when a body or flush came first; the client gets the calls with that header in front |
| Gateway.GatewayTelemetry.RecordAttemptFinish | internal/httpapi/gateway_telemetry.go:168-178 | the attempt's recorded duration and what is added to the upstream time are the same, also when the clock ran backwards |
| Gateway.GatewayTelemetry.FinishCommittedOrCanceled | internal/httpapi/gateway_telemetry.go:247-279 | attempt and request are finished alike: never as a success, with the status sent, or the upstream's, or 502 |
| Gateway.Settle | internal/httpapi/gateway.go:229-264 | what one proxied attempt leads to: the request ends as success, as committed or cancelled, or with an own error response, or the attempt fails over |
| Gateway.TryTarget | internal/httpapi/gateway.go:195-265 | the keys of a target in order, until one does not fail over |
| Gateway.Serve | internal/httpapi/gateway.go:182-271 | for every plan and every script of outcomes: an attempt is followed by another exactly if it and all before it were turned down: the secret is unreadable, or nothing was written, the request was not cancelled and the upstream's status is 401, 402, 403 or 429; attempts take the (target, key) pairs in order; the account and the response are those of that last attempt; each readable attempt was called with the bodies of its own target, whatever was tried before |
| GatewayProofs.Categories | internal/httpapi/gateway_telemetry.go:319-342 | which errors are recorded as cancelled, auth (401, 403), rate limit (429), server (5xx), upstream (other 4xx) and connection, both ways |
| GatewayProofs.Succeeds | internal/httpapi/gateway_telemetry.go:226-245 | when the proxy returns no error: the client gets its calls, a 200 in front when it wrote no status, and success is recorded with the status sent if it is a 2xx and else 200 |
| GatewayProofs.BreaksOff | internal/httpapi/gateway_telemetry.go:247-279 | when it fails after writing, or is cancelled: the client gets its calls and no more; recorded is the upstream's 4xx or 5xx, unless cancelled with something written, else the status sent, or 502 |
| GatewayProofs.Refused | internal/httpapi/gateway.go:257-263 | when it fails with nothing written and is not turned down: the upstream's 4xx or 5xx, or 502, is both answered and recorded |
| GatewayProofs.WentOn | internal/httpapi/gateway.go:199-254 | attempts turned down are recorded as internal without a status, or with the upstream's |
| GatewayProofs.Spent | internal/httpapi/gateway.go:266-271 | when every key was turned down: the status of the last readable attempt is answered and recorded; with none, 502 is recorded, and 503 answered with several targets |
| GatewayProofs.BodiesSent | internal/httpapi/gateway.go:182-188 | the bodies of an attempt name the model of its target, layered with its own rules, the native one for Anthropic clients only |
| Gateway.PairAt | internal/httpapi/gateway.go:182-191 | the plan's pairs in lexicographic order |
| Gateway.OneResponse | internal/httpapi/gateway.go:211-271 | all that reaches the client comes from one author, the last attempt or the gateway itself: one response at most |
| Gateway.AccountAddsUp | internal/httpapi/gateway_telemetry.go:141-178 | attempts are numbered 1 to n in plan order, each started once and finished once; the request is finished once, last; no attempt but the last is a success, and the request is one exactly if the last attempt is; its upstream time is the sum of the recorded durations |
| GatewayProofs.AttemptTimes | internal/httpapi/gateway_telemetry.go:168-178 | each attempt is recorded with its duration in whole milliseconds, 0 when the clock ran backwards |
| GatewayProofs.FirstByteTime | internal/httpapi/gateway_telemetry.go:180-194 | the delay to the first byte is that of the first attempt that delivered one, counted from the start of the request, in whole milliseconds |
| Gateway.SuccessMeansNoError | internal/httpapi/gateway_telemetry.go:291-317 | success is recorded exactly if the proxy returned no error |
| Gateway.NeverCalled | internal/httpapi/gateway.go:178-252 | the remembered status is 502 exactly if no attempted key was readable, and a failover status otherwise |
| Gateway.OwnStatusIsRecorded | internal/httpapi/gateway.go:266-271 | the status of the gateway's own response is the recorded one, except exactly when several targets were planned and no key was readable |
| Gateway.UnreadableKeysDisagree | internal/httpapi/gateway.go:195-271 | the exception occurs: two targets whose only keys are unreadable, 503 answered and 502 recorded |
| Translate.Flush | internal/provider/translate_anthropic.go:26-37 | appending blocks, merged into a previous message of the same role, keeps the normal form and appends exactly these blocks |
| Translate.TranslateChatToAnthropic | internal/provider/translate_anthropic.go:24-62 | no two neighbours of one role and no message without content; flattened, exactly the blocks of the input messages in order, tool messages counted as the user's; the system texts joined |
| TranslateFields.TurnExpands | internal/provider/translate_anthropic.go:45-52 | a user's or assistant's message gives a text block for each text, then its tool uses, all under its role |
| TranslateFields.TextsPicked | internal/provider/translate_anthropic.go:119-163 | the texts are the string, or those of the parts, that are not empty |
| TranslateFields.UsesPicked | internal/provider/common.go:70-97 | the tool uses are the calls whose name is not white space, the name trimmed, with their id or "call_" and a random one, and their arguments if these read as an object, else the empty object |
| TranslateFields.OtherExpands | internal/provider/translate_anthropic.go:53-58 | a tool's message is a result under the user's role with its content, missing content as JSON null; other roles give no block |
| TranslateFields.SystemPicked | internal/provider/translate_anthropic.go:40-44 | the system text is made of the system and developer messages that have text |
| TranslateFields.InstructionsAre | internal/provider/common.go:37-58 | the text of a system message: its string, or the texts of its parts line by line |
| TranslateFields.JoinedByLines | internal/provider/common.go:37-58 | with line feeds between them |
| Translate.NormalFormUnique | internal/provider/translate_anthropic.go:26-37 | these two facts determine the result |
| Translate.SortBlocks | internal/provider/translate_anthropic.go:353-415 | the texts, calls, thoughts and results of a message, each in order |
| Translate.TranslateAnthropicToChat | internal/provider/translate_anthropic.go:341-441 | a leading system message if there is system text, then each user or assistant message with its tool results behind it |
| TranslateFields.ChatMessages | internal/provider/translate_anthropic.go:341-441 | a user's or assistant's blocks give one message with its texts, calls and thoughts, if there are any, and the results behind it; other roles give none |
| TranslateFields.SystemFirst | internal/provider/translate_anthropic.go:342-344 | a system text becomes the first message |
| TranslateFields.BlockTextsPicked | internal/provider/translate_anthropic.go:359-364 | the texts are those of the text blocks that are not empty |
| TranslateFields.BlockThoughtsPicked | internal/provider/translate_anthropic.go:410-413 | the thoughts are those of the thinking blocks that are not empty |
| TranslateFields.BlockCallsPicked | internal/provider/translate_anthropic.go:373-392 | the calls are the tool uses whose name is not white space, with their input written out, a missing one as the empty object |
| TranslateFields.BlockResultsPicked | internal/provider/translate_anthropic.go:393-410 | every result is a message of its own |
| TranslateFields.AnswerMessage | internal/provider/translate_anthropic.go:393-409 | with what content: texts as they are, an empty one as two quotes, objects line by line, other lists as they are |
| TranslateProofs.AnthropicToChatKeeps | internal/provider/translate_anthropic.go:349-441 | the texts with their speakers, the tool calls and the tool results are those of the blocks, each in order |
| TranslateProofs.RoundTrip | internal/provider/translate_anthropic.go:38-59 | Chat to Anthropic to Chat keeps the texts with their speakers, the calls (id, trimmed name, arguments as an object) and the results, each in order; the results come back unchanged exactly if none is empty |
| TranslateProofs.ChatToAnthropicKeepsEvents | internal/provider/translate_anthropic.go:38-59 | the order of calls and results among each other is kept exactly |
| TranslateProofs.AnthropicToChatKeepsFollowing | internal/provider/translate_anthropic.go:416-441 | if every result had its call before it, it still does, though blocks are reordered within a message |
| TranslateResponses.TranslateBody | internal/provider/translate_responses.go:10-84 | a body with an `input` field goes through as it is, but for the stream, the store and the budget fields; any other is translated message by message |
| TranslateResponses.NormalizeTokenBudget | internal/provider/translate_responses.go:133-143 | a body with its own budget is left as it is; else both Chat names of the budget are taken over in turn |
| TranslateResponses.BudgetTaken | internal/provider/translate_responses.go:133-143 | that is: the budget is then the legacy name's, if it holds a number, and else the other's; both are gone and every other field stays |
| TranslateResponses.TranslateChatToResponses | internal/provider/translate_responses.go:28-84 | the items of the messages in order; the first system message as instructions |
| TranslateFields.ItemsInOrder | internal/provider/translate_responses.go:31-80 | the items of the messages one after the other |
| TranslateFields.TurnItemsAre | internal/provider/translate_responses.go:44-67 | a turn gives an assistant's reasoning, one item with its texts, and its calls |
| TranslateFields.ItemTextsPicked | internal/provider/translate_responses.go:181-238 | the texts of an item: all objects, bare parts unless they are empty |
| TranslateFields.CallItemsPicked | internal/provider/translate_responses.go:57-67 | the calls are an assistant's, those with a name, with the arguments as they are or an empty object |
| TranslateFields.OtherItemsAre | internal/provider/translate_responses.go:33-79 | a tool's message is an output, a later system message a developer message, any other role nothing |
| TranslateFields.InstructionsFirst | internal/provider/translate_responses.go:33-40 | the instructions are the text of the first system or developer message |
| TranslateFields.NoInstructions | internal/provider/translate_responses.go:81-84 | and empty without one |
| TranslateResponses.ChatToResponsesKeeps | internal/provider/translate_responses.go:31-80 | the texts with their speakers, the assistant's calls, the results, and the order of calls and results are kept |
| TranslateResponses.SystemMessagesKept | internal/provider/translate_responses.go:33-43 | every system message but the first is a developer message, in order |
| TranslateResponses.TextOutputsKept | internal/provider/translate_responses.go:68-79 | results that are texts, or missing, arrive as they are exactly if none is the empty text |
| TranslateResponses.ResultsFollow | internal/provider/translate_responses.go:45-79 | every result follows its call in the items exactly if it follows a call of the assistant in the chat |
| TranslateResponses.UserCallIsLost | internal/provider/translate_responses.go:57-67 | the restriction to the assistant is needed: a chat in which each result follows its call whose items break that |
| Monitoring.Totals.Observe | internal/telemetry/monitoring.go:431-447 | a record adds one request and one outcome, its tokens if known, its latency if known |
| Monitoring.EveryRequestHasOneOutcome | internal/telemetry/monitoring.go:431-447 | requests are succeeded plus failed plus cancelled, and the number of records |
| Monitoring.ObserveWindow | internal/telemetry/monitoring.go:471-485 | the totals of a window are those of its records |
| Monitoring.TallyCounts | internal/telemetry/monitoring.go:431-447 | the totals of any records: how many were cancelled, failed (an error or a status from 400 on) and succeeded, the sums of the known tokens and latencies, and how many latencies are known |
| Monitoring.TokensReported | internal/telemetry/monitoring.go:431-455 | a token sum is reported exactly if some record knows one |
| Monitoring.StepsThrough | internal/telemetry/monitoring.go:67-76 | stepping from a boundary leads to the next one of the window, and past now from the last |
| Monitoring.InOneBucket | internal/telemetry/monitoring.go:33-65 | every time of the window lies in exactly one bucket, the one it is put in |
| Monitoring.PreviousWindow | internal/telemetry/monitoring.go:33-65 | the comparison window ends where this one starts, and a time lies in it exactly if it is of the year, month or day that starts it |
| Monitoring.TimeSeries | internal/telemetry/monitoring.go:544-577 | one bucket per boundary up to now, empty ones included, each with the tally of its records |
| Monitoring.BucketPicked | internal/telemetry/monitoring.go:544-577 | the k-th bucket counts exactly the records from its boundary to the next, in order |
| Monitoring.SeriesCoversWindow | internal/telemetry/monitoring.go:564-576 | boundaries strictly increase, start with the window and reach past now, and every time of the window has its bucket among them |
| Monitoring.SeriesAddsUp | internal/telemetry/monitoring.go:544-577 | requests, outcomes, tokens and latencies summed over the buckets are the totals of the window |
| Import.ParseBatch | internal/service/import.go:50-129 | every line that is not blank is reported in order, accepted exactly if its secret is neither empty, nor stored, nor on an earlier line, and otherwise with the reason and the line it repeats; total is valid plus invalid |
| ImportFields.CandidatesAreLines | internal/service/import.go:58-75 | reported are exactly the lines that are not all white space, in order, under their numbers; the name stands before the first bar and the secret behind it, both trimmed, and without a bar all is secret |
| ImportFields.Verdict | internal/service/import.go:77-118 | each is reported with the first reason that applies: no secret, stored already, or on an earlier line, the first of which is named; else as valid; a given name is kept |
| ImportFields.AcceptedAt | internal/service/import.go:106-119 | the keys to be stored are the valid lines, with the name reported, the secret and its fingerprint |
| ImportFields.ReportCounts | internal/service/import.go:122-129 | the report counts the lines, the valid ones and the others |
| ImportFields.ContextHolds | internal/service/import.go:34-48 | the pass knows every stored fingerprint, and the largest stored number that fits an integer, 0 without one |
| ImportFields.RowsStored | internal/service/import.go:131-150 | the i-th new row has the name and fingerprint of the i-th accepted key, and the largest stored order, -1 without any, plus 1 plus i |
| Import.ProviderKeys.ImportProviderKeys | internal/service/import.go:22-157 | preview and commit report the same; commit appends exactly the accepted keys in line order, with consecutive sort orders; nothing is stored for an unknown provider, or when one key cannot be encrypted or inserted |
| Import.EveryLineReported | internal/service/import.go:58-62 | the total is the number of lines that are not blank |
| Import.AcceptedAreValid | internal/service/import.go:106-129 | the keys to be stored are the entries reported as valid: as many, in the same order, with the same names |
| Import.LinesJoin | internal/service/import.go:50 | the lines are the text cut at its line feeds |
| Import.AcceptedMarks | internal/service/import.go:87-104 | the accepted fingerprints are those of the text that were not stored |
| Import.AcceptedAreNew | internal/service/import.go:87-104 | accepted fingerprints are pairwise distinct and none was stored |
| Import.ImportedAgain | internal/service/import.go:24-157 | after a commit the same text accepts nothing |
| Import.CommitKeepsUnique | internal/service/import.go:131-154 | unique fingerprints stay unique, and the new keys sort behind every stored one |
| Import.AutoNameReads | internal/service/validate.go:26 | a generated name reads back as its number |
| ImportFields.NumberedNames | internal/service/validate.go:26 | a name has a number exactly if it is "Key", white space and digits, and then it is the number of the digits |
| ImportFields.CountedNumbers | internal/service/import.go:42-46 | the numbers that count are those that fit a signed 64-bit integer |
| Import.NamesRise | internal/service/import.go:36-110 | generated names read as numbers that rise from line to line, exactly as long as the count fits an integer; they read above every stored number exactly if, besides, every stored number fits one, or if no name is generated |
| Import.NameOverflows | internal/service/import.go:106-110 | the bound is needed: with "Key 9223372036854775807" stored, the next generated name is "Key -9223372036854775808" |
| Import.LargeNumberIsPassedOver | internal/service/import.go:42-46 | the second condition is needed: with "Key 9223372036854775808" stored, the next generated name is "Key 1" |

## Left out

- HTTP transport, headers, timeouts, redirects and the control socket: an upstream call is an outcome value.
- SQL, SQLite and its text comparison of timestamps: tables are sequences with their unique keys, the records of a window are given.
- JSON text, cryptography and random ids: parameters with the one law each needs; the nesting limit of the JSON decoder is left out.
- The stream loops around a single translator (Anthropic or Responses to Chat, Chat to Anthropic): they end like the one that is modelled, which drives two.
- Media parts, audio, documents and tool declarations in requests, and the unary translators: many cases that add no harder property.
- Sampling parameters, thinking efforts, suffixes of model names, and token budgets but for those of a body passed through: plain copies.
- `id`, `object`, `created` and `usage` details of stream chunks beyond the output token count: constants and copies.
- 64-bit overflow of token sums, sort orders and durations: counts are unbounded integers there; the round-robin cursor and the generated key numbers do wrap.
- Daylight-saving transitions: the calendar has no offset changes.
- Averages and success rates: quotients of the counts that are modelled.
- The served model and the recorded prompt rules of a request: copied from the attempt that reports them.
- The details of a routed event in the hub and in the feed, and the length cap of the feed: they play no part in which requests are active.
- Pages, filters and periodic refresh of the monitoring page.
- Creating, updating and deleting rules, groups, members and keys, making a key primary, and reordering group members: table updates behind their unique keys, the last with the check that `ReorderPromptRules` has.
- The override header that picks one rule by name.
- The style prompt's skill files, password, session and login handling, provider health checks.
- Gateway.GatewayTelemetry.NoteFirstByte: does not model the event published to the hub, because the hub has its own model.
- Import.ParseBatch: does not model the masked secret of an entry, which plays no part in what is accepted.
- Monitoring.TimeSeries: buckets are values in a map, not objects updated in place, since no two entries share one.
- Routing.RouterState.NextRoundRobinCursor: the cursor map is keyed by domain and id; `CursorKeyInjective` shows that the program's text key stands for the pair.
