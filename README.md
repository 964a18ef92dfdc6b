# x-ss: the Discord gateway bot, its search worker and its tweet pipeline, in Dafny

The system is a Discord bot. A gateway client (`apps/gateway`):

- keeps one WebSocket session to the Discord Gateway (API v10);
- identifies or resumes, sends heartbeats and reconnects with capped exponential back-off;
- filters incoming messages with a fixed decision chain.

For each message it answers, it does three things:

1. asks a search worker (`apps/semsearch`) for similar past tweets;
2. has an opencode session write a reply from a prompt built around those tweets;
3. posts that reply.

The tweets come from a small pipeline (`apps/vectorize`). It flattens exported tweet files into one list, then embeds that list and stores it in batches of 100.

This project models that core and proves properties of it. The modules are:

| module | file | models |
|---|---|---|
| `JsValues` | js_values.dfy | optional values, results, parsed JSON, truthiness, property access (`null.x` throws) |
| `JsStrings` | js_strings.dfy | `trim`, `split`, `join`, `slice(0, n)`, `replace` with a string pattern, decimal text of an integer |
| `GatewayConfig` | gateway_config.dfy | `loadConfig` and its checks |
| `GatewayProtocol` | gateway_protocol.dfy | gateway frames and constants, the back-off delay, the connect URL, Identify versus Resume, the message filter |
| `Gateway` | gateway_client.dfy | the connection state machine as the class `GatewayClient` |
| `SemsearchClient` | semsearch_client.dfy | `getSimilarContext` |
| `Opencode` | opencode.dfy | `generateResponse` |
| `SemsearchWorker` | semsearch_worker.dfy | the search worker's `fetch` handler |
| `Flatten` | flatten.dfy | `parseChunk`, `flattenTweets`, `flattenTextTweets` |
| `Ingest` | ingest.dfy | the batching loop of `ingest` |

The gateway's module-level variables are the fields of `GatewayClient`: `ws`, `heartbeatInterval`, `lastSequence`, `sessionId`, `resumeGatewayUrl` and `reconnectAttempts`. The socket callbacks, the timer tick and the frame handlers are its methods. Side effects are recorded in fields:

- a written frame is appended to `sent`;
- a running interval timer is an element of `runningTimers`;
- a started reply pipeline is appended to `launched`.

The class invariant `Valid` states three things:

- the session id and the resume URL are set and cleared together;
- the only running timer is the one the client holds, so there is at most one;
- a timer never outlives its socket.

Every method keeps `Valid` and states its whole new state.

The client follows the code in two places where a reader might expect otherwise:

- A Dispatch frame stores its sequence number as received, even when it is lower than one seen before. The client does not keep the maximum.
- An opcode that no handler matches, Heartbeat (1) for instance, makes the pattern match's `.run()` throw. `HandleGatewayEvent` returns `matched == false` and changes nothing.

Foreign calls are inputs of the functions and methods that make them:

- file reads and `JSON.parse`;
- the regular-expression split of the tweet export;
- `fetch`;
- the opencode SDK;
- the embedding model and the vector index.

## Model

| member | source | states |
|---|---|---|
| JsValues.LastIndexOf | apps/gateway/src/config.ts:18 | the position found holds the key and no later member has it; -1 is returned iff no member has the key |
| JsValues.Lookup | apps/gateway/src/config.ts:18 | the value `JSON.parse` keeps for a key is absent iff no member has the key, and is otherwise the value of the last member with that key, so a later duplicate wins |
| JsValues.Property | apps/semsearch/src/index.ts:16 | reading a property throws iff the value is `null`; an object yields what `Lookup` keeps for the key, and any other value yields nothing |
| JsStrings.Trim | apps/vectorize/src/flatten.ts:55-56 | `trim` never lengthens a string and leaves no whitespace at either end |
| JsStrings.TrimIsInnerSlice | apps/vectorize/src/flatten.ts:55-56 | the trim is one contiguous slice of the input, and what is cut from each end is all whitespace |
| JsStrings.TrimEmpty | apps/vectorize/src/flatten.ts:55 | a string trims to "" iff it is all whitespace |
| JsStrings.TrimKeepsCharacters | apps/vectorize/src/flatten.ts:56 | every character of the trim occurs in the input |
| JsStrings.TrimOfTrimmed | apps/vectorize/src/flatten.ts:56 | a string with no whitespace at either end is its own trim |
| JsStrings.TrimIdempotent | apps/vectorize/src/flatten.ts:56 | trimming twice gives the same as trimming once |
| JsStrings.Join | apps/gateway/src/opencode.ts:26 | joining no parts gives ""; otherwise the result is as long as the parts plus one separator between each neighbouring pair, and it starts with the first part |
| JsStrings.JoinSnoc | apps/gateway/src/opencode.ts:26 | joining one more part adds the separator and that part at the end |
| JsStrings.Split | apps/vectorize/src/flatten.ts:54 | `split('\n')` gives at least one piece, and no piece contains the separator or is longer than the input |
| JsStrings.JoinSplit | apps/vectorize/src/flatten.ts:54 | splitting on a character and joining back with it gives the input back |
| JsStrings.DecimalText | apps/vectorize/src/ingest.ts:25 | the decimal text of a number is non-empty and all digits, with no leading zero: it starts with '0' only when it is "0" itself |
| JsStrings.DecimalTextInjective | apps/vectorize/src/ingest.ts:25 | different numbers have different decimal texts |
| JsStrings.DecimalTextValue | apps/vectorize/src/ingest.ts:25 | the decimal text of a number, read back digit by digit (Horner's rule), gives the number |
| JsStrings.Prefix | apps/gateway/src/opencode.ts:34 | `slice(0, n)` is the first `min(n, length)` characters |
| JsStrings.IndexOf | apps/gateway/src/opencode.ts:29 | the result is the first position where the pattern occurs, or none when it occurs nowhere |
| JsStrings.ReplaceFirst | apps/gateway/src/opencode.ts:29 | `replace` with a string pattern leaves a string without the pattern unchanged; otherwise it swaps the first occurrence for the replacement and keeps what is around it |
| JsStrings.ReplaceFirstKeepsLater | apps/gateway/src/opencode.ts:29 | an occurrence after the first, not overlapping it, is still in the result, shifted by the change in length |
| GatewayConfig.Validate | apps/gateway/src/config.ts:21-33 | the config is accepted iff all four required fields are truthy and `channels` and `allowedUsers` are non-empty arrays; an accepted config is returned unchanged; the first failing check, in source order, gives the message; a `null` config fails with the engine's TypeError text for reading `discordToken` |
| GatewayConfig.LoadConfig | apps/gateway/src/config.ts:13-43 | a config comes back iff the file parses to an acceptable config, and it comes back unchanged; every failure, a missing file included, exits with status 1; only a missing file reports "not found" |
| GatewayProtocol.OutboundOpcode | apps/gateway/src/index.ts:15-24 | Heartbeat, Identify and Resume frames carry opcodes 1, 2 and 6 respectively |
| GatewayProtocol.OpcodeSelectsHandler | apps/gateway/src/index.ts:153-175 | on a parsed frame, no handler matches iff the opcode is not one of Hello, HeartbeatAck, Dispatch, Reconnect and InvalidSession; a Dispatch event is routed iff its name is READY, MESSAGE_CREATE or MESSAGE_UPDATE |
| GatewayProtocol.IntentsValue | apps/gateway/src/index.ts:26-29 | the Identify intents are exactly bit 9 (guild messages) and bit 15 (message content) |
| GatewayProtocol.Pow2Monotone | apps/gateway/src/index.ts:139 | powers of two grow with the exponent |
| GatewayProtocol.BackoffDelay | apps/gateway/src/index.ts:139 | the delay for attempt n >= 1 is between 1000 and 30000 ms |
| GatewayProtocol.BackoffFirstAttempt | apps/gateway/src/index.ts:138-139 | the first attempt waits 1000 ms |
| GatewayProtocol.BackoffDoubles | apps/gateway/src/index.ts:139 | for attempts 1 to 5 each next delay is twice the previous one (1000 to 16000 ms) |
| GatewayProtocol.BackoffCapped | apps/gateway/src/index.ts:139 | from the sixth attempt on, the delay is 30000 ms |
| GatewayProtocol.BackoffMonotone | apps/gateway/src/index.ts:139 | the delay never decreases as attempts accumulate |
| GatewayProtocol.ConnectUrl | apps/gateway/src/index.ts:103 | the socket URL is the gateway URL followed by `?v=10&encoding=json` |
| GatewayProtocol.IsSetIsTruthiness | apps/gateway/src/index.ts:194 | a nullable string variable counts as set iff it is truthy: neither `null` nor "" |
| GatewayProtocol.HelloReply | apps/gateway/src/index.ts:194-198 | Hello is answered with Resume (token, session id, last sequence) iff both the session id and the resume URL are truthy, else with Identify (token, intents, linux/bun/bun); never with a heartbeat |
| GatewayProtocol.ReconnectTarget | apps/gateway/src/index.ts:145 | a reconnect uses the resume URL when it is truthy, else the discovered URL |
| GatewayProtocol.IsBotMentioned | apps/gateway/src/index.ts:246-248 | true iff some mention carries the bot's id |
| GatewayProtocol.Decide | apps/gateway/src/index.ts:250-291 | a reply is started iff the author is not the bot and either the bot is mentioned or both the channel and the author are on the allow-lists; each outcome, "ignore" or "respond", holds exactly when its check is the first in the chain to decide |
| GatewayProtocol.OwnMessageNeverAnswered | apps/gateway/src/index.ts:252-254 | the bot's own messages are always ignored |
| GatewayProtocol.MentionOverridesAllowLists | apps/gateway/src/index.ts:257-273 | a mention of the bot by anyone else is answered in any channel, from any author |
| GatewayProtocol.UnmentionedNeedsBothAllowLists | apps/gateway/src/index.ts:277-290 | without a mention, a message is answered iff its channel and its author are both allow-listed |
| Gateway.GatewayClient.AtMostOneTimer | apps/gateway/src/index.ts:83 | under the invariant at most one heartbeat timer runs, and none without a handle |
| Gateway.GatewayClient.constructor | apps/gateway/src/index.ts:82-87 | the initial state has no socket, no timer, no session, no sequence and zero attempts |
| Gateway.GatewayClient.Connect | apps/gateway/src/index.ts:102-106 | `connect` opens a socket on the connect URL and changes nothing else |
| Gateway.GatewayClient.Start | apps/gateway/src/index.ts:311-321 | startup connects to the discovered URL, or exits with status 1 when discovery failed |
| Gateway.GatewayClient.OnOpen | apps/gateway/src/index.ts:108-111 | an open socket resets the attempt counter to 0 |
| Gateway.GatewayClient.Cleanup | apps/gateway/src/index.ts:129-135 | cleanup stops the heartbeat timer, if any, and drops the socket, leaving the session untouched |
| Gateway.GatewayClient.ScheduleReconnect | apps/gateway/src/index.ts:137-142 | a reconnect first increments the attempt counter, then waits the back-off delay of the new count |
| Gateway.GatewayClient.OnClose | apps/gateway/src/index.ts:118-122 | a close clears the timer and the socket and schedules a reconnect with the next back-off delay |
| Gateway.GatewayClient.AfterBackoff | apps/gateway/src/index.ts:144-150 | after the delay the client connects to the resume URL or else the discovered one; when there is none it counts another attempt and waits again |
| Gateway.GatewayClient.Send | apps/gateway/src/index.ts:214 | `ws?.send` writes a frame only when a socket exists |
| Gateway.GatewayClient.HeartbeatTick | apps/gateway/src/index.ts:186-192 | a heartbeat tick sends `{op: 1, d: lastSequence}` iff the socket is open, and otherwise nothing |
| Gateway.GatewayClient.HandleHello | apps/gateway/src/index.ts:177-199 | Hello stops any running heartbeat timer before starting one with the new period, so exactly one runs, takes the next timer handle, then sends Resume or Identify as `HelloReply` says |
| Gateway.GatewayClient.Identify | apps/gateway/src/index.ts:201-216 | Identify carries the token, the intents and the linux/bun/bun properties |
| Gateway.GatewayClient.Resume | apps/gateway/src/index.ts:218-229 | Resume carries the token, the current session id and the last sequence number |
| Gateway.GatewayClient.HandleMessageCreate | apps/gateway/src/index.ts:250-291 | a reply pipeline is started for a message iff `Decide` says to respond |
| Gateway.GatewayClient.HandleDispatch | apps/gateway/src/index.ts:231-244 | READY sets the session id and the resume URL together; message events go through the filter; other events change nothing |
| Gateway.GatewayClient.HandleInvalidSession | apps/gateway/src/index.ts:168-173 | InvalidSession clears the session id and the resume URL whatever its flag says, and sends Identify |
| Gateway.GatewayClient.HandleReconnect | apps/gateway/src/index.ts:164-167 | a Reconnect frame closes the socket with code 1000 and does nothing without a socket |
| Gateway.GatewayClient.HandleGatewayEvent | apps/gateway/src/index.ts:153-175 | every Dispatch frame stores its `s` as the last sequence before routing; a handler runs iff the opcode is one of the five handled, and each runs its own; an unmatched opcode changes nothing and reports no match |
| Gateway.InvalidSessionThenHello | apps/gateway/src/index.ts:168-173 | after InvalidSession the next Hello also sends Identify, never Resume |
| Gateway.ReconnectResumes | apps/gateway/src/index.ts:164-198 | READY, then Reconnect, close, reconnect, open and Hello: the client reconnects to the resume URL and resumes with the stored session id and sequence number |
| Gateway.OpenThenCloseWaitsBaseDelay | apps/gateway/src/index.ts:108-111 | after a successful open, the next close waits 1000 ms, whatever failures came before |
| SemsearchClient.MatchResults | apps/gateway/src/semsearch.ts:34-37 | a match gives a result iff its `metadata.text` is present and non-empty, with that text and the score unchanged |
| SemsearchClient.ToResults | apps/gateway/src/semsearch.ts:33-38 | the results are never more than the matches, and every result has text |
| SemsearchClient.ResultComesFromMatch | apps/gateway/src/semsearch.ts:34-37 | every result is the text and score of a match that has text |
| SemsearchClient.ToResultsAppend | apps/gateway/src/semsearch.ts:33-38 | filtering commutes with concatenation, so surviving matches keep their order |
| SemsearchClient.MatchWithTextKept | apps/gateway/src/semsearch.ts:34 | every match with text gives a result |
| SemsearchClient.GetSimilarContext | apps/gateway/src/semsearch.ts:27-38 | a response that is not ok is an error "Semsearch request failed: status body" and gives no results; an ok one gives the filtered results |
| Opencode.ContextEntry | apps/gateway/src/opencode.ts:26 | an entry starts with its 1-based number in brackets and ends with a line break followed by the snippet |
| Opencode.ContextEntries | apps/gateway/src/opencode.ts:26 | there is one entry per context item, in order, entry k numbered k + 1 |
| Opencode.ContextText | apps/gateway/src/opencode.ts:24-27 | an empty context gives "No similar conversations found." |
| Opencode.ContextTextSingle | apps/gateway/src/opencode.ts:24-27 | a single item gives its own entry numbered 1, with no separator |
| Opencode.ContextTextSnoc | apps/gateway/src/opencode.ts:26 | one more item adds a blank line and its entry, numbered after the items before it |
| Opencode.SystemPrompt | apps/gateway/src/opencode.ts:29 | only the first `{context}` of the template is replaced by the context block; the rest of the template is kept |
| Opencode.SessionTitle | apps/gateway/src/opencode.ts:34 | the title is "Discord message: " plus at most the first 50 characters of the message plus "...", even when nothing was cut |
| Opencode.PromptParts | apps/gateway/src/opencode.ts:48-51 | the prompt has exactly two parts: the system prompt, then "User: " and the message |
| Opencode.TextsOf | apps/gateway/src/opencode.ts:60-62 | every extracted text is the text of a text part of the reply, every text part's text is extracted, and there are never more texts than parts |
| Opencode.TextsOfSingle | apps/gateway/src/opencode.ts:60-62 | a text part contributes exactly its text; any other part contributes nothing |
| Opencode.TextsOfAppend | apps/gateway/src/opencode.ts:60-62 | only text parts contribute, in their order |
| Opencode.JoinEmpty | apps/gateway/src/opencode.ts:63 | a join with a non-empty separator is "" iff there is no part or a single empty part |
| Opencode.ResponseText | apps/gateway/src/opencode.ts:60-66 | the reply is empty, and therefore an error, iff there is no text part or a single empty one; otherwise it starts with the first text part |
| Opencode.ResponseTextSnoc | apps/gateway/src/opencode.ts:60-63 | a later text part adds a line break and its text (or is the whole reply when it is the first text part); any other part leaves the reply unchanged |
| Opencode.ErrorDetail | apps/gateway/src/opencode.ts:39 | an error detail is never empty: the SDK's error text when it is non-empty, and "Unknown error" otherwise |
| Opencode.ErrorMessage | apps/gateway/src/opencode.ts:39-66 | the message of every error `generateResponse` throws is non-empty |
| Opencode.ErrorMessageInjective | apps/gateway/src/opencode.ts:39-66 | different failures give different messages, so the message tells which call failed and gives its detail back |
| Opencode.GenerateResponse | apps/gateway/src/opencode.ts:18-70 | a failed session create raises before any prompt is sent; otherwise exactly one prompt with the two parts goes to the new session; the result is the joined reply text when non-empty, and each other case raises its own error |
| SemsearchWorker.FirstVector | apps/semsearch/src/index.ts:23 | `data[0]` is undefined iff there is no embedding |
| SemsearchWorker.Search | apps/semsearch/src/index.ts:21-28 | a valid query embeds exactly `[query]` with the embedding model, queries with topK 10 and all metadata, and answers 200 with the matches unchanged |
| SemsearchWorker.IsQueryIsGuard | apps/semsearch/src/index.ts:17 | a message passes the guard iff it is truthy and a string |
| SemsearchWorker.FetchAsWritten | apps/semsearch/src/index.ts:4-29 | as written: non-POST gives 405 before the body is read, and the handler throws iff a POST body parses to `null` |
| SemsearchWorker.MessageOf | apps/semsearch/src/index.ts:16 | only an object body has a `message` |
| SemsearchWorker.Fetch | apps/semsearch/src/index.ts:4-29 | the guards run in order: 405 for a non-POST, 400 "Invalid JSON body", 400 for a missing, empty or non-string message; the search runs iff all pass; every request gets a response |
| SemsearchWorker.NullBodyEscapes | apps/semsearch/src/index.ts:16 | a POST with body `null` throws as written and gets a 400 as corrected |
| SemsearchWorker.AgreesBesideNullBody | apps/semsearch/src/index.ts:4-29 | on every other request the two handlers agree |
| Flatten.ParseChunk | apps/vectorize/src/flatten.ts:7-17 | a chunk gives its array unchanged iff it parses to an array; other JSON gives ParseError "Expected array"; a syntax error gives ParseError with the text "SyntaxError: " and its message |
| Flatten.ChunkContribution | apps/vectorize/src/flatten.ts:29-31 | a blank chunk, or one that does not parse to an array, contributes nothing; any other chunk contributes its array |
| Flatten.FlatMap | apps/vectorize/src/flatten.ts:38-40 | every output element comes from the list of some input element, and every element of every such list is in the output |
| Flatten.FlatMapAppend | apps/vectorize/src/flatten.ts:38-40 | `flatMap` commutes with concatenation |
| Flatten.MergeChunks | apps/vectorize/src/flatten.ts:29-40 | every merged element comes from the contribution of some chunk, and every element every chunk contributes is merged |
| Flatten.MergeChunksAppend | apps/vectorize/src/flatten.ts:29-40 | merging commutes with concatenating the chunks, so chunks and their elements keep their order |
| Flatten.MergeOneChunk | apps/vectorize/src/flatten.ts:29-40 | a single chunk merges to its own contribution |
| Flatten.FlattenTweets | apps/vectorize/src/flatten.ts:19-43 | a read failure is the only error (ReadError); otherwise the result is ok with the merged chunks |
| Flatten.LineTweets | apps/vectorize/src/flatten.ts:55-56 | a line gives no tweet iff it is all whitespace, and otherwise one tweet with its non-empty trim |
| Flatten.TweetsFromLines | apps/vectorize/src/flatten.ts:53-56 | there are never more tweets than lines, and no tweet text is empty |
| Flatten.TweetComesFromLine | apps/vectorize/src/flatten.ts:53-56 | every tweet text is the trim of some line |
| Flatten.NonBlankLinesSnoc | apps/vectorize/src/flatten.ts:55 | one more line adds its index to the non-blank lines iff it is not blank |
| Flatten.TweetCountIsNonBlankLineCount | apps/vectorize/src/flatten.ts:53-56 | there is exactly one tweet per non-blank line |
| Flatten.TweetsFromLinesAppend | apps/vectorize/src/flatten.ts:53-56 | tweets come in the order of their lines |
| Flatten.FlattenTextTweets | apps/vectorize/src/flatten.ts:45-59 | a read failure is the only error (ReadError); otherwise the tweets are those of the lines of the text, one per non-blank line in line order, none empty and none containing a line break |
| Ingest.VectorId | apps/vectorize/src/ingest.ts:25 | an id is `tweet-` followed by one or more decimal digits, with no leading zero unless the index is 0 |
| Ingest.VectorIdDecodes | apps/vectorize/src/ingest.ts:25 | the digits after `tweet-` read back as the tweet's global index |
| Ingest.VectorIdInjective | apps/vectorize/src/ingest.ts:25 | different global indices give different vector ids |
| Ingest.BatchEnd | apps/vectorize/src/ingest.ts:18 | a batch ends 100 after its start or at the end of the list, whichever comes first |
| Ingest.Batch | apps/vectorize/src/ingest.ts:18 | a batch holds 1 to 100 tweets, the tweets from its start on, in order |
| Ingest.Texts | apps/vectorize/src/ingest.ts:19 | the texts are the batch's tweet texts, position by position |
| Ingest.BatchVectors | apps/vectorize/src/ingest.ts:24-30 | building fails iff there are more embeddings than tweets; otherwise the vector at position p has id `tweet-(start + p)`, the p-th embedding and the p-th tweet's text |
| Ingest.StoreBatch | apps/vectorize/src/ingest.ts:21-33 | a batch is stored only when embedding succeeded and upsert accepted the vectors; the vectors carry the embeddings in order, at most one per tweet of the batch, each with its global index's id and its tweet's text; a failed embedding stores nothing, and a batch whose embedding, vector building and upsert all succeed is stored |
| Ingest.TallyFrom | apps/vectorize/src/ingest.ts:17-37 | no more vectors are stored than tweets are counted as processed |
| Ingest.TallyCountsEveryTweet | apps/vectorize/src/ingest.ts:17-37 | every tweet is counted exactly once, as processed or as failed |
| Ingest.StoredIndicesIncreasing | apps/vectorize/src/ingest.ts:17-30 | the stored vectors belong to tweets at strictly increasing indices, all within the list |
| Ingest.StoredVectorsIndexed | apps/vectorize/src/ingest.ts:24-30 | each stored vector has the id of its tweet's index and carries its tweet's text |
| Ingest.StoredIdsDistinct | apps/vectorize/src/ingest.ts:25 | no two stored vectors share an id, across batches too |
| Ingest.EveryTweetInOneBatch | apps/vectorize/src/ingest.ts:17-18 | the tweet at index j is in the batch starting at 100 * (j / 100), at position j % 100, and in no other batch |
| Ingest.Ingest | apps/vectorize/src/ingest.ts:10-49 | `success` is always true; processed + failed equals the total; the counters and stored vectors are those of the batch-by-batch specification, in which a failed batch adds its whole length to `failed` and nothing to `processed` |

## Left out

- I/O is not modelled: WebSocket objects, timers, `fetch`, file reads and writes, `process.exit` and console output. Each is an input, a recorded output (`sent`, `runningTimers`, `launched`, the returned delay or exit status) or an error result.
- JSON parsing and serialisation are not modelled: frames, config objects, chunks and request bodies arrive already parsed, and the parse outcome of a text is an input. This covers `ws.onmessage` (apps/gateway/src/index.ts:113-116). `GatewayProtocol.WellFormed` states what parsing a frame guarantees: an unhandled frame carries an opcode without a handler, and an unrouted event a name that is not routed.
- `GatewayConfig.Validate`: the wording of the TypeError raised by reading a property of `null` belongs to the JavaScript engine, so it is a parameter.
- The regular-expression split of the tweet export (apps/vectorize/src/flatten.ts:27) is an input.
- The reply pipeline `processMessageAsync` (apps/gateway/src/index.ts:293-309) runs fire-and-forget. Only its launch is recorded, and the concurrency of several pipelines and the socket is not modelled. `sendReply` (apps/gateway/src/discord.ts) is not part of this model.
- `Gateway.GatewayClient.AfterBackoff`: models one step of `reconnect`. The recursive retry after a failed discovery is left to the caller, and nothing is claimed about the reconnect loop ever ending.
- `ws.onerror` only logs, so it is left out. The ordering between a timer tick and a close is left out too: ticks are delivered only while a timer runs.
- `Gateway.GatewayClient.Send`: it writes into the log whenever a socket exists, whatever its ready state. The runtime's behaviour for a socket that is still connecting or already closing is not modelled.
- `Opencode.ContextEntry`: `(score * 100).toFixed(1)` is an uninterpreted function of the score, because floating-point formatting is not modelled.
- `Opencode.SystemPrompt`: `$` patterns in the replacement text are taken literally, whereas `String.replace` would expand them.
- `Opencode.SessionTitle`: characters stand for UTF-16 code units, so `slice(0, 50)` can cut a surrogate pair in JavaScript but not here.
- `Opencode.ErrorDetail`: the SDK's `error` is the text `JSON.stringify` gives for it, present or absent. A `null` error, which would print as "null", is not told apart from an absent one.
- `GatewayProtocol.BackoffDelay`: uses integer arithmetic instead of `Math.pow` on doubles. The two agree because the delay is capped at 30000.
- `GatewayConfig.LoadConfig`: the config comes back as the parsed JSON value. The TypeScript cast to `BotConfig` checks nothing at run time, and the gateway's other modules take an already typed `BotConfig`.
- `SemsearchWorker.Search`: the embedding call and the index query always return. An exception from either escapes the handler and is not modelled.
- `Ingest.Ingest`: `durationMs` (from `Date.now`) is not in the report. `stored` is the model's record of the vectors of successful batches. An upsert that throws part-way is taken to store nothing.
- apps/vectorize/src/seed.ts is not part of this model. It is a scraping loop against a remote API, and its end depends on the remote's data.
- `exportTextTweetsToJson` and the script body of apps/vectorize/src/flatten.ts (lines 61-97) only write the output file and exit, so they are not part of this model.
- `getGatewayUrl` (apps/gateway/src/index.ts:89-100) is a `fetch`. Its outcome is the `discovered` input of `Start` and `AfterBackoff`.

## Findings

| source | as written | input that shows it | evidently intended | confidence | as-written member | corrected member |
|---|---|---|---|---|---|---|
| apps/semsearch/src/index.ts:16 | `body.message` is read outside the `try` that guards `request.json()`. A body that parses to `null` makes it throw a TypeError, and the worker fails with an internal error. | a POST whose body is the JSON text `null` | a 400 "Missing or invalid \"message\" field", as for any other body without a usable `message` | high; not executed | SemsearchWorker.FetchAsWritten, SemsearchWorker.NullBodyEscapes | SemsearchWorker.Fetch, SemsearchWorker.AgreesBesideNullBody |
