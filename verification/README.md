# chatgpt-web service gateway: request gate and chat relay

This project is a Dafny model of the two pieces of sequential logic in the
gateway's Express server (`service/src/index.ts`). The server sits between a
web client and an upstream chat-completion service.

- **The request gate** (`myMiddleware`) runs in front of every route. It first
  checks that the `Referer` header contains one of three allowed fragments.
  A request that fails is answered `401 Unauthorized` and goes no further.
  Next, and only when the URL contains `/chat-process`, it replaces the
  request body with the decrypted and parsed `queryData`.
- **The chat relay** (`POST /chat-process`) trims the prompt. An empty prompt
  is answered with a fixed notice. Otherwise the handler inserts an exchange
  record when a database is configured, then calls the upstream. It streams
  each delivered chunk to the client as newline-delimited JSON: the first
  chunk is written bare and each later one follows a `\n`. An upstream error
  is written into the same stream. A `finally` block then updates the record
  (when it has an id), posts a completion notification and ends the response.

Everything is modelled with immutable datatypes and pure functions.

- `Gate.Middleware` returns a `Decision`: rejected, forwarded (with the body
  and whether it was decoded), or the decoding step threw.
- `Relay.Handle` takes abstract outcomes for each collaborator: whether a
  database is configured and what its insert does, the chunks the upstream
  delivers and whether it then throws, and the status of the notification
  POST. It returns the ordered trace of effects (`SetContentType`, `Insert`,
  `CallUpstream`, `Write`, `Update`, `Notify`, `Log`, `End`) and the response
  body. The body is the concatenation of the writes.

Opaque steps are parameters:

- decrypt-then-`JSON.parse` is `decode: B -> Option<B>`, where `None` means
  it throws;
- `JSON.stringify` of a chunk is `ser: Chunk -> string`;
- an upstream error arrives already serialised.

Modules: `Optional` (Option), `Text` (JavaScript `includes` and `trim`),
`Framing` (join, split and the framed writes), `Gate`, `Relay`, and
`RelayProperties` (the lemmas about the handler).

Behaviours reproduced as the code has them:

- The notification is posted even for an empty prompt: no id was assigned,
  so the guard at line 106 is false and lines 113-121 run.
- The record keeps the untrimmed prompt, because it is built at line 68,
  before the trim at line 70.
- An insert id of `0` is falsy at line 106. It therefore counts as no id:
  there is no update, and the notification still goes out.
- With a real id, reading the last chunk at lines 107-109 throws when there
  is no chunk, no `detail`, or an empty `choices`. The outer `catch` at line
  123 then skips both the update and the notification. The response is still
  ended.
- The gate's tests are substring tests. Any Referer whose text mentions an
  allowed fragment passes, and any URL that mentions `/chat-process` is
  decoded, with or without the `/api` prefix and with any query string.

## Model

| member | source | states |
|---|---|---|
| Text.ContainsIffOccurs | service/src/index.ts:40-43 | `includes` holds exactly when the fragment occurs at some position of the string (both directions) |
| Text.TrimKeepsMiddle | service/src/index.ts:70 | the trimmed prompt is the stretch of the input between an all-whitespace prefix and an all-whitespace suffix: `trim` removes only whitespace, and only at the ends |
| Text.Trim | service/src/index.ts:70 | the trimmed prompt is empty exactly when every character is JavaScript whitespace; otherwise it neither starts nor ends with whitespace |
| Text.SkipSpaceFrom | service/src/index.ts:70 | leading trim skips only whitespace and stops at the first non-whitespace character or the end |
| Text.SkipSpaceBack | service/src/index.ts:70 | trailing trim drops only whitespace and stops after the last non-whitespace character, never crossing the start of the trimmed part |
| Framing.Split | service/src/index.ts:87 | the client-side split of the stream on `\n` yields at least one part and no part holds a `\n` |
| Framing.FramedIsJoin | service/src/index.ts:82-91 | writing the first chunk bare and every later chunk behind `\n` produces exactly the newline-joined serialisation |
| Framing.SplitJoin | service/src/index.ts:82-91 | with at least one part and no raw `\n` in any part, splitting the joined stream on `\n` gives back exactly the parts |
| Framing.JoinSplit | service/src/index.ts:87 | joining the parts of a split on `\n` gives back the original stream |
| Gate.Middleware | service/src/index.ts:38-47 | rejected with 401 `Unauthorized` exactly when the Referer contains no allowlisted fragment; otherwise the body is the decoded `queryData` exactly when the URL contains `/chat-process` and is unchanged otherwise; a throwing decode is reported only on that route |
| Gate.AllowedIffSomeFragment | service/src/index.ts:40 | the three negated `includes` tests accept exactly the Referers that contain some fragment of the allowlist |
| Gate.RejectionIgnoresDecode | service/src/index.ts:40-41 | a rejected request never reaches the decoding step: the decision is the same whatever decode does |
| Gate.OtherRoutesIgnoreDecode | service/src/index.ts:43-46 | off the chat route the decoding step is not consulted and `next` runs with the body unchanged |
| Gate.PrefixedRoutesDecoded | service/src/index.ts:43-44 | the chat route is decoded under any prefix (such as `/api`) and with any query string |
| Gate.AllowlistIsSubstringTest | service/src/index.ts:40 | a Referer from any host passes when its text mentions an allowed fragment |
| RelayProperties.TryNeverFinalizes | service/src/index.ts:69-103 | the `try`/`catch` part never ends the response, updates the record or posts the notification, on the empty-prompt path and on the streaming path |
| RelayProperties.EndsExactlyOnce | service/src/index.ts:62-129 | the handler first sets the stream content type, and the response is ended exactly once, as the final effect, on every path of a request whose decoded body is an object |
| Relay.DeliverChunks | service/src/index.ts:82-91 | the `firstChunk` flag callback writes the framed chunks, whose concatenation is the newline-joined serialisation, and retains the last delivered chunk |
| RelayProperties.EmptyPromptAnswersNotice | service/src/index.ts:66-125 | a prompt that is empty after trimming yields exactly `请输入您的会话内容`, with no upstream call, no insert and no update, but the notification is still posted with the bare record |
| RelayProperties.StreamedBody | service/src/index.ts:70-103 | for a real prompt the upstream is called once with the trimmed prompt and prior context; the body is the serialised chunks joined by `\n` in delivery order, followed directly by the serialised error if the upstream threw |
| RelayProperties.BodySplitsIntoChunks | service/src/index.ts:82-91 | with N at least 1 chunks, no error and no raw `\n` in any serialised chunk, splitting the body on `\n` yields exactly the N serialised chunks in order |
| RelayProperties.UpstreamErrorAppended | service/src/index.ts:101-102 | an upstream error after k chunks leaves the k framed writes intact and adds exactly one write, the serialised error, with no `\n` prefix |
| RelayProperties.SidecarsFollowTable | service/src/index.ts:68-125 | the sequence of insert, update and notify calls of every request, case by case over prompt, database and insert outcome, and the last chunk as delivered |
| RelayProperties.UntrackedExchange | service/src/index.ts:73-106 | without a database or when the insert throws, streaming proceeds unchanged, the record never gets an id, and no update is issued |
| RelayProperties.RecordCompletedFromLastChunk | service/src/index.ts:104-114 | with a real insert id, the record is updated and then notified with conversation, conversation id and finish reason taken from the last delivered chunk as it stood when delivered |
| RelayProperties.SidecarsUntracked | service/src/index.ts:73-78 | without a database or when the insert throws, the calls are the insert (if a database exists) and the notification of the bare record, with no update |
| RelayProperties.SidecarsFalsyId | service/src/index.ts:76-121 | an insert returning the falsy id 0 is followed only by the notification of a record carrying id 0, with no update |
| RelayProperties.SidecarsFinalizeThrown | service/src/index.ts:104-109 | with a real id but no chunk, no detail or no choice, the only call is the insert: reading the last chunk throws before the update and the notification |
| RelayProperties.NotifyUnlessFinalizeThrows | service/src/index.ts:104-125 | the notification is posted exactly once on every path of a request whose decoded body is an object, the empty prompt included, and not at all exactly when a real id was assigned and reading the last chunk throws |
| RelayProperties.NotifyOutcomeIrrelevant | service/src/index.ts:113-121 | the notification's status or network failure never changes the body or which database and notification calls are made |
| RelayProperties.PersistenceIrrelevant | service/src/index.ts:73-111 | the database outcome (absent, insert throws, any id) never changes the body |

## Left out

- AES decryption and MD5 key derivation (lines 27-35) belong to a foreign crypto library. `JSON.parse` and `JSON.stringify` are library code too. All of them are opaque parameters: `decode` for decrypt-then-parse, `ser` for serialising a chunk, and an already-serialised upstream error.
- Gate.Middleware: the Referer is taken as a present string. A request without one makes line 40 throw before any check.
- Gate.Middleware: the error raised by a throwing decode is handed to Express's error handling, which is not modelled. The decision only records that the handler does not run with a body.
- The MySQL client, axios and the upstream chat client are I/O collaborators. They appear only as outcome values (`Db`, `Upstream`, `NotifyOutcome`) and as effects in the trace.
- The update at line 110 is not awaited. It is a fire-and-forget `Update` effect, and its asynchronous failure is not modelled.
- Relay.Handle: the prompt is taken as a string. A missing or non-string prompt would make `trim()` throw inside the `try` and write the serialised TypeError instead; that path is not modelled.
- RelayProperties.RecordCompletedFromLastChunk: the chunk kept as `myChat` (line 90) is taken as an immutable value. The source keeps a reference to the object the upstream client passed in and reads `text`, `id` and `detail.choices[0].finish_reason` from it at lines 107-109, after the upstream call has returned. A change the client makes to that object after delivering it (trimming `text` at the end of the stream, say) would reach the record but not the body; the model cannot express it, so the completed record is promised only as the last chunk stood when it was delivered.
- RelayProperties.SidecarsFollowTable: the chunk kept as `myChat` (line 90) is taken as an immutable value. The source keeps a reference to the object the upstream client passed in and reads `text`, `id` and `detail.choices[0].finish_reason` from it at lines 107-109, after the upstream call has returned. A change the client makes to that object after delivering it (trimming `text` at the end of the stream, say) would reach the record but not the body; the model cannot express it, so the completed record is promised only as the last chunk stood when it was delivered.
- Relay.Handle: the decoded body is taken as an object. A body of `null` (the plaintext `null` parses to it at line 44) makes the destructuring at line 66 throw before the `try`, so the `finally` block does not run, nothing is notified and the response is not ended. The "every path" claims of `EndsExactlyOnce` and `NotifyUnlessFinalizeThrows` cover only object bodies.
- Relay.Handle: `JSON.stringify` throwing inside the `catch` (a circular error object, say) is not modelled.
- The `auth` and `limiter` middlewares, `chatConfig` and `currentModel` are not part of this model, so the gate and the handler are modelled separately, not composed.
- The `/config` and `/session` routes (lines 131-151) and the `/verify` route (lines 158-177) are thin wrappers around collaborators.
- Static serving, JSON body parsing, the CORS headers (lines 49-60), route mounting under `''` and `/api`, and `app.listen` are plumbing.
- Client disconnects and concurrency between requests are not modelled. Each request owns its record and chunk reference.
- `temperature` is a JavaScript number. It is modelled as an optional `real` and only passed through.
- Strings are sequences of Unicode scalar values, not JavaScript's UTF-16 code units, so a prompt holding a lone surrogate (which `JSON.parse` produces from a `\ud800` escape) cannot be represented. `trim` and `includes` agree with the model on every string that can.
- `NotifyOutcome.Status` admits any status code, while axios by default rejects a non-2xx response, which then takes the `catch` path at line 119. The model therefore logs such a code as not-OK instead of as a failed POST. Only the `Log` entry in the trace differs.
