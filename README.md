# Jina AI MCP server: session registry, tool dispatch and request construction

A Dafny model of the sequential core of the Jina AI MCP server (`index.ts`).
The server exposes three tools, `read_webpage`, `search_web` and `fact_check`,
over the Model Context Protocol's server-push (SSE) transport. A client opens
an event stream with `GET /mcp`, and the transport of that stream is filed in
a registry under its session id. The client then POSTs JSON-RPC messages to
`/messages?sessionId=...`, and the server routes each one to the stream it
names. A `tools/call` message validates its arguments, runs the tool's
handler and answers with one text-content item, folding every failure into a
`{status: "error", error}` payload. On SIGINT the server closes every stream
it still has.

The model has four modules, one per concern of `index.ts`, plus a small
string library:

- `Sessions` (`sessions.dfy`): the registry as a class `Registry` holding a
  `map<string, Transport>`. `Open` is the GET handler's insert, `OnClose` the
  close hook, `RoutePost` the message endpoint's decision and `CloseAll` the
  SIGINT sweep. `Valid()` says every entry is filed under its own
  transport's session id, and every mutating method preserves it.
- `ToolCall` (`tool_call.dfy`): the `tools/list` catalog and the
  `tools/call` handler `CallTool`, with the validators and handlers passed in
  as functions, and the formatting of validation issues.
- `JinaClient` (`jina_client.dfy`): the headers, URLs and bodies of the three
  remote requests, the reply shapes, and the 500-character `rawResponse`
  kept when a reply cannot be parsed.
- `Strings` and `Options` (`strings.dfy`): JavaScript's `join`, the decimal
  rendering of integers, and the inverse readers (`Split`, `DecimalValue`,
  `QueryOf`) used to state round trips.

Collaborators that the code calls but does not define are parameters:
`encodeURIComponent` is a function `encode: string -> string`. The zod
validators are functions returning `Parsed(args)` or `Rejected(issues)`. The
tool handlers are functions returning their reply. Whether a transport's
`close` succeeds is a parameter `closeOk` of the shutdown sweep. The API key
is a parameter of the header builders.

The code has no per-call timeout and no configurable content limit. The only
bound anywhere is the fixed 500-character cut of `rawResponse`, and the model
has no other. The code also does not guarantee that session ids are unique
or that a closed id is never reused. `Open` simply overwrites an entry under
an existing id, and `OnClose` removes whatever is filed under its id. The
model keeps both behaviours.

## Model

| member | source | states |
|---|---|---|
| `Sessions.Registry.constructor` | index.ts:282 | The registry starts empty (and so `Valid`). |
| `Sessions.Registry.Open` | index.ts:294-298 | Opening a stream files its transport under its session id. An existing entry under that id is replaced, and every other entry is unchanged. `Valid` is preserved. |
| `Sessions.Registry.OnClose` | index.ts:301-304 | The close hook removes exactly the closing session's key and leaves every other entry as it was. For a key already gone it is a no-op. |
| `Sessions.Registry.RoutePost` | index.ts:325-341 | A missing or empty `sessionId` gives 400 (if and only if). An id with no entry gives 404 and does not dispatch, and this includes names inherited from `Object.prototype`. Otherwise the message goes to the transport filed under that id, which is that session's own transport under `Valid`. Routing has no modifies clause, so it leaves the registry unchanged. It answers exactly as the code as written (`RouteAsWritten`) for every id except an inherited member name with no entry. |
| `Sessions.Registry.CloseAll` | index.ts:383-391 | The SIGINT sweep asks every key present at its start to close, each exactly once, as recorded in the ghost log `closeCalls`. A failed close does not stop it. Afterwards the registry is exactly the old entries whose close failed, with their old transports, and the returned set is exactly those ids. Every key whose close succeeded is gone, so when every close succeeds the registry is empty. |
| `Sessions.ClosedSessionIsNotFound` | index.ts:297-337 | In any valid registry, after a stream is opened and its close hook has run, a POST naming its id gets 404. A POST naming another open stream still reaches that stream's transport. |
| `Sessions.RouteAsWritten` | index.ts:325-337 | The routing as written, where the lookup `transports[sessionId]` also sees inherited object members. A missing or empty id still gives 400 (if and only if). |
| `Sessions.PrototypeNameIsNotNotFound` | index.ts:332-346 | As written, a `sessionId` that names an `Object.prototype` member and no session (`toString` on an empty registry) passes the not-found check and ends in a 500. |
| `ToolCall.CallTool` | index.ts:206-279 | The handler always returns exactly one content item of type `text` whose text is a string. Missing arguments give `Arguments are required`. A name outside the catalog gives `Unknown tool: <name>`. A rejected validation gives the `Invalid arguments: ...` message for its issues. Otherwise the result is the tool handler's reply, serialised, or the search text passed through. The search branch is the corrected one of ## Findings (`SearchReplyText`); as written it is `SearchReplyTextAsWritten`, where a failed search yields a non-string. |
| `ToolCall.HandlersRunOnlyAfterValidation` | index.ts:208-254 | When the arguments are missing, the tool is unknown or the validator rejects, the result does not depend on any handler, so no handler is consulted. |
| `ToolCall.InvalidArgumentsMessage` | index.ts:257-266 | The validation error text starts with `Invalid arguments: `. For a single issue it is that prefix followed by `path.join(".") + ": " + message`. |
| `ToolCall.InvalidArgumentsInOrder` | index.ts:263 | Issues appear in the order they were reported: one more issue appends `, ` and its text at the end of the message. |
| `ToolCall.PathTextRecoverable` | index.ts:263 | When the keys of a non-empty issue path hold no `.`, splitting the joined text at `.` gives back every segment's text, in order. |
| `ToolCall.ListTools` | index.ts:184-204 | The catalog lists three tools with distinct names, each one of `read_webpage`, `search_web` and `fact_check`. |
| `ToolCall.CatalogMatchesDispatch` | index.ts:186-254 | A name is listed by `tools/list` if and only if `tools/call` dispatches it to a validator and handler. |
| `ToolCall.SearchReplyTextAsWritten` | index.ts:230-234 | The search branch as written agrees with the corrected `SearchReplyText` exactly when the search succeeded, and differs from it on every failure. |
| `ToolCall.SearchFailureIsNotText` | index.ts:124-131 | As written, a failed search puts the handler's own `{status: "error", error}` object itself, unserialised and so not a string, into the `text` field. |
| `ToolCall.SearchReplyText` | index.ts:230-234 | The corrected search branch: the text is always a string. Results pass through unchanged, and a failure becomes the serialised `{status: "error", error}` object. |
| `JinaClient.ReaderHeaders` | index.ts:39-48 | Reader headers always carry `Authorization: Bearer <key>`, `Content-Type` and `Accept`, both `application/json`. Each of the four flags adds its one `X-...` header exactly when it is true, with value `true`. No other header is present. |
| `JinaClient.ReaderRequestBody` | index.ts:56-59 | The reader body carries the URL. Its `options` is the format when one is given and non-empty, and `Default` when the format is absent or empty. |
| `JinaClient.SearchHeaders` | index.ts:98-104 | The search request carries exactly `Authorization` (the bearer credential) and `X-Respond-With: no-content`. |
| `JinaClient.GroundingHeaders` | index.ts:135-138 | The grounding request carries exactly `Authorization` (the bearer credential) and `Accept: application/json`. |
| `JinaClient.SearchUrlQuery` | index.ts:106-108 | When the encoded query holds no `?`, the search URL's query string is `count=` followed by the count's numeral, and the URL is exactly endpoint, encoded query, `?` and that query string. For a non-negative count, reading that numeral gives the count back. |
| `JinaClient.GroundingUrlQuery` | index.ts:143-144 | The grounding URL ends in `?deepdive=true` when `deepdive` is true and is the bare path otherwise. When the encoded statement holds no `?`, the URL has a query string exactly when `deepdive` is true, and with `deepdive` it is exactly endpoint, encoded statement, `?` and `deepdive=true`. |
| `JinaClient.RawResponse` | index.ts:82 | `rawResponse` is a prefix of the response text and is at most 500 characters long. It is the whole text when that is shorter (the same expression is at index.ts:171). |
| `JinaClient.UnparsableReply` | index.ts:168-172 | An unparsable reply becomes an error object with the fixed "cannot parse" message. Its `rawResponse` is exactly `RawResponse(text)`: a prefix of the text of at most 500 characters, and the whole text when that is short enough. |
| `JinaClient.SearchUrl` | index.ts:106-108 | The search URL begins with the search endpoint followed by the encoded query, and the next character is the `?` of the query string. |
| `JinaClient.GroundingUrl` | index.ts:143-144 | The grounding URL begins with the grounding endpoint followed by the encoded statement. It continues past that exactly when `deepdive` is true, and then the next character is `?`. |
| `Strings.JoinSnoc` | index.ts:263 | `join`: appending one more part appends exactly the separator and that part. |
| `Strings.SplitJoin` | index.ts:263 | `join` with a one-character separator is undone by splitting at it, when no part contains it. |
| `Strings.DecimalRoundTrip` | index.ts:108 | The numeral a count is rendered as reads back as that count. |

## Findings

| source | as written | input that shows it | evidently intended | confidence | as-written member | corrected member |
|---|---|---|---|---|---|---|
| index.ts:332-346 | `transports[sessionId]` on a plain object also returns members inherited from `Object.prototype`, which are truthy. The not-found check passes, and the hand-over then throws because the member has no `handlePostMessage`. | `POST /messages?sessionId=toString` with no such session | 404, as for every other id with no open stream | high (not executed) | `Sessions.RouteAsWritten` | `Sessions.Registry.RoutePost` |
| index.ts:230-234 | `searchWeb` returns an error object when the request fails (index.ts:127-130), and the branch places that object in `text` without serialising it. | a `search_web` call whose remote request fails | a string, like the serialised `{status: "error", error}` of the other two tools | medium (not executed) | `ToolCall.SearchReplyTextAsWritten` | `ToolCall.SearchReplyText` |

## Left out

- The `fetch` calls to the three endpoints and their status handling, including the "API error" messages built from `statusText`. They are network I/O, so each handler is a parameter returning its reply.
- `JSON.parse` and the schema checks of remote replies. When one fails, the reply is `UnparsableReply`; the parsed document itself is opaque.
- zod parsing and `zodToJsonSchema`. The validators are parameters, and the catalog omits the input schemas.
- The exact `JSON.stringify(..., null, 2)` text. Payloads are kept as structured values.
- The internals of the protocol library: session-id generation, `start`, `connect` and `handlePostMessage`. The 500 answers when `start`, `connect` or `handlePostMessage` throw (index.ts:312-317, 342-346) are not modelled. The entry inserted before `start` is kept when they fail, which is what `Open` does.
- A transport's `close` firing its own close hook during the sweep. The sweep's own deletion gives the same registry, so the model has only one removal.
- A repeated `sessionId` query parameter, which Express turns into an array. The query value is modelled as an optional string.
- The API key check at startup, the HTML root page, `app.listen`, logging and the `process.exit` calls (index.ts:24-27, 351-400). These are I/O.
- Interleaving of concurrent requests. The model runs one operation at a time.
- `Sessions.Registry.CloseAll`: it does not state the order in which ids are attempted, which in the source is the `for...in` order of the object's keys. The model attempts them in an arbitrary order.
- `Sessions.Registry.CloseAll`: the outcome of the library's `close` is given as a function `closeOk` of the transport. Which failures the library can raise, and whether a failed close has already fired the close hook, are not modelled.
- `JinaClient.RawResponse`: it counts Unicode characters, while `substring` counts UTF-16 code units. Every character outside the Basic Multilingual Plane among the first 500 takes two code units, so the source keeps fewer characters than the model does and may end on half a surrogate pair.
- `JinaClient.SearchUrlQuery`: the count is an integer rendered in plain decimal. Fractional counts and JavaScript's exponent notation for magnitudes of 1e21 and above are not modelled.
- `JinaClient.GroundingUrlQuery`: `encodeURIComponent` is uninterpreted. The query-string statements assume its output holds no `?`, which it guarantees by percent-encoding.
