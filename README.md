# Region-aware shopping assistant: agent, history and streaming protocol

The system answers product questions for a user in a given region (a
two-letter country code). The backend builds a region-specific system
prompt, keeps a bounded in-memory conversation history, runs a
tool-calling language-model agent, and streams what the agent does as
Server-Sent Events: one `data: <json>` frame per event (`final`, `tool`,
`done` or `error`), then a `data: [DONE]` frame. The browser's API module
(frontend/src/services/api.js) exports a stream reader,
`sendMessageStream`. It reads such a stream back with a line buffer and
calls its `onChunk` callback for every `final` and `tool` chunk. The chat
page imports it but does not use it: it calls the non-streaming
`sendMessage` (frontend/src/components/ChatContainer.jsx:41). The page
shows each message after normalising its content to text.

This project models that core in Dafny:

- `text.dfy` (`Text`): the JavaScript string operations the code relies on,
  written out over `seq<char>`:
  - `split('\n')` and `join`;
  - the complete lines of a text and the tail that a reader keeps;
  - `trim` and decimal rendering.
- `json.dfy` (`Json`): JavaScript values as `JSON.parse` produces them, plus
  `undefined`, and three JavaScript behaviours:
  - truthiness;
  - `?.` property access, where the last duplicate key wins;
  - `String(x)`.
- `constants.dfy`, `utils.dfy`, `prompts.dfy`: the region tables, the
  agent settings, the lookups with fallback, and the system prompt template.
  The template is kept line by line with today's date as a parameter.
- `agent.dfy` (`Agent`) models the backend agent:
  - `extractStringContent` and `addToHistory` with its size limit;
  - how a run of the executor becomes the events of `processQueryStream`
    and the reply of `processQuery`;
  - the module state (`chatHistory`, `currentRegion`, whether the executor
    is initialised) as the class `Session`.

  The executor is a function parameter. It maps the request it receives
  (system prompt, history snapshot, input) to a run: the chunks it
  delivers, then possibly a failure.
- `server.dfy` (`Server`): the framing written by the streaming endpoint.
- `api.dfy` (`Api`) models the browser reader `sendMessageStream`:
  - It works over the decoded text chunks, with `JSON.parse` as a parameter.
  - Its buffer and line loops are proved against `Payloads(CompleteLines(Concat(chunks)))`:
    the `data:` payloads of the complete lines of the whole input, up to
    `[DONE]`.
  - It is connected to the server framing by a round trip that holds for
    every way of cutting the body into reads.
- `message.dfy` (`Message`): the page's `extractTextContent` and how it
  agrees and disagrees with the backend's `extractStringContent`.

`JSON.stringify` (plain and indented) and `JSON.parse` are parameters
(`stringify`, `pretty`, `parse`):
- the clock appears only as the `currentDate` and `latency` parameters;
- a thrown exception is a `failure`/`Threw` value of the run.

The page's `extractTextContent` recurses on what `JSON.parse` returns.
Its termination rests on one stated property of `parse`: every string
inside a parsed value is shorter than the text it came from.

The system's documentation describes some behaviour that the code does
not have. The model follows the code:
- The documented design says every stream ends with a `done` event. In
  the code, a failed streaming run ends with its `error` event and no
  `done` event.
- Initialisation failures: the code does report them at startup.
  `startServer` (backend/src/index.js:102-107) calls `initializeAgent()`
  before `app.listen` and exits the process when it fails. In addition,
  backend/src/agent.js guards each query (lines 153-155 and 203-205): an
  uninitialised agent gives an `error` event or an
  `Error: Agent not initialized` reply. The server as started never
  reaches those guards. The model keeps them, as the `!ready` paths of
  `Session`.
- The documented design has one `final` event per answer. In the code, a
  chunk with a truthy `output` yields a `final` event every time, so a run
  may yield several.
- The documented design has content normalised to text. In the code, a
  truthy `.text` field is returned as it is, even when it is not a string.

## Model

| member | source | states |
|---|---|---|
| Constants.TablesShareKeys | backend/src/constants.js:2-39 | the country-name table and the currency table have exactly the same fifteen region codes |
| Constants.TableValuesNonEmpty | backend/src/constants.js:2-39 | no table entry is empty, so the `\|\|` fallback never fires for a known code |
| Constants.DefaultRegionKnown | backend/src/constants.js:42-49 | the default region `IN` is a key of both tables |
| Constants.HistoryLimitEven | backend/src/constants.js:47 | the history limit is 20, an even number, i.e. ten whole exchanges |
| Constants.AgentLimitsPositive | backend/src/constants.js:45-46 | the executor gets at least one iteration and the search tool at least one result |
| Constants.CurrenciesNotInjective | backend/src/constants.js:23-39 | two regions (DE, FR) share the label `EUR (€)`, so the currency label does not identify the region |
| Utils.GetCurrencyInfo | backend/src/utils.js:22-24 | a known region gets its table label, an unknown one `local currency`; the result is never empty |
| Utils.GetCountryName | backend/src/utils.js:32-34 | the result is the table's non-empty name for the code or else the code itself; it is empty only for an empty code |
| Utils.CountryNameFromTable | backend/src/prompts.js:11 | with the backend's own table, known codes get their name and unknown codes fall back to the code |
| Json.JsToString | backend/src/agent.js:114 | `String(x)` leaves a string unchanged |
| Json.PropShrinks | frontend/src/components/Message.jsx:32-33 | a property read never holds a longer string than its object (the measure the page's recursion decreases) |
| Prompts.PromptTemplate | backend/src/prompts.js:14-55 | the template starts with the preamble and today's date and contains the location clause, the currency rule and both bans |
| Prompts.PromptStartsWithDate | backend/src/prompts.js:14 | the prompt opens with the preamble followed by the current date |
| Prompts.PromptStatesLocation | backend/src/prompts.js:16 | the prompt contains `The user is located in <country> (<region>)` |
| Prompts.PromptStatesCurrency | backend/src/prompts.js:17 | the prompt contains `Prices MUST be in local currency (<currency>)` |
| Prompts.PromptForbidsWorkarounds | backend/src/prompts.js:52-53 | the prompt forbids gray-market workarounds and alternative products |
| Prompts.GetSystemPrompt | backend/src/prompts.js:9-56 | the prompt for a region names the resolved country (the code itself when unknown) and the resolved currency (`local currency` when unknown), opens with the date and carries both bans |
| Agent.ExtractStringContent | backend/src/agent.js:92-105 | the normalised content is a string or a truthy value; that the truthy value is the one found in `.text` is stated by `Agent.ExtractTextWins`, and that it is a string whenever every `.text` reached is one by `Agent.ExtractYieldsString` |
| Agent.ExtractIdempotent | backend/src/agent.js:93-95 | strings come back unchanged, so normalising a string result again changes nothing |
| Agent.ExtractArrayAppend | backend/src/agent.js:96-101 | the text of an array is the text of any prefix followed by the text of the rest, in order |
| Agent.ExtractArrayItem | backend/src/agent.js:98-100 | a single item contributes `String(item.text)` when it is a text part with truthy text, and nothing otherwise |
| Agent.ExtractSkipsNonText | backend/src/agent.js:98 | removing an item that is not a text part leaves the array's text unchanged |
| Agent.ExtractTextWins | backend/src/agent.js:102 | on a non-string, non-array value a truthy `.text` is the result |
| Agent.ExtractFollowsContent | backend/src/agent.js:103 | without a truthy `.text`, a truthy `.content` is normalised in its place |
| Agent.ExtractFallbacks | backend/src/agent.js:104 | a falsy value gives `''`; any other value without usable `.text`/`.content` gives its JSON text |
| Agent.ExtractYieldsString | backend/src/agent.js:92-105 | when every `.text` reached along the `.content` chain is a string, the result is a string |
| Agent.AddedHistory | backend/src/agent.js:112-129 | the exchange is pushed only when the user text is non-empty and the normalised reply is truthy; the history then keeps the newest `min(\|h\|+2, 20)` entries of `h` plus the exchange |
| Agent.AddedHistoryWellFormed | backend/src/agent.js:112-129 | adding keeps the history bounded by the limit, alternating user/assistant from a user turn, with no empty turn |
| Agent.AddedHistoryEvictsOldest | backend/src/agent.js:123-125 | with a full history a new exchange evicts exactly the oldest exchange |
| Agent.AddedHistoryEndsWithExchange | backend/src/agent.js:119-125 | after a recorded exchange the history ends with that exchange |
| Agent.HistoryForRegion | backend/src/agent.js:135-141 | the history an executor sees is the old one when the region is unchanged and empty when it changed |
| Agent.EventValue | backend/src/agent.js:171-189 | every event is written as a JSON object; `Agent.EventFields` reads its fields back |
| Agent.EventFields | backend/src/agent.js:171-189 | each event object's `type` is `final`, `tool`, `done` or `error` according to the event, and its other fields read back as the event's own content, tool name (with `Searching...`) or latency |
| Agent.ToolEvents | backend/src/agent.js:173-175 | one `tool` event per intermediate step, in order, naming the step's tool |
| Agent.ChunkEventsOf | backend/src/agent.js:169-176 | a chunk with a truthy output yields exactly its `final` event; any other chunk yields only `tool` events, and none at all when it has no `intermediateSteps` |
| Agent.ChunkEvents | backend/src/agent.js:168-177 | the events of the loop, chunk by chunk in order; it has no contract of its own: `Agent.ChunkEventsKinds` and `Agent.ChunkEventsAppend` state its properties and `Agent.StreamChunks` is proved against it |
| Agent.ChunkEventsKinds | backend/src/agent.js:168-177 | the streamed loop yields only `final` and `tool` events, and every `final` carries a truthy output |
| Agent.LastOutput | backend/src/agent.js:160-171 | `fullResponse` is truthy or still `''`; that it is the last truthy output, and the content of the last `final` event, is stated by `Agent.LastOutputTruthy` and `Agent.LastOutputIsLastFinal` |
| Agent.StreamEvents | backend/src/agent.js:168-190 | a run yields `final`/`tool` events, then exactly one terminal event: `done` with the latency, or `error` with the failure message |
| Agent.StreamHistory | backend/src/agent.js:179-182 | a failed run or one without a truthy output leaves the history unchanged |
| Agent.ChunkEventsAppend | backend/src/agent.js:168 | events follow chunk order: the events of consecutive chunk sequences concatenate |
| Agent.ChunkWithOutput | backend/src/agent.js:169-171 | a chunk with a truthy output yields exactly one `final` event and its steps are ignored |
| Agent.ChunkWithSteps | backend/src/agent.js:172-175 | a chunk without truthy output yields one `tool` event per step |
| Agent.ChunkWithNothing | backend/src/agent.js:169-176 | a chunk with neither a truthy output nor `intermediateSteps` yields no event, wherever it occurs in the stream |
| Agent.LastOutputTruthy | backend/src/agent.js:169-170 | `fullResponse` is truthy exactly when some chunk had a truthy output |
| Agent.NoOutputNoFinal | backend/src/agent.js:169-171 | when `fullResponse` stays `''` no `final` event was yielded |
| Agent.LastOutputIsLastFinal | backend/src/agent.js:169-181 | the response written to history is the content of the last `final` event yielded |
| Agent.DoneExactlyOnce | backend/src/agent.js:184-190 | a complete run has exactly one `done` event, the last one; a failed run has none and ends with its single `error` |
| Agent.StreamChunks | backend/src/agent.js:168-177 | the `for await` loop yields exactly `ChunkEvents(chunks)` and leaves `fullResponse == LastOutput(chunks)` |
| Agent.Session.constructor | backend/src/agent.js:11-15 | the module starts with no executor, empty history and the default region |
| Agent.Session.InitializeAgent | backend/src/agent.js:21-47 | success is reported exactly when the clients were built, which makes the agent ready; history and region are untouched |
| Agent.Session.ClearMemory | backend/src/agent.js:81-85 | the history is emptied and the region reset to the default |
| Agent.Session.HandleRegionChange | backend/src/agent.js:135-141 | afterwards the region is the requested one; the history is wiped exactly when the region changed |
| Agent.Session.AddToHistory | backend/src/agent.js:112-129 | the history becomes `AddedHistory` of the old one and stays well formed |
| Agent.Session.ProcessQueryStream | backend/src/agent.js:149-191 | uninitialised: a single `Agent not initialized` error and no state change; otherwise the region is switched first, the executor sees the new region's prompt and the post-switch history, the events are `StreamEvents` of its run and the history is `StreamHistory` |
| Agent.Session.ProcessQuery | backend/src/agent.js:199-234 | uninitialised: `Error: Agent not initialized` with `success` false; otherwise a returned output is the reply with `success` true and is added to history, a thrown message gives `Error: <message>` with the history as it was after the region switch |
| Server.Frame | backend/src/index.js:45 | one `data: <payload>` frame and its blank line; no contract of its own, `Server.FrameLayout` states its layout |
| Server.FrameLayout | backend/src/index.js:45 | a frame is `data: `, then the payload itself, then a blank line |
| Server.ServerText | backend/src/index.js:43-53 | the frames of the payloads in order, then the `[DONE]` frame; no contract of its own, `Server.ServerTextEndsWithDone` and `Api.ServerTextLines` state its properties |
| Server.ServerTextEndsWithDone | backend/src/index.js:43-53 | the body written for any payloads ends with the `data: [DONE]` frame |
| Server.StreamBody | backend/src/index.js:43-53 | the response body for a stream of events; no contract of its own, `Server.StreamBodyEndsWithDone` and `Api.EventsReachClient` state its properties |
| Server.StreamBodyEndsWithDone | backend/src/index.js:43-53 | the body written for any events ends with the `data: [DONE]` frame |
| Server.WrittenPayloads | backend/src/index.js:43-45 | every yielded event is serialised, in order, once: the k-th payload is the JSON text of the k-th event |
| Api.Payload | frontend/src/services/api.js:33 | the text after `data: `, trimmed; no contract of its own: `Text.TrimStrips` states what trimming leaves and `Api.DataLine` reads a written payload back |
| Api.IsDoneLine | frontend/src/services/api.js:32-35 | a line is the end marker when it is a `data: ` line whose trimmed payload is `[DONE]`; it has no contract of its own, and `Api.DoneLineIsDone` shows that the server's last frame is such a line |
| Api.Payloads | frontend/src/services/api.js:31-37 | only `data: ` lines before the first `[DONE]` contribute, and no handled payload is the marker |
| Api.PayloadsAppend | frontend/src/services/api.js:31-37 | lines before `[DONE]` contribute their payloads in order and nothing after `[DONE]` counts |
| Api.Dispatch | frontend/src/services/api.js:39-56 | one payload adds at most one callback, never removes any, and changes the latency only for a `done` chunk |
| Api.DispatchAll | frontend/src/services/api.js:15-61 | handling payloads in turn only ever adds callbacks, at most one per payload |
| Api.DispatchAllAppend | frontend/src/services/api.js:31-58 | payloads are handled strictly one after another |
| Api.ErrorsDoNotStop | frontend/src/services/api.js:49-56 | an `error` chunk or an unparsable payload has no effect and the later payloads are still handled |
| Api.LatencyWithoutDone | frontend/src/services/api.js:18 | without a `done` chunk the reported latency is 0 |
| Api.LatencyOfLastDone | frontend/src/services/api.js:47-48 | the reported latency is that of the last `done` chunk |
| Api.DoneStopsReading | frontend/src/services/api.js:35-37 | once `[DONE]` has been read, nothing read after it adds a payload |
| Api.HandleLines | frontend/src/services/api.js:31-58 | the `for` loop over one read's lines handles exactly the payloads of those lines after the earlier ones and reports whether `[DONE]` was met |
| Api.ReadChunk | frontend/src/services/api.js:25-58 | after one read the buffer is the text after the last line feed of all input so far and the progress is that of all complete lines so far |
| Api.SendMessageStream | frontend/src/services/api.js:15-61 | always `success: true`; the callbacks and latency are those of the payloads of the complete lines of the whole input up to `[DONE]`, with a trailing unterminated line ignored |
| Text.Split | frontend/src/services/api.js:28 | `split('\n')` always gives at least one piece; `Text.SplitJoin` and `Text.SplitPiecesHaveNoLineFeed` characterise it |
| Text.Trim | frontend/src/services/api.js:33 | `trim` as `TrimEnd` after `TrimStart`; no contract of its own, `Text.TrimStrips` and `Text.TrimmedFixed` state its properties |
| Text.TrimStrips | frontend/src/services/api.js:33 | `trim` leaves neither a leading nor a trailing white-space character and never lengthens the string |
| Text.SplitJoin | frontend/src/services/api.js:28-29 | the split lines joined back with line feeds reconstruct the text |
| Text.SplitPiecesHaveNoLineFeed | frontend/src/services/api.js:28-29 | no line, and in particular not the buffer kept by `pop`, contains a line feed |
| Text.CompleteLinesAppend | frontend/src/services/api.js:25-29 | the lines completed by more input are the earlier ones followed by those of the buffer plus the new text |
| Text.TrailingPartialLineIgnored | frontend/src/services/api.js:20-29 | a trailing text without a line feed completes no line |
| Api.PayloadsOfFramedLines | frontend/src/services/api.js:31-37 | the lines of the framed stream yield exactly the framed payloads |
| Api.ServerTextLines | backend/src/index.js:43-53 | the body's complete lines are each frame's `data:` line followed by a blank line, ending with the `[DONE]` frame |
| Api.RoundTrip | backend/src/index.js:43-53 | for payloads without line feeds, surrounding spaces or the marker, the client recovers exactly the written payloads in order |
| Api.AnyChunking | frontend/src/services/api.js:20-37 | the same holds however the body is cut into reads; this is `Api.RoundTrip` applied through `Api.SendMessageStream`, whose ensures already makes the result independent of the chunking |
| Api.DispatchEvent | frontend/src/services/api.js:40-48 | a serialised event parsed back has its intended effect: `final` calls back with the content, `tool` with the tool, `done` sets the latency, `error` does nothing |
| Api.DispatchEvents | frontend/src/services/api.js:39-56 | a stream of serialised events has the effect of its events in order |
| Api.EventsReachClient | backend/src/index.js:43-53 | end to end, every event yielded by the agent reaches `sendMessageStream`'s `onChunk` calls and latency, in order |
| Message.ExtractTextContent | frontend/src/components/Message.jsx:7-41 | the shown content is a string or a truthy value, and `null` and `undefined` show as `''`; that the truthy value is the object's `.text` is stated by `Message.ObjectCases` |
| Message.PlainStringShown | frontend/src/components/Message.jsx:9-19 | a string not starting with `[` or `{`, or one that does not parse, is shown unchanged |
| Message.JsonStringReparsed | frontend/src/components/Message.jsx:11-14 | a string that looks like JSON and parses is replaced by the extraction of its value |
| Message.ObjectCases | frontend/src/components/Message.jsx:31-40 | on an object a truthy `.text` wins, else a truthy `.content` is followed, else the indented JSON text is shown |
| Message.ScalarsShownAsJson | frontend/src/components/Message.jsx:37-40 | numbers and booleans, falsy ones included, are shown as their JSON text |
| Message.AgreesOnArrays | frontend/src/components/Message.jsx:23-28 | on arrays the page and the backend extract the same string |
| Message.AgreesAlongChain | frontend/src/components/Message.jsx:9-34 | along a `.text`/`.content` chain ending in a truthy `.text`, an array or a non-JSON string, page and backend agree |
| Message.Divergences | frontend/src/components/Message.jsx:11-40 | they differ on falsy numbers and `false` (`''` versus JSON text), on JSON-looking strings (kept versus re-parsed) and on objects without a truthy `.text` or `.content` (compact versus indented JSON text) |

## Left out

- The language model, the search tool and LangChain's executor, which
  `createRegionAgent` (backend/src/agent.js:54-76) assembles:
  - The executor is a function parameter from request to run.
  - The model name, temperature, `maxIterations` and `maxResults` only
    configure that library.
  - The iteration cap is enforced inside it.
- The clock: `getCurrentDate` and `Date.now()` become the `currentDate`
  and `latency` parameters.
- Logging through `console`.
- Everything asynchronous:
  - Concurrent requests share the module state, and their interleaving is
    not modelled.
  - The `for await` stream is a finite sequence of chunks, followed
    possibly by a failure.
- The HTTP layer of `backend/src/index.js`:
  - routing and request validation (`400` for a missing message);
  - headers and the non-streaming endpoint;
  - the `catch` at lines 56-59, which writes a
    `data: {"type":"error",...}` frame and ends the response with no
    `data: [DONE]` frame. It is reached when:
    - `req.body` is missing, because the destructuring at line 27 throws
      before the `400` check and before any SSE header is sent;
    - `JSON.stringify(chunk)` or `res.write` throws, at lines 44-45;
    - the generator's own `catch` (backend/src/agent.js:188-190) throws,
      for example when reading `.message` of a thrown `null` or
      `undefined`.

    The model's response body (`Server.StreamBody`) always ends with the
    `[DONE]` frame, so it does not cover these cases.
- Defaults for an omitted `region` argument: every call passes a region.
- In the browser:
  - `fetch`, `response.ok`, the stream reader and `TextDecoder`: the reader
    works on already-decoded text chunks.
  - `sendMessage` and `clearChat`.
  - The `Message` component's rendering and the chat container.
- `RESTRICTED_BRANDS`, which no code reads.
- JavaScript numbers are integers in the model: no floats, `NaN` or
  `Infinity`. `String(x)` and `JSON.stringify` print an integer of
  magnitude at least 10^21 in exponent form (`1e+21`); `Json.JsToString`
  and `Text.IntToDecimal` print every integer in plain decimal digits.
- Properties inherited from prototypes are not modelled: only own members
  of objects are read.
- `JSON.parse` and `JSON.stringify` are abstract parameters. The round trip
  assumes a serialiser that writes no line feed and a parser that reads its
  output back.
- Message.ExtractTextContent: requires that `parse` returns values whose
  strings are shorter than the parsed text. This is true of `JSON.parse`,
  and the recursion's termination depends on it.
