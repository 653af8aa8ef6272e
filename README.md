# formidable-serverless: a Dafny model of the overridden `parse`

formidable-serverless replaces formidable's `IncomingForm.prototype.parse` so
that one parse entry point works for two kinds of request. A classic Node.js
request streams its body through 'data' events. A "serverless" request
(Firebase's `req.rawBody`, body-parser's raw `req.body`) already holds its
whole body in a Buffer. The overridden `parse` does three things, and this
project models each one:

- **Result aggregation** (`aggregate.dfy`, module `Aggregation`). When a
  callback is supplied, `parse` subscribes to the engine's 'field', 'file',
  'error' and 'end' notifications. It builds a fields table and a files
  table, and calls the callback with both. The closure state is the class
  `Aggregator`, with one method per handler. The pure fold `DeliverAll`
  specifies a whole sequence of notifications. Lemmas relate that fold to
  reference definitions: the last field value per name, and the files per
  name in arrival order.
- **Mode detection** (`detect.dfy`, module `Detection`). The pure function
  `Detect` classifies the request as buffered from `rawBody`, buffered from
  `body`, or streaming. A request property is a tagged value: missing, a
  Buffer, or present but not a Buffer. Lemmas show three things. `Detect` is
  the first-match search over the ordered slot list. `rawBody` has priority.
  A present non-Buffer value counts the same as an absent one.
- **Feed and termination** (`feed.dfy`, module `Feed`). The class `Form` is
  the engine instance as the adapter sees it. It has the engine's `error` and
  `ended` flags and a trace of the calls the adapter makes (`engine.dfy`
  defines `Call`). Its constructor `Setup` is the part of `parse` that runs
  synchronously: the buffered replay, or, for a streaming request, the header
  feed and the installation of the streaming handlers. Later request events
  are handled one at a time by `Run`. Each event carries the outcome of the
  engine or request call its handler makes. The pure function `Replay`
  specifies the calls made for a sequence of events. Lemmas over `Replay`
  cover three points. Data writes are never stopped by a failing write.
  `_parser.end()` is called once per 'end' that arrives while the error flag
  is clear. Every abort is reported.

The formidable engine is not part of this model. `writeHeaders`, `write`,
`_parser.end()` and `_error` are recorded calls. What each of them does
(return, throw, or return an error) is an input of the step. The engine sets
its own `error` and `ended` flags. The adapter only reads them. The model
therefore changes the flags only at an explicit `EngineSets` event, so it
covers every way the engine might set them.

The callback has no exactly-once guard. The 'error' and 'end' handlers
(lib/index.js:29-34) call it every time the engine emits those
notifications. `Aggregation.CallbackPerTerminal` states this behaviour. The
adapter has three guards of its own. The request's 'end' handler skips
`_parser.end()` while `self.error` is set (lib/index.js:44). The replaced
`pause` and `resume` pass a throw to `_error` only while `this.ended` is
clear (lib/index.js:80 and :94).

## Model

| member | source | states |
|---|---|---|
| Detection.FirstBuffer | lib/index.js:54-72 | the first slot in the given order whose value is a Buffer, with that Buffer's bytes; streaming exactly when no slot holds a Buffer |
| Detection.Detect | lib/index.js:54-72 | a buffered result carries the bytes of the slot it names; the result is streaming exactly when neither rawBody nor body is a Buffer |
| Detection.DetectIsFirstBuffer | lib/index.js:54-72 | the classification equals the first-match search over rawBody then body |
| Detection.RawBodyTakesPriority | lib/index.js:54-63 | a Buffer in rawBody is used whatever body holds |
| Detection.OnlyBuffersCount | lib/index.js:54-72 | a present non-Buffer value in rawBody or body is classified exactly like an absent one |
| Detection.DetectIgnoresHeaders | lib/index.js:54-72 | only rawBody and body decide the mode; the headers do not |
| Aggregation.Added | lib/index.js:15-28 | with multiples off, or with no entry yet, the entry becomes the bare file; with multiples on and an entry present, it becomes an array ending with the new file |
| Aggregation.FieldsLastWins | lib/index.js:12-14 | after any notifications, each field name holds the value of the last field received for it, and any other name keeps its old value |
| Aggregation.FilesGroupedByName | lib/index.js:15-28 | a name's file entry is its old entry with exactly that name's files added in arrival order; other names' files do not affect it |
| Aggregation.AddedAllToMany | lib/index.js:16-24 | with multiples on, files pushed onto an array entry are appended in arrival order |
| Aggregation.AddedAllOverwrites | lib/index.js:25-27 | with multiples off, the entry is the last file received, whatever was there before |
| Aggregation.AddedAllFromNothing | lib/index.js:15-28 | from no entry: the first file is bare; with multiples on, from the second file on the entry is the array of all files; with multiples off, it is the last file |
| Aggregation.FilesAfterParse | lib/index.js:9-28 | from empty tables: a name with no file has no entry; with multiples off it holds the last file; with multiples on it holds the first file bare, then from the k-th file (k >= 2) the array of all k files in arrival order |
| Aggregation.NoCallbackNoEffect | lib/index.js:8-35 | without a callback, no notification changes either table or invokes anything |
| Aggregation.CallbackPerTerminal | lib/index.js:29-34 | every 'error' notification invokes the callback with its error, and every 'end' with null, in order, once each |
| Aggregation.Aggregator.constructor | lib/index.js:8-10 | both tables start empty; handlers are installed exactly when a callback is supplied |
| Aggregation.Aggregator.OnField | lib/index.js:12-14 | fields[name] becomes the value; every other entry and the files table are unchanged |
| Aggregation.Aggregator.OnFile | lib/index.js:15-28 | the entry for name is replaced, wrapped and appended to, or stored bare, as multiples and the old entry dictate; every other name is unchanged |
| Aggregation.Aggregator.OnError | lib/index.js:29-31 | the callback is invoked with the error and the current tables |
| Aggregation.Aggregator.OnEnd | lib/index.js:32-34 | the callback is invoked with null and the current tables |
| Aggregation.Aggregator.Dispatch | lib/index.js:11-34 | one notification has exactly the effect Deliver specifies |
| Aggregation.Aggregator.Run | lib/index.js:11-34 | a sequence of notifications, handled in order, leaves exactly the state DeliverAll specifies |
| Feed.SetupOrder | lib/index.js:53-108 | every path calls writeHeaders first; if it throws, the only other call is _error with that exception; setup makes no flow-control or abort call |
| Feed.SetupWrites | lib/index.js:53-72 | the payload is written once, only on the buffered paths, and only when writeHeaders returned; the streaming setup writes no body |
| Feed.StreamingWritesEveryChunk | lib/index.js:117-123 | streaming: the chunks written are exactly the data chunks in delivery order, whatever earlier writes did |
| Feed.BufferedOnlyEndsAndReports | lib/index.js:39-72 | buffered: request events cause only _parser.end() and _error calls; no data, abort, pause or resume handling exists |
| Feed.ParserEndPerCleanEnd | lib/index.js:43-51 | _parser.end() is called exactly once per request 'end' that arrives while the error flag is clear, so never more often than 'end' arrives |
| Feed.ErrorSuppressesParserEnd | lib/index.js:43-46 | while the engine's error flag stays set (the engine may still change `ended`), no 'end' calls _parser.end() |
| Feed.EveryAbortReported | lib/index.js:112-115 | streaming: 'aborted' is emitted once per abort event, and each emission is immediately followed by an error whose message is "Request aborted" |
| Feed.ParseWrites | lib/index.js:53-124 | over a whole parse, a buffered request has its payload written exactly once (if the headers went in) and nothing else; a streaming request has exactly its chunks written, in order |
| Feed.Form.Setup | lib/index.js:37-124 | a fresh engine is classified by Detect and makes exactly the setup calls SetupCalls lists; streaming handlers are installed exactly for a streaming request; notifications emitted during the buffered `write` reach the already-installed aggregation handlers |
| Feed.Form.OnData | lib/index.js:117-123 | streaming: the chunk is written and a throw is passed to _error; buffered: nothing happens |
| Feed.Form.OnEnd | lib/index.js:43-51 | with the error flag set nothing is called; otherwise _parser.end() is called once and a returned error goes to _error |
| Feed.Form.OnRequestError | lib/index.js:39-41 | a request error is passed to _error |
| Feed.Form.OnAborted | lib/index.js:112-115 | streaming: emit 'aborted', then _error with message "Request aborted"; buffered: nothing |
| Feed.Form.Pause | lib/index.js:75-87 | streaming: req.pause() is called; the result is true iff it returned; a throw is passed to _error only when the engine has not ended |
| Feed.Form.Resume | lib/index.js:89-101 | streaming: req.resume() is called; the result is true iff it returned; a throw is passed to _error only when the engine has not ended |
| Feed.Form.Dispatch | lib/index.js:39-123 | one event makes exactly the calls StepCalls lists; the adapter never changes the engine's flags |
| Feed.Form.Run | lib/index.js:39-123 | events handled in order make exactly the calls Replay lists |
| Feed.Parse | lib/index.js:5-126 | the aggregation handlers are installed before the body is fed, so the tables hold exactly the notifications emitted during the buffered `write`, folded from empty (empty when no write happens); subscribed exactly when a callback is given; the engine gets exactly the setup calls |
| FilesAsWritten.Read | lib/index.js:17 | files[name] on a plain object finds an own entry, or else something truthy exactly for the inherited Object.prototype names |
| FilesAsWritten.AddFileAsWritten | lib/index.js:16-24 | as written, the file is stored bare exactly when the name has neither an own nor an inherited entry; otherwise it becomes the last item of an array; every other own key is unchanged |
| FilesAsWritten.FirstConstructorFileIsWrapped | lib/index.js:16-24 | as written, the first file uploaded under the name "constructor" with multiples on is stored as [Object, file], not bare |
| FilesAsWritten.AgreesOffInheritedNames | lib/index.js:16-24 | for every non-inherited name, the code as written and the corrected Aggregation.Added store the same entry |

## Left out

- The formidable engine is not part of this model. This covers `writeHeaders`, `write`, `_parser.end()`, `_error`, and when the engine emits 'field', 'file', 'error' and 'end'. Its calls are recorded, and their outcomes are inputs of each step.
- The engine's `error` and `ended` flags change only at explicit `EngineSets` events. The model does not say when formidable sets them, for example inside `_error`.
- No claim is made that the callback fires exactly once. That depends on when `_error` and the engine emit 'error' and 'end', and that code is not visible.
- Feed.Form.OnEnd: takes `_parser.end()` only as returning an error or null. If the call throws (for example, when no parser was installed), the exception escapes the 'end' handler uncaught. The model does not represent that.
- Feed.Form.OnEnd: the test `if (err)` is modelled as "an error was returned". Other falsy return values are not distinguished.
- Feed.Form.Pause and Feed.Form.Resume: on a buffered request the engine keeps its own `pause`/`resume`. Those are formidable's code, so the model returns None there.
- The wire format, header parsing and file storage belong to formidable and are not modelled.
- EventEmitter mechanics are not modelled: `.on`, `emit`, listener exceptions thrown out of `emit('aborted')`, and asynchronous delivery. Events are a sequence of discrete steps handled one at a time on a single loop.
- Real stream pause and resume are not modelled. Only the adapter's `req.pause()`/`req.resume()` calls and their outcomes are.
- `Buffer.isBuffer` is a tag on the request property (`Property.Buffer`), not a runtime type test.
- `cb` is reduced to whether one was supplied.
- Aggregation.Aggregator.OnError and Aggregation.Aggregator.OnEnd: the callback receives the live `fields` and `files` objects. The model records a snapshot per invocation, so later changes seen through those references are not represented.
- Feed.Form.Setup: routes to the aggregation handlers only the notifications emitted during the buffered `write`. Notifications the engine emits during `writeHeaders`, inside `_error`, or during later streaming writes are not tied to the call that caused them. They are handled by `Aggregation.Aggregator.Run` on its own.
- Aggregation.Aggregator.Run: reads `multiples` once for the whole run. `OnFile` takes it per event, as the handler reads `this.multiples` at each event.
- Field or file names equal to `__proto__` are not modelled. In JavaScript, assigning to that key of a plain object changes the prototype instead of adding an entry. The model treats it as an ordinary key.
- Aggregation.Added: looks names up among the table's own keys. That is the corrected behaviour of the multiples branch. The behaviour as written, which also sees inherited names, is modelled separately in FilesAsWritten (see Findings).
- Prototype patching, the `module.exports` wiring and the `return this` chaining are plumbing with no behaviour to model.

## Findings

| source | as written | input that shows it | evidently intended | confidence | as-written member | corrected member |
|---|---|---|---|---|---|---|
| lib/index.js:17-23 | `if (files[name])` tests a plain object `{}`, so an inherited Object.prototype member counts as an existing entry, is wrapped into an array and the file is pushed after it | `multiples` on, one file uploaded under the field name "constructor": `files.constructor` becomes `[Object, file]` | the first file under any name is stored bare (test own keys only) | high; not executed | FilesAsWritten.FirstConstructorFileIsWrapped | Aggregation.FilesAfterParse |
