# Hemera Apache runtime: dispatch, argument parsing and the connection pump

This project models, in Dafny, the three sequential pieces of logic at the
centre of Hemera's Apache HTTP runtime, and proves what they promise.

- **The request dispatcher** (`RequestHandling`, in `dispatch.dfy`). It
  parses the request line and looks up the resource and then its processor. It
  parses the request's arguments and builds the processor's typed request. It
  follows the processor's redirect behaviour (invoke, redirect before invoking,
  or invoke and then redirect) and commits the processor's response: its
  status, plus its JSON as an `application/json` entity, wrapped as
  `callback(json)` when a `callback` argument is present. An inactive processor
  is answered 503. Every failure is answered by its kind, whatever stage raised
  it:
  - an unsupported operation is 404;
  - an illegal argument is 400;
  - a socket timeout writes nothing;
  - anything else goes to the runtime's exception handler once and is answered 500.

  The HTTP response is an object that `RequestHandler.Handle`,
  `InvokeProcessor` and `SetUncaughtExceptionResponse` write step by step. Each
  of these methods is proved to leave the response in the state a pure
  function (`HandleResult`, `Committed`, `ErrorResponse`) describes. The
  properties are lemmas about those functions.
- **The argument parser** (`Arguments`, in `arguments.dfy`). One map is filled
  in place. The URI's query arguments go in first. Then the body's arguments go
  in, from either a URL-encoded body or a multipart body, whose parts are put
  in stream order. `ParseArguments`, `ParseBody` and the loop in
  `ParseMultipartBody` are proved against the fold `AbsorbBody`/`AbsorbParts`,
  and the lemmas prove the following about that fold:
  - the body wins over the URI;
  - URI arguments the body does not supply survive;
  - the last part of a name wins;
  - a failure aborts the whole parse.
- **The connection pump** (`Connection`, in `connection.dfy`). This is the
  cyclic task of one accepted connection. `Execute` runs one exchange when the
  connection is open and answers whether to be called again. `Cleanup` shuts
  an open connection down and ignores a failing shutdown. `SignalTerminate`
  shuts it down unconditionally. The pump records the exchanges it dispatches
  and the shutdowns it performs, and keeps a ghost history of the calls made on
  it. Its class invariant ties both records to that history. `Execute`'s
  contract says every dispatched exchange is handed the one context the pump was
  created with. Lemmas over any sequence of calls show the following:
  - nothing runs after a termination or a cleanup;
  - a cleanup shuts down only a connection that is still open;
  - there are never more go-on answers than dispatched exchanges.

Foreign code is represented by values:
- the resource registry and the processors are records of functions;
- the URI parsers, the URL decoder and the method parser are functions;
- the multipart upload iterator is the sequence of parts it yields;
- each exchange handled by the HTTP service is an outcome.

Each of these calls that can throw answers a `Result` whose error is a
`Failure`. That covers the URI parser, the method parser, both URI argument
parsers, the URL decoder, the registry and resource lookups, and every
processor call. Failures are classified as the dispatcher's catch clauses
classify them: socket timeout, unsupported operation, illegal argument (each
with its message, `None` for Java's null), or any other exception. The
exception handler and the reading of a form field as text are taken not to
throw; see "Left out". Java's `"..." + e.getMessage()` of a null message
gives `"null"`, and the model keeps this (`MessageText`).

On redirect-after-invoke, `handle` sets status 307 and the `Location` header
after `invoke` has committed the processor's result. The entity that `invoke`
wrote stays on the response (`RequestHandler.java:119-124`, after `176`/`180`).
`RedirectAfterInvokeKeepsEntity` states this.

## Model

| member | source | states |
|---|---|---|
| `Common.MessageText` | src/hemera/core/apache/runtime/RequestHandler.java:200-204 | the text a message contributes to an error document is the message itself, or "null" when the exception's message is null |
| `Common.Contains` | src/hemera/core/apache/runtime/fileupload/HttpRequestParser.java:86 | `s.contains(t)` holds exactly when `t` occurs in `s` at some position (both directions) |
| `Arguments.TextArguments` | src/hemera/core/apache/runtime/fileupload/HttpRequestParser.java:54 | a string-to-string map put into the store keeps exactly its keys, each value stored as text |
| `Arguments.ArgumentStore.constructor` | src/hemera/core/apache/runtime/fileupload/HttpRequestParser.java:50 | the argument map starts empty |
| `Arguments.ArgumentStore.Put` | src/hemera/core/apache/runtime/fileupload/HttpRequestParser.java:128-133 | putting a name sets its value and replaces any earlier one; no other entry changes |
| `Arguments.ArgumentStore.PutAll` | src/hemera/core/apache/runtime/fileupload/HttpRequestParser.java:95 | putting all pairs overlays them, as text, on the existing entries |
| `Arguments.ParseArguments` | src/hemera/core/apache/runtime/fileupload/HttpRequestParser.java:49-58 | the result is the URI arguments (none when the URI parser answers null) filled further by the body, or the failure that parsing the URI arguments or reading the body raised |
| `Arguments.ParseBody` | src/hemera/core/apache/runtime/fileupload/HttpRequestParser.java:76-98 | a request that cannot enclose an entity, or has none, adds nothing; a "multipart" content type is read part by part; any other body is read, URL-decoded and split; the store ends as the fold `AbsorbBody` says |
| `Arguments.ParseMultipartBody` | src/hemera/core/apache/runtime/fileupload/HttpRequestParser.java:116-136 | the loop puts each part in stream order (form field as text, file as bytes) and stops at the first failure, as the fold `AbsorbParts` says |
| `Arguments.AbsorbPartsOverlays` | src/hemera/core/apache/runtime/fileupload/HttpRequestParser.java:121-134 | reading parts into a filled store equals reading them into an empty map and laying that over the store; the failure is the same |
| `Arguments.AbsorbBodyOverlays` | src/hemera/core/apache/runtime/fileupload/HttpRequestParser.java:76-98 | the same for the whole body, on either path |
| `Arguments.BodyOverlaysUri` | src/hemera/core/apache/runtime/fileupload/HttpRequestParser.java:49-58 | the parsed arguments are the URI arguments overlaid with the body's own arguments; a failure parsing the URI arguments, or else a body failure, is the parse's failure |
| `Arguments.BodyWins` | src/hemera/core/apache/runtime/fileupload/HttpRequestParser.java:54-56 | on a name that both the URI and the body supply, the body's value is the one in the result |
| `Arguments.UriArgumentKept` | src/hemera/core/apache/runtime/fileupload/HttpRequestParser.java:50-56 | a URI argument whose name the body does not supply is in the result unchanged, as text |
| `Arguments.ArgumentsFromUriOrBody` | src/hemera/core/apache/runtime/fileupload/HttpRequestParser.java:49-58 | every name in the result comes from the URI or from the body |
| `Arguments.NoEntityGivesUriArguments` | src/hemera/core/apache/runtime/fileupload/HttpRequestParser.java:76-82 | a request that does not enclose an entity, or whose entity is null, yields exactly the URI arguments, and none when the URI map is null; only the URI parser's failure can fail it |
| `Arguments.MultipartChosenByContentType` | src/hemera/core/apache/runtime/fileupload/HttpRequestParser.java:84-88 | a content-type value containing "multipart" selects the part-by-part read over the URI arguments; a missing header reads as "" and never selects it |
| `Arguments.UrlEncodedBodyDecodedWhole` | src/hemera/core/apache/runtime/fileupload/HttpRequestParser.java:89-95 | any other body is read as text and URL-decoded as a whole with the Content-Encoding value (UTF-8 when absent) before it is split into pairs; a failure at any of the three steps is the parse's failure |
| `Arguments.MultipartFailureAborts` | src/hemera/core/apache/runtime/fileupload/HttpRequestParser.java:116-124 | a failure anywhere among the parts makes the parse fail, with the first failure; no partial map comes back |
| `Arguments.LastPartWins` | src/hemera/core/apache/runtime/fileupload/HttpRequestParser.java:121-134 | when every part is read, the last part of a name gives that name's value: a form field as text, a file as bytes |
| `Arguments.AbsorbedNamesCome` | src/hemera/core/apache/runtime/fileupload/HttpRequestParser.java:121-134 | reading parts creates no name that no part carries |
| `RequestHandling.UnresolvedIsNotFound` | src/hemera/core/apache/runtime/RequestHandler.java:92-97 | a lookup that answers no resource, or no processor for it, gives 404 with the document "No such service provided: " plus the raw URI; headers are kept, nothing is reported and `process` is not called |
| `RequestHandling.ParseFailureIsBadRequest` | src/hemera/core/apache/runtime/RequestHandler.java:103-107 | a typed request that fails to parse gives 400 with "Invalid request: " plus the parse failure's message; the exception handler is not called |
| `RequestHandling.InvokeCommitsResponse` | src/hemera/core/apache/runtime/RequestHandler.java:166-181 | on Invoke with a response, the status is the response's and the entity is its JSON as application/json, exactly `callback + "(" + json + ")"` whenever a callback argument is present, even an empty one; `process` is called once |
| `RequestHandling.InactiveProcessorIsUnavailable` | src/hemera/core/apache/runtime/RequestHandler.java:160-164 | a null result from `process` gives 503 with the document C503_ServiceUnavailable / "Requested service has been disabled." |
| `RequestHandling.RedirectBeforeInvokeSkipsProcess` | src/hemera/core/apache/runtime/RequestHandler.java:114-118 | redirect-before-invoke never calls `process`, on every path; when the URI is computed from the request, the response is the old one with status 307 and that Location; when computing it throws, nothing was written and the failure is answered by kind |
| `RequestHandling.RedirectAfterInvokeKeepsEntity` | src/hemera/core/apache/runtime/RequestHandler.java:119-124 | redirect-after-invoke calls `process` exactly once, on every path; on success, status 307 and Location computed from request and result, and the entity `invoke` committed stays; a failure of `process` is answered over the untouched response, a failure of the redirect URI over the committed one |
| `RequestHandling.UnlistedBehaviorIsBadRequest` | src/hemera/core/apache/runtime/RequestHandler.java:110-125 | a redirect behaviour the switch has no case for gives 400 "Invalid request: Unsupported redirect behavior" without calling `process` |
| `RequestHandling.FailuresAnsweredByKind` | src/hemera/core/apache/runtime/RequestHandler.java:127-137 | whatever stage raised it: unsupported is 404 and illegal argument 400, each with its message; a socket timeout leaves the response as it was; any other failure is reported exactly once and answered 500 "A server error has occurred."; only that kind is reported (both directions) |
| `RequestHandling.ProcessorUnsupportedIsNotFound` | src/hemera/core/apache/runtime/RequestHandler.java:130-131 | an unsupported operation thrown by `process` itself is answered 404 like a missing resource |
| `RequestHandling.TimeoutWritesNothing` | src/hemera/core/apache/runtime/RequestHandler.java:127-129 | a socket timeout while reading the arguments leaves the response untouched and reports nothing |
| `RequestHandling.ErrorDocumentNamesStatus` | src/hemera/core/apache/runtime/RequestHandler.java:195-209 | every error document carries the name of a status constant whose code is the response status; the one exception is 503 overwritten by 307 on redirect-after-invoke |
| `RequestHandling.TryBlockErrorDocument` | src/hemera/core/apache/runtime/RequestHandler.java:160-164 | before the catch clauses, the only error document the dispatch can have written is the 503 one |
| `RequestHandling.ExceptionHandler.Handle` | src/hemera/core/apache/runtime/RequestHandler.java:135 | handing a failure to the exception handler appends it to what it has been told |
| `RequestHandling.RequestHandler.constructor` | src/hemera/core/apache/runtime/RequestHandler.java:76-81 | the dispatcher keeps the exception handler and registry it is given; its fields never change afterwards |
| `RequestHandling.RequestHandler.Handle` | src/hemera/core/apache/runtime/RequestHandler.java:85-138 | the response ends in the state `HandleResult` describes, the exception handler is told exactly the reported failures, and the count of `process` calls is returned |
| `RequestHandling.RequestHandler.TryHandle` | src/hemera/core/apache/runtime/RequestHandler.java:86-126 | the try block's writes, its thrown failure and its `process` calls are those of `TryBlock` |
| `RequestHandling.RequestHandler.InvokeProcessor` | src/hemera/core/apache/runtime/RequestHandler.java:159-184 | returns what `process` returned; on a result, the response is committed (503 for null, else the status and the JSON or JSONP entity); on a failure, nothing is written |
| `RequestHandling.RequestHandler.SetUncaughtExceptionResponse` | src/hemera/core/apache/runtime/RequestHandler.java:195-211 | sets the status code and an error document naming the status with its fixed or message-bearing text; headers are kept |
| `Connection.ExecuteContinuesOnlyWhenServed` | src/hemera/core/apache/runtime/ConnectionHandler.java:62-81 | execute answers go-on exactly when the connection is open and the exchange completed; closed, I/O and protocol failures all answer stop |
| `Connection.RunAppend` | src/hemera/core/apache/runtime/ConnectionHandler.java:62-95 | running two call sequences one after the other composes their open state, answers and dispatches |
| `Connection.ClosedStaysStopped` | src/hemera/core/apache/runtime/ConnectionHandler.java:65-95 | on a closed connection no call reopens it; every execute answers stop and dispatches nothing; no cleanup shuts it down again, only termination signals do |
| `Connection.StopAfterTerminate` | src/hemera/core/apache/runtime/ConnectionHandler.java:93-95 | after signalTerminate, whatever is called next, earlier answers are kept, every later execute answers stop, nothing more is dispatched and the connection stays closed; it shut down once, and later only further terminations shut it down |
| `Connection.StopAfterCleanup` | src/hemera/core/apache/runtime/ConnectionHandler.java:84-90 | after cleanup, earlier answers are kept, every later execute answers stop, nothing more is dispatched and the connection stays closed; the cleanup shut it down only if it was still open |
| `Connection.ContinuesAreDispatches` | src/hemera/core/apache/runtime/ConnectionHandler.java:65-69 | over any call sequence, there are never more go-on answers than exchanges handed to the HTTP service |
| `Connection.ConnectionHandler.constructor` | src/hemera/core/apache/runtime/ConnectionHandler.java:55-59 | a fresh context is created once; the pump starts with the connection's open state, nothing dispatched and no shutdown |
| `Connection.ConnectionHandler.Execute` | src/hemera/core/apache/runtime/ConnectionHandler.java:62-81 | on a closed connection it answers stop without dispatching; otherwise it dispatches one exchange with the pump's own context and answers go-on exactly when it was served; it never shuts down; the invariant ties the state to the call history |
| `Connection.ConnectionHandler.Cleanup` | src/hemera/core/apache/runtime/ConnectionHandler.java:84-90 | shutdown is performed (one more entry in the shutdown record) exactly when the connection was open; the connection ends closed, a failing shutdown is swallowed, and nothing is dispatched |
| `Connection.ConnectionHandler.SignalTerminate` | src/hemera/core/apache/runtime/ConnectionHandler.java:93-95 | shutdown is performed unconditionally (one more entry in the shutdown record), the connection ends closed, and a failing shutdown is raised to the caller |
| `Connection.ConnectionHandler.CycleCount` | src/hemera/core/apache/runtime/ConnectionHandler.java:98-100 | the pump asks for no fixed number of cycles: always 0 |
| `Connection.ConnectionHandler.CycleLimit` | src/hemera/core/apache/runtime/ConnectionHandler.java:103-105 | and for no time limit, in any unit: always 0 |

## Left out

- ConnectionListener (the server socket, TLS setup, the accept loop), HttpRequestContext (null-checking getters over the entity), ApacheRuntime and its launcher (configuration and task submission) and the throughput test are not part of this model. They are socket, TLS, scheduler and load-generation glue.
- The internals of foreign libraries are not modelled; each is an abstract function or a given value. This covers RESTURI, the HTTP method parser, URIParser's pair splitting, URLDecoder, the FileUpload streaming iterator, `Streams.asString`, and JSON serialisation. Error documents are kept as the structured pair `{http_status, exception}` rather than serialised text. The content type a plain string entity gets is the constant `StringEntityDefault`.
- Logging of socket timeouts is not modelled. Neither is thread-safety of the single dispatcher shared by all connections; the model only records that its fields never change.
- `RequestHandling.RequestHandler.InvokeProcessor`: a failure of the response's `toJSON()` or `getStatus()` is not modelled apart from `process` failing. Both happen before anything is written, so the effect is the same as a failure of `process`.
- `RequestHandling.RequestHandler.SetUncaughtExceptionResponse`: the exception it swallows while building the JSON document is not modelled. Building a structured document cannot fail.
- `RequestHandling.RequestHandler.TryHandle`: a null redirect behaviour, which fails in the switch with a null-pointer exception, is represented only as `redirectBehavior` answering some `Failure`. Creating the typed request by reflection is an optional failure (`instantiate`).
- `Connection.ConnectionHandler.Execute`: unchecked exceptions thrown by the HTTP service, which propagate out of execute, are not modelled. Neither is the peer or the HTTP service closing the connection during an exchange. The open flag changes only through cleanup and signalTerminate.
- `Connection.ConnectionHandler.SignalTerminate`: the model assumes the connection ends closed even when shutdown throws.
- `Connection.ConnectionHandler.Cleanup`: the model assumes the connection ends closed even when the shutdown it performs throws; the connection's own state after a failed shutdown is not part of this model.
- `RequestHandling.ExceptionHandler.Handle`: the runtime's exception handler is taken not to throw. An exception from it would escape `handle` through the catch clause, which is not modelled.
- Reading a form field's stream as text is taken not to throw. A failure reading a part is carried by its multipart item as an `Err`.
- `Connection.ConnectionHandler.CycleLimit`: it returns a Java `long`, modelled as an unbounded integer; the value is always 0.
