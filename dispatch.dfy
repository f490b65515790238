/**
 * The request dispatcher: resolves a request to a processor, builds the
 * processor's typed request from the path and the parsed arguments, follows
 * the processor's redirect behaviour, commits the processor's response (JSON,
 * or JSONP when a `callback` argument is present) and turns every failure
 * into a response by its kind: 404, 400, 500, or nothing for a socket timeout.
 *
 * The collaborators are values: the registry and processors are records of
 * functions, and everything they may throw is a `Failure`. The response is an
 * object written step by step, as the dispatcher writes it.
 */
module RequestHandling {
  import opened Common
  import Arguments

  /** The error statuses the dispatcher answers with by itself. */
  datatype ErrorStatus = C400_BadRequest | C404_NotFound | C500_InternalServerError | C503_ServiceUnavailable
  {
    function Code(): (code: int)
    {
      match this
      case C400_BadRequest => 400
      case C404_NotFound => 404
      case C500_InternalServerError => 500
      case C503_ServiceUnavailable => 503
    }

    /** The constant's name, which error documents carry as their `http_status`. */
    function Name(): (name: string)
    {
      match this
      case C400_BadRequest => "C400_BadRequest"
      case C404_NotFound => "C404_NotFound"
      case C500_InternalServerError => "C500_InternalServerError"
      case C503_ServiceUnavailable => "C503_ServiceUnavailable"
    }
  }

  const TemporaryRedirect: int := 307
  const LocationHeader: string := "Location"
  const CallbackKey: string := "callback"

  /** A response body: JSON text, or the error document {http_status, exception} before serialisation. */
  datatype ResponseBody = Json(text: string) | ErrorDocument(httpStatus: string, exception: string)

  /** application/json, or the default a plain string entity gets. */
  datatype ContentType = ApplicationJson | StringEntityDefault

  datatype ResponseEntity = ResponseEntity(body: ResponseBody, contentType: ContentType)

  /** Everything the dispatcher writes on an HTTP response. */
  datatype ResponseState = ResponseState(status: int, headers: map<string, string>, entity: Option<ResponseEntity>)

  /** What a processor produces: its status code and its JSON text. */
  datatype ProcessorResponse = ProcessorResponse(status: int, json: string)

  /** Unlisted stands for a behaviour constant the dispatcher has no case for. */
  datatype RedirectBehavior = Invoke | RedirectBeforeInvoke | RedirectAfterInvoke | Unlisted

  /** A parsed request URI: its path elements. */
  datatype RestUri = RestUri(elements: seq<string>)

  /** A parsed HTTP method constant. */
  datatype HttpMethod = HttpMethod(name: string)

  /**
   * A processor over typed requests of type Req. `instantiate` is the failure
   * creating an empty request raises, if any; `parse` fails with the thrown
   * exception's message; `process` answers None when the processor is inactive.
   */
  datatype Processor<!Req> = Processor(
    instantiate: Option<Failure>,
    parse: (seq<string>, map<string, Arguments.Value>) -> Result<Req, Option<string>>,
    redirectBehavior: Req -> Result<RedirectBehavior, Failure>,
    redirectUri: Req -> Result<string, Failure>,
    redirectUriAfter: (Req, Option<ProcessorResponse>) -> Result<string, Failure>,
    process: Req -> Result<Option<ProcessorResponse>, Failure>)

  datatype Resource<!Req> = Resource(getProcessor: (seq<string>, HttpMethod) -> Result<Option<Processor<Req>>, Failure>)

  datatype Registry<!Req> = Registry(getResource: (RestUri, HttpMethod) -> Result<Option<Resource<Req>>, Failure>)

  /** The parsing libraries: request URI, method name, and the argument parser's codec. */
  datatype Libraries = Libraries(
    restUri: string -> Result<RestUri, Failure>,
    parseMethod: string -> Result<HttpMethod, Failure>,
    codec: Arguments.Codec)

  /** The end of the dispatch body: what is on the response, what it threw, how often it called `process`. */
  datatype Attempt = Attempt(state: ResponseState, raised: Option<Failure>, processCalls: nat)

  /** The end of handling: the response, the failures given to the exception handler, the `process` calls. */
  datatype Handled = Handled(response: ResponseState, reported: seq<Failure>, processCalls: nat)

  /** The body written for a processor response: the JSON, or `callback(json)` when a callback is given. */
  function JsonpBody(json: string, callback: Option<string>): (text: string)
  {
    if callback.Some? then callback.value + "(" + json + ")" else json
  }

  /** The `exception` text of an error document. */
  function ErrorMessage(status: ErrorStatus, message: Option<string>): (text: string)
  {
    match status
    case C404_NotFound => "No such service provided: " + MessageText(message)
    case C400_BadRequest => "Invalid request: " + MessageText(message)
    case C500_InternalServerError => "A server error has occurred."
    case C503_ServiceUnavailable => "Requested service has been disabled."
  }

  /** An error response: the status, and an error document naming it. Headers are kept. */
  function ErrorResponse(s: ResponseState, status: ErrorStatus, message: Option<string>): (r: ResponseState)
  {
    s.(status := status.Code(),
       entity := Some(ResponseEntity(ErrorDocument(status.Name(), ErrorMessage(status, message)), StringEntityDefault)))
  }

  /** What committing the result of `process` writes. */
  function Committed(s: ResponseState, result: Option<ProcessorResponse>, callback: Option<string>): (r: ResponseState)
  {
    match result
    case None => ErrorResponse(s, C503_ServiceUnavailable, None)
    case Some(r) => s.(status := r.status, entity := Some(ResponseEntity(Json(JsonpBody(r.json, callback)), ApplicationJson)))
  }

  function Redirected(s: ResponseState, location: string): (r: ResponseState)
  {
    s.(status := TemporaryRedirect, headers := s.headers[LocationHeader := location])
  }

  /** The `callback` argument read as a string; a byte value fails the cast. */
  function CallbackArgument(args: map<string, Arguments.Value>): (r: Result<Option<string>, Failure>)
  {
    if CallbackKey !in args then Ok(None)
    else match args[CallbackKey]
      case Text(t) => Ok(Some(t))
      case Bytes(_) => Err(Other("java.lang.ClassCastException"))
  }

  /** The dispatch body once the processor is known. */
  function TryProcessor<Req>(p: Processor<Req>, path: seq<string>, req: Arguments.HttpRequest,
                             codec: Arguments.Codec, s: ResponseState): (t: Attempt)
  {
    match Arguments.Arguments(req, codec)
    case Err(f) => Attempt(s, Some(f), 0)
    case Ok(args) =>
      if p.instantiate.Some? then Attempt(s, p.instantiate, 0)
      else match p.parse(path, args)
      case Err(m) => Attempt(s, Some(IllegalArg(m)), 0)
      case Ok(request) =>
        match CallbackArgument(args)
        case Err(f) => Attempt(s, Some(f), 0)
        case Ok(callback) =>
          match p.redirectBehavior(request)
          case Err(f) => Attempt(s, Some(f), 0)
          case Ok(behavior) => Follow(p, request, behavior, callback, s)
  }

  /** The redirect switch: invoke, redirect before invoking, or invoke then redirect. */
  function Follow<Req>(p: Processor<Req>, request: Req, behavior: RedirectBehavior, callback: Option<string>,
                       s: ResponseState): (t: Attempt)
  {
    match behavior
    case Invoke =>
      (match p.process(request)
       case Err(f) => Attempt(s, Some(f), 1)
       case Ok(result) => Attempt(Committed(s, result, callback), None, 1))
    case RedirectBeforeInvoke =>
      (match p.redirectUri(request)
       case Err(f) => Attempt(s, Some(f), 0)
       case Ok(location) => Attempt(Redirected(s, location), None, 0))
    case RedirectAfterInvoke =>
      (match p.process(request)
       case Err(f) => Attempt(s, Some(f), 1)
       case Ok(result) =>
         var committed := Committed(s, result, callback);
         match p.redirectUriAfter(request, result)
         case Err(f) => Attempt(committed, Some(f), 1)
         case Ok(location) => Attempt(Redirected(committed, location), None, 1))
    case Unlisted => Attempt(s, Some(IllegalArg(Some("Unsupported redirect behavior"))), 0)
  }

  /** A resolved request: its path elements and the processor for them. */
  datatype Target<!Req> = Target(path: seq<string>, processor: Processor<Req>)

  /**
   * Parses the request line and looks up the resource, then its processor.
   * A lookup that finds nothing throws an unsupported operation naming the raw URI.
   */
  function Resolve<Req>(registry: Registry<Req>, libs: Libraries, req: Arguments.HttpRequest): (r: Result<Target<Req>, Failure>)
  {
    match libs.restUri(req.uri)
    case Err(f) => Err(f)
    case Ok(uri) =>
      match libs.parseMethod(req.methodName)
      case Err(f) => Err(f)
      case Ok(m) =>
        match registry.getResource(uri, m)
        case Err(f) => Err(f)
        case Ok(None) => Err(Unsupported(Some(req.uri)))
        case Ok(Some(resource)) =>
          match resource.getProcessor(uri.elements, m)
          case Err(f) => Err(f)
          case Ok(None) => Err(Unsupported(Some(req.uri)))
          case Ok(Some(p)) => Ok(Target(uri.elements, p))
  }

  /** The dispatch body: resolve, then run the processor stage. */
  function TryBlock<Req>(registry: Registry<Req>, libs: Libraries, req: Arguments.HttpRequest, s: ResponseState): (t: Attempt)
  {
    match Resolve(registry, libs, req)
    case Err(f) => Attempt(s, Some(f), 0)
    case Ok(t) => TryProcessor(t.processor, t.path, req, libs.codec, s)
  }

  /** The catch clauses: a failure is answered by its kind, whatever stage raised it. */
  function Caught(t: Attempt): (h: Handled)
  {
    match t.raised
    case None => Handled(t.state, [], t.processCalls)
    case Some(SocketTimeout) => Handled(t.state, [], t.processCalls)
    case Some(Unsupported(m)) => Handled(ErrorResponse(t.state, C404_NotFound, m), [], t.processCalls)
    case Some(IllegalArg(m)) => Handled(ErrorResponse(t.state, C400_BadRequest, m), [], t.processCalls)
    case Some(Other(e)) =>
      Handled(ErrorResponse(t.state, C500_InternalServerError, None), [Other(e)], t.processCalls)
  }

  /** Handling one request, starting from response state `s`. */
  function HandleResult<Req>(registry: Registry<Req>, libs: Libraries, req: Arguments.HttpRequest, s: ResponseState): (h: Handled)
  {
    Caught(TryBlock(registry, libs, req, s))
  }

  // ---------------------------------------------------------------------------
  // Properties of handling

  /** A URI with no resource, or a resource with no processor, is answered 404 naming the raw URI. */
  lemma UnresolvedIsNotFound<Req>(registry: Registry<Req>, libs: Libraries, req: Arguments.HttpRequest, s: ResponseState,
                                  uri: RestUri, m: HttpMethod)
    requires libs.restUri(req.uri) == Ok(uri) && libs.parseMethod(req.methodName) == Ok(m)
    requires registry.getResource(uri, m) == Ok(None)
          || (registry.getResource(uri, m).Ok? && registry.getResource(uri, m).value.Some?
              && registry.getResource(uri, m).value.value.getProcessor(uri.elements, m) == Ok(None))
    ensures var h := HandleResult(registry, libs, req, s);
      && h.response.status == 404
      && h.response.entity == Some(ResponseEntity(ErrorDocument("C404_NotFound", "No such service provided: " + req.uri), StringEntityDefault))
      && h.response.headers == s.headers
      && h.reported == [] && h.processCalls == 0
  {
  }

  /** The stages of a resolved request up to its processor's redirect decision. */
  ghost predicate Decides<Req>(t: Target<Req>, req: Arguments.HttpRequest, codec: Arguments.Codec,
                             args: map<string, Arguments.Value>, request: Req, behavior: RedirectBehavior)
  {
    && Arguments.Arguments(req, codec) == Ok(args)
    && t.processor.instantiate.None?
    && t.processor.parse(t.path, args) == Ok(request)
    && (CallbackKey in args ==> args[CallbackKey].Text?)
    && t.processor.redirectBehavior(request) == Ok(behavior)
  }

  /** A request the processor's request type cannot parse is answered 400; the exception handler is not told. */
  lemma ParseFailureIsBadRequest<Req>(registry: Registry<Req>, libs: Libraries, req: Arguments.HttpRequest, s: ResponseState,
                                      args: map<string, Arguments.Value>, message: Option<string>)
    requires Resolve(registry, libs, req).Ok?
    requires var t := Resolve(registry, libs, req).value;
      && Arguments.Arguments(req, libs.codec) == Ok(args)
      && t.processor.instantiate.None? && t.processor.parse(t.path, args) == Err(message)
    ensures var h := HandleResult(registry, libs, req, s);
      && h.response.status == 400
      && h.response.entity == Some(ResponseEntity(ErrorDocument("C400_BadRequest", "Invalid request: " + MessageText(message)), StringEntityDefault))
      && h.reported == [] && h.processCalls == 0
  {
  }

  /**
   * Invoke with a response: its status, and its JSON as an application/json
   * entity, wrapped as callback(json) whenever a callback argument is present,
   * even an empty one. Headers are not touched.
   */
  lemma InvokeCommitsResponse<Req>(registry: Registry<Req>, libs: Libraries, req: Arguments.HttpRequest, s: ResponseState,
                                       args: map<string, Arguments.Value>, request: Req, r: ProcessorResponse)
    requires Resolve(registry, libs, req).Ok?
    requires var t := Resolve(registry, libs, req).value;
      Decides(t, req, libs.codec, args, request, Invoke) && t.processor.process(request) == Ok(Some(r))
    ensures var h := HandleResult(registry, libs, req, s);
      && h.response.status == r.status
      && h.response.headers == s.headers
      && h.response.entity.Some? && h.response.entity.value.contentType == ApplicationJson
      && (CallbackKey !in args ==> h.response.entity.value.body == Json(r.json))
      && (CallbackKey in args ==>
            h.response.entity.value.body == Json(args[CallbackKey].text + "(" + r.json + ")"))
      && h.reported == [] && h.processCalls == 1
  {
  }

  /** An inactive processor (no response) is answered 503 with the fixed document. */
  lemma InactiveProcessorIsUnavailable<Req>(registry: Registry<Req>, libs: Libraries, req: Arguments.HttpRequest, s: ResponseState,
                                                args: map<string, Arguments.Value>, request: Req)
    requires Resolve(registry, libs, req).Ok?
    requires var t := Resolve(registry, libs, req).value;
      Decides(t, req, libs.codec, args, request, Invoke) && t.processor.process(request) == Ok(None)
    ensures var h := HandleResult(registry, libs, req, s);
      && h.response.status == 503
      && h.response.entity == Some(ResponseEntity(ErrorDocument("C503_ServiceUnavailable", "Requested service has been disabled."), StringEntityDefault))
      && h.reported == [] && h.processCalls == 1
  {
  }

  /**
   * Redirect before invoke never calls `process`, whatever happens. When the
   * redirect URI is computed from the request, the response is 307 with that
   * Location and the entity untouched; when computing it throws, nothing has
   * been written and the failure is answered by its kind.
   */
  lemma RedirectBeforeInvokeSkipsProcess<Req>(registry: Registry<Req>, libs: Libraries, req: Arguments.HttpRequest, s: ResponseState,
                                                  args: map<string, Arguments.Value>, request: Req)
    requires Resolve(registry, libs, req).Ok?
    requires Decides(Resolve(registry, libs, req).value, req, libs.codec, args, request, RedirectBeforeInvoke)
    ensures var h := HandleResult(registry, libs, req, s);
      var location := Resolve(registry, libs, req).value.processor.redirectUri(request);
      && h.processCalls == 0
      && (location.Ok? ==>
            h.response == s.(status := 307, headers := s.headers["Location" := location.value]) && h.reported == [])
      && (location.Err? ==> h == Caught(Attempt(s, Some(location.error), 0)))
  {
  }

  /**
   * Redirect after invoke calls `process` exactly once, whatever happens. When
   * it returns, its result is committed; then the status is overwritten with
   * 307 and Location is computed from the request and the result. The
   * committed entity stays on the response. A failure of `process` is answered
   * over the untouched response, a failure computing the redirect URI over the
   * committed one.
   */
  lemma RedirectAfterInvokeKeepsEntity<Req>(registry: Registry<Req>, libs: Libraries, req: Arguments.HttpRequest, s: ResponseState,
                                                args: map<string, Arguments.Value>, request: Req)
    requires Resolve(registry, libs, req).Ok?
    requires Decides(Resolve(registry, libs, req).value, req, libs.codec, args, request, RedirectAfterInvoke)
    ensures var p := Resolve(registry, libs, req).value.processor;
      var h := HandleResult(registry, libs, req, s);
      && h.processCalls == 1
      && (p.process(request).Err? ==> h == Caught(Attempt(s, Some(p.process(request).error), 1)))
      && (p.process(request).Ok? ==>
            var result := p.process(request).value;
            var committed := Committed(s, result, CallbackArgument(args).value);
            match p.redirectUriAfter(request, result)
            case Err(f) => h == Caught(Attempt(committed, Some(f), 1))
            case Ok(location) =>
              && h.response.status == 307
              && h.response.headers == s.headers["Location" := location]
              && h.response.entity == committed.entity
              && (result.Some? ==> h.response.entity.value.body.Json?)
              && h.reported == [])
  {
  }

  /** A behaviour the dispatcher has no case for is answered 400, without calling `process`. */
  lemma UnlistedBehaviorIsBadRequest<Req>(registry: Registry<Req>, libs: Libraries, req: Arguments.HttpRequest, s: ResponseState,
                                              args: map<string, Arguments.Value>, request: Req)
    requires Resolve(registry, libs, req).Ok?
    requires Decides(Resolve(registry, libs, req).value, req, libs.codec, args, request, Unlisted)
    ensures var h := HandleResult(registry, libs, req, s);
      && h.response.status == 400
      && h.response.entity.value.body == ErrorDocument("C400_BadRequest", "Invalid request: Unsupported redirect behavior")
      && h.processCalls == 0 && h.reported == []
  {
  }

  /**
   * Failures are answered by kind, whatever stage raised them: an unsupported
   * operation is 404 with its message, an illegal argument 400 with its
   * message, a socket timeout leaves the response as the dispatch left it, and
   * any other failure is given to the exception handler exactly once and
   * answered 500 with fixed text. Only that last kind is reported.
   */
  lemma FailuresAnsweredByKind<Req>(registry: Registry<Req>, libs: Libraries, req: Arguments.HttpRequest, s: ResponseState)
    ensures var t := TryBlock(registry, libs, req, s);
      var h := HandleResult(registry, libs, req, s);
      && h.processCalls == t.processCalls
      && (t.raised.None? || t.raised == Some(SocketTimeout) ==> h.response == t.state && h.reported == [])
      && (forall m :: t.raised == Some(Unsupported(m)) ==>
            h.response.status == 404 && h.reported == [] &&
            h.response.entity.value.body == ErrorDocument("C404_NotFound", "No such service provided: " + MessageText(m)))
      && (forall m :: t.raised == Some(IllegalArg(m)) ==>
            h.response.status == 400 && h.reported == [] &&
            h.response.entity.value.body == ErrorDocument("C400_BadRequest", "Invalid request: " + MessageText(m)))
      && (h.reported != [] <==> t.raised.Some? && t.raised.value.Other?)
      && (t.raised.Some? && t.raised.value.Other? ==>
            && h.reported == [t.raised.value]
            && h.response.status == 500
            && h.response.entity.value.body == ErrorDocument("C500_InternalServerError", "A server error has occurred."))
  {
  }

  /** An unsupported operation thrown by the processor itself is answered 404, like a missing resource. */
  lemma ProcessorUnsupportedIsNotFound<Req>(registry: Registry<Req>, libs: Libraries, req: Arguments.HttpRequest, s: ResponseState,
                                                args: map<string, Arguments.Value>, request: Req, message: Option<string>)
    requires Resolve(registry, libs, req).Ok?
    requires var t := Resolve(registry, libs, req).value;
      Decides(t, req, libs.codec, args, request, Invoke) && t.processor.process(request) == Err(Unsupported(message))
    ensures var h := HandleResult(registry, libs, req, s);
      && h.response.status == 404
      && h.response.entity.value.body == ErrorDocument("C404_NotFound", "No such service provided: " + MessageText(message))
      && h.processCalls == 1 && h.reported == []
  {
  }

  /** A socket timeout while reading the arguments writes nothing and reports nothing. */
  lemma TimeoutWritesNothing<Req>(registry: Registry<Req>, libs: Libraries, req: Arguments.HttpRequest, s: ResponseState)
    requires Resolve(registry, libs, req).Ok?
    requires Arguments.Arguments(req, libs.codec) == Err(SocketTimeout)
    ensures HandleResult(registry, libs, req, s) == Handled(s, [], 0)
  {
  }

  /**
   * Every error document the dispatcher writes names its status: the status
   * code is that constant's code, except after a redirect-after-invoke over an
   * inactive processor, where 307 overwrote 503.
   */
  lemma ErrorDocumentNamesStatus<Req>(registry: Registry<Req>, libs: Libraries, req: Arguments.HttpRequest, s: ResponseState)
    requires s.entity.None?
    ensures var h := HandleResult(registry, libs, req, s);
      h.response.entity.Some? && h.response.entity.value.body.ErrorDocument? ==>
        exists e: ErrorStatus ::
          && h.response.entity.value.body.httpStatus == e.Name()
          && (h.response.status == e.Code() || (h.response.status == 307 && e == C503_ServiceUnavailable))
  {
  }

  /** A dispatch body that ends without a classified error leaves an error document only for an inactive processor. */
  lemma TryBlockErrorDocument<Req>(registry: Registry<Req>, libs: Libraries, req: Arguments.HttpRequest, s: ResponseState)
    requires s.entity.None?
    ensures var t := TryBlock(registry, libs, req, s);
      t.state.entity.Some? && t.state.entity.value.body.ErrorDocument? ==>
        && t.state.entity.value.body.httpStatus == C503_ServiceUnavailable.Name()
        && (t.state.status == 503 || t.state.status == 307)
  {
  }

  // ---------------------------------------------------------------------------
  // The objects: the HTTP response, the exception handler, the dispatcher

  /** The HTTP response the dispatcher writes on. */
  class HttpResponse {
    var status: int
    var headers: map<string, string>
    var entity: Option<ResponseEntity>

    function State(): (state: ResponseState)
      reads this
    {
      ResponseState(status, headers, entity)
    }

    method SetStatusCode(code: int)
      modifies this
      ensures State() == old(State()).(status := code)
    {
      status := code;
    }

    /** Sets a header, replacing any value it had. */
    method SetHeader(name: string, value: string)
      modifies this
      ensures State() == old(State()).(headers := old(headers)[name := value])
    {
      headers := headers[name := value];
    }

    method SetEntity(e: ResponseEntity)
      modifies this
      ensures State() == old(State()).(entity := Some(e))
    {
      entity := Some(e);
    }
  }

  /** The runtime's exception handler, seen as the list of failures given to it. */
  class ExceptionHandler {
    var reported: seq<Failure>

    method Handle(f: Failure)
      modifies this
      ensures reported == old(reported) + [f]
    {
      reported := reported + [f];
    }
  }

  /** The single dispatcher shared by all connections; its fields never change. */
  class RequestHandler<Req> {
    const handler: ExceptionHandler
    const registry: Registry<Req>
    const libraries: Libraries

    constructor (handler: ExceptionHandler, registry: Registry<Req>, libraries: Libraries)
      ensures this.handler == handler && this.registry == registry && this.libraries == libraries
    {
      this.handler := handler;
      this.registry := registry;
      this.libraries := libraries;
    }

    /** Handles one request; returns how many times `process` was called. */
    method Handle(httpRequest: Arguments.HttpRequest, httpResponse: HttpResponse) returns (processCalls: nat)
      modifies httpResponse, handler
      ensures var h := HandleResult(registry, libraries, httpRequest, old(httpResponse.State()));
        && httpResponse.State() == h.response
        && handler.reported == old(handler.reported) + h.reported
        && processCalls == h.processCalls
    {
      var raised;
      raised, processCalls := TryHandle(httpRequest, httpResponse);
      match raised {
        case None =>
        case Some(SocketTimeout) =>
        case Some(Unsupported(m)) =>
          SetUncaughtExceptionResponse(httpResponse, C404_NotFound, m);
        case Some(IllegalArg(m)) =>
          SetUncaughtExceptionResponse(httpResponse, C400_BadRequest, m);
        case Some(Other(e)) =>
          handler.Handle(Other(e));
          SetUncaughtExceptionResponse(httpResponse, C500_InternalServerError, None);
      }
    }

    /** The body of the try block: what it writes, what it throws, how often it calls `process`. */
    method TryHandle(req: Arguments.HttpRequest, httpResponse: HttpResponse) returns (raised: Option<Failure>, processCalls: nat)
      modifies httpResponse
      ensures Attempt(httpResponse.State(), raised, processCalls)
              == TryBlock(registry, libraries, req, old(httpResponse.State()))
    {
      raised, processCalls := None, 0;
      var uriStr := req.uri;
      var uri := libraries.restUri(uriStr);
      if uri.Err? {
        return Some(uri.error), 0;
      }
      var httpMethod := libraries.parseMethod(req.methodName);
      if httpMethod.Err? {
        return Some(httpMethod.error), 0;
      }
      var resource := registry.getResource(uri.value, httpMethod.value);
      if resource.Err? {
        return Some(resource.error), 0;
      }
      if resource.value.None? {
        return Some(Unsupported(Some(uriStr))), 0;
      }
      var path := uri.value.elements;
      var processor := resource.value.value.getProcessor(path, httpMethod.value);
      if processor.Err? {
        return Some(processor.error), 0;
      }
      if processor.value.None? {
        return Some(Unsupported(Some(uriStr))), 0;
      }
      var p := processor.value.value;
      var arguments := Arguments.ParseArguments(req, libraries.codec);
      if arguments.Err? {
        return Some(arguments.error), 0;
      }
      if p.instantiate.Some? {
        return p.instantiate, 0;
      }
      var parsed := p.parse(path, arguments.value);
      if parsed.Err? {
        return Some(IllegalArg(parsed.error)), 0;
      }
      var request := parsed.value;
      var callbackArg := CallbackArgument(arguments.value);
      if callbackArg.Err? {
        return Some(callbackArg.error), 0;
      }
      var behavior := p.redirectBehavior(request);
      if behavior.Err? {
        return Some(behavior.error), 0;
      }
      match behavior.value {
        case Invoke =>
          var response := InvokeProcessor(p, request, httpResponse, callbackArg.value);
          processCalls := 1;
          if response.Err? {
            raised := Some(response.error);
          }
        case RedirectBeforeInvoke =>
          var location := p.redirectUri(request);
          if location.Err? {
            return Some(location.error), 0;
          }
          httpResponse.SetStatusCode(TemporaryRedirect);
          httpResponse.SetHeader(LocationHeader, location.value);
        case RedirectAfterInvoke =>
          var response := InvokeProcessor(p, request, httpResponse, callbackArg.value);
          processCalls := 1;
          if response.Err? {
            return Some(response.error), 1;
          }
          var location := p.redirectUriAfter(request, response.value);
          if location.Err? {
            return Some(location.error), 1;
          }
          httpResponse.SetStatusCode(TemporaryRedirect);
          httpResponse.SetHeader(LocationHeader, location.value);
        case Unlisted =>
          raised := Some(IllegalArg(Some("Unsupported redirect behavior")));
      }
    }

    /**
     * Calls `process` and commits its result: 503 for an inactive processor,
     * otherwise the response's status and its JSON (or JSONP) entity. Nothing
     * is written when `process` throws.
     */
    method InvokeProcessor(p: Processor<Req>, request: Req, httpResponse: HttpResponse, callbackArg: Option<string>)
      returns (response: Result<Option<ProcessorResponse>, Failure>)
      modifies httpResponse
      ensures response == p.process(request)
      ensures httpResponse.State()
              == if response.Ok? then Committed(old(httpResponse.State()), response.value, callbackArg)
                 else old(httpResponse.State())
    {
      response := p.process(request);
      if response.Err? {
        return;
      }
      match response.value {
        case None =>
          SetUncaughtExceptionResponse(httpResponse, C503_ServiceUnavailable, None);
        case Some(r) =>
          httpResponse.SetStatusCode(r.status);
          if callbackArg.Some? {
            var wrapped := callbackArg.value + "(" + r.json + ")";
            httpResponse.SetEntity(ResponseEntity(Json(wrapped), ApplicationJson));
          } else {
            httpResponse.SetEntity(ResponseEntity(Json(r.json), ApplicationJson));
          }
      }
    }

    /** Writes an error status and the error document for it; `message` is the exception's message. */
    method SetUncaughtExceptionResponse(httpResponse: HttpResponse, status: ErrorStatus, message: Option<string>)
      modifies httpResponse
      ensures httpResponse.State() == ErrorResponse(old(httpResponse.State()), status, message)
    {
      httpResponse.SetStatusCode(status.Code());
      httpResponse.SetEntity(ResponseEntity(ErrorDocument(status.Name(), ErrorMessage(status, message)), StringEntityDefault));
    }
  }
}
