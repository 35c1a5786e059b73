/**
 The daemon's request/response protocol: the `ApiRequest`/`ApiResponse`
 records, the server-side handling of one client connection, and the client's
 mapping of a response to a return value or an `IOError`.

 Sockets and the JSON codec are not modelled: what the server received is an
 input, the decoding of a payload into a request is a parameter, and the
 function lookup is a partial map from id to callable.
 */
module Protocol {
  import opened PyRuntime

  /** One call: the id of the operation and its positional and keyword arguments. */
  datatype ApiRequest = ApiRequest(apiId: string, args: Args, kwargs: Kwargs)

  /** One answer: the id of the request it answers, the call's return value or
      the exception's message, and whether the call raised. */
  datatype ApiResponse = ApiResponse(apiId: string, response: Value, exception: bool)

  /** The decoded text a connection delivered, or the exception that
      receiving (or decoding the bytes as UTF-8) raised. */
  datatype Received = Received(text: string) | ReceiveFailed(exc: Exc)

  /** What handling one connection does: nothing at all, send one response, or
      let an exception escape; `dispatched` records whether a call was made. */
  datatype Handling =
    | NoResponse
    | Responded(response: ApiResponse)
    | Escaped(exc: Exc, dispatched: bool)
  {
    predicate Dispatched() {
      Responded? || (Escaped? && dispatched)
    }
  }

  /** The exception the server's lookup raises for an id with no entry. */
  function UnknownApi(apiId: string): Exc {
    Exc(Error, "no API registered as '" + apiId + "'")
  }

  /** A keyword argument that collides with a named parameter of
      `_api_call(self, api_id, *args, **kwargs)`, which the server and the client
      both declare. */
  predicate KeywordConflict(kwargs: Kwargs) {
    "api_id" in kwargs || "self" in kwargs
  }

  /** The `TypeError` Python raises when binding the arguments of
      `callee(api_id, *args, **kwargs)` finds a second value for a named
      parameter. */
  function BindingError(callee: string, kwargs: Kwargs): Exc
    requires KeywordConflict(kwargs)
  {
    var name := if "api_id" in kwargs then "api_id" else "self";
    Exc(Error, callee + "() got multiple values for argument '" + name + "'")
  }

  /** The binding failure of the server's `self._api_call(api_id, *args, **kwargs)`. */
  function ConflictError(kwargs: Kwargs): Exc
    requires KeywordConflict(kwargs)
  {
    BindingError("Server._api_call", kwargs)
  }

  /** The binding failure of a caller's `client._api_call(api_id, *args, **kwargs)`. */
  function ClientConflictError(kwargs: Kwargs): Exc
    requires KeywordConflict(kwargs)
  {
    BindingError("Client._api_call", kwargs)
  }

  /** `Server._api_call` as the handler calls it: binding the request's
      keyword arguments fails if one of them names `self` or `api_id`;
      otherwise the id is looked up and the entry called with the request's
      arguments. */
  function ApiCall(apis: map<string, Callable>, req: ApiRequest): (r: Result<Value>)
    ensures KeywordConflict(req.kwargs) ==> r == Err(ConflictError(req.kwargs))
    ensures !KeywordConflict(req.kwargs) && req.apiId !in apis ==> r == Err(UnknownApi(req.apiId))
    ensures !KeywordConflict(req.kwargs) && req.apiId in apis ==> r == apis[req.apiId](req.args, req.kwargs)
  {
    if KeywordConflict(req.kwargs) then Err(ConflictError(req.kwargs))
    else if req.apiId in apis then apis[req.apiId](req.args, req.kwargs)
    else Err(UnknownApi(req.apiId))
  }

  /** The `try`/`except Exception` around the dispatched call: exactly one
      response echoing the request's id, unless the call raised something that
      is not an `Exception`. */
  function Respond(apis: map<string, Callable>, req: ApiRequest): (h: Handling)
    ensures h.Dispatched()
    ensures h.Responded? <==> (ApiCall(apis, req).Ok? || ApiCall(apis, req).exc.IsException())
    ensures h.Responded? ==> h.response.apiId == req.apiId
    ensures h.Responded? ==> (h.response.exception <==> ApiCall(apis, req).Err?)
    ensures h.Responded? && h.response.exception ==> h.response.response == VStr(ApiCall(apis, req).exc.message)
    ensures h.Responded? && !h.response.exception ==> h.response.response == ApiCall(apis, req).value
    ensures h.Escaped? ==> h.exc == ApiCall(apis, req).exc
  {
    match ApiCall(apis, req)
    case Ok(v) => Responded(ApiResponse(req.apiId, v, false))
    case Err(e) =>
      if e.IsException() then Responded(ApiResponse(req.apiId, VStr(e.message), true))
      else Escaped(e, true)
  }

  /** `Server._client_handler`: an empty payload is ignored; a payload that fails
      to decode raises before any dispatch (outside the `try`); a decoded
      request gets its response from `Respond`. */
  function Handle(received: Received, decode: string -> Result<ApiRequest>, apis: map<string, Callable>): (h: Handling)
    ensures h.NoResponse? <==> received == Received("")
    ensures received.ReceiveFailed? ==> h == Escaped(received.exc, false)
    ensures received.Received? && received.text != "" && decode(received.text).Err? ==>
              h == Escaped(decode(received.text).exc, false)
    ensures received.Received? && received.text != "" && decode(received.text).Ok? ==>
              h == Respond(apis, decode(received.text).value)
    ensures h.Dispatched() <==> received.Received? && received.text != "" && decode(received.text).Ok?
    ensures h.Responded? ==> && received.Received? && decode(received.text).Ok?
                             && h.response.apiId == decode(received.text).value.apiId
  {
    match received
    case ReceiveFailed(e) => Escaped(e, false)
    case Received(text) =>
      if text == "" then NoResponse
      else
        match decode(text)
        case Err(e) => Escaped(e, false)
        case Ok(req) => Respond(apis, req)
  }

  /** What `Client._api_call` yields: the response value, an `IOError` raised
      with the response, or another exception (connecting, sending, receiving
      or decoding). */
  datatype ClientOutcome =
    | Returned(value: Value)
    | IOErrorRaised(response: Value)
    | Failed(exc: Exc)

  /** `Client._api_call`: binding the caller's keyword arguments fails, before
      any connection is made, if one of them names `self` or `api_id`; otherwise
      build the request, exchange it for a response over the connection, and map
      the response. `exchange` stands for connecting, sending and receiving plus
      `ApiResponse.from_json`. */
  function ClientCall(apiId: string, args: Args, kwargs: Kwargs,
                      exchange: ApiRequest -> Result<ApiResponse>): (r: ClientOutcome)
    ensures KeywordConflict(kwargs) ==> r == Failed(ClientConflictError(kwargs))
    ensures !KeywordConflict(kwargs) ==>
              var rx := exchange(ApiRequest(apiId, args, kwargs));
              && (rx.Err? <==> r.Failed?)
              && (rx.Err? ==> r.exc == rx.exc)
              && (rx.Ok? && rx.value.exception ==> r == IOErrorRaised(rx.value.response))
              && (rx.Ok? && !rx.value.exception ==> r == Returned(rx.value.response))
  {
    if KeywordConflict(kwargs) then Failed(ClientConflictError(kwargs))
    else
      match exchange(ApiRequest(apiId, args, kwargs))
      case Err(e) => Failed(e)
      case Ok(response) =>
        if response.exception then IOErrorRaised(response.response)
        else Returned(response.response)
  }

  /** A caller whose keyword arguments name `api_id` or `self` gets the client's
      own `TypeError`, and the exchange is never consulted: two exchanges that
      differ in every way give the same outcome. */
  lemma ConflictingKeywordsNeverSent(apiId: string, args: Args, kwargs: Kwargs,
                                     exchange1: ApiRequest -> Result<ApiResponse>,
                                     exchange2: ApiRequest -> Result<ApiResponse>)
    requires KeywordConflict(kwargs)
    ensures ClientCall(apiId, args, kwargs, exchange1) == ClientCall(apiId, args, kwargs, exchange2)
    ensures ClientCall(apiId, args, kwargs, exchange1).Failed?
  {
  }

  /** What `json.loads` raises on the empty text a client receives when the
      server closed the connection without answering. */
  const EmptyReply: Exc := Exc(Error, "Expecting value: line 1 column 1 (char 0)")

  /** The client's view of one handled request: the response that was sent, or
      the failure to decode an empty reply. */
  function Deliver(h: Handling): Result<ApiResponse> {
    if h.Responded? then Ok(h.response) else Err(EmptyReply)
  }

  /** The client and server halves compose: a call that returns yields its value
      at the client, a call raising an `Exception` surfaces as an `IOError`
      carrying its message, as does an unknown id; keyword arguments that clash
      with `_api_call`'s own parameters fail at the client before anything is
      sent, and only an exception that kills the handler leaves the client with
      a decoding failure. */
  lemma ClientServerRoundTrip(apis: map<string, Callable>, apiId: string, args: Args, kwargs: Kwargs)
    ensures var r := ClientCall(apiId, args, kwargs, (req: ApiRequest) => Deliver(Respond(apis, req)));
            && (KeywordConflict(kwargs) ==> r == Failed(ClientConflictError(kwargs)))
            && (!KeywordConflict(kwargs) && apiId !in apis ==> r == IOErrorRaised(VStr(UnknownApi(apiId).message)))
            && (!KeywordConflict(kwargs) && apiId in apis ==>
                  var outcome := apis[apiId](args, kwargs);
                  && (outcome.Ok? ==> r == Returned(outcome.value))
                  && (outcome.Err? && outcome.exc.IsException() ==> r == IOErrorRaised(VStr(outcome.exc.message)))
                  && (outcome.Err? && !outcome.exc.IsException() ==> r == Failed(EmptyReply)))
  {
  }

  /** A request whose keyword arguments name `api_id` or `self`, which the
      client refuses to send but any other sender may, is answered with an
      exception response before any operation is looked up. */
  lemma ConflictingKeywordsAnswered(apis: map<string, Callable>, req: ApiRequest)
    requires KeywordConflict(req.kwargs)
    ensures Respond(apis, req) == Responded(ApiResponse(req.apiId, VStr(ConflictError(req.kwargs).message), true))
  {
  }
}
