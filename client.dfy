/** The request and response flow of client/client.go. Everything that
    touches the network or a codec is a parameter: the service finder and
    the HTTP client are fields of the client record, and url.Values.Encode,
    http.NewRequest's validity check and json.Unmarshal are functions handed
    in. What is modelled is the order of the stages, which stage failure
    produces which error, how the status is classified and when the body is
    decoded. */
module Client {
  import opened Wrappers
  import opened Errors
  import opened Helpers

  /** url.Values and http.Header: keys with their lists of values. */
  type Values = map<string, seq<string>>
  type Header = map<string, seq<string>>

  /** The parts of url.URL the client touches, plus the ones it carries over. */
  datatype URL = URL(scheme: string, user: string, host: string,
                     path: string, rawQuery: string, fragment: string)

  /** ServiceFinder: a service name and TLS flag to a base URL, or a failure. */
  type ServiceFinder = (string, bool) -> Result<URL, Cause>

  /** An outgoing request; `body` is None for a nil io.Reader. */
  datatype Request = Request(httpMethod: string, url: URL, header: Header, body: Option<seq<byte>>)

  /** A response body as a stream: the bytes it delivers, then possibly a
      read error instead of end of file. */
  datatype ResponseBody = ResponseBody(data: seq<byte>, readError: Option<Cause>)

  datatype Response = Response(statusCode: int, body: ResponseBody)

  /** http.Client.Do with the client's timeout and transport: a request to a
      response or a transport failure. */
  type Transport = Request -> Result<Response, Cause>

  /** The `client` record NewBaseClient builds; never changed afterwards. */
  datatype Client = Client(finder: ServiceFinder, useTLS: bool, serviceName: string, http: Transport)

  /** The two net library calls of MakeRequest, left uninterpreted:
      url.Values.Encode, and the failure (bad method, unparsable URL) that
      http.NewRequest may report for a method and URL. */
  datatype NetLib = NetLib(encodeQuery: Values -> string,
                           newRequestError: (string, URL) -> Option<Cause>)

  /** The outcome of json.Unmarshal into a destination holding `D`: the
      decoded value, or a failure together with whatever the destination
      holds afterwards. */
  datatype Decoded<D> = Decoded(value: D) | DecodeFailed(left: D, cause: Cause)

  /** json.Unmarshal, left uninterpreted, into the two targets Do uses: a
      fresh glitch.HTTPProblem, and the caller's destination. */
  datatype JsonLib<!D> = JsonLib(unmarshalProblem: seq<byte> -> Result<HTTPProblem, Cause>,
                                 unmarshal: (seq<byte>, D) -> Decoded<D>)

  /** MakeRequest's three results; a nil byte slice is the empty sequence. */
  datatype Reply = Reply(status: int, body: seq<byte>, err: Option<DataError>)

  /** Do's result: the error, and what the caller's destination holds after
      the call (None for a nil destination). */
  datatype Outcome<D> = Outcome(err: Option<DataError>, response: Option<D>)

  /** ioutil.ReadAll: the whole stream, or the error that cut it short. */
  function ReadAll(b: ResponseBody): (r: Result<seq<byte>, Cause>)
    ensures r.Success? <==> b.readError.None?
    ensures r.Failure? ==> r.error == b.readError.value
    ensures r.Success? ==> r.value == b.data
  {
    match b.readError
    case Some(e) => Failure(e)
    case None => Success(b.data)
  }

  /** The URL the request goes to: the finder's URL with only its path and
      query replaced. */
  function Target(base: URL, slug: string, rawQuery: string): (u: URL)
    ensures u.path == slug && u.rawQuery == rawQuery
    ensures u.scheme == base.scheme && u.user == base.user
         && u.host == base.host && u.fragment == base.fragment
  {
    URL(base.scheme, base.user, base.host, slug, rawQuery, base.fragment)
  }

  /** MakeRequest: find the service, point its URL at the slug and query,
      build the request, put the caller's headers on it, send it and read
      the whole body. Each failing stage returns at once. */
  function MakeRequest(c: Client, lib: NetLib, httpMethod: string, slug: string,
                       query: Values, headers: Header, body: Option<seq<byte>>): (r: Reply)
    // every failure comes with status 0 and no body
    ensures r.err.Some? ==> r.status == 0 && r.body == []
    // a finder failure is reported before anything is built or sent
    ensures var found := c.finder(c.serviceName, c.useTLS);
            found.Failure? ==>
              r.err == Some(NewDataError(found.error, CantFindService, "Error finding service"))
    // otherwise the request goes to the finder's URL with only its path and
    // query replaced, carries exactly the caller's headers and body, and the
    // first stage that fails decides the error
    ensures var found := c.finder(c.serviceName, c.useTLS);
            found.Success? ==>
              var u := Target(found.value, slug, lib.encodeQuery(query));
              var sent := c.http(Request(httpMethod, u, headers, body));
              && (lib.newRequestError(httpMethod, u).Some? ==>
                    r.err == Some(NewDataError(lib.newRequestError(httpMethod, u).value, CantCreateRequest,
                                               "Error creating request object")))
              && (lib.newRequestError(httpMethod, u).None? && sent.Failure? ==>
                    r.err == Some(NewDataError(sent.error, ErrorMakingRequest, "Could not make the request")))
              && (lib.newRequestError(httpMethod, u).None? && sent.Success? && ReadAll(sent.value.body).Failure? ==>
                    r.err == Some(NewDataError(ReadAll(sent.value.body).error, ErrorDecodingResponse,
                                               "Could not read response body")))
              // when every stage succeeds: the response's status and its entire body
              && (lib.newRequestError(httpMethod, u).None? && sent.Success? && ReadAll(sent.value.body).Success? ==>
                    r == Reply(sent.value.statusCode, sent.value.body.data, None))
  {
    match c.finder(c.serviceName, c.useTLS)
    case Failure(err) =>
      Reply(0, [], Some(NewDataError(err, CantFindService, "Error finding service")))
    case Success(found) =>
      var u := found.(path := slug);
      var u := u.(rawQuery := lib.encodeQuery(query));
      match lib.newRequestError(httpMethod, u)
      case Some(err) =>
        Reply(0, [], Some(NewDataError(err, CantCreateRequest, "Error creating request object")))
      case None =>
        var req := Request(httpMethod, u, map[], body);
        var req := req.(header := headers);
        match c.http(req)
        case Failure(err) =>
          Reply(0, [], Some(NewDataError(err, ErrorMakingRequest, "Could not make the request")))
        case Success(resp) =>
          match ReadAll(resp.body)
          case Failure(err) =>
            Reply(0, [], Some(NewDataError(err, ErrorDecodingResponse, "Could not read response body")))
          case Success(ret) =>
            Reply(resp.statusCode, ret, None)
  }

  /** The errors MakeRequest reports are its four local ones, each wrapping
      the cause of the failing stage. */
  lemma MakeRequestErrorCodes(c: Client, lib: NetLib, httpMethod: string, slug: string,
                              query: Values, headers: Header, body: Option<seq<byte>>)
    ensures var r := MakeRequest(c, lib, httpMethod, slug, query, headers, body);
            r.err.Some? ==>
              && r.err.value.Wrapped?
              && r.err.value.Code() in {CantFindService, CantCreateRequest, ErrorMakingRequest, ErrorDecodingResponse}
  {
  }

  /** When the finder fails no request is built or sent: the result does not
      depend on the request constructor, the query encoder or the transport. */
  lemma FinderFailureSendsNothing(c: Client, lib: NetLib, lib': NetLib, http': Transport,
                                  httpMethod: string, slug: string, query: Values, headers: Header,
                                  body: Option<seq<byte>>)
    requires c.finder(c.serviceName, c.useTLS).Failure?
    ensures MakeRequest(c.(http := http'), lib', httpMethod, slug, query, headers, body)
         == MakeRequest(c, lib, httpMethod, slug, query, headers, body)
  {
  }

  /** When the request cannot be built nothing is sent: the result does not
      depend on the transport. */
  lemma CreationFailureSendsNothing(c: Client, lib: NetLib, http': Transport,
                                    httpMethod: string, slug: string, query: Values, headers: Header,
                                    body: Option<seq<byte>>)
    requires c.finder(c.serviceName, c.useTLS).Success?
    requires lib.newRequestError(httpMethod, Target(c.finder(c.serviceName, c.useTLS).value, slug,
                                                lib.encodeQuery(query))).Some?
    ensures MakeRequest(c.(http := http'), lib, httpMethod, slug, query, headers, body)
         == MakeRequest(c, lib, httpMethod, slug, query, headers, body)
  {
  }

  /** The status range Do treats as success. */
  predicate SuccessStatus(status: int)
  {
    200 <= status < 400
  }

  /** The message Do attaches to a remote problem:
      "Error from <method> to <service> - <slug>". */
  function ErrorContext(httpMethod: string, serviceName: string, slug: string): (msg: string)
    ensures |msg| == 18 + |httpMethod| + |serviceName| + |slug|
    ensures msg[..11] == "Error from " && msg[11..11 + |httpMethod|] == httpMethod
    ensures msg[11 + |httpMethod|..15 + |httpMethod|] == " to "
    ensures msg[15 + |httpMethod|..15 + |httpMethod| + |serviceName|] == serviceName
    ensures msg[15 + |httpMethod| + |serviceName|..18 + |httpMethod| + |serviceName|] == " - "
    ensures msg[18 + |httpMethod| + |serviceName|..] == slug
  {
    "Error from " + httpMethod + " to " + serviceName + " - " + slug
  }

  /** For one method and one service the message tells the slugs apart. */
  lemma ErrorContextDeterminesSlug(httpMethod: string, serviceName: string, slug1: string, slug2: string)
    requires ErrorContext(httpMethod, serviceName, slug1) == ErrorContext(httpMethod, serviceName, slug2)
    ensures slug1 == slug2
  {
  }

  /** Do: make the request; pass its error on unchanged; on a status outside
      [200, 400) decode a problem document; otherwise decode the body into
      the destination, if there is one. */
  function Do<D>(c: Client, lib: NetLib, json: JsonLib<D>, httpMethod: string, slug: string,
                 query: Values, headers: Header, body: Option<seq<byte>>,
                 response: Option<D>): (r: Outcome<D>)
    ensures var reply := MakeRequest(c, lib, httpMethod, slug, query, headers, body);
            && (reply.err.Some? ==> r == Outcome(reply.err, response))
            // an error response: the problem document decides the error and
            // the destination is not touched
            && (reply.err.None? && !SuccessStatus(reply.status) ==>
                  && r.response == response
                  && r.err.Some?
                  && match json.unmarshalProblem(reply.body)
                     case Failure(e) =>
                       r.err.value == NewDataError(e, ErrorDecodingError, "Could not decode error response")
                     case Success(prob) =>
                       r.err.value == FromHTTPProblem(prob, ErrorContext(httpMethod, c.serviceName, slug)))
            // a success response without a destination: no error, no decoding
            && (reply.err.None? && SuccessStatus(reply.status) && response.None? ==>
                  r == Outcome(None, None))
            // a success response with a destination: it ends up holding what
            // json.Unmarshal left in it
            && (reply.err.None? && SuccessStatus(reply.status) && response.Some? ==>
                  match json.unmarshal(reply.body, response.value)
                  case Decoded(v) =>
                    r == Outcome(None, Some(v))
                  case DecodeFailed(left, e) =>
                    r == Outcome(Some(NewDataError(e, ErrorDecodingResponse, "Could not decode response")), Some(left)))
  {
    var reply := MakeRequest(c, lib, httpMethod, slug, query, headers, body);
    if reply.err.Some? then
      Outcome(reply.err, response)
    else if reply.status >= 400 || reply.status < 200 then
      match json.unmarshalProblem(reply.body)
      case Failure(err) =>
        Outcome(Some(NewDataError(err, ErrorDecodingError, "Could not decode error response")), response)
      case Success(prob) =>
        Outcome(Some(FromHTTPProblem(prob, ErrorContext(httpMethod, c.serviceName, slug))), response)
    else if response.Some? then
      match json.unmarshal(reply.body, response.value)
      case DecodeFailed(left, err) =>
        Outcome(Some(NewDataError(err, ErrorDecodingResponse, "Could not decode response")), Some(left))
      case Decoded(v) =>
        Outcome(None, Some(v))
    else
      Outcome(None, None)
  }

  /** Do succeeds exactly when every stage of MakeRequest does, the status is
      in [200, 400), and either there is no destination or decoding into it
      works. */
  lemma DoSucceedsIff<D>(c: Client, lib: NetLib, json: JsonLib<D>, httpMethod: string, slug: string,
                         query: Values, headers: Header, body: Option<seq<byte>>, response: Option<D>)
    ensures var reply := MakeRequest(c, lib, httpMethod, slug, query, headers, body);
            Do(c, lib, json, httpMethod, slug, query, headers, body, response).err.None?
            <==> && reply.err.None?
                 && SuccessStatus(reply.status)
                 && (response.Some? ==> json.unmarshal(reply.body, response.value).Decoded?)
  {
  }

  /** The codes Do can report: the four of MakeRequest, the two decoding
      codes, or whatever code a decoded problem document carries, which
      comes only from an error status. Do never fails with a marshalling
      error of its own: a `Code()` text of "ERROR_MARSHALLING_OBJECT" can
      only be a remote document's spelling. */
  lemma DoErrorCodes<D>(c: Client, lib: NetLib, json: JsonLib<D>, httpMethod: string, slug: string,
                        query: Values, headers: Header, body: Option<seq<byte>>, response: Option<D>)
    ensures var reply := MakeRequest(c, lib, httpMethod, slug, query, headers, body);
            var r := Do(c, lib, json, httpMethod, slug, query, headers, body, response);
            && (r.err.Some? && r.err.value.Wrapped? ==>
                  r.err.value.Code() in {CantFindService, CantCreateRequest, ErrorMakingRequest,
                                         ErrorDecodingError, ErrorDecodingResponse})
            && (r.err.Some? && r.err.value.Code().Text() == ErrorMarshallingObject.Text() ==>
                  r.err.value.FromProblem? && r.err.value.problem.code == "ERROR_MARSHALLING_OBJECT")
            && (r.err.Some? && r.err.value.FromProblem? <==>
                  reply.err.None? && !SuccessStatus(reply.status) && json.unmarshalProblem(reply.body).Success?)
  {
    MakeRequestErrorCodes(c, lib, httpMethod, slug, query, headers, body);
  }

  /** Without a destination a success body is never decoded, not even
      checked: the result does not depend on the JSON decoder. */
  lemma NoDestinationNoDecoding<D>(c: Client, lib: NetLib, json: JsonLib<D>, json': JsonLib<D>,
                                   httpMethod: string, slug: string, query: Values, headers: Header,
                                   body: Option<seq<byte>>)
    requires SuccessStatus(MakeRequest(c, lib, httpMethod, slug, query, headers, body).status)
    ensures Do(c, lib, json', httpMethod, slug, query, headers, body, None)
         == Do(c, lib, json, httpMethod, slug, query, headers, body, None)
         == Outcome(None, None)
  {
  }

  /** On an error status the destination is never decoded into: the result
      does not depend on the destination decoder, and the destination comes
      back as it was. */
  lemma ErrorStatusLeavesDestination<D>(c: Client, lib: NetLib, json: JsonLib<D>,
                                        unmarshal': (seq<byte>, D) -> Decoded<D>,
                                        httpMethod: string, slug: string, query: Values, headers: Header,
                                        body: Option<seq<byte>>, response: Option<D>)
    requires !SuccessStatus(MakeRequest(c, lib, httpMethod, slug, query, headers, body).status)
    ensures var r := Do(c, lib, json, httpMethod, slug, query, headers, body, response);
            && r == Do(c, lib, json.(unmarshal := unmarshal'), httpMethod, slug, query, headers, body, response)
            && r.response == response
            && r.err.Some?
  {
  }

  /** A client for service "foo" whose service answers `resp` to every
      request. */
  ghost predicate AnswersWith(c: Client, resp: Response)
  {
    && c.serviceName == "foo"
    && c.finder("foo", c.useTLS).Success?
    && forall req :: c.http(req) == Success(resp)
  }

  /** The case "server returns an error" of client/client_test.go: a GET of slug "3" answered with
      status 500 and a problem document FOOBAR. */
  lemma ServerProblemExample<D>(c: Client, lib: NetLib, json: JsonLib<D>, data: seq<byte>,
                                query: Values, headers: Header, response: Option<D>)
    requires AnswersWith(c, Response(500, ResponseBody(data, None)))
    requires lib.newRequestError("GET", Target(c.finder("foo", c.useTLS).value, "3", lib.encodeQuery(query))).None?
    requires json.unmarshalProblem(data) == Success(HTTPProblem("FOOBAR", 500, "test error"))
    ensures Do(c, lib, json, "GET", "3", query, headers, None, response)
         == Outcome(Some(FromHTTPProblem(HTTPProblem("FOOBAR", 500, "test error"), "Error from GET to foo - 3")),
                    response)
  {
    var u := Target(c.finder("foo", c.useTLS).value, "3", lib.encodeQuery(query));
    assert c.http(Request("GET", u, headers, None)) == Success(Response(500, ResponseBody(data, None)));
    assert MakeRequest(c, lib, "GET", "3", query, headers, None) == Reply(500, data, None);
    assert ErrorContext("GET", "foo", "3") == "Error from GET to foo - 3";
  }

  /** The case "improperly formatted error payload" of client/client_test.go: status 500 with a body
      that is not a problem document yields ERROR_DECODING_ERROR (that case
      itself expects ERROR_MAKING_REQUEST, which the code does not return). */
  lemma UndecodableProblemExample<D>(c: Client, lib: NetLib, json: JsonLib<D>, data: seq<byte>,
                                     query: Values, headers: Header, response: Option<D>)
    requires AnswersWith(c, Response(500, ResponseBody(data, None)))
    requires lib.newRequestError("GET", Target(c.finder("foo", c.useTLS).value, "3", lib.encodeQuery(query))).None?
    requires json.unmarshalProblem(data).Failure?
    ensures var r := Do(c, lib, json, "GET", "3", query, headers, None, response);
            r.err.Some? && r.err.value.Code() == ErrorDecodingError
  {
  }

  /** The case "success with an improperly formatted payload" of client/client_test.go: status 201
      with a body the destination cannot take yields ERROR_DECODING_RESPONSE. */
  lemma UndecodableSuccessExample<D>(c: Client, lib: NetLib, json: JsonLib<D>, data: seq<byte>,
                                     query: Values, headers: Header, dest: D)
    requires AnswersWith(c, Response(201, ResponseBody(data, None)))
    requires lib.newRequestError("GET", Target(c.finder("foo", c.useTLS).value, "3", lib.encodeQuery(query))).None?
    requires json.unmarshal(data, dest).DecodeFailed?
    ensures var r := Do(c, lib, json, "GET", "3", query, headers, None, Some(dest));
            r.err.Some? && r.err.value.Code() == ErrorDecodingResponse
  {
  }

  /** The case "error making request" of client/client_test.go: a finder failure reaches the caller
      as CANT_FIND_SERVICE wrapping the finder's error, whatever the server
      would have answered, and the destination is left alone. */
  lemma FinderFailureExample<D>(c: Client, lib: NetLib, json: JsonLib<D>, e: Cause,
                                query: Values, headers: Header, response: Option<D>)
    requires c.finder(c.serviceName, c.useTLS) == Failure(e)
    ensures Do(c, lib, json, "GET", "3", query, headers, None, response)
         == Outcome(Some(Wrapped(e, CantFindService, "Error finding service")), response)
  {
  }

  /** The "base path" cases of client/client_test.go: a 200 answer whose body decodes into the
      destination gives no error and the decoded value. */
  lemma DecodedSuccessExample<D>(c: Client, lib: NetLib, json: JsonLib<D>, data: seq<byte>,
                                 httpMethod: string, slug: string, query: Values, headers: Header,
                                 body: Option<seq<byte>>, dest: D, decoded: D)
    requires AnswersWith(c, Response(200, ResponseBody(data, None)))
    requires lib.newRequestError(httpMethod, Target(c.finder("foo", c.useTLS).value, slug, lib.encodeQuery(query))).None?
    requires json.unmarshal(data, dest) == Decoded(decoded)
    ensures Do(c, lib, json, httpMethod, slug, query, headers, body, Some(dest)) == Outcome(None, Some(decoded))
  {
    var u := Target(c.finder("foo", c.useTLS).value, slug, lib.encodeQuery(query));
    assert c.http(Request(httpMethod, u, headers, body)) == Success(Response(200, ResponseBody(data, None)));
  }
}
