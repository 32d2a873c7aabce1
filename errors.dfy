/** The error values that leave the client package: the fixed local codes of
    client/client.go and the two glitch constructors that the package calls,
    `NewDataError` (a local code wrapping a cause) and `FromHTTPProblem`
    (a remote problem document). glitch's own internals are not modelled:
    an error value simply records what it was built from. */
module Errors {
  import opened Wrappers

  /** An underlying Go `error` (from the finder, the transport, a reader or
      the JSON codec); only its text is observable. */
  datatype Cause = Cause(text: string)

  /** The error codes of the package, plus the code a remote service put in
      its problem document. */
  datatype ErrorCode =
    | CantFindService
    | CantCreateRequest
    | ErrorMakingRequest
    | ErrorDecodingError
    | ErrorDecodingResponse
    | ErrorMarshallingObject
    | Remote(code: string)
  {
    /** The string a caller sees from `DataError.Code()`. */
    function Text(): string
    {
      match this
      case CantFindService => "CANT_FIND_SERVICE"
      case CantCreateRequest => "CANT_CREATE_REQUEST"
      case ErrorMakingRequest => "ERROR_MAKING_REQUEST"
      case ErrorDecodingError => "ERROR_DECODING_ERROR"
      case ErrorDecodingResponse => "ERROR_DECODING_RESPONSE"
      case ErrorMarshallingObject => "ERROR_MARSHALLING_OBJECT"
      case Remote(c) => c
    }

    predicate IsLocal()
    {
      !Remote?
    }
  }

  /** The problem document a remote service sends with an error status. */
  datatype HTTPProblem = HTTPProblem(code: string, status: int, detail: string)

  /** glitch.DataError as this package builds it. */
  datatype DataError =
    | Wrapped(cause: Cause, localCode: ErrorCode, msg: string)
    | FromProblem(problem: HTTPProblem, msg: string)
  {
    /** The code a caller switches on. */
    function Code(): ErrorCode
    {
      match this
      case Wrapped(_, code, _) => code
      case FromProblem(p, _) => Remote(p.code)
    }
  }

  /** glitch.NewDataError(err, code, msg). */
  function NewDataError(err: Cause, code: ErrorCode, msg: string): (e: DataError)
    ensures e.Code() == code && e.msg == msg
    ensures e.Wrapped? && e.cause == err
  {
    Wrapped(err, code, msg)
  }

  /** glitch.FromHTTPProblem(prob, msg): the code is the one the remote
      service sent, not a local one. */
  function FromHTTPProblem(prob: HTTPProblem, msg: string): (e: DataError)
    ensures e.Code() == Remote(prob.code) && e.Code().Text() == prob.code
    ensures e.msg == msg && e.FromProblem? && e.problem == prob
  {
    FromProblem(prob, msg)
  }

  /** The six local codes are spelled differently, so a caller switching on
      `Code()` can tell every local failure apart. */
  lemma LocalCodeTextsDistinct(a: ErrorCode, b: ErrorCode)
    requires a.IsLocal() && b.IsLocal()
    ensures a.Text() == b.Text() <==> a == b
  {
  }

  /** A remote problem document can spell any local code: its `Code()` text
      is then the local one, although the error is a remote one. So the text
      alone does not tell a local failure from a remote one. */
  lemma RemoteCanSpellLocal(a: ErrorCode)
    requires a.IsLocal()
    ensures Remote(a.Text()).Text() == a.Text() && Remote(a.Text()) != a
    ensures FromHTTPProblem(HTTPProblem(a.Text(), 500, ""), "").Code().Text() == a.Text()
  {
  }
}
