/**
 * Values shared by the CSW protocol-negotiation core: optional values, the
 * exceptions the core raises or lets through, HTTP verbs, operations and the
 * inbound request as the request parsers see it.
 */
module CswTypes {

  datatype Option<+T> = None | Some(value: T) {
    function GetOr(default: T): T {
      match this
      case Some(v) => v
      case None => default
    }
  }

  datatype Result<+R, +E> = Success(value: R) | Failure(error: E)

  /** The two protocol error codes the core raises (OWS exception codes). */
  datatype ErrorCode = NoApplicableCode | OperationNotSupported

  /**
   * The exceptions that matter to the core. `CswError` is taken to be a
   * subclass of `PycswError`, so every `except PycswError` also catches it.
   */
  datatype Exception =
    | CswError(code: ErrorCode)
    | PycswError
    | TypeError
    | AttributeError
    | ValueError

  /** True for the exceptions an `except exceptions.PycswError` clause catches. */
  predicate IsPycswError(e: Exception) {
    e.CswError? || e.PycswError?
  }

  datatype HttpVerb = Get | Post

  /** An operation as the service registry exposes it: its name and the verbs it answers. */
  datatype Operation = Operation(name: string, allowedVerbs: set<HttpVerb>)

  /**
   * The parsed XML body of a request: either the document could not be parsed
   * (lxml raises `XMLSyntaxError` when it is accessed) or it has a root element
   * whose tag is in Clark notation (`{namespace}local` or `local`).
   */
  datatype XmlBody =
    | Unparseable
    | Element(tag: string, attributes: map<string, string>)

  /** An inbound request: its key-value parameters and its XML body. */
  datatype HttpRequest = HttpRequest(parameters: map<string, string>, exml: XmlBody)

  /** `dict.get(key)`: the value under `key`, or `None` when the key is absent. */
  function Lookup(m: map<string, string>, key: string): (r: Option<string>)
    ensures r.Some? <==> key in m
    ensures r.Some? ==> r.value == m[key]
  {
    if key in m then Some(m[key]) else None
  }

  /** The general request information every request parser extracts. */
  datatype GeneralRequestInfo =
    GeneralRequestInfo(request: Option<string>, service: Option<string>, version: Option<string>)

  /**
   * What a call to `parse_general_request_info` ends in: it returns an info
   * dictionary, it returns `None` (a body that forgets its `return`), or it
   * raises an exception.
   */
  datatype InfoOutcome =
    | Parsed(info: GeneralRequestInfo)
    | ReturnedNone
    | Raised(error: Exception)
}
