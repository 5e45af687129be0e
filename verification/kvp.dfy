/**
 * The key-value-pair request parser (`CswOgcKvpProcessor`): general request
 * information, the per-operation parameter parsers and `parse_request`, with
 * its mapping of failures onto protocol error codes.
 */
module KvpProcessor {
  import opened CswTypes
  import PyStrings

  /** The parameters the per-operation parsers build, one variant per operation. */
  datatype Parameters =
    | GetCapabilitiesParameters(
        sections: Option<string>,
        acceptVersions: Option<string>,
        acceptFormats: Option<string>,
        updateSequence: Option<string>)
    | GetRecordByIdParameters(
        id: seq<string>,
        elementSetName: Option<string>,
        outputFormat: Option<string>,
        outputSchema: Option<string>)

  /** What `get_enabled_operation` gives for a requested name: an operation, `None`, or an exception. */
  type OperationLookup = Option<string> -> Result<Option<Operation>, Exception>

  /** Adds `key := value` when the value is present; leaves the map alone otherwise. */
  function Put(m: map<string, string>, key: string, value: Option<string>): (m': map<string, string>) {
    if value.Some? then m[key := value.value] else m
  }

  /**
   * `parse_general_request_info`: `request`, `service` and `version` are read
   * from the parameters of the same names; it never raises, since an absent
   * key gives `None`.
   */
  function ParseGeneralRequestInfo(request: HttpRequest): (o: InfoOutcome)
    ensures o.Parsed?
    ensures o.info.request.Some? <==> "request" in request.parameters
    ensures o.info.service.Some? <==> "service" in request.parameters
    ensures o.info.version.Some? <==> "version" in request.parameters
  {
    var p := request.parameters;
    Parsed(GeneralRequestInfo(Lookup(p, "request"), Lookup(p, "service"), Lookup(p, "version")))
  }

  /** The key-value parameters a client sends to state `info`. */
  function EncodeGeneralRequestInfo(info: GeneralRequestInfo): (p: map<string, string>) {
    Put(Put(Put(map[], "request", info.request), "service", info.service), "version", info.version)
  }

  /** Encoding the general information as parameters and parsing them gives it back. */
  lemma GeneralRequestInfoRoundTrip(info: GeneralRequestInfo, exml: XmlBody)
    ensures ParseGeneralRequestInfo(HttpRequest(EncodeGeneralRequestInfo(info), exml)) == Parsed(info)
  {
  }

  /** Parameters outside `request`, `service` and `version` do not affect the general information. */
  lemma GeneralRequestInfoIgnoresOtherKeys(p: map<string, string>, q: map<string, string>, exml: XmlBody, exml': XmlBody)
    requires forall k :: k in {"request", "service", "version"} ==> Lookup(p, k) == Lookup(q, k)
    ensures ParseGeneralRequestInfo(HttpRequest(p, exml)) == ParseGeneralRequestInfo(HttpRequest(q, exml'))
  {
    assert Lookup(p, "request") == Lookup(q, "request");
    assert Lookup(p, "service") == Lookup(q, "service");
    assert Lookup(p, "version") == Lookup(q, "version");
  }

  /**
   * `parse_get_capabilities`: the four GetCapabilities parameters, renamed,
   * each `None` when absent.
   */
  function ParseGetCapabilities(request: HttpRequest): (params: Parameters)
    ensures params.GetCapabilitiesParameters?
    ensures var p := request.parameters;
      && params.sections == (if "sections" in p then Some(p["sections"]) else None)
      && params.acceptVersions == (if "acceptVersions" in p then Some(p["acceptVersions"]) else None)
      && params.acceptFormats == (if "acceptFormats" in p then Some(p["acceptFormats"]) else None)
      && params.updateSequence == (if "updateSequence" in p then Some(p["updateSequence"]) else None)
  {
    var p := request.parameters;
    GetCapabilitiesParameters(
      Lookup(p, "sections"), Lookup(p, "acceptVersions"),
      Lookup(p, "acceptFormats"), Lookup(p, "updateSequence"))
  }

  /** The key-value parameters a client sends to ask for the given GetCapabilities parameters. */
  function EncodeGetCapabilities(params: Parameters): (p: map<string, string>)
    requires params.GetCapabilitiesParameters?
  {
    Put(Put(Put(Put(map[], "sections", params.sections), "acceptVersions", params.acceptVersions),
      "acceptFormats", params.acceptFormats), "updateSequence", params.updateSequence)
  }

  /**
   * Encoding GetCapabilities parameters and parsing them gives them back,
   * whatever other parameters (`request`, `service`, ...) travel with them.
   */
  lemma GetCapabilitiesRoundTrip(params: Parameters, others: map<string, string>, exml: XmlBody)
    requires params.GetCapabilitiesParameters?
    requires "sections" !in others && "acceptVersions" !in others
    requires "acceptFormats" !in others && "updateSequence" !in others
    ensures ParseGetCapabilities(HttpRequest(others + EncodeGetCapabilities(params), exml)) == params
  {
  }

  /**
   * `",".split(request.parameters.get("Id"))` exactly as written: the literal
   * "," is split by the Id value. An absent Id splits "," on whitespace; an
   * empty Id is an empty separator, which Python refuses with `ValueError`.
   */
  function SplitIdAsWritten(id: Option<string>): (r: Result<seq<string>, Exception>)
    ensures id == Some("") <==> r == Failure(ValueError)
  {
    match id
    case None => Success([","])
    case Some(sep) => if sep == "" then Failure(ValueError) else Success(PyStrings.Split(",", sep))
  }

  /**
   * As written, the identifiers never come from the Id value: whatever the
   * client sends other than "" or ",", the list is the single string ",".
   */
  lemma SplitIdAsWrittenIgnoresId(id: string)
    requires id != "" && id != ","
    ensures SplitIdAsWritten(Some(id)) == Success([","])
  {
    var text := ",";
    if |id| == 1 {
      assert text[..|id|] == text != id;
      assert text[1..] == "";
      var rest := PyStrings.Split(text[1..], id);
      assert rest == [""];
      assert PyStrings.Split(text, id) == [[text[0]] + rest[0]] + rest[1..];
      assert [text[0]] + rest[0] == text;
      assert rest[1..] == [];
      assert PyStrings.Split(text, id) == [","];
    }
  }

  /**
   * The evidently intended `request.parameters.get("Id").split(",")`: the Id
   * value cut at every comma. An absent Id is `None.split`, an `AttributeError`.
   */
  function SplitId(id: Option<string>): (r: Result<seq<string>, Exception>)
    ensures id.None? <==> r == Failure(AttributeError)
    ensures id.Some? ==> r.Success?
    ensures r.Success? ==> |r.value| >= 1 && PyStrings.Join(r.value, ",") == id.value
    ensures r.Success? ==> forall i :: 0 <= i < |r.value| ==> ',' !in r.value[i]
  {
    match id
    case None => Failure(AttributeError)
    case Some(s) =>
      PyStrings.JoinSplit(s, ",");
      PyStrings.SplitPiecesFree(s, ',');
      Success(PyStrings.Split(s, ","))
  }

  /** Identifiers free of commas, sent joined by commas, come back one by one. */
  lemma SplitIdRoundTrip(ids: seq<string>)
    requires |ids| >= 1
    requires forall i :: 0 <= i < |ids| ==> ',' !in ids[i]
    ensures SplitId(Some(PyStrings.Join(ids, ","))) == Success(ids)
  {
    PyStrings.SplitJoin(ids, ',');
  }

  /**
   * `parse_get_record_by_id`, with the Id list cut on commas: the identifiers
   * join back to the Id value, and the three other parameters are renamed.
   */
  function ParseGetRecordById(request: HttpRequest): (r: Result<Parameters, Exception>)
    ensures r.Success? <==> "Id" in request.parameters
    ensures r.Failure? ==> r.error == AttributeError
    ensures r.Success? ==> (
      && r.value.GetRecordByIdParameters?
      && |r.value.id| >= 1
      && PyStrings.Join(r.value.id, ",") == request.parameters["Id"]
      && (forall i :: 0 <= i < |r.value.id| ==> ',' !in r.value.id[i])
      && r.value.elementSetName == Lookup(request.parameters, "ElementSetName")
      && r.value.outputFormat == Lookup(request.parameters, "outputFormat")
      && r.value.outputSchema == Lookup(request.parameters, "outputSchema"))
  {
    var p := request.parameters;
    match SplitId(Lookup(p, "Id"))
    case Failure(e) => Failure(e)
    case Success(ids) =>
      Success(GetRecordByIdParameters(
        ids, Lookup(p, "ElementSetName"), Lookup(p, "outputFormat"), Lookup(p, "outputSchema")))
  }

  /**
   * The two `except` clauses of `parse_request`: a `CswError` is re-raised
   * unchanged, a `TypeError` or any other `PycswError` becomes
   * `CswError(OPERATION_NOT_SUPPORTED)`, anything else passes through.
   */
  function HandleFailure(e: Exception): (e': Exception)
    ensures e.CswError? ==> e' == e
    ensures (e.TypeError? || e.PycswError?) ==> e' == CswError(OperationNotSupported)
    ensures !IsPycswError(e) && !e.TypeError? ==> e' == e
    ensures !e'.TypeError? && !e'.PycswError?
  {
    if e.CswError? then e
    else if e.TypeError? || e.PycswError? then CswError(OperationNotSupported)
    else e
  }

  /** Handling a failure twice changes nothing: the handled exceptions are final. */
  lemma HandleFailureIdempotent(e: Exception)
    ensures HandleFailure(HandleFailure(e)) == HandleFailure(e)
  {
  }

  /** The operation names that have a registered parameter parser. */
  predicate HasParameterParser(name: string) {
    name == "GetCapabilities" || name == "GetRecordById"
  }

  /** The parameter parser registered for an enabled operation; calling the missing one is a `TypeError`. */
  function ParseParameters(name: string, request: HttpRequest): (r: Result<Parameters, Exception>)
    ensures !HasParameterParser(name) ==> r == Failure(TypeError)
  {
    if name == "GetCapabilities" then Success(ParseGetCapabilities(request))
    else if name == "GetRecordById" then ParseGetRecordById(request)
    else Failure(TypeError)
  }

  /**
   * `parse_request`: looks up the enabled operation named by the `request`
   * parameter, insists that it answers GET, parses its parameters, and maps
   * the failures onto protocol error codes.
   */
  function ParseRequest(request: HttpRequest, lookup: OperationLookup): (r: Result<(Operation, Parameters), Exception>)
    // success: an enabled operation answering GET with a parameter parser
    ensures r.Success? ==>
      && lookup(Lookup(request.parameters, "request")) == Success(Some(r.value.0))
      && Get in r.value.0.allowedVerbs
      && HasParameterParser(r.value.0.name)
    ensures r.Success? && r.value.0.name == "GetCapabilities" ==> r.value.1 == ParseGetCapabilities(request)
    ensures r.Success? && r.value.0.name == "GetRecordById" ==> Success(r.value.1) == ParseGetRecordById(request)
    // an enabled GET operation: GetCapabilities always succeeds with the four parameters
    ensures var found := lookup(Lookup(request.parameters, "request"));
      var p := request.parameters;
      found.Success? && found.value.Some? && Get in found.value.value.allowedVerbs
      && found.value.value.name == "GetCapabilities"
      ==> r == Success((found.value.value, GetCapabilitiesParameters(
            Lookup(p, "sections"), Lookup(p, "acceptVersions"), Lookup(p, "acceptFormats"), Lookup(p, "updateSequence"))))
    // GetRecordById succeeds exactly when an Id is sent; without one, None.split escapes
    ensures var found := lookup(Lookup(request.parameters, "request"));
      found.Success? && found.value.Some? && Get in found.value.value.allowedVerbs
      && found.value.value.name == "GetRecordById"
      ==> (&& (r.Success? <==> "Id" in request.parameters)
           && (r.Success? ==> r.value.0 == found.value.value)
           && (r.Failure? ==> r.error == AttributeError))
    // an exception from get_enabled_operation goes through the two except clauses
    ensures var found := lookup(Lookup(request.parameters, "request"));
      found.Failure? ==> r == Failure(HandleFailure(found.error))
    // an operation that does not answer GET
    ensures var found := lookup(Lookup(request.parameters, "request"));
      found.Success? && found.value.Some? && Get !in found.value.value.allowedVerbs
      ==> r == Failure(CswError(NoApplicableCode))
    // an operation without a parameter parser
    ensures var found := lookup(Lookup(request.parameters, "request"));
      found.Success? && found.value.Some? && Get in found.value.value.allowedVerbs
      && !HasParameterParser(found.value.value.name)
      ==> r == Failure(CswError(OperationNotSupported))
    // no enabled operation: `None.allowed_http_verbs` escapes as an AttributeError
    ensures lookup(Lookup(request.parameters, "request")) == Success(None) ==> r == Failure(AttributeError)
    // no TypeError or plain PycswError ever leaves parse_request
    ensures r.Failure? ==> !r.error.TypeError? && !r.error.PycswError?
  {
    var info := ParseGeneralRequestInfo(request).info;
    match lookup(info.request)
    case Failure(e) => Failure(HandleFailure(e))
    case Success(None) => Failure(HandleFailure(AttributeError))
    case Success(Some(op)) =>
      if Get in op.allowedVerbs then
        match ParseParameters(op.name, request)
        case Success(params) => Success((op, params))
        case Failure(e) => Failure(HandleFailure(e))
      else
        Failure(HandleFailure(CswError(NoApplicableCode)))
  }
}
