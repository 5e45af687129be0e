/**
 * Lemmas about concrete requests: the usual KVP and XML cases, the
 * default-service fallback, and the two places where the code as written
 * departs from what it evidently means to do.
 */
module Scenarios {
  import opened CswTypes
  import opened ParserSelection
  import KvpProcessor
  import PostProcessor
  import PyStrings

  const CswNamespace := "http://www.opengis.net/cat/csw/2.0.2"

  /** A KVP GetCapabilities request with no optional parameters. */
  function CapabilitiesKvp(): (p: map<string, string>) {
    map["request" := "GetCapabilities", "service" := "CSW", "version" := "2.0.2"]
  }

  /**
   * A KVP GetCapabilities request to a service whose enabled GetCapabilities
   * answers GET resolves to that operation, with the capability parameters
   * the client sent and `None` for those it left out.
   */
  lemma GetCapabilitiesKvp(lookup: KvpProcessor.OperationLookup, op: Operation,
                           params: KvpProcessor.Parameters, exml: XmlBody)
    requires op.name == "GetCapabilities" && Get in op.allowedVerbs
    requires lookup(Some("GetCapabilities")) == Success(Some(op))
    requires params.GetCapabilitiesParameters?
    ensures KvpProcessor.ParseRequest(HttpRequest(CapabilitiesKvp() + KvpProcessor.EncodeGetCapabilities(params), exml), lookup)
      == Success((op, params))
  {
    var p := CapabilitiesKvp() + KvpProcessor.EncodeGetCapabilities(params);
    KvpProcessor.GetCapabilitiesRoundTrip(params, CapabilitiesKvp(), exml);
    assert Lookup(p, "request") == Some("GetCapabilities");
  }

  /** The same request selects a KVP parser of the CSW 2.0.2 service, default or not. */
  lemma GetCapabilitiesKvpSelected(isDefault: bool)
    ensures Select([KvpProcessor.ParseGeneralRequestInfo(HttpRequest(CapabilitiesKvp(), Unparseable))],
                   ServiceIdentity("CSW", "2.0.2", isDefault)) == Chosen(0)
  {
  }

  /** A KVP request naming the service but no version is taken by the default service only. */
  lemma VersionlessKvp(isDefault: bool)
    ensures var p := map["request" := "GetCapabilities", "service" := "CSW"];
      Select([KvpProcessor.ParseGeneralRequestInfo(HttpRequest(p, Unparseable))],
             ServiceIdentity("CSW", "2.0.2", isDefault))
      == if isDefault then Chosen(0) else NoneChosen
  {
  }

  /** An XML request whose `service` attribute names another service is not taken. */
  lemma XmlForOtherService(isDefault: bool)
    ensures var body := PostProcessor.RootElement(CswNamespace, "GetCapabilities", map["service" := "WMS", "version" := "2.0.2"]);
      Select([PostProcessor.ParseGeneralRequestInfo(HttpRequest(map[], body))],
             ServiceIdentity("CSW", "2.0.2", isDefault)) == NoneChosen
  {
    PostProcessor.GeneralRequestInfoRoundTrip(CswNamespace, "GetCapabilities", map["service" := "WMS", "version" := "2.0.2"], map[]);
  }

  /**
   * The XML parser as written, placed anywhere it is reached, makes
   * `get_request_parser` raise `TypeError` for every request whose body it can
   * read: its `None` is subscripted, and `TypeError` is not a `PycswError`.
   */
  lemma XmlParserAsWrittenEscapes(request: HttpRequest, before: seq<InfoOutcome>, after: seq<InfoOutcome>, id: ServiceIdentity)
    requires request.exml.Element? && PostProcessor.LocalName(request.exml.tag).Some?
    requires Select(before, id) == NoneChosen
    ensures Select(before + [PostProcessor.ParseGeneralRequestInfoAsWritten(request)] + after, id) == Escaped(TypeError)
  {
    var o := PostProcessor.ParseGeneralRequestInfoAsWritten(request);
    SelectAppend(before + [o], after, id);
    SelectAppend(before, [o], id);
  }

  /**
   * A well-formed CSW 2.0.2 XML request: the parser as written lets a
   * `TypeError` escape, while the parser with its `return` restored is chosen.
   */
  lemma XmlParserMissingReturn(isDefault: bool)
    ensures var body := PostProcessor.RootElement(CswNamespace, "GetCapabilities", map["service" := "CSW", "version" := "2.0.2"]);
      var request := HttpRequest(map[], body);
      var id := ServiceIdentity("CSW", "2.0.2", isDefault);
      && Select([PostProcessor.ParseGeneralRequestInfoAsWritten(request)], id) == Escaped(TypeError)
      && Select([PostProcessor.ParseGeneralRequestInfo(request)], id) == Chosen(0)
  {
    PostProcessor.GeneralRequestInfoRoundTrip(CswNamespace, "GetCapabilities", map["service" := "CSW", "version" := "2.0.2"], map[]);
  }

  /**
   * `Id=abc,def`: as written the identifier list is `[","]`, the literal
   * split by the Id value; with the receiver and argument the right way round
   * it is `["abc", "def"]`.
   */
  lemma RecordIdsSwappedSplit()
    ensures KvpProcessor.SplitIdAsWritten(Some("abc,def")) == Success([","])
    ensures KvpProcessor.SplitId(Some("abc,def")) == Success(["abc", "def"])
  {
    KvpProcessor.SplitIdAsWrittenIgnoresId("abc,def");
    assert PyStrings.Join(["abc", "def"], ",") == "abc,def";
    KvpProcessor.SplitIdRoundTrip(["abc", "def"]);
  }
}
