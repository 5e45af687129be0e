/**
 * `CswOgcSchemaProcessor` and its two request encodings. The subclass a
 * processor belongs to (`CswOgcKvpProcessor` or `CswOgcPostProcessor`) is its
 * `encoding`; its configuration is stored by the constructor with defaults.
 */
module SchemaProcessors {
  import opened CswTypes
  import KvpProcessor
  import PostProcessor

  /** Which subclass a processor is: key-value parameters or an XML body. */
  datatype Encoding = Kvp | XmlPost

  class SchemaProcessor {
    const encoding: Encoding
    var typeNames: seq<string>
    var recordMapping: map<string, string>
    var elementSetNames: map<string, string>

    /** Stores the configuration; an absent value becomes an empty list or dictionary. */
    constructor (encoding: Encoding, typeNames: Option<seq<string>> := None,
                 recordMapping: Option<map<string, string>> := None,
                 elementSetNames: Option<map<string, string>> := None)
      ensures this.encoding == encoding
      ensures this.typeNames == (if typeNames.Some? then typeNames.value else [])
      ensures this.recordMapping == (if recordMapping.Some? then recordMapping.value else map[])
      ensures this.elementSetNames == (if elementSetNames.Some? then elementSetNames.value else map[])
    {
      this.encoding := encoding;
      this.typeNames := typeNames.GetOr([]);
      this.recordMapping := recordMapping.GetOr(map[]);
      this.elementSetNames := elementSetNames.GetOr(map[]);
    }

    /**
     * `parse_general_request_info` of this processor's class. A key-value
     * processor always succeeds; an XML processor raises for a body it cannot
     * read. Neither returns `None` (the XML one with its missing `return`
     * restored).
     */
    function ParseGeneralRequestInfo(request: HttpRequest): (o: InfoOutcome)
      ensures !o.ReturnedNone?
      ensures encoding == Kvp ==> o.Parsed?
      ensures encoding == XmlPost && request.exml.Unparseable? ==> o == Raised(PycswError)
      ensures o.Raised? ==> encoding == XmlPost && (o.error == PycswError <==> request.exml.Unparseable?)
    {
      match encoding
      case Kvp => KvpProcessor.ParseGeneralRequestInfo(request)
      case XmlPost => PostProcessor.ParseGeneralRequestInfo(request)
    }
  }

  /** The outcome of each parser's `parse_general_request_info` on the request, in order. */
  function Outcomes(parsers: seq<SchemaProcessor>, request: HttpRequest): (outs: seq<InfoOutcome>)
    ensures |outs| == |parsers|
    ensures forall i :: 0 <= i < |parsers| ==> outs[i] == parsers[i].ParseGeneralRequestInfo(request)
  {
    seq(|parsers|, i requires 0 <= i < |parsers| => parsers[i].ParseGeneralRequestInfo(request))
  }
}
