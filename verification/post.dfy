/**
 * The XML-body request parser (`CswOgcPostProcessor`): the operation name is
 * the local name of the root element's tag, `service` and `version` are its
 * attributes.
 */
module PostProcessor {
  import opened CswTypes

  /** The first position of `c` in `s`, if any. */
  function FirstIndex(s: string, c: char): (r: Option<nat>)
    ensures r.None? <==> c !in s
    ensures r.Some? ==> r.value < |s| && s[r.value] == c && c !in s[..r.value]
    decreases |s|
  {
    if |s| == 0 then None
    else if s[0] == c then Some(0)
    else match FirstIndex(s[1..], c)
      case None => None
      case Some(i) =>
        assert s[..i + 1] == [s[0]] + s[1..][..i];
        Some(i + 1)
  }

  /**
   * `etree.QName(tag).localname` for a tag in Clark notation: the part after
   * the namespace `{...}` when there is one, the whole tag otherwise. A tag
   * that opens a namespace without closing it is refused (lxml raises
   * `ValueError`).
   */
  function LocalName(tag: string): (r: Option<string>)
    ensures r.None? <==> |tag| > 0 && tag[0] == '{' && '}' !in tag
    // without a namespace the local name is the whole tag
    ensures r.Some? && (|tag| == 0 || tag[0] != '{') ==> r.value == tag
    // with one, it is what follows the first `}`
    ensures r.Some? && |tag| > 0 && tag[0] == '{' ==>
      var cut := |tag| - |r.value| - 1;
      && 0 <= cut && tag[cut] == '}' && '}' !in tag[..cut]
      && tag[cut + 1..] == r.value
  {
    if |tag| > 0 && tag[0] == '{' then
      match FirstIndex(tag, '}')
      case None => None
      case Some(i) => Some(tag[i + 1..])
    else Some(tag)
  }

  /** The Clark-notation tag of an element with the given namespace and local name. */
  function ClarkTag(namespace: Option<string>, local: string): (tag: string) {
    match namespace
    case None => local
    case Some(ns) => "{" + ns + "}" + local
  }

  /**
   * The local name of a Clark tag is the local name it was built from, as long
   * as the namespace holds no `}` and a tag without a namespace does not
   * itself start with `{`.
   */
  lemma LocalNameOfClarkTag(namespace: Option<string>, local: string)
    requires namespace.Some? ==> '}' !in namespace.value
    requires namespace.None? ==> |local| == 0 || local[0] != '{'
    ensures LocalName(ClarkTag(namespace, local)) == Some(local)
  {
    if namespace.Some? {
      var ns := namespace.value;
      var tag := ClarkTag(namespace, local);
      assert tag == ("{" + ns) + ['}'] + local;
      FirstIndexAfter("{" + ns, '}', local);
      assert tag[|ns| + 2..] == local;
    }
  }

  /** The first `c` in `a + [c] + b` is the one after `a` when `a` holds none. */
  lemma {:induction false} FirstIndexAfter(a: string, c: char, b: string)
    requires c !in a
    ensures FirstIndex(a + [c] + b, c) == Some(|a|)
    decreases |a|
  {
    var s := a + [c] + b;
    if |a| > 0 {
      assert s[1..] == a[1..] + [c] + b;
      FirstIndexAfter(a[1..], c, b);
    }
  }

  /**
   * `parse_general_request_info` with the `return info` its body lacks: an
   * unparseable body becomes a `PycswError`; otherwise the request is the root
   * tag's local name and `service`/`version` are the root's attributes.
   */
  function ParseGeneralRequestInfo(request: HttpRequest): (o: InfoOutcome)
    ensures o.Raised? <==> request.exml.Unparseable? || LocalName(request.exml.tag).None?
    ensures o.Raised? && request.exml.Unparseable? ==> o.error == PycswError
    ensures o.Parsed? ==>
      && request.exml.Element?
      && o.info.request == LocalName(request.exml.tag)
      && o.info.service == Lookup(request.exml.attributes, "service")
      && o.info.version == Lookup(request.exml.attributes, "version")
    ensures !o.ReturnedNone?
  {
    match request.exml
    case Unparseable => Raised(PycswError)
    case Element(tag, attributes) =>
      match LocalName(tag)
      case None => Raised(ValueError)
      case Some(local) =>
        Parsed(GeneralRequestInfo(Some(local), Lookup(attributes, "service"), Lookup(attributes, "version")))
  }

  /**
   * `parse_general_request_info` as written: the body builds `info` and then
   * falls off its end, so every call that does not raise returns `None`.
   */
  function ParseGeneralRequestInfoAsWritten(request: HttpRequest): (o: InfoOutcome)
    ensures !o.Parsed?
    ensures o.ReturnedNone? <==> ParseGeneralRequestInfo(request).Parsed?
    // the exceptions are those of the corrected parser: `PycswError` for an unreadable body
    ensures o.Raised? ==> o == ParseGeneralRequestInfo(request)
    ensures request.exml.Unparseable? ==> o == Raised(PycswError)
  {
    match ParseGeneralRequestInfo(request)
    case Parsed(_) => ReturnedNone
    case other => other
  }

  /** An element with the given attributes whose tag is `{namespace}operation`. */
  function RootElement(namespace: string, operation: string, attributes: map<string, string>): (body: XmlBody) {
    Element(ClarkTag(Some(namespace), operation), attributes)
  }

  /** A request body built from an operation name and attributes parses back to them. */
  lemma GeneralRequestInfoRoundTrip(namespace: string, operation: string, attributes: map<string, string>, parameters: map<string, string>)
    requires '}' !in namespace
    ensures ParseGeneralRequestInfo(HttpRequest(parameters, RootElement(namespace, operation, attributes)))
      == Parsed(GeneralRequestInfo(Some(operation), Lookup(attributes, "service"), Lookup(attributes, "version")))
  {
    LocalNameOfClarkTag(Some(namespace), operation);
  }
}
