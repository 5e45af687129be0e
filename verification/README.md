# pycsw CSW protocol negotiation, modelled in Dafny

This project models the protocol-negotiation core of pycsw's CSW service
(`pycsw/services/csw/cswbase.py`): how a `CswService` picks, among its request
parsers, the one that accepts an inbound request; how the key-value-pair
parser (`CswOgcKvpProcessor`) reads `request`, `service` and `version`, looks up
the enabled operation, parses the GetCapabilities and GetRecordById parameters
and maps failures onto the `NoApplicableCode` and `OperationNotSupported`
protocol error codes; how the XML parser (`CswOgcPostProcessor`) reads the root
element; the list of URLs `get_urls` builds; and the configuration that
`CswDistributedSearch`, `CswService` and `CswOgcSchemaProcessor` store.

Layout:

- `types.dfy` (`CswTypes`): requests, operations, verbs, the exceptions the
  core raises or lets through, and the outcome of a general-info parse.
- `strings.dfy` (`PyStrings`): Python's `str.split` and `str.join`.
- `kvp.dfy` (`KvpProcessor`): the key-value-pair parser.
- `post.dfy` (`PostProcessor`): the XML parser and lxml's local-name rule.
- `processors.dfy` (`SchemaProcessors`): the schema-processor class.
- `selection.dfy` (`ParserSelection`): the first-match rule of `get_request_parser`.
- `service.dfy` (`Service`): `CswDistributedSearch`, `CswService` with
  `GetRequestParser` and `GetUrls`, and the URL-list lemmas.
- `scenarios.dfy` (`Scenarios`): concrete requests and the two findings.

The pieces of the service base class that are not part of this model
(`name`, `version`, `request_parsers`, `operations`, `url_path`, `server`) are
constructor arguments of `CswService`; `get_enabled_operation` is the `lookup`
function given to `KvpProcessor.ParseRequest`; `server.default_csw_service is
self` is the reference comparison `server.defaultCswService == this`.
Exceptions are values of the `Exception` datatype, and a call that ends in an
exception returns `Failure(e)`, `Raised(e)` or `Escaped(e)`.

Behaviour the model takes from the code:

- A parser is chosen within one service: `get_request_parser` tries that
  service's own parsers (cswbase.py:64-87).
- An enabled operation that does not answer GET makes `parse_request` raise
  `CswError(NO_APPLICABLE_CODE)` (cswbase.py:141-142).
- Line 161 is modelled both as written (`KvpProcessor.SplitIdAsWritten`) and
  as evidently intended (`KvpProcessor.SplitId`); `ParseGetRecordById` and
  `ParseRequest` use the intended split (see Findings).
- `CswDistributedSearch` only stores `enabled`, `remote_catalogues` and
  `hop_count` (cswbase.py:14-29); it makes no fan-out decision.

## Model

| member | source | states |
|---|---|---|
| `Service.CswService.GetRequestParser` | pycsw/services/csw/cswbase.py:64-87 | the loop ends exactly as the first-match rule `ParserSelection.Select` does over the parsers' outcomes in `request_parsers` order; a chosen index is a position of `request_parsers` |
| `ParserSelection.Accepts` | pycsw/services/csw/cswbase.py:70-81 | acceptance needs the service name; with the service's version the name alone decides; without a version, acceptance holds exactly for a matching name on the default service |
| `ParserSelection.Decide` | pycsw/services/csw/cswbase.py:67-83 | an accepted parsed info is chosen at its position; one parser's outcome is otherwise passed over (info not accepted, or a `PycswError`), or ends the search with an escaping non-`PycswError` exception; a `None` info escapes as `TypeError`, any other non-`PycswError` exception escapes as itself |
| `ParserSelection.SelectFrom` | pycsw/services/csw/cswbase.py:64-87 | nothing is chosen iff every parser is passed over; otherwise the result is the decision of the earliest parser that is not passed over; a chosen parser's info is accepted |
| `ParserSelection.SelectAppend` | pycsw/services/csw/cswbase.py:76-81 | once a run of parsers has decided (chosen or raised), later parsers have no effect; only when it chose nothing is the next run consulted, renumbered |
| `ParserSelection.NonDefaultRejectsVersionless` | pycsw/services/csw/cswbase.py:70-81 | a service that is not the server's default chooses no parser when no parser reports its version |
| `SchemaProcessors.SchemaProcessor.ParseGeneralRequestInfo` | pycsw/services/csw/cswbase.py:115-181 | a KVP processor always parses; only an XML processor raises, an unreadable body always raises `PycswError` and no other failure does; neither returns `None` once the XML `return` is restored |
| `SchemaProcessors.SchemaProcessor.constructor` | pycsw/services/csw/cswbase.py:105-112 | stores type names, record mapping and element-set names, each defaulting to an empty list or dictionary |
| `KvpProcessor.ParseGeneralRequestInfo` | pycsw/services/csw/cswbase.py:117-128 | never raises; `request`, `service`, `version` are present exactly when the parameters of those names are |
| `KvpProcessor.GeneralRequestInfoRoundTrip` | pycsw/services/csw/cswbase.py:117-128 | general info sent as KVP parameters is parsed back unchanged |
| `KvpProcessor.GeneralRequestInfoIgnoresOtherKeys` | pycsw/services/csw/cswbase.py:119-123 | parameters other than `request`, `service`, `version` do not affect the general info |
| `KvpProcessor.ParseRequest` | pycsw/services/csw/cswbase.py:130-148 | success only for an enabled operation answering GET with a registered parameter parser; such a GetCapabilities always succeeds with that operation and its four parameters; such a GetRecordById succeeds exactly when `Id` is sent, else `AttributeError`; an exception from the lookup goes through the `except` clauses; no GET gives `CswError(NO_APPLICABLE_CODE)`; no parser gives `CswError(OPERATION_NOT_SUPPORTED)`; no operation gives `AttributeError`; no `TypeError` or plain `PycswError` escapes |
| `KvpProcessor.HandleFailure` | pycsw/services/csw/cswbase.py:143-146 | a `CswError` is re-raised unchanged, `TypeError` and `PycswError` become `CswError(OPERATION_NOT_SUPPORTED)`, others pass through; no `TypeError`/`PycswError` remains |
| `KvpProcessor.HandleFailureIdempotent` | pycsw/services/csw/cswbase.py:143-146 | handling an already handled exception changes nothing |
| `KvpProcessor.ParseParameters` | pycsw/services/csw/cswbase.py:136-140 | an operation name without a registered parameter parser ends in `TypeError` (calling `None`) |
| `KvpProcessor.ParseGetCapabilities` | pycsw/services/csw/cswbase.py:150-157 | each of the four parameters is the value sent under its name, `None` when absent |
| `KvpProcessor.GetCapabilitiesRoundTrip` | pycsw/services/csw/cswbase.py:150-157 | `sections`, `acceptVersions`, `acceptFormats`, `updateSequence` sent as parameters, beside any other parameters, come back under their renamed fields, `None` where absent |
| `KvpProcessor.ParseGetRecordById` | pycsw/services/csw/cswbase.py:159-166 | succeeds exactly when `Id` is present (else `AttributeError`); the identifiers hold no comma and join back with commas to the Id value; the other three parameters are renamed |
| `KvpProcessor.SplitId` | pycsw/services/csw/cswbase.py:161 | the intended split: absent Id is `AttributeError`, a present one always succeeds; the pieces join back to the Id value and hold no comma |
| `KvpProcessor.SplitIdRoundTrip` | pycsw/services/csw/cswbase.py:161 | comma-free identifiers sent joined by commas come back one by one |
| `KvpProcessor.SplitIdAsWritten` | pycsw/services/csw/cswbase.py:161 | as written: an empty Id, and only it, raises `ValueError` (empty separator) |
| `KvpProcessor.SplitIdAsWrittenIgnoresId` | pycsw/services/csw/cswbase.py:161 | as written, any Id other than "" and "," yields the list `[","]`, whatever the client sent |
| `PyStrings.JoinSplit` | pycsw/services/csw/cswbase.py:161 | joining the pieces of `str.split` with the separator gives back the text |
| `PyStrings.SplitJoin` | pycsw/services/csw/cswbase.py:161 | splitting pieces joined by a one-character separator they do not contain gives back the pieces |
| `PyStrings.SplitPiecesFree` | pycsw/services/csw/cswbase.py:161 | no piece of a split on a one-character separator contains it |
| `PostProcessor.ParseGeneralRequestInfo` | pycsw/services/csw/cswbase.py:172-181 | an unreadable body raises `PycswError`; otherwise the request is the root tag's local name and `service`/`version` are the root's attributes; never `None` |
| `PostProcessor.ParseGeneralRequestInfoAsWritten` | pycsw/services/csw/cswbase.py:172-181 | as written, never returns info: it returns `None` exactly when the corrected parser would return info, and otherwise raises what the corrected parser raises (`PycswError` for an unreadable body) |
| `PostProcessor.LocalName` | pycsw/services/csw/cswbase.py:175 | a tag without a namespace is its own local name; otherwise the local name is what follows the first `}`; an unclosed `{` is refused |
| `PostProcessor.FirstIndex` | pycsw/services/csw/cswbase.py:175 | the first position of a character, absent exactly when the character does not occur |
| `PostProcessor.LocalNameOfClarkTag` | pycsw/services/csw/cswbase.py:175 | the local name of a Clark-notation tag is the name it was built from |
| `PostProcessor.GeneralRequestInfoRoundTrip` | pycsw/services/csw/cswbase.py:172-181 | a root element built from an operation name and attributes parses back to that operation, `service` and `version` |
| `Service.CswService.GetUrls` | pycsw/services/csw/cswbase.py:89-97 | the list equals `AllUrls` of the public hosts, the operations and site name + URL path |
| `Service.OperationUrls` | pycsw/services/csw/cswbase.py:94-96 | an operation gets one entry per verb of GET/POST it answers, GET first, and nothing else |
| `Service.HostUrlsAppend` | pycsw/services/csw/cswbase.py:92-96 | the entries of two runs of operations at one URL are the first run's followed by the second's |
| `Service.HostUrlsLayout` | pycsw/services/csw/cswbase.py:92-96 | operation-major order within a host: operation `j`'s entries sit between those of earlier and later operations |
| `Service.HostUrlsLength` | pycsw/services/csw/cswbase.py:92-96 | each host gets exactly one entry per operation and allowed verb |
| `Service.HostUrlsMembership` | pycsw/services/csw/cswbase.py:92-96 | an entry is listed for a URL iff its operation is one of the operations and answers its verb |
| `Service.AllUrlsAppend` | pycsw/services/csw/cswbase.py:91-96 | the entries of two runs of hosts are the first run's followed by the second's |
| `Service.AllUrlsLayout` | pycsw/services/csw/cswbase.py:91-96 | host-major order: host `h`'s entries sit between those of earlier and later hosts |
| `Service.AllUrlsLength` | pycsw/services/csw/cswbase.py:91-96 | there are `number of hosts * entries per host` entries |
| `Service.AllUrlsMembership` | pycsw/services/csw/cswbase.py:89-97 | an entry is listed iff its operation is one of the service's, answers its verb, and its URL is a public host + site name + path |
| `Service.CswService.constructor` | pycsw/services/csw/cswbase.py:39-47 | stores the repository and the given distributed-search settings, or fresh default settings (disabled, no catalogues, one hop) |
| `Service.CswDistributedSearch.constructor` | pycsw/services/csw/cswbase.py:17-21 | stores `enabled`, the remote catalogues (empty when none) and the hop count, defaults disabled and one hop |
| `Service.CswDistributedSearch.FromConfig` | pycsw/services/csw/cswbase.py:23-29 | each absent configuration key takes the constructor default |
| `Scenarios.GetCapabilitiesKvp` | pycsw/services/csw/cswbase.py:130-157 | a KVP GetCapabilities request, with any capability parameters, resolves to the enabled GET operation and exactly those parameters |
| `Scenarios.GetCapabilitiesKvpSelected` | pycsw/services/csw/cswbase.py:64-81 | that request selects the KVP parser of the CSW 2.0.2 service |
| `Scenarios.VersionlessKvp` | pycsw/services/csw/cswbase.py:79-81 | a KVP request with `service=CSW` and no version is taken iff the service is the default |
| `Scenarios.XmlForOtherService` | pycsw/services/csw/cswbase.py:70-81 | an XML request whose `service` attribute names another service is not taken |
| `Scenarios.XmlParserAsWrittenEscapes` | pycsw/services/csw/cswbase.py:68-82 | with the XML parser as written, every readable body reaching it makes `get_request_parser` raise `TypeError` |
| `Scenarios.XmlParserMissingReturn` | pycsw/services/csw/cswbase.py:172-181 | a CSW 2.0.2 XML GetCapabilities: `TypeError` as written, chosen with the `return` restored |
| `Scenarios.RecordIdsSwappedSplit` | pycsw/services/csw/cswbase.py:161 | `Id=abc,def` gives `[","]` as written and `["abc", "def"]` when split on commas |

`PyStrings.Split` and `PyStrings.Join`, Python's `str.split` and `str.join`,
are specified by the rows `PyStrings.JoinSplit`, `PyStrings.SplitJoin` and
`PyStrings.SplitPiecesFree`.

## Findings

| source | as written | input that shows it | evidently intended | confidence | as-written member | corrected member |
|---|---|---|---|---|---|---|
| pycsw/services/csw/cswbase.py:172-181 | `parse_general_request_info` of the XML parser builds `info` but has no `return`, so it returns `None`; `get_request_parser` then subscripts `None` and the `TypeError`, not being a `PycswError`, escapes | an XML body `{http://www.opengis.net/cat/csw/2.0.2}GetCapabilities` with `service="CSW"`, `version="2.0.2"` (`Scenarios.XmlParserMissingReturn`) | `return info` after the `try` | not executed | `PostProcessor.ParseGeneralRequestInfoAsWritten` | `PostProcessor.ParseGeneralRequestInfo` |
| pycsw/services/csw/cswbase.py:161 | `",".split(Id)` splits the literal "," by the Id value | `Id=abc,def` gives `[","]` (`Scenarios.RecordIdsSwappedSplit`) | `Id.split(",")`, giving `["abc", "def"]` | not executed | `KvpProcessor.SplitIdAsWritten` | `KvpProcessor.SplitId` |

The rest of the model uses the corrected members: the processor class calls
`PostProcessor.ParseGeneralRequestInfo`, and `KvpProcessor.ParseGetRecordById`
calls `KvpProcessor.SplitId`. The correction keeps the rest of line 161 as it
is, so an absent `Id` is `None.split(",")`, an `AttributeError`.

## Left out

- Logging calls are not modelled; they have no effect on results.
- XML parsing (lxml) is not modelled: a body is either unreadable (taken to raise `XMLSyntaxError` when `request.exml` is read) or a root element given as a Clark-notation tag and an attribute map.
- The request object, the service base class, the server and the exceptions module are not part of this model. Their members are inputs. `CswError` is taken to be a subclass of `PycswError`.
- `HttpVerb` is taken to have only GET and POST, the two verbs the core uses.
- `get_enabled_operation` is an input function. It may return an operation, `None`, or raise.
- `CswService.__init__` passes `title`, `abstract`, `keywords`, `fees` and `namespaces` to the base class, and ignores `access_constraints`. None of these are modelled.
- The `media_type = "text/xml"` class attribute of the XML parser is not read by the core and is not modelled.
- The `except KeyError` of the KVP `parse_general_request_info` cannot fire (`dict.get` never raises), so the model has no such path.
- `SchemaProcessors.SchemaProcessor.constructor`: Python keeps the caller's list and dictionaries (aliasing); the model stores their values.
- `Service.CswDistributedSearch.FromConfig`: a key present with the value `None` is treated like an absent key; Python would store `None` for `enabled` or `hop_count`.
- The service version is taken to be a string; a service whose version is `None` is not modelled.
- `PostProcessor.LocalName`: only tags lxml accepts for a parsed element are in scope; for the tags it would refuse, such as `""` or `{ns}` with an empty local name, the model gives the empty local name instead of an error.
- `pycsw/wsgi.py` (HTTP plumbing, configuration loading, compression) and `pycsw/repositories/sla/repository.py` (database access) are not part of this model.
