/**
 * `CswDistributedSearch` and `CswService`: the configuration they store, the
 * choice of request parser for an inbound request, and the list of URLs the
 * service answers on.
 */
module Service {
  import opened CswTypes
  import opened ParserSelection
  import SchemaProcessors

  /** The catalogue repository a service is given; only stored here. */
  class Repository {
  }

  /** The server the service belongs to, as far as the service reads it. */
  class Server {
    var publicHosts: seq<string>
    var siteName: string
    var defaultCswService: CswService?

    constructor (publicHosts: seq<string>, siteName: string)
      ensures this.publicHosts == publicHosts && this.siteName == siteName
      ensures defaultCswService == null
    {
      this.publicHosts := publicHosts;
      this.siteName := siteName;
      this.defaultCswService := null;
    }
  }

  /** The configuration keys `from_config` reads; `None` stands for an absent key. */
  datatype DistributedSearchConfig =
    DistributedSearchConfig(enabled: Option<bool>, remoteCatalogues: Option<seq<string>>, hopCount: Option<int>)

  /** Distributed-search settings; nothing here decides a fan-out, it only stores. */
  class CswDistributedSearch {
    var enabled: bool
    var remoteCatalogues: seq<string>
    var hopCount: int

    /** Stores the settings: disabled, no remote catalogues and one hop unless given. */
    constructor (enabled: bool := false, remoteCatalogues: Option<seq<string>> := None, hopCount: int := 1)
      ensures this.enabled == enabled
      ensures this.remoteCatalogues == (if remoteCatalogues.Some? then remoteCatalogues.value else [])
      ensures this.hopCount == hopCount
    {
      this.enabled := enabled;
      this.remoteCatalogues := remoteCatalogues.GetOr([]);
      this.hopCount := hopCount;
    }

    /** `from_config`: each absent key takes the constructor's default. */
    static method FromConfig(config: DistributedSearchConfig) returns (search: CswDistributedSearch)
      ensures fresh(search)
      ensures search.enabled == (if config.enabled.Some? then config.enabled.value else false)
      ensures search.remoteCatalogues == (if config.remoteCatalogues.Some? then config.remoteCatalogues.value else [])
      ensures search.hopCount == (if config.hopCount.Some? then config.hopCount.value else 1)
    {
      search := new CswDistributedSearch(
        enabled := config.enabled.GetOr(false),
        remoteCatalogues := config.remoteCatalogues,
        hopCount := config.hopCount.GetOr(1));
    }
  }

  /** One entry of `get_urls`: an operation, a verb it answers, and the URL. */
  datatype UrlEntry = UrlEntry(op: Operation, verb: HttpVerb, url: string)

  /** GET and POST, in the order `get_urls` tries them. */
  const Verbs: seq<HttpVerb> := [Get, Post]

  /** The entries for one operation at one URL, for those of the first `v` verbs it answers, in that order. */
  function VerbUrls(op: Operation, v: nat, url: string): (entries: seq<UrlEntry>)
    requires v <= |Verbs|
  {
    (if v >= 1 && Get in op.allowedVerbs then [UrlEntry(op, Get, url)] else [])
    + (if v >= 2 && Post in op.allowedVerbs then [UrlEntry(op, Post, url)] else [])
  }

  /** The entries of all operations at one URL, operation by operation, GET before POST. */
  function HostUrls(ops: seq<Operation>, url: string): (entries: seq<UrlEntry>)
    decreases |ops|
  {
    if |ops| == 0 then []
    else HostUrls(ops[..|ops| - 1], url) + VerbUrls(ops[|ops| - 1], 2, url)
  }

  /** The entries of all hosts, host by host; each host's URL is the host followed by `suffix`. */
  function AllUrls(hosts: seq<string>, ops: seq<Operation>, suffix: string): (entries: seq<UrlEntry>)
    decreases |hosts|
  {
    if |hosts| == 0 then []
    else AllUrls(hosts[..|hosts| - 1], ops, suffix) + HostUrls(ops, hosts[|hosts| - 1] + suffix)
  }

  /** How many entries each host contributes: one per operation and verb it answers. */
  function VerbCount(ops: seq<Operation>): (n: nat)
    decreases |ops|
  {
    if |ops| == 0 then 0 else VerbCount(ops[..|ops| - 1]) + |ops[|ops| - 1].allowedVerbs|
  }

  /** An operation's entries: a GET entry if it answers GET, then a POST entry if it answers POST. */
  lemma OperationUrls(op: Operation, url: string)
    ensures |VerbUrls(op, 2, url)| == |op.allowedVerbs|
    ensures forall e :: e in VerbUrls(op, 2, url) <==> e.op == op && e.url == url && e.verb in op.allowedVerbs
    // GET is tried first and POST last
    ensures Get in op.allowedVerbs ==> VerbUrls(op, 2, url)[0].verb == Get
    ensures Post in op.allowedVerbs ==> VerbUrls(op, 2, url)[|VerbUrls(op, 2, url)| - 1].verb == Post
  {
    VerbSetSize(op.allowedVerbs);
    forall e ensures e in VerbUrls(op, 2, url) <==> e.op == op && e.url == url && e.verb in op.allowedVerbs {
      assert e.verb == Get || e.verb == Post;
    }
  }

  /** A set of verbs has one element per verb of GET and POST it holds. */
  lemma VerbSetSize(a: set<HttpVerb>)
    ensures |a| == (if Get in a then 1 else 0) + (if Post in a then 1 else 0)
  {
    var others := a - {Get};
    forall v | v in others ensures v == Post { }
    if Post in a {
      assert others == {Post};
    } else {
      assert others == {};
    }
    if Get in a {
      assert a == others + {Get};
    } else {
      assert a == others;
    }
  }

  /** Each host contributes exactly one entry per operation and allowed verb. */
  lemma {:induction false} HostUrlsLength(ops: seq<Operation>, url: string)
    ensures |HostUrls(ops, url)| == VerbCount(ops)
    decreases |ops|
  {
    if |ops| > 0 {
      HostUrlsLength(ops[..|ops| - 1], url);
      OperationUrls(ops[|ops| - 1], url);
    }
  }

  /** An entry is listed for a URL exactly when its operation is one of the operations and answers its verb. */
  lemma {:induction false} HostUrlsMembership(ops: seq<Operation>, url: string, e: UrlEntry)
    ensures e in HostUrls(ops, url) <==> e.url == url && e.op in ops && e.verb in e.op.allowedVerbs
    decreases |ops|
  {
    if |ops| > 0 {
      var init, last := ops[..|ops| - 1], ops[|ops| - 1];
      HostUrlsMembership(init, url, e);
      OperationUrls(last, url);
      assert ops == init + [last];
      assert e.op in ops <==> e.op in init || e.op == last;
      assert e.verb == Get || e.verb == Post;
    }
  }

  /** Concatenation of entry lists is associative. */
  lemma ConcatAssoc(x: seq<UrlEntry>, y: seq<UrlEntry>, z: seq<UrlEntry>)
    ensures (x + y) + z == x + (y + z)
  {
  }

  /** The entries of two runs of operations at one URL are those of the first run followed by those of the second. */
  lemma {:induction false} HostUrlsAppend(a: seq<Operation>, b: seq<Operation>, url: string)
    ensures HostUrls(a + b, url) == HostUrls(a, url) + HostUrls(b, url)
    decreases |b|
  {
    if |b| == 0 {
      assert a + b == a;
    } else {
      var n := |b| - 1;
      var ab := a + b;
      assert ab[..|ab| - 1] == a + b[..n];
      assert ab[|ab| - 1] == b[n];
      var last := VerbUrls(b[n], 2, url);
      var front := HostUrls(a + b[..n], url);
      assert HostUrls(ab, url) == front + last;
      assert HostUrls(b, url) == HostUrls(b[..n], url) + last;
      HostUrlsAppend(a, b[..n], url);
      ConcatAssoc(HostUrls(a, url), HostUrls(b[..n], url), last);
    }
  }

  /**
   * Within one host, `get_urls` lists operation after operation: the entries
   * of operation `j` come after those of every earlier operation and before
   * those of every later one.
   */
  lemma HostUrlsLayout(ops: seq<Operation>, url: string, j: nat)
    requires j < |ops|
    ensures HostUrls(ops, url)
      == HostUrls(ops[..j], url) + VerbUrls(ops[j], 2, url) + HostUrls(ops[j + 1..], url)
  {
    assert ops == ops[..j] + [ops[j]] + ops[j + 1..];
    HostUrlsAppend(ops[..j] + [ops[j]], ops[j + 1..], url);
    HostUrlsAppend(ops[..j], [ops[j]], url);
    assert [ops[j]][..0] == [];
  }

  /** The entries for two runs of hosts are those of the first run followed by those of the second. */
  lemma {:induction false} AllUrlsAppend(a: seq<string>, b: seq<string>, ops: seq<Operation>, suffix: string)
    ensures AllUrls(a + b, ops, suffix) == AllUrls(a, ops, suffix) + AllUrls(b, ops, suffix)
    decreases |b|
  {
    if |b| == 0 {
      assert a + b == a;
    } else {
      var n := |b| - 1;
      var ab := a + b;
      assert ab[..|ab| - 1] == a + b[..n];
      assert ab[|ab| - 1] == b[n];
      var last := HostUrls(ops, b[n] + suffix);
      var front := AllUrls(a + b[..n], ops, suffix);
      assert AllUrls(ab, ops, suffix) == front + last;
      assert AllUrls(b, ops, suffix) == AllUrls(b[..n], ops, suffix) + last;
      AllUrlsAppend(a, b[..n], ops, suffix);
      ConcatAssoc(AllUrls(a, ops, suffix), AllUrls(b[..n], ops, suffix), last);
    }
  }

  /**
   * `get_urls` lists host after host: the entries of host `h` come after
   * those of every earlier host and before those of every later one.
   */
  lemma AllUrlsLayout(hosts: seq<string>, ops: seq<Operation>, suffix: string, h: nat)
    requires h < |hosts|
    ensures AllUrls(hosts, ops, suffix)
      == AllUrls(hosts[..h], ops, suffix) + HostUrls(ops, hosts[h] + suffix) + AllUrls(hosts[h + 1..], ops, suffix)
  {
    assert hosts == hosts[..h] + [hosts[h]] + hosts[h + 1..];
    AllUrlsAppend(hosts[..h] + [hosts[h]], hosts[h + 1..], ops, suffix);
    AllUrlsAppend(hosts[..h], [hosts[h]], ops, suffix);
    assert ([] + [hosts[h]]) == [hosts[h]];
  }

  /** There are `|hosts| * c` entries, `c` being the number of entries per host. */
  lemma {:induction false} AllUrlsLength(hosts: seq<string>, ops: seq<Operation>, suffix: string)
    ensures |AllUrls(hosts, ops, suffix)| == |hosts| * VerbCount(ops)
    decreases |hosts|
  {
    if |hosts| > 0 {
      var n := |hosts| - 1;
      AllUrlsLength(hosts[..n], ops, suffix);
      HostUrlsLength(ops, hosts[n] + suffix);
      assert (n + 1) * VerbCount(ops) == n * VerbCount(ops) + VerbCount(ops);
    }
  }

  /**
   * An entry is listed exactly when its operation is one of the service's
   * operations, answers the entry's verb, and its URL is one host followed by
   * the site name and path.
   */
  lemma {:induction false} AllUrlsMembership(hosts: seq<string>, ops: seq<Operation>, suffix: string, e: UrlEntry)
    ensures e in AllUrls(hosts, ops, suffix) <==>
      && e.op in ops && e.verb in e.op.allowedVerbs
      && exists h :: 0 <= h < |hosts| && e.url == hosts[h] + suffix
    decreases |hosts|
  {
    if |hosts| > 0 {
      var n := |hosts| - 1;
      var init := hosts[..n];
      AllUrlsMembership(init, ops, suffix, e);
      HostUrlsMembership(ops, hosts[n] + suffix, e);
      var atHost := (exists h :: 0 <= h < |hosts| && e.url == hosts[h] + suffix);
      var atInit := (exists h :: 0 <= h < n && e.url == init[h] + suffix);
      if atHost {
        var h :| 0 <= h < |hosts| && e.url == hosts[h] + suffix;
        if h < n {
          assert init[h] == hosts[h];
          assert atInit;
        }
      }
      if atInit {
        var h :| 0 <= h < n && e.url == init[h] + suffix;
        assert hosts[h] == init[h];
        assert atHost;
      }
      assert atHost <==> atInit || e.url == hosts[n] + suffix;
    }
  }

  /** One more operation: its entries follow those of the earlier operations. */
  lemma HostUrlsStep(ops: seq<Operation>, j: nat, url: string)
    requires j < |ops|
    ensures HostUrls(ops[..j + 1], url) == HostUrls(ops[..j], url) + VerbUrls(ops[j], 2, url)
  {
    assert ops[..j + 1][..j] == ops[..j];
  }

  /** One more host: its entries follow those of the earlier hosts. */
  lemma AllUrlsStep(hosts: seq<string>, h: nat, ops: seq<Operation>, suffix: string)
    requires h < |hosts|
    ensures AllUrls(hosts[..h + 1], ops, suffix) == AllUrls(hosts[..h], ops, suffix) + HostUrls(ops, hosts[h] + suffix)
  {
    assert hosts[..h + 1][..h] == hosts[..h];
  }

  class CswService {
    const server: Server
    const name: string
    const version: string
    const requestParsers: seq<SchemaProcessors.SchemaProcessor>
    const operations: seq<Operation>
    const urlPath: string
    var distributedSearch: CswDistributedSearch
    var repository: Repository?

    /**
     * Stores the repository and the distributed-search settings, creating
     * default settings when none are given. The server, name, version,
     * parsers, operations and URL path come from the service base class.
     */
    constructor (server: Server, version: string, requestParsers: seq<SchemaProcessors.SchemaProcessor>,
                 operations: seq<Operation>, urlPath: string, name: string := "CSW",
                 repository: Repository? := null, distributedSearch: CswDistributedSearch? := null)
      ensures this.server == server && this.name == name && this.version == version
      ensures this.requestParsers == requestParsers && this.operations == operations && this.urlPath == urlPath
      ensures this.repository == repository
      ensures distributedSearch != null ==> this.distributedSearch == distributedSearch
      ensures distributedSearch == null ==>
        && fresh(this.distributedSearch)
        && !this.distributedSearch.enabled
        && this.distributedSearch.remoteCatalogues == []
        && this.distributedSearch.hopCount == 1
    {
      this.server := server;
      this.name := name;
      this.version := version;
      this.requestParsers := requestParsers;
      this.operations := operations;
      this.urlPath := urlPath;
      this.repository := repository;
      if distributedSearch != null {
        this.distributedSearch := distributedSearch;
      } else {
        this.distributedSearch := new CswDistributedSearch();
      }
    }

    /** The service's identity as `get_request_parser` compares it; default means `server.default_csw_service is self`. */
    function Identity(): (id: ServiceIdentity)
      reads this, server
    {
      ServiceIdentity(name, version, server.defaultCswService == this)
    }

    /**
     * `get_request_parser`: tries the parsers in order and returns the first
     * whose information matches this service; a parser that raises a
     * `PycswError` is passed over, any other exception escapes.
     */
    method GetRequestParser(request: HttpRequest) returns (sel: Selection)
      ensures sel == Select(SchemaProcessors.Outcomes(requestParsers, request), Identity())
      ensures sel.Chosen? ==> sel.index < |requestParsers|
    {
      ghost var outs := SchemaProcessors.Outcomes(requestParsers, request);
      ghost var id := Identity();
      var i := 0;
      while i < |requestParsers|
        invariant 0 <= i <= |requestParsers|
        invariant SelectFrom(outs, id, i) == SelectFrom(outs, id, 0)
      {
        var outcome := requestParsers[i].ParseGeneralRequestInfo(request);
        match outcome {
          case Parsed(info) =>
            var serviceOk := info.service == Some(name);
            var versionOk := info.version == Some(version);
            var isDefault := server.defaultCswService == this;
            if serviceOk && versionOk {
              return Chosen(i);
            } else if serviceOk && info.version.None? && isDefault {
              return Chosen(i);
            }
          case ReturnedNone =>
            return Escaped(TypeError);
          case Raised(e) =>
            if !IsPycswError(e) {
              return Escaped(e);
            }
        }
        i := i + 1;
      }
      return NoneChosen;
    }

    /**
     * `get_urls`: for every public host, every operation, and GET then POST,
     * an entry when the operation answers that verb; the URL is the host, the
     * site name and the service's path.
     */
    method GetUrls() returns (urls: seq<UrlEntry>)
      ensures urls == AllUrls(server.publicHosts, operations, server.siteName + urlPath)
    {
      var hosts := server.publicHosts;
      ghost var suffix := server.siteName + urlPath;
      urls := [];
      var h := 0;
      while h < |hosts|
        invariant 0 <= h <= |hosts|
        invariant urls == AllUrls(hosts[..h], operations, suffix)
      {
        var url := hosts[h] + server.siteName + urlPath;
        ghost var hostStart := urls;
        var j := 0;
        while j < |operations|
          invariant 0 <= j <= |operations|
          invariant urls == hostStart + HostUrls(operations[..j], url)
        {
          var op := operations[j];
          ghost var opStart := urls;
          var v := 0;
          while v < |Verbs|
            invariant 0 <= v <= |Verbs|
            invariant urls == opStart + VerbUrls(op, v, url)
          {
            if Verbs[v] in op.allowedVerbs {
              urls := urls + [UrlEntry(op, Verbs[v], url)];
            }
            v := v + 1;
          }
          HostUrlsStep(operations, j, url);
          j := j + 1;
        }
        assert operations[..j] == operations;
        assert url == hosts[h] + suffix;
        AllUrlsStep(hosts, h, operations, suffix);
        h := h + 1;
      }
      assert hosts[..h] == hosts;
    }
  }
}
