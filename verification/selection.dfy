/**
 * The rule by which a CSW service picks a request parser: the parsers are
 * tried in order, each one's general request information is compared with the
 * service's identity, and the first that is accepted wins. This module states
 * that rule over the outcomes of the parsers' `parse_general_request_info`
 * calls, in `request_parsers` order.
 */
module ParserSelection {
  import opened CswTypes

  /** What `get_request_parser` compares the request with: the service's name, version and default status. */
  datatype ServiceIdentity = ServiceIdentity(name: string, version: string, isDefault: bool)

  /**
   * How `get_request_parser` ends: with the parser at `index`, with `None`, or
   * with an exception that escapes it.
   */
  datatype Selection = Chosen(index: nat) | NoneChosen | Escaped(error: Exception)

  /**
   * A parser's information is accepted when its service is this service's
   * name and either its version is this service's version, or it has no
   * version and this service is the server's default CSW service.
   */
  predicate Accepts(info: GeneralRequestInfo, id: ServiceIdentity)
    ensures Accepts(info, id) ==> info.service == Some(id.name)
    ensures info.version == Some(id.version) ==> (Accepts(info, id) <==> info.service == Some(id.name))
    ensures Accepts(info, id) && info.version != Some(id.version) ==> info.version.None? && id.isDefault
    ensures info.version.None? ==> (Accepts(info, id) <==> info.service == Some(id.name) && id.isDefault)
  {
    var serviceOk := info.service == Some(id.name);
    var versionOk := info.version == Some(id.version);
    (serviceOk && versionOk) || (serviceOk && info.version.None? && id.isDefault)
  }

  /**
   * What the loop does with the outcome of the parser at position `j`: accept
   * it, go on to the next (`NoneChosen`: information not accepted, or a
   * `PycswError` raised), or let an exception escape. A parser that returned
   * `None` makes `info["service"]` raise `TypeError`, which is not a
   * `PycswError`.
   */
  function Decide(o: InfoOutcome, id: ServiceIdentity, j: nat): (d: Selection)
    ensures d.Chosen? ==> d.index == j && o.Parsed? && Accepts(o.info, id)
    ensures d.Escaped? ==> !IsPycswError(d.error)
    ensures o.Parsed? && Accepts(o.info, id) ==> d == Chosen(j)
    ensures o.ReturnedNone? ==> d == Escaped(TypeError)
    ensures o.Raised? && !IsPycswError(o.error) ==> d == Escaped(o.error)
    ensures d == NoneChosen <==> (o.Parsed? && !Accepts(o.info, id)) || (o.Raised? && IsPycswError(o.error))
  {
    match o
    case Parsed(info) => if Accepts(info, id) then Chosen(j) else NoneChosen
    case ReturnedNone => Escaped(TypeError)
    case Raised(e) => if IsPycswError(e) then NoneChosen else Escaped(e)
  }

  /**
   * The loop from position `k` on: the first position whose outcome decides
   * something ends it, and when none does the result is `None`.
   */
  function SelectFrom(outs: seq<InfoOutcome>, id: ServiceIdentity, k: nat): (r: Selection)
    requires k <= |outs|
    decreases |outs| - k
    ensures r == NoneChosen <==> forall j :: k <= j < |outs| ==> Decide(outs[j], id, j) == NoneChosen
    ensures r != NoneChosen ==>
      exists j :: k <= j < |outs| && r == Decide(outs[j], id, j)
        && forall i :: k <= i < j ==> Decide(outs[i], id, i) == NoneChosen
    ensures r.Chosen? ==> k <= r.index < |outs| && outs[r.index].Parsed? && Accepts(outs[r.index].info, id)
  {
    if k == |outs| then NoneChosen
    else
      var d := Decide(outs[k], id, k);
      if d != NoneChosen then d else SelectFrom(outs, id, k + 1)
  }

  /** `get_request_parser` over the outcomes of all its parsers. */
  function Select(outs: seq<InfoOutcome>, id: ServiceIdentity): (sel: Selection) {
    SelectFrom(outs, id, 0)
  }

  /** Renumbers a selection made over a suffix that starts at position `n`. */
  function Shift(sel: Selection, n: nat): (shifted: Selection) {
    if sel.Chosen? then Chosen(sel.index + n) else sel
  }

  lemma DecideShift(o: InfoOutcome, id: ServiceIdentity, j: nat, n: nat)
    ensures Decide(o, id, j + n) == Shift(Decide(o, id, j), n)
  {
  }

  /** Selection over a suffix that starts at position `n` is selection over that suffix, renumbered. */
  lemma {:induction false} SelectFromSuffix(s: seq<InfoOutcome>, t: seq<InfoOutcome>, id: ServiceIdentity, m: nat)
    requires m <= |t|
    ensures SelectFrom(s + t, id, |s| + m) == Shift(SelectFrom(t, id, m), |s|)
    decreases |t| - m
  {
    if m < |t| {
      assert (s + t)[|s| + m] == t[m];
      DecideShift(t[m], id, m, |s|);
      SelectFromSuffix(s, t, id, m + 1);
    }
  }

  /** Once the parsers of `s` have decided, the parsers after them do not matter. */
  lemma {:induction false} SelectFromPrefix(s: seq<InfoOutcome>, t: seq<InfoOutcome>, id: ServiceIdentity, k: nat)
    requires k <= |s|
    ensures SelectFrom(s + t, id, k)
      == if SelectFrom(s, id, k) == NoneChosen then SelectFrom(s + t, id, |s|) else SelectFrom(s, id, k)
    decreases |s| - k
  {
    if k < |s| {
      assert (s + t)[k] == s[k];
      SelectFromPrefix(s, t, id, k + 1);
    }
  }

  /**
   * Selection over two runs of parsers: the first run decides unless it
   * chooses nothing, and only then is the second run consulted. In
   * particular, no parser after the chosen one (or after the one whose
   * exception escaped) has any effect.
   */
  lemma SelectAppend(s: seq<InfoOutcome>, t: seq<InfoOutcome>, id: ServiceIdentity)
    ensures Select(s + t, id) == if Select(s, id) == NoneChosen then Shift(Select(t, id), |s|) else Select(s, id)
  {
    SelectFromPrefix(s, t, id, 0);
    SelectFromSuffix(s, t, id, 0);
  }

  /**
   * A service that is not the server's default never accepts a request that
   * states no version: when no parser reports this service's version, nothing
   * is chosen.
   */
  lemma NonDefaultRejectsVersionless(outs: seq<InfoOutcome>, id: ServiceIdentity)
    requires !id.isDefault
    requires forall j :: 0 <= j < |outs| && outs[j].Parsed? ==> outs[j].info.version != Some(id.version)
    ensures !Select(outs, id).Chosen?
  {
  }
}
