/**
 * The Subaccounts resource client: validation and defaulting of the request
 * document, the paths of the subaccount endpoints, and how each response is
 * turned into a result or an error.
 */
module Subaccounts {
  import opened Wrappers
  import opened Format
  import opened Gateway

  /** The grants a new subaccount receives when it asks for none, in their declared order. */
  const AvailableGrants: seq<string> := [
    "smtp/inject",
    "sending_domains/manage",
    "message_events/view",
    "suppression_lists/manage",
    "transmissions/view",
    "transmissions/modify"
  ]

  /** The values Update accepts for a non-empty status. */
  const ValidStatuses: seq<string> := ["active", "suspended", "terminated"]

  /** Longest name and key label, in bytes, that the client lets through. */
  const MaxLength: nat := 1024

  /** The JSON document of one subaccount; the per-call headers are not part of it. */
  datatype SubaccountData = SubaccountData(
    id: int,
    name: string,
    key: string,
    keyLabel: string,
    grants: seq<string>,
    shortKey: string,
    status: string,
    complianceStatus: string)

  /** A caller-owned subaccount; Create writes grants, id and short key back into it. */
  class Subaccount {
    var id: int
    var name: string
    var key: string
    var keyLabel: string
    var grants: seq<string>
    var shortKey: string
    var status: string
    var complianceStatus: string
    var headers: map<string, string>

    /** The document json.Marshal would encode. */
    function Data(): SubaccountData
      reads this
    {
      SubaccountData(id, name, key, keyLabel, grants, shortKey, status, complianceStatus)
    }

    constructor (d: SubaccountData, headers: map<string, string>)
      ensures Data() == d && this.headers == headers
    {
      id, name, key, keyLabel := d.id, d.name, d.key, d.keyLabel;
      grants, shortKey, status, complianceStatus := d.grants, d.shortKey, d.status, d.complianceStatus;
      this.headers := headers;
    }
  }

  // ---------------------------------------------------------------------------
  // Paths

  function SubaccountsPath(version: int): string {
    "/api/v" + Decimal(version) + "/subaccounts"
  }

  /** The collection endpoint, used by Create and List. */
  function SubaccountsUrl(cfg: Config): string {
    cfg.baseUrl + SubaccountsPath(cfg.apiVersion)
  }

  /** The per-id endpoint, used by Retrieve: the collection URL, a slash and the decimal id. */
  function SubaccountUrl(cfg: Config, id: int): (u: string)
    ensures |u| > |SubaccountsUrl(cfg)| + 1
    ensures u[..|SubaccountsUrl(cfg)|] == SubaccountsUrl(cfg)
    ensures u[|SubaccountsUrl(cfg)|] == '/'
    ensures ParseDecimal(u[|SubaccountsUrl(cfg)| + 1..]) == Some(id)
  {
    var p := SubaccountsUrl(cfg);
    var t := Decimal(id);
    var u := p + "/" + t;
    assert u[..|p|] == p;
    assert u[|p| + 1..] == t;
    DecimalRoundTrip(id);
    u
  }

  /** The per-id URL names exactly one subaccount. */
  lemma SubaccountUrlInjective(cfg: Config, a: int, b: int)
    requires SubaccountUrl(cfg, a) == SubaccountUrl(cfg, b)
    ensures a == b
  {
  }

  /** The URL Update puts to, as the source intends it: the per-id subaccount endpoint. */
  function UpdateUrl(cfg: Config, id: int): (u: string)
    ensures u == SubaccountUrl(cfg, id)
  {
    cfg.baseUrl + SubaccountsPath(cfg.apiVersion) + "/" + Decimal(id)
  }

  /** The templates path Update's URL is built from; templates.go declares it. */
  function TemplatesPath(version: int): string {
    "/api/v" + Decimal(version) + "/templates"
  }

  /** The URL Update is written to build: templates path, and the int id under `%s`. */
  function UpdateUrlAsWritten(cfg: Config, id: int): string {
    cfg.baseUrl + TemplatesPath(cfg.apiVersion) + "/" + "%!s(int=" + Decimal(id) + ")"
  }

  /** For every configuration and id, the URL Update builds is not the subaccount's URL. */
  lemma UpdateUrlAsWrittenMisses(cfg: Config, id: int)
    ensures UpdateUrlAsWritten(cfg, id) != UpdateUrl(cfg, id)
  {
    var k := |cfg.baseUrl + "/api/v" + Decimal(cfg.apiVersion) + "/"|;
    var w := UpdateUrlAsWritten(cfg, id);
    var u := UpdateUrl(cfg, id);
    assert w[k] == 't';
    assert u[k] == 's';
  }

  /** A concrete instance: id 42 under API version 1. */
  lemma UpdateUrlAsWrittenExample(cfg: Config)
    requires cfg.apiVersion == 1
    ensures UpdateUrlAsWritten(cfg, 42) == cfg.baseUrl + "/api/v1/templates/%!s(int=42)"
    ensures UpdateUrl(cfg, 42) == cfg.baseUrl + "/api/v1/subaccounts/42"
  {
    assert NatDigits(4) == "4";
    assert Decimal(42) == "42";
    assert Decimal(1) == "1";
    assert TemplatesPath(1) == "/api/v1/templates";
    assert SubaccountsPath(1) == "/api/v1/subaccounts";
    assert "/api/v1/templates" + "/" + "%!s(int=" + "42" + ")" == "/api/v1/templates/%!s(int=42)";
    assert "/api/v1/subaccounts" + "/" + "42" == "/api/v1/subaccounts/42";
  }

  // ---------------------------------------------------------------------------
  // Validation

  /** The local validation failures, each with the message the source gives it. */
  datatype Violation =
    | NilSubaccount
    | EmptyName
    | EmptyKeyLabel
    | NameTooLong
    | KeyLabelTooLong
    | ZeroId
    | InvalidStatus

  function Reason(v: Violation): string {
    match v
    case NilSubaccount => "Create called with nil Subaccount"
    case EmptyName => "Subaccount requires a non-empty Name"
    case EmptyKeyLabel => "Subaccount requires a non-empty Key Label"
    case NameTooLong => "Subaccount name may not be longer than 1024 bytes"
    case KeyLabelTooLong => "Subaccount key label may not be longer than 1024 bytes"
    case ZeroId => "Subaccount Update called with zero id"
    case InvalidStatus => "Not a valid subaccount status"
  }

  /** Whether the check reporting `v` fails on the (possibly nil) subaccount. */
  predicate Fails(v: Violation, s: Option<SubaccountData>) {
    match s
    case None => v == NilSubaccount
    case Some(d) =>
      match v
      case NilSubaccount => false
      case EmptyName => d.name == ""
      case EmptyKeyLabel => d.keyLabel == ""
      case NameTooLong => ByteLength(d.name) > MaxLength
      case KeyLabelTooLong => ByteLength(d.keyLabel) > MaxLength
      case ZeroId => d.id == 0
      case InvalidStatus => d.status != "" && d.status !in ValidStatuses
  }

  /** Create's checks, highest priority first. */
  const CreateChecks: seq<Violation> := [NilSubaccount, EmptyName, EmptyKeyLabel, NameTooLong, KeyLabelTooLong]

  /** Update's checks, highest priority first. */
  const UpdateChecks: seq<Violation> := [ZeroId, NameTooLong, InvalidStatus]

  /** Reference definition of an ordered check chain: the first check that fails wins. */
  function FirstFailing(checks: seq<Violation>, s: Option<SubaccountData>): Option<Violation>
    decreases |checks|
  {
    if |checks| == 0 then None
    else if Fails(checks[0], s) then Some(checks[0])
    else FirstFailing(checks[1..], s)
  }

  /** The chain reports nothing exactly when every check passes; what it reports is a check that fails. */
  lemma {:induction false} FirstFailingSound(checks: seq<Violation>, s: Option<SubaccountData>)
    ensures FirstFailing(checks, s).None? <==> forall i :: 0 <= i < |checks| ==> !Fails(checks[i], s)
    ensures FirstFailing(checks, s).Some? ==>
      FirstFailing(checks, s).value in checks && Fails(FirstFailing(checks, s).value, s)
    decreases |checks|
  {
    if |checks| > 0 && !Fails(checks[0], s) {
      FirstFailingSound(checks[1..], s);
      assert forall i :: 1 <= i < |checks| ==> checks[i] == checks[1..][i - 1];
    }
  }

  /** When check `k` fails and every earlier check passes, the chain reports check `k`. */
  lemma {:induction false} FirstFailingAt(checks: seq<Violation>, s: Option<SubaccountData>, k: nat)
    requires k < |checks| && Fails(checks[k], s)
    requires forall i :: 0 <= i < k ==> !Fails(checks[i], s)
    ensures FirstFailing(checks, s) == Some(checks[k])
    decreases k
  {
    if k > 0 {
      assert !Fails(checks[0], s);
      assert forall i :: 0 <= i < k - 1 ==> checks[1..][i] == checks[i + 1];
      FirstFailingAt(checks[1..], s, k - 1);
    }
  }

  /** Create's validation, as the if/else chain of the source. */
  function CreateViolation(s: Option<SubaccountData>): (v: Option<Violation>)
    ensures v == FirstFailing(CreateChecks, s)
    ensures v.None? <==> (s.Some? && s.value.name != "" && s.value.keyLabel != ""
                          && ByteLength(s.value.name) <= MaxLength && ByteLength(s.value.keyLabel) <= MaxLength)
  {
    assert CreateChecks[1..] == [EmptyName, EmptyKeyLabel, NameTooLong, KeyLabelTooLong];
    assert CreateChecks[1..][1..] == [EmptyKeyLabel, NameTooLong, KeyLabelTooLong];
    assert CreateChecks[1..][1..][1..] == [NameTooLong, KeyLabelTooLong];
    assert CreateChecks[1..][1..][1..][1..] == [KeyLabelTooLong];
    match s
    case None => Some(NilSubaccount)
    case Some(d) =>
      if d.name == "" then Some(EmptyName)
      else if d.keyLabel == "" then Some(EmptyKeyLabel)
      else if ByteLength(d.name) > MaxLength then Some(NameTooLong)
      else if ByteLength(d.keyLabel) > MaxLength then Some(KeyLabelTooLong)
      else None
  }

  /** Update's validation; name and key label may be empty, and so may the status. */
  function UpdateViolation(d: SubaccountData): (v: Option<Violation>)
    ensures v == FirstFailing(UpdateChecks, Some(d))
    ensures v.None? <==> (d.id != 0 && ByteLength(d.name) <= MaxLength
                          && (d.status == "" || d.status in ValidStatuses))
  {
    assert UpdateChecks[1..] == [NameTooLong, InvalidStatus];
    assert UpdateChecks[1..][1..] == [InvalidStatus];
    if d.id == 0 then Some(ZeroId)
    else if ByteLength(d.name) > MaxLength then Some(NameTooLong)
    else if d.status != "" && d.status !in ValidStatuses then Some(InvalidStatus)
    else None
  }

  /** The scan over the valid statuses that Update runs for a non-empty status. */
  method StatusFound(status: string) returns (found: bool)
    ensures found <==> status in ValidStatuses
  {
    found := false;
    var i := 0;
    while i < |ValidStatuses|
      invariant 0 <= i <= |ValidStatuses|
      invariant found <==> status in ValidStatuses[..i]
    {
      if status == ValidStatuses[i] {
        found := true;
      }
      assert ValidStatuses[..i + 1] == ValidStatuses[..i] + [ValidStatuses[i]];
      i := i + 1;
    }
    assert ValidStatuses[..i] == ValidStatuses;
  }

  // ---------------------------------------------------------------------------
  // Create

  /** Create's grants after defaulting: an empty list becomes every available grant. */
  function WithDefaultGrants(grants: seq<string>): (r: seq<string>)
    ensures |r| > 0
    ensures |grants| > 0 ==> r == grants
    ensures |grants| == 0 ==> r == AvailableGrants
  {
    if |grants| == 0 then AvailableGrants else grants
  }

  function NumberField(results: map<string, JsonValue>, key: string): Option<int> {
    if key in results && results[key].JNumber? then Some(results[key].number) else None
  }

  function StringField(results: map<string, JsonValue>, key: string): Option<string> {
    if key in results && results[key].JString? then Some(results[key].text) else None
  }

  /** What a parsed Create response yields: the id and short key written back, and the error. */
  datatype CreateReply = CreateReply(writeBack: Option<(int, string)>, err: Option<Error>)

  /** Classification of a Create response once AssertJson and ParseResponse succeeded. */
  function CreateReplyOf(r: Response): (c: CreateReply)
    ensures r.status == 200 ==>
      c.writeBack == Some((NumberField(r.results, "subaccount_id").GetOr(0),
                           StringField(r.results, "short_key").GetOr("")))
    ensures r.status == 200 ==>
      (c.err.Some? <==> !("subaccount_id" in r.results && r.results["subaccount_id"].JNumber?)
                        || !("short_key" in r.results && r.results["short_key"].JString?))
    ensures r.status == 200 && c.err.Some? ==> c.err == Some(Unexpected("Subaccount creation"))
    ensures r.status != 200 ==> c.writeBack.None?
    ensures r.status != 200 ==> (c.err.None? <==> |r.errors| == 0)
    ensures r.status != 200 && |r.errors| > 0 && r.pretty.Some? ==>
      c.err == Some(Pretty("Subaccount", "create", r.pretty.value))
    ensures r.status == 422 && |r.errors| > 0 && r.pretty.None? ==> c.err == Some(Rejected(r.errors[0]))
    ensures r.status !in {200, 422} && |r.errors| > 0 && r.pretty.None? ==> c.err == Some(StatusError(r))
  {
    if r.status == 200 then
      var id := NumberField(r.results, "subaccount_id");
      var shortKey := StringField(r.results, "short_key");
      CreateReply(Some((id.GetOr(0), shortKey.GetOr(""))),
                  if id.None? || shortKey.None? then Some(Unexpected("Subaccount creation")) else None)
    else if |r.errors| > 0 then
      CreateReply(None, Some(PrettyOr(r, "Subaccount", "create",
                                      if r.status == 422 then Rejected(r.errors[0]) else StatusError(r))))
    else
      CreateReply(None, None)
  }

  /** The whole of one Create call on a non-nil subaccount: its document afterwards, the request, the error. */
  datatype CreateCall = CreateCall(data: SubaccountData, request: Option<Request<SubaccountData>>, err: Option<Error>)

  function CreateSpec(cfg: Config, d: SubaccountData, headers: map<string, string>, answer: Exchange): (c: CreateCall)
    // a validation failure stops everything: no request, the document untouched
    ensures CreateViolation(Some(d)).Some? ==>
      c == CreateCall(d, None, Some(InvalidArgument(Reason(CreateViolation(Some(d)).value))))
    // otherwise the defaulted document is POSTed to the collection
    ensures CreateViolation(Some(d)).None? ==>
      c.request == Some(Request(Post, SubaccountsUrl(cfg), Some(d.(grants := WithDefaultGrants(d.grants))), headers))
    ensures CreateViolation(Some(d)).None? ==> c.data.grants == WithDefaultGrants(d.grants)
    // only grants, id and short key are ever written
    ensures c.data == d.(grants := c.data.grants, id := c.data.id, shortKey := c.data.shortKey)
    ensures CreateViolation(Some(d)).None? && Parsed(answer).Failure? ==>
      c.err == Some(Parsed(answer).error) && c.data == d.(grants := WithDefaultGrants(d.grants))
    ensures CreateViolation(Some(d)).None? && Parsed(answer).Success? ==>
      var reply := CreateReplyOf(answer.response);
      c.err == reply.err &&
      (reply.writeBack.Some? ==> c.data.id == reply.writeBack.value.0 && c.data.shortKey == reply.writeBack.value.1) &&
      (reply.writeBack.None? ==> c.data.id == d.id && c.data.shortKey == d.shortKey)
  {
    match CreateViolation(Some(d))
    case Some(v) => CreateCall(d, None, Some(InvalidArgument(Reason(v))))
    case None =>
      var sent := d.(grants := WithDefaultGrants(d.grants));
      var request := Request(Post, SubaccountsUrl(cfg), Some(sent), headers);
      match Parsed(answer)
      case Failure(e) => CreateCall(sent, Some(request), Some(e))
      case Success(r) =>
        var reply := CreateReplyOf(r);
        match reply.writeBack
        case Some((id, shortKey)) => CreateCall(sent.(id := id, shortKey := shortKey), Some(request), reply.err)
        case None => CreateCall(sent, Some(request), reply.err)
  }

  /**
   * SubaccountCreate: validates, defaults the grants in place, POSTs, and on
   * a 200 writes id and short key back into the caller's object.
   */
  method Create(cfg: Config, s: Subaccount?, answer: Exchange) returns (request: Option<Request<SubaccountData>>, err: Option<Error>)
    modifies s
    ensures s == null ==> request.None? && err == Some(InvalidArgument(Reason(NilSubaccount)))
    ensures s != null ==>
      var c := CreateSpec(cfg, old(s.Data()), old(s.headers), answer);
      s.Data() == c.data && request == c.request && err == c.err
    ensures s != null ==> s.headers == old(s.headers)
  {
    if s == null {
      return None, Some(InvalidArgument(Reason(NilSubaccount)));
    }
    var v := CreateViolation(Some(s.Data()));
    if v.Some? {
      return None, Some(InvalidArgument(Reason(v.value)));
    }
    if |s.grants| == 0 {
      s.grants := AvailableGrants;
    }
    request := Some(Request(Post, SubaccountsUrl(cfg), Some(s.Data()), s.headers));
    var parsed := Parsed(answer);
    if parsed.Failure? {
      return request, Some(parsed.error);
    }
    var r := parsed.value;
    err := None;
    if r.status == 200 {
      var id := NumberField(r.results, "subaccount_id");
      if id.None? {
        err := Some(Unexpected("Subaccount creation"));
      }
      s.id := id.GetOr(0);
      var shortKey := StringField(r.results, "short_key");
      s.shortKey := shortKey.GetOr("");
      if shortKey.None? {
        err := Some(Unexpected("Subaccount creation"));
      }
    } else if |r.errors| > 0 {
      err := Some(PrettyOr(r, "Subaccount", "create",
                           if r.status == 422 then Rejected(r.errors[0]) else StatusError(r)));
    }
  }

  /** Scenario: a 422 whose first error names code, message and description yields exactly those three. */
  lemma Create422Scenario(r: Response)
    requires r.status == 422 && r.pretty.None?
    requires |r.errors| > 0 && r.errors[0] == ErrorEntry("1501", "Invalid Subaccount", "Name missing")
    ensures Message(CreateReplyOf(r).err.value) == "1501: Invalid Subaccount\nName missing"
  {
    assert CreateReplyOf(r).err == Some(Rejected(r.errors[0]));
    assert "1501" + ": " + "Invalid Subaccount" + "\n" + "Name missing" == "1501: Invalid Subaccount\nName missing";
  }

  // ---------------------------------------------------------------------------
  // Update

  /** Classification of an Update response once AssertJson and ParseResponse succeeded. */
  function UpdateReplyOf(r: Response, id: int): (e: Option<Error>)
    ensures r.status == 200 ==> e.None?
    ensures r.status != 200 ==> (e.None? <==> |r.errors| == 0)
    ensures r.status != 200 && |r.errors| > 0 && r.pretty.Some? ==>
      e == Some(Pretty("Subaccount", "update", r.pretty.value))
    ensures r.status == 409 && |r.errors| > 0 && r.pretty.None? ==> e == Some(InUse(id))
    ensures r.status !in {200, 409} && |r.errors| > 0 && r.pretty.None? ==> e == Some(StatusError(r))
  {
    if r.status == 200 then None
    else if |r.errors| > 0 then
      Some(PrettyOr(r, "Subaccount", "update", if r.status == 409 then InUse(id) else StatusError(r)))
    else None
  }

  /** The whole of one Update call: the request issued, if any, and the error. */
  datatype UpdateCall = UpdateCall(request: Option<Request<SubaccountData>>, err: Option<Error>)

  function UpdateSpec(cfg: Config, d: SubaccountData, headers: map<string, string>, answer: Exchange): (c: UpdateCall)
    ensures UpdateViolation(d).Some? ==>
      c == UpdateCall(None, Some(InvalidArgument(Reason(UpdateViolation(d).value))))
    ensures UpdateViolation(d).None? ==> c.request == Some(Request(Put, UpdateUrlAsWritten(cfg, d.id), Some(d), headers))
    ensures UpdateViolation(d).None? && Parsed(answer).Failure? ==> c.err == Some(Parsed(answer).error)
    ensures UpdateViolation(d).None? && Parsed(answer).Success? ==> c.err == UpdateReplyOf(answer.response, d.id)
  {
    match UpdateViolation(d)
    case Some(v) => UpdateCall(None, Some(InvalidArgument(Reason(v))))
    case None =>
      var request := Request(Put, UpdateUrlAsWritten(cfg, d.id), Some(d), headers);
      match Parsed(answer)
      case Failure(e) => UpdateCall(Some(request), Some(e))
      case Success(r) => UpdateCall(Some(request), UpdateReplyOf(r, d.id))
  }

  /** SubaccountUpdate: validates, PUTs the whole document to the URL as the code builds it, and classifies the response. */
  method Update(cfg: Config, s: Subaccount, answer: Exchange) returns (request: Option<Request<SubaccountData>>, err: Option<Error>)
    ensures UpdateCall(request, err) == UpdateSpec(cfg, s.Data(), s.headers, answer)
  {
    var v: Option<Violation> := None;
    if s.id == 0 {
      v := Some(ZeroId);
    } else if ByteLength(s.name) > MaxLength {
      v := Some(NameTooLong);
    } else if s.status != "" {
      var found := StatusFound(s.status);
      if !found {
        v := Some(InvalidStatus);
      }
    }
    if v.Some? {
      return None, Some(InvalidArgument(Reason(v.value)));
    }
    request := Some(Request(Put, UpdateUrlAsWritten(cfg, s.id), Some(s.Data()), s.headers));
    var parsed := Parsed(answer);
    if parsed.Failure? {
      return request, Some(parsed.error);
    }
    err := UpdateReplyOf(parsed.value, s.id);
  }

  /** Scenario: a 409 names the subaccount's id in its message. */
  lemma Update409NamesId(r: Response, id: int)
    requires r.status == 409 && |r.errors| > 0 && r.pretty.None?
    ensures var m := Message(UpdateReplyOf(r, id).value);
      m[|InUsePrefix|..|InUsePrefix| + |Decimal(id)|] == Decimal(id)
  {
    var m := Message(UpdateReplyOf(r, id).value);
    assert m == InUsePrefix + Decimal(id) + ")] is in use by msg generation";
  }

  // ---------------------------------------------------------------------------
  // List and Retrieve

  function ListRequest(cfg: Config, headers: map<string, string>): Request<SubaccountData> {
    Request(Get, SubaccountsUrl(cfg), None, headers)
  }

  function RetrieveRequest(cfg: Config, id: int, headers: map<string, string>): Request<SubaccountData> {
    Request(Get, SubaccountUrl(cfg, id), None, headers)
  }

  /** Every update that passes validation is sent somewhere other than the URL the same subaccount is retrieved from. */
  lemma UpdateMissesRetrieveUrl(cfg: Config, d: SubaccountData, headers: map<string, string>, answer: Exchange)
    requires UpdateViolation(d).None?
    ensures UpdateSpec(cfg, d, headers, answer).request.value.url != RetrieveRequest(cfg, d.id, headers).url
  {
    UpdateUrlAsWrittenMisses(cfg, d.id);
  }

  /**
   * The read path List and Retrieve share. `decoded` is json.Unmarshal's
   * outcome on the body: its error text, or the value under `results` if
   * that key is present.
   */
  function Fetch<T>(answer: Exchange, decoded: Result<Option<T>, string>, operation: string, subject: string): (r: Result<T, Error>)
    ensures answer.TransportFailure? ==> r == Failure(Transport(answer.text))
    ensures answer.Answered? && answer.response.notJson.Some? ==>
      r == Failure(NotJson(answer.response.notJson.value))
    ensures r.Success? <==>
      answer.Answered? && answer.response.notJson.None? && answer.response.status == 200
      && answer.response.readFailure.None? && decoded.Success? && decoded.value.Some?
    ensures r.Success? ==> r.value == decoded.value.value
    ensures (answer.Answered? && answer.response.notJson.None? && answer.response.status == 200
             && answer.response.readFailure.None? && decoded.Success? && decoded.value.None?) ==>
      r == Failure(Unexpected(subject))
    ensures (answer.Answered? && answer.response.notJson.None? && answer.response.status != 200
             && answer.response.parseFailure.None?) ==>
      r == Failure(if |answer.response.errors| > 0
                   then PrettyOr(answer.response, "Subaccount", operation, StatusError(answer.response))
                   else StatusError(answer.response))
  {
    match answer
    case TransportFailure(text) => Failure(Transport(text))
    case Answered(resp) =>
      if resp.notJson.Some? then Failure(NotJson(resp.notJson.value))
      else if resp.status == 200 then
        if resp.readFailure.Some? then Failure(ReadFailed(resp.readFailure.value))
        else match decoded
          case Failure(text) => Failure(DecodeFailed(text))
          case Success(None) => Failure(Unexpected(subject))
          case Success(Some(v)) => Success(v)
      else if resp.parseFailure.Some? then Failure(ParseFailed(resp.parseFailure.value))
      else if |resp.errors| > 0 && resp.pretty.Some? then Failure(Pretty("Subaccount", operation, resp.pretty.value))
      else Failure(StatusError(resp))
  }

  /** SubaccountsWithHeaders' outcome: the list under `results`, or an error labelled for the list. */
  function List(answer: Exchange, decoded: Result<Option<seq<SubaccountData>>, string>): (r: Result<seq<SubaccountData>, Error>)
    ensures (answer.Answered? && answer.response.notJson.None? && answer.response.status == 200
             && answer.response.readFailure.None?) ==>
      r == (match decoded
            case Success(Some(list)) => Success(list)
            case Success(None) => Failure(Unexpected("Subaccount list"))
            case Failure(text) => Failure(DecodeFailed(text)))
    ensures (answer.Answered? && answer.response.notJson.None? && answer.response.status != 200
             && answer.response.parseFailure.None? && |answer.response.errors| > 0
             && answer.response.pretty.Some?) ==>
      r == Failure(Pretty("Subaccount", "list", answer.response.pretty.value))
  {
    Fetch(answer, decoded, "list", "Subaccount list")
  }

  /** SubaccountWithHeaders' outcome: the subaccount under `results`, or an error labelled for retrieval. */
  function Retrieve(answer: Exchange, decoded: Result<Option<SubaccountData>, string>): (r: Result<SubaccountData, Error>)
    ensures (answer.Answered? && answer.response.notJson.None? && answer.response.status == 200
             && answer.response.readFailure.None?) ==>
      r == (match decoded
            case Success(Some(one)) => Success(one)
            case Success(None) => Failure(Unexpected("Subaccount"))
            case Failure(text) => Failure(DecodeFailed(text)))
    ensures (answer.Answered? && answer.response.notJson.None? && answer.response.status != 200
             && answer.response.parseFailure.None? && |answer.response.errors| > 0
             && answer.response.pretty.Some?) ==>
      r == Failure(Pretty("Subaccount", "retrieve", answer.response.pretty.value))
  {
    Fetch(answer, decoded, "retrieve", "Subaccount")
  }

  /** Unlike the write paths, a non-200 read never passes quietly, even with an empty error list. */
  lemma ReadsNeverQuiet(r: Response, d: Result<Option<seq<SubaccountData>>, string>, d': Result<Option<SubaccountData>, string>)
    requires r.status != 200 && |r.errors| == 0 && r.notJson.None? && r.parseFailure.None?
    ensures List(Answered(r), d) == Failure(StatusError(r))
    ensures Retrieve(Answered(r), d') == Failure(StatusError(r))
    ensures CreateReplyOf(r).err.None? && UpdateReplyOf(r, 0).None?
  {
  }
}
