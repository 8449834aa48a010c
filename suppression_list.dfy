/**
 * The Suppression List resource client: the paths of its endpoints, the
 * envelope of an upsert, and how each response is turned into a result or
 * an error.
 */
module SuppressionList {
  import opened Wrappers
  import opened Format
  import opened Gateway

  /** One recipient's suppression record; `email` is written, `recipient` is what reads return. */
  datatype SuppressionEntry = SuppressionEntry(
    email: string,
    recipient: string,
    transactional: bool,
    nonTransactional: bool,
    source: string,
    description: string,
    updated: string,
    created: string)

  /** The two JSON shapes: `results` on reads, `recipients` on writes; nil when absent. */
  datatype Wrapper = Wrapper(results: Option<seq<SuppressionEntry>>, recipients: Option<seq<SuppressionEntry>>)

  /** The members json.Marshal emits for a wrapper: both fields are `omitempty`. */
  function WireFields(w: Wrapper): set<string> {
    (if w.results.Some? && |w.results.value| > 0 then {"results"} else {})
    + (if w.recipients.Some? && |w.recipients.value| > 0 then {"recipients"} else {})
  }

  // ---------------------------------------------------------------------------
  // Paths

  function SuppressionPath(version: int): string {
    "/api/v" + Decimal(version) + "/suppression-list"
  }

  /** The collection endpoint, used by List, Upsert and an empty Search. */
  function ListUrl(cfg: Config): string {
    cfg.baseUrl + SuppressionPath(cfg.apiVersion)
  }

  /** The per-address endpoint of Retrieve and Delete: the address is appended verbatim after a slash. */
  function EntryUrl(cfg: Config, email: string): (u: string)
    ensures |u| == |ListUrl(cfg)| + 1 + |email|
    ensures u[..|ListUrl(cfg)|] == ListUrl(cfg)
    ensures u[|ListUrl(cfg)|] == '/'
    ensures u[|ListUrl(cfg)| + 1..] == email
  {
    var u := ListUrl(cfg) + "/" + email;
    assert u[..|ListUrl(cfg)|] == ListUrl(cfg);
    assert u[|ListUrl(cfg)| + 1..] == email;
    u
  }

  /** Distinct addresses address distinct entries. */
  lemma EntryUrlInjective(cfg: Config, a: string, b: string)
    requires EntryUrl(cfg, a) == EntryUrl(cfg, b)
    ensures a == b
  {
  }

  /** Query values as url.Values holds them: each parameter under its name, with that one value. */
  function SingleValued(parameters: map<string, string>): (values: map<string, seq<string>>)
    ensures values.Keys == parameters.Keys
    ensures forall k :: k in values ==> values[k] == [parameters[k]]
  {
    map k | k in parameters :: [parameters[k]]
  }

  /** url.Values.Add: append `v` to the values held under `k`. */
  function Add(values: map<string, seq<string>>, k: string, v: string): map<string, seq<string>> {
    values[k := (if k in values then values[k] else []) + [v]]
  }

  /** The loop of SuppressionSearchWithHeaders that copies the parameters into url.Values, in whatever order the map yields them. */
  method QueryValues(parameters: map<string, string>) returns (values: map<string, seq<string>>)
    ensures values == SingleValued(parameters)
  {
    values := map[];
    var pending := parameters.Keys;
    while pending != {}
      invariant pending <= parameters.Keys
      invariant values.Keys == parameters.Keys - pending
      invariant forall k :: k in values ==> values[k] == [parameters[k]]
      decreases pending
    {
      var k :| k in pending;
      values := Add(values, k, parameters[k]);
      pending := pending - {k};
    }
  }

  /**
   * SuppressionSearchWithHeaders' URL. `encode` stands for url.Values.Encode,
   * which this model does not interpret.
   */
  method SearchUrl(cfg: Config, parameters: Option<map<string, string>>, encode: map<string, seq<string>> -> string)
    returns (url: string)
    ensures (parameters.None? || |parameters.value| == 0) ==> url == ListUrl(cfg)
    ensures (parameters.Some? && |parameters.value| > 0) ==>
      url == ListUrl(cfg) + "?" + encode(SingleValued(parameters.value))
  {
    if parameters.None? || |parameters.value| == 0 {
      url := cfg.baseUrl + SuppressionPath(cfg.apiVersion);
    } else {
      var values := QueryValues(parameters.value);
      url := cfg.baseUrl + SuppressionPath(cfg.apiVersion) + "?" + encode(values);
    }
  }

  // ---------------------------------------------------------------------------
  // Reads

  function ListRequest(cfg: Config, headers: map<string, string>): Request<Wrapper> {
    Request(Get, ListUrl(cfg), None, headers)
  }

  function RetrieveRequest(cfg: Config, email: string, headers: map<string, string>): Request<Wrapper> {
    Request(Get, EntryUrl(cfg, email), None, headers)
  }

  /**
   * doSuppressionGet, the read path List, Retrieve and Search share.
   * `decoded` is json.Unmarshal's outcome on the body.
   */
  function GetResult(answer: Exchange, decoded: Result<Wrapper, string>): (r: Result<Wrapper, Error>)
    ensures r.Success? <==>
      (answer.Answered? && answer.response.notJson.None? && answer.response.readFailure.None? && decoded.Success?)
    ensures r.Success? ==> r.value == decoded.value
    ensures answer.TransportFailure? ==> r == Failure(Transport(answer.text))
    ensures answer.Answered? && answer.response.notJson.Some? ==>
      r == Failure(NotJson(answer.response.notJson.value))
    ensures (answer.Answered? && answer.response.notJson.None? && answer.response.readFailure.Some?) ==>
      r == Failure(ReadFailed(answer.response.readFailure.value))
    ensures (answer.Answered? && answer.response.notJson.None? && answer.response.readFailure.None?
             && decoded.Failure?) ==>
      r == Failure(DecodeFailed(decoded.error))
  {
    match answer
    case TransportFailure(text) => Failure(Transport(text))
    case Answered(resp) =>
      if resp.notJson.Some? then Failure(NotJson(resp.notJson.value))
      else if resp.readFailure.Some? then Failure(ReadFailed(resp.readFailure.value))
      else match decoded
        case Failure(text) => Failure(DecodeFailed(text))
        case Success(w) => Success(w)
  }

  /** The read path never looks at the status code: any JSON body that decodes is returned. */
  lemma GetIgnoresStatus(r: Response, code: int, decoded: Result<Wrapper, string>)
    ensures GetResult(Answered(r), decoded) == GetResult(Answered(r.(status := code)), decoded)
  {
  }

  // ---------------------------------------------------------------------------
  // Delete

  function DeleteRequest(cfg: Config, email: string, headers: map<string, string>): Request<Wrapper> {
    Request(Delete, EntryUrl(cfg, email), None, headers)
  }

  /**
   * SuppressionDeleteWithHeaders' error. The response is neither asserted to be
   * JSON nor parsed; any 2xx status is success.
   */
  function DeleteResult(answer: Exchange): (e: Option<Error>)
    ensures e.None? <==>
      (answer.Answered? && (IsSuccessful(answer.response.status) || |answer.response.errors| == 0))
    ensures answer.TransportFailure? ==> e == Some(Transport(answer.text))
    ensures (answer.Answered? && !IsSuccessful(answer.response.status) && |answer.response.errors| > 0) ==>
      e == Some(PrettyOr(answer.response, "SuppressionEntry", "delete", StatusError(answer.response)))
  {
    match answer
    case TransportFailure(text) => Some(Transport(text))
    case Answered(resp) =>
      if IsSuccessful(resp.status) then None
      else if |resp.errors| > 0 then Some(PrettyOr(resp, "SuppressionEntry", "delete", StatusError(resp)))
      else None
  }

  // ---------------------------------------------------------------------------
  // Upsert

  /** The upsert envelope: the entries, in order, under `recipients`; `results` absent. */
  function UpsertBody(entries: seq<SuppressionEntry>): (w: Wrapper)
    ensures w.results.None? && w.recipients == Some(entries)
    ensures "results" !in WireFields(w)
    ensures "recipients" in WireFields(w) <==> |entries| > 0
  {
    Wrapper(None, Some(entries))
  }

  /**
   * doSuppressionPut's error: status 200 exactly is success, and the common
   * classification runs under the labels "Transmission" and "create".
   */
  function PutResult(answer: Exchange): (e: Option<Error>)
    ensures Parsed(answer).Failure? ==> e == Some(Parsed(answer).error)
    ensures Parsed(answer).Success? ==>
      (e.None? <==> (answer.response.status == 200 || |answer.response.errors| == 0))
    ensures (Parsed(answer).Success? && answer.response.status != 200 && |answer.response.errors| > 0) ==>
      e == Some(PrettyOr(answer.response, "Transmission", "create", StatusError(answer.response)))
  {
    match Parsed(answer)
    case Failure(err) => Some(err)
    case Success(resp) =>
      if resp.status == 200 then None
      else if |resp.errors| > 0 then Some(PrettyOr(resp, "Transmission", "create", StatusError(resp)))
      else None
  }

  /** The whole of one upsert call: the request issued, if any, and the error. */
  datatype UpsertCall = UpsertCall(request: Option<Request<Wrapper>>, err: Option<Error>)

  /** SuppressionUpsertWithHeaders: a nil slice is refused before any request; an empty one is sent. */
  function Upsert(cfg: Config, entries: Option<seq<SuppressionEntry>>, headers: map<string, string>, answer: Exchange): (c: UpsertCall)
    ensures entries.None? ==> c == UpsertCall(None, Some(InvalidArgument("`entries` cannot be nil")))
    ensures entries.Some? ==> c.request == Some(Request(Put, ListUrl(cfg), Some(UpsertBody(entries.value)), headers))
    ensures entries.Some? ==> c.err == PutResult(answer)
  {
    match entries
    case None => UpsertCall(None, Some(InvalidArgument("`entries` cannot be nil")))
    case Some(list) => UpsertCall(Some(Request(Put, ListUrl(cfg), Some(UpsertBody(list)), headers)), PutResult(answer))
  }

  /** Delete and Put disagree on every success status but 200 when errors are present. */
  lemma DeleteWiderThanPut(r: Response)
    requires r.notJson.None? && r.parseFailure.None? && |r.errors| > 0
    requires IsSuccessful(r.status) && r.status != 200
    ensures DeleteResult(Answered(r)).None?
    ensures PutResult(Answered(r)).Some?
  {
  }
}
