/**
 * The HTTP gateway the resource clients talk to, seen as data: the client's
 * configuration, the request it issues, and the response record it gets back.
 * Transport, content-type assertion, envelope parsing, body reading and the
 * PrettyError summary are collaborators outside this model; their outcomes
 * are fields of the response record.
 */
module Gateway {
  import opened Wrappers
  import opened Format

  /** The client configuration the paths are built from. */
  datatype Config = Config(baseUrl: string, apiVersion: int)

  datatype Verb = Get | Post | Put | Delete

  /** One outbound HTTP request; the body is the value handed to json.Marshal. */
  datatype Request<B> = Request(verb: Verb, url: string, body: Option<B>, headers: map<string, string>)

  /** A field of the generic `Results` map, by its decoded JSON type. */
  datatype JsonValue = JNumber(number: int) | JString(text: string) | JOther

  /** One entry of the structured `errors` list of an API response. */
  datatype ErrorEntry = ErrorEntry(code: string, message: string, description: string)

  /**
   * What the gateway hands back for one request. Each `Option<string>` field is
   * the error text a collaborator would return, `None` when it succeeds:
   * `notJson` for AssertJson, `parseFailure` for ParseResponse, `readFailure`
   * for ReadBody, and `pretty` is PrettyError's non-nil error, if any.
   */
  datatype Response = Response(
    status: int,
    notJson: Option<string>,
    parseFailure: Option<string>,
    readFailure: Option<string>,
    results: map<string, JsonValue>,
    errors: seq<ErrorEntry>,
    body: string,
    pretty: Option<string>)

  /** The gateway call either fails at the transport level or yields a response. */
  datatype Exchange = TransportFailure(text: string) | Answered(response: Response)

  /** Every error the two resource clients return. */
  datatype Error =
    | InvalidArgument(reason: string)
    | Transport(text: string)
    | NotJson(text: string)
    | ParseFailed(text: string)
    | ReadFailed(text: string)
    | DecodeFailed(text: string)
    | Unexpected(subject: string)
    | Pretty(resource: string, operation: string, text: string)
    | Rejected(entry: ErrorEntry)
    | InUse(id: int)
    | Status(code: int, body: string)

  /** The text of an error, as the source's fmt.Errorf calls produce it. */
  function Message(e: Error): string {
    match e
    case InvalidArgument(reason) => reason
    case Transport(text) => text
    case NotJson(text) => text
    case ParseFailed(text) => text
    case ReadFailed(text) => text
    case DecodeFailed(text) => text
    case Unexpected(subject) => "Unexpected response to " + subject
    case Pretty(_, _, text) => text
    case Rejected(entry) => entry.code + ": " + entry.message + "\n" + entry.description
    case InUse(id) => InUsePrefix + Decimal(id) + ")] is in use by msg generation"
    case Status(code, body) => Decimal(code) + ": " + body
  }

  /** `%s` applied to an int makes fmt print `%!s(int=<decimal>)`. */
  const InUsePrefix: string := "Subaccount with id [%!s(int="

  /** The `"%d: %s"` fallback from the status code and the raw body. */
  function StatusError(r: Response): Error {
    Status(r.status, r.body)
  }

  /** PrettyError's verdict under the given labels, or the fallback when it returns nil. */
  function PrettyOr(r: Response, resource: string, operation: string, fallback: Error): Error {
    match r.pretty
    case Some(text) => Pretty(resource, operation, text)
    case None => fallback
  }

  /** The successful class of status codes, section 15.3 of RFC 9110. */
  predicate IsSuccessful(code: int) {
    200 <= code <= 299
  }

  /**
   * The steps the write paths share after the request: a transport error,
   * then AssertJson, then ParseResponse, each returned as soon as it fails.
   */
  function Parsed(answer: Exchange): (r: Result<Response, Error>)
    ensures r.Success? <==>
      answer.Answered? && answer.response.notJson.None? && answer.response.parseFailure.None?
    ensures r.Success? ==> r.value == answer.response
    ensures answer.TransportFailure? ==> r == Failure(Transport(answer.text))
    ensures answer.Answered? && answer.response.notJson.Some? ==>
      r == Failure(NotJson(answer.response.notJson.value))
    ensures answer.Answered? && answer.response.notJson.None? && answer.response.parseFailure.Some? ==>
      r == Failure(ParseFailed(answer.response.parseFailure.value))
  {
    match answer
    case TransportFailure(text) => Failure(Transport(text))
    case Answered(resp) =>
      if resp.notJson.Some? then Failure(NotJson(resp.notJson.value))
      else if resp.parseFailure.Some? then Failure(ParseFailed(resp.parseFailure.value))
      else Success(resp)
  }

  predicate NoColon(s: string) {
    forall i :: 0 <= i < |s| ==> s[i] != ':'
  }

  lemma DecimalHasNoColon(n: int)
    ensures NoColon(Decimal(n))
  {
    var s := Decimal(n);
    var t := NatDigits(if n < 0 then -n else n);
    forall i | 0 <= i < |s|
      ensures s[i] != ':'
    {
      if n < 0 && i > 0 {
        assert s[i] == t[i - 1];
      }
    }
  }

  /** Text before the first colon and text after it are recovered from a join. */
  lemma {:induction false} SplitAtFirstColon(a: string, b: string, a': string, b': string)
    requires NoColon(a) && NoColon(a')
    requires a + ": " + b == a' + ": " + b'
    ensures a == a' && b == b'
  {
    var s := a + ": " + b;
    var s' := a' + ": " + b';
    assert s[|a|] == ':' && s'[|a'|] == ':';
    assert |a| == |a'|;
    assert a == s[..|a|];
    assert a' == s'[..|a'|];
    assert b == s[|a| + 2..];
    assert b' == s'[|a'| + 2..];
  }

  /** The `"%d: %s"` fallback is unambiguous: its text determines the status and the body. */
  lemma StatusMessageDetermines(c: int, b: string, c': int, b': string)
    requires Message(Status(c, b)) == Message(Status(c', b'))
    ensures c == c' && b == b'
  {
    DecimalHasNoColon(c);
    DecimalHasNoColon(c');
    SplitAtFirstColon(Decimal(c), b, Decimal(c'), b');
    DecimalInjective(c, c');
  }
}
