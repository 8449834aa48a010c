# SparkPost subaccounts and suppression list client, modelled in Dafny

This project models the request/response decision layer of the Go SparkPost
client for two resources.

- **Subaccounts** (`subaccounts.go`) are tenant-scoped API credentials. The
  model covers Create and Update validation, grant defaulting, the endpoint
  paths, and how each response becomes a result or an error. It also covers
  Create writing the server-assigned id and short key back into the caller's
  object.
- **Suppression list** (`suppression_list.go`) holds per-recipient opt-out
  records. The model covers the URL builders for list, retrieve, search and
  delete; the upsert envelope and its nil check; and how the GET, DELETE and
  PUT responses are classified.

The HTTP gateway is treated as data (`gateway.dfy`). A request is a record:
verb, URL, the document handed to `json.Marshal`, and headers. The gateway's
answer is also a record: either a transport failure, or a response with the
status code, raw body, the `results` map as typed JSON values, the structured
`errors` list, and the outcomes of `AssertJson`, `ParseResponse`, `ReadBody`
and `PrettyError`. `json.Unmarshal` outcomes are passed to each read as a
`Result`. Every error the clients return is a `Gateway.Error`.
`Gateway.Message` gives the text that the source's `fmt.Errorf` calls
produce.

Files:

- `wrappers.dfy`: `Option` and `Result`.
- `format.dfy`: `%d` rendering with its inverse, and Go's byte length of a
  string.
- `gateway.dfy`: client configuration, requests, responses, errors, and the
  shared classification steps.
- `subaccounts.dfy`: the subaccount client. `Subaccount` is a class because
  Create mutates it in place.
- `suppression_list.dfy`: the suppression list client.

Two behaviours of the source worth knowing, both modelled as the code has them:

- Delete with a non-2xx status and an empty error list returns no error
  (suppression_list.go:99-112). It does not fall back to "status: body".
- Update builds its URL from the templates path (subaccounts.go:142-143; see
  Findings).

## Model

| member | source | states |
|---|---|---|
| Format.DecimalRoundTrip | subaccounts.go:242 | The `%d` text of an int (id, API version, status code) parses back to that int, so no two ints render alike |
| Format.ByteLength | subaccounts.go:49-52 | Go's `len` of a string, i.e. its UTF-8 byte count. It lies between the character count and four times it |
| Format.AsciiByteLength | subaccounts.go:49-52 | For ASCII text the byte limit is a character limit |
| Gateway.Parsed | subaccounts.go:69-81 | Write paths fail on the first failing step, in this order: transport, then AssertJson, then ParseResponse. They proceed, with the response unchanged, only when all three succeed |
| Gateway.StatusMessageDetermines | subaccounts.go:106 | Two `"%d: %s"` fallback texts are equal only if their status codes and raw bodies are equal |
| Subaccounts.SubaccountUrl | subaccounts.go:241-242 | The per-id URL is the collection URL, then `/`, then text that parses back to the id |
| Subaccounts.SubaccountUrlInjective | subaccounts.go:241-242 | Distinct ids give distinct per-id URLs |
| Subaccounts.UpdateUrl | subaccounts.go:142-143 | Intended Update URL: equal to the per-id subaccount URL that Retrieve uses |
| Subaccounts.UpdateUrlAsWrittenMisses | subaccounts.go:142-143 | For every configuration and id, the URL Update actually builds differs from the subaccount's URL |
| Subaccounts.UpdateUrlAsWrittenExample | subaccounts.go:142-143 | Id 42 under version 1: the code builds `…/api/v1/templates/%!s(int=42)`; the intended URL is `…/api/v1/subaccounts/42` |
| Subaccounts.FirstFailingSound | subaccounts.go:41-53 | An ordered check chain reports nothing iff every check passes. What it reports is one of its checks, and that check fails |
| Subaccounts.FirstFailingAt | subaccounts.go:41-53 | If check k fails and every earlier check passes, the chain reports check k (first failure wins) |
| Subaccounts.CreateViolation | subaccounts.go:41-56 | Create validation is the chain nil, empty Name, empty KeyLabel, Name > 1024 bytes, KeyLabel > 1024 bytes. It passes iff the subaccount is non-nil and both fields are non-empty and at most 1024 bytes |
| Subaccounts.UpdateViolation | subaccounts.go:115-133 | Update validation is the chain zero id, Name > 1024 bytes, bad status. It passes iff id ≠ 0, Name ≤ 1024 bytes, and Status is empty or one of the three valid statuses |
| Subaccounts.StatusFound | subaccounts.go:120-125 | The scan sets `found` iff the status is one of active, suspended, terminated |
| Subaccounts.WithDefaultGrants | subaccounts.go:58-60 | Empty grants become exactly the six available grants. Non-empty grants are kept as given. The result is never empty |
| Subaccounts.CreateReplyOf | subaccounts.go:83-110 | On 200: id and short key are written back, with 0 / "" for a missing or mistyped field. An error is returned iff `subaccount_id` is not a number or `short_key` is not a string. On non-200: no error iff the error list is empty. Otherwise PrettyError, else the 422 text from `Errors[0]`, else "status: body" |
| Subaccounts.CreateSpec | subaccounts.go:39-111 | A validation failure gives InvalidArgument, issues no request and changes nothing. Otherwise the grant-defaulted document is POSTed to the collection URL, and collaborator failures are returned. Only grants, id and short key ever change |
| Subaccounts.Create | subaccounts.go:39-111 | Nil input gives the nil error. Otherwise the caller's object ends up as CreateSpec says, grants defaulted in place before the request; headers are untouched |
| Subaccounts.Create422Scenario | subaccounts.go:102-104 | A 422 with error {1501, Invalid Subaccount, Name missing} yields the text `1501: Invalid Subaccount\nName missing` |
| Subaccounts.UpdateReplyOf | subaccounts.go:159-177 | 200 is success with no payload processing. Non-200 gives no error iff the error list is empty. Otherwise PrettyError, else 409 "in use by msg generation" for the id, else "status: body" |
| Subaccounts.UpdateSpec | subaccounts.go:114-178 | A validation failure gives InvalidArgument and issues no request. Otherwise the whole document is PUT to the URL the code builds (`UpdateUrlAsWritten`: templates path, id under `%s`), and collaborator failures then the reply are returned |
| Subaccounts.Update | subaccounts.go:114-178 | The step-by-step update, using the status scan, yields exactly UpdateSpec's request and error |
| Subaccounts.UpdateMissesRetrieveUrl | subaccounts.go:142-145 | Every update that passes validation is PUT to a URL other than the one Retrieve uses for the same id |
| Subaccounts.Update409NamesId | subaccounts.go:170-171 | The 409 message contains the decimal id |
| Subaccounts.Fetch | subaccounts.go:189-229 | Shared read path. It succeeds iff the response is JSON, status 200, the body is read and decoded, and `results` is present; the value is then what is under `results`. A missing key gives Unexpected. A non-200 always errs: PrettyError if non-nil, else "status: body" |
| Subaccounts.List | subaccounts.go:186-232 | On 200 the list under `results`, or "Unexpected response to Subaccount list". PrettyError is labelled `list` |
| Subaccounts.Retrieve | subaccounts.go:240-287 | On 200 the subaccount under `results`, or "Unexpected response to Subaccount". PrettyError is labelled `retrieve` |
| Subaccounts.ReadsNeverQuiet | subaccounts.go:216-228 | A non-200 with an empty error list is an error for List and Retrieve, but passes quietly for Create and Update |
| SuppressionList.EntryUrl | suppression_list.go:52-54 | Retrieve/Delete URL is the List URL, then `/`, then the address verbatim |
| SuppressionList.EntryUrlInjective | suppression_list.go:91-92 | Distinct addresses give distinct entry URLs |
| SuppressionList.QueryValues | suppression_list.go:72-75 | The copy loop gives every parameter name exactly its one value, whatever order the map yields |
| SuppressionList.SearchUrl | suppression_list.go:65-78 | A nil or empty map gives exactly the List URL. Otherwise the List URL, `?`, and the encoding of the single-valued query |
| SuppressionList.GetResult | suppression_list.go:171-198 | Shared GET: an error and no wrapper on transport, non-JSON, unreadable or undecodable body. Otherwise exactly the decoded wrapper |
| SuppressionList.GetIgnoresStatus | suppression_list.go:171-198 | The shared GET's outcome does not depend on the status code |
| SuppressionList.DeleteResult | suppression_list.go:94-112 | No error iff answered with a 2xx status or an empty error list. Otherwise PrettyError, else "status: body"; transport errors pass through |
| SuppressionList.UpsertBody | suppression_list.go:130 | The envelope has `results` absent and `recipients` equal to the entries, in order. Encoded, it never carries `results`, and carries `recipients` iff there are entries |
| SuppressionList.PutResult | suppression_list.go:136-168 | Collaborator failures pass through. Then no error iff status 200 or an empty error list. Otherwise PrettyError under the labels "Transmission"/"create", else "status: body" |
| SuppressionList.Upsert | suppression_list.go:121-133 | A nil slice fails before any request. Any non-nil slice, empty included, is PUT in its envelope to the List URL and classified by PutResult |
| SuppressionList.DeleteWiderThanPut | suppression_list.go:99-112 | With errors present, any 2xx other than 200 succeeds for Delete and fails for the upsert PUT |

## Findings

| source | as written | input that shows it | evidently intended | confidence | as-written member | corrected member |
|---|---|---|---|---|---|---|
| subaccounts.go:142-143 | Update's URL is built from `templatesPathFormat`, and the int id is formatted with `%s` | Any update, e.g. id 42 under API version 1: PUT to `…/api/v1/templates/%!s(int=42)` | PUT to the per-id subaccount endpoint `…/api/v1/subaccounts/42` | high (not executed) | Subaccounts.UpdateUrlAsWritten | Subaccounts.UpdateUrl |

`UpdateUrlAsWrittenMisses` proves that the two differ for every input.
`UpdateSpec` and `Update` issue the URL as the code builds it, and
`UpdateMissesRetrieveUrl` proves that every validated update therefore
misses the subaccount's own endpoint; `UpdateUrl` is the intended URL, proved
equal to the per-id URL of Retrieve. `templatesPathFormat` is
declared in templates.go, which is not part of this model; its value
`/api/v%d/templates` is taken as given.

Two oddities are modelled as written and not corrected:

- The 409 message also formats the id with `%s` (subaccounts.go:171).
  `Message(InUse(id))` renders it the way fmt renders a mismatched verb:
  `[%!s(int=<id>)]`.
- The upsert PUT calls PrettyError with the labels "Transmission"/"create"
  (suppression_list.go:160). `PutResult` keeps these labels.

## Left out

- HTTP transport (`HttpGet`, `HttpPost`, `HttpPut`, `HttpDelete`), header maps and concurrency: I/O. A request is a value, and the gateway's answer is an input (`Exchange`).
- `AssertJson`, `ParseResponse`, `ReadBody` and `PrettyError` are defined outside these files. Their outcomes are fields of `Response`. PrettyError's non-nil text is one opaque value, whatever labels it is called with.
- `json.Marshal`: its error returns (subaccounts.go:62-65, 137-140; suppression_list.go:137-140) are not modelled. The documents it encodes hold only strings, ints, bools and slices. A request carries the document rather than its bytes. The only encoding detail modelled is which wrapper fields `omitempty` keeps (`WireFields`).
- `json.Unmarshal`: its outcome is an input. The float64 that `subaccount_id` decodes to, and its `int(f)` truncation, are not modelled; `JNumber` carries the integer. Nil pointers inside `Results []*SuppressionEntry` are not modelled.
- `net/url` `Values.Encode` is the function parameter `encode` of `SearchUrl`.
- The `*Response` that Create and Update return is the gateway's response, passed through. Delete returns it on success and in the "status: body" and quiet cases, but returns a nil response with the error on a transport error and on a non-nil PrettyError (suppression_list.go:96, 106). The model returns only the request issued and the error, so which of these calls hands back a response is not captured.
- Create's `s.Grants = availableGrants` (subaccounts.go:59) makes the caller's slice share storage with the package-level default list, so a later write into `s.Grants[i]` would change the defaults of every later Create. The model's `AvailableGrants` is an immutable constant and `Create` stores a value, so this aliasing is not captured.
- Go strings are byte strings and may hold invalid UTF-8, for which `len` counts raw bytes. A Dafny `string` is a sequence of Unicode scalar values, so such a Name or KeyLabel cannot be expressed; `ByteLength` covers valid UTF-8 text only.
- `SubaccountUpdate` called with nil dereferences the pointer. `Update` takes a non-null `Subaccount`.
- The header-less forms (`Subaccounts`, `Subaccount`, `SuppressionList`, `SuppressionRetrieve`, `SuppressionSearch`, `SuppressionDelete`, `SuppressionUpsert`) delegate with nil headers. They are the `WithHeaders` forms with an empty map.
- Go's `int` is 64 bits; ids, versions and status codes are unbounded here. The model only renders and compares them, so no wrap-around arises.
- The request builders `ListRequest`, `RetrieveRequest` and `DeleteRequest` pair a verb with the URL functions above, and the suppression List, Retrieve and Search reads are those requests followed by `GetResult`. The URL functions and `GetResult` carry the contracts, so the builders have no rows of their own.
- Round trips through the server (upsert, then retrieve the same address) and repeating Delete depend on the provider's behaviour. They are not modelled.
