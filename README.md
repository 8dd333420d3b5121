# DNS-01 challenge hook for the Yandex PDD DNS API — a Dafny model

The hook is called by a certificate-issuance tool with a stage name, a
domain and a challenge token. On `deploy_challenge` it asks the DNS
provider to add a TXT record `_acme-challenge.<domain>` holding the token.
On `clean_challenge` it lists the domain's records, keeps those whose
content is the token, and deletes the first of them by its record id. Any
other stage name does nothing.

This project models the decision logic of `main.go` and proves it. HTTP and
JSON decoding are not modelled. Each remote call is an input `Reply`: no
response, a body that does not decode, or a decoded envelope. Each
operation returns the requests it sends, in order, together with its
outcome.

Modules (one file each):

- `Numbers` (`numbers.dfy`): Go's `int64`/`uint64`, the wrap-around of a
  `uint64` converted to `int64`, and the `%d` rendering of a record id.
  Reading that rendering back gives the same id again.
- `Priority` (`priority.dfy`): the raw JSON shapes a `priority` field can
  have, the decode rule as a function, and the `PriorityValue` cell whose
  `UnmarshalJSON` method writes through the pointer.
- `Records` (`records.dfy`): `DNSRecord`, the early-return `Contains` loop,
  and the filter. The filter is a method with a loop, proved equal to the
  specification function `FilterByContent`. Lemmas show the filter keeps
  exactly the matching records, in input order, each as often as it occurs.
- `Provider` (`provider.dfy`): the list, add and delete requests, with their
  query parameters in the order the code adds them. Also the error kinds and
  their messages, the `"error"` discriminator, and the list call.
- `Workflow` (`workflow.dfy`): `CreateAcmeRecord`, `DeleteAcmeRecord` and
  the entry point `Hook`, which dispatches on the stage name.

Behaviour of `main.go` that is easy to misread:

- The list call never looks at the envelope's `Success` field
  (`main.go:175-182`). A listing marked `"error"` is read as its records,
  usually none. Clean then fails with "not found", not with the provider's
  message (`Workflow.CleanAfterListErrorReportsNotFound`).
- A failed listing inside `DeleteAcmeRecord` panics (`main.go:79-81`) rather
  than returning an error. The model keeps this as `Outcome.Panic`.
- A priority shape that neither decode attempt accepts keeps the value
  already stored (`main.go:54-58`). It does not become 0. A record freshly
  decoded from a response starts at 0, so the two only differ for a reused
  value. JSON `null` counts as a string, which gives 0.
- Converting a `uint64` priority of 2^63 or more to the `int64`
  `PriorityValue` wraps it to a negative value (`main.go:56`).

## Model

| member | source | states |
|---|---|---|
| `Numbers.Int64OfUint64` | main.go:56 | the `int64` conversion of a `uint64` agrees with it modulo 2^64, and is the same number exactly when that number is below 2^63 |
| `Numbers.FormatDecimal` | main.go:95 | `%d` produces a decimal literal in canonical form (no leading zero, no "-0") that starts with a minus sign exactly for negative numbers |
| `Numbers.ParseFormatDecimal` | main.go:95 | reading a `%d`-formatted integer back gives the same integer |
| `Numbers.FormatDecimalInjective` | main.go:95 | two ids with the same `%d` text are equal |
| `Priority.DecodedPriority` | main.go:47-59 | a JSON string (even a numeric-looking one) or `null` gives 0; an integer in uint64 range gives that number modulo 2^64, itself when below 2^63; any other shape keeps the old value |
| `Priority.PriorityValue.UnmarshalJSON` | main.go:47-59 | the stored priority becomes the decode rule's result for the old value, and no error is returned in any case |
| `Priority.NumericStringGivesZero` | main.go:48-56 | the string "5" gives 0 while the number 5 gives 5: the string branch has precedence |
| `Priority.DecodeIgnoresCurrent` | main.go:48-57 | for strings, `null` and unsigned 64-bit integers the result does not depend on the old value |
| `Records.Contains` | main.go:185-192 | returns true exactly when some element of the list equals the string |
| `Records.FilterByContent` | main.go:194-204 | the result is no longer than the input, and a record is in it exactly when it is in the input and its content is a candidate |
| `Records.FilterRecordsByTxtChallenge` | main.go:194-204 | the loop that appends each record whose content `Contains` finds among the candidates returns exactly `FilterByContent` of its inputs |
| `Records.FilterConcat` | main.go:198-203 | filtering a concatenation filters each part and concatenates the results |
| `Records.FilterIsSubsequence` | main.go:198-203 | the filtered records are a subsequence of the input, in input order |
| `Records.FilterCounts` | main.go:198-203 | each matching record occurs in the result as often as in the input; a non-matching record does not occur |
| `Records.FilterEmptyIffNoMatch` | main.go:196-203 | the result is the empty list (not a failure) exactly when no record's content is a candidate |
| `Records.FilterHeadIsFirstMatch` | main.go:82-95 | the first filtered record is the earliest input record whose content is a candidate |
| `Provider.ListRequest` | main.go:156-165 | a GET to `https://pddimp.yandex.ru/api2/admin/dns/list` carrying the token header and the single parameter `domain` |
| `Provider.AddRequest` | main.go:119-132 | a POST to `https://pddimp.yandex.ru/api2/admin/dns/add` carrying the token header and exactly the parameters domain, type `TXT`, content = token, ttl `3600`, subdomain `_acme-challenge.` + domain, in that order |
| `Provider.DelRequest` | main.go:86-96 | a POST to `https://pddimp.yandex.ru/api2/admin/dns/del` with exactly the parameters `domain` and `record_id`; `record_id` is a decimal literal that reads back as the record id |
| `Provider.DelRequestInjective` | main.go:93-95 | delete requests for one domain are equal exactly when their record ids are equal |
| `Provider.Message` | main.go:84 | the text an error reports: the not-found text is "Acme dns record with content " + token + " - not found"; every other error passes its message on unchanged; `Workflow.Hook` uses it for the text a clean without a match aborts with |
| `Provider.NotFoundMessageInjective` | main.go:84 | different tokens give different not-found texts, so the text identifies the token |
| `Provider.EnvelopeStatus` | main.go:112-114 | the envelope is a failure exactly when `Success` is the string `"error"`, and then the error is the provider error carrying `Error` |
| `Provider.EnvelopeStatusExactMatch` | main.go:148-150 | `"ok"`, `""` and `"ERROR"` all count as success; only `"error"` fails |
| `Provider.ListRecords` | main.go:155-183 | a decoded listing always succeeds with its records; no response is a transport error and an undecodable body a decode error |
| `Provider.ListIgnoresDiscriminator` | main.go:175-182 | a listing's result does not depend on its `Success` and `Error` fields |
| `Workflow.CreateAcmeRecord` | main.go:118-153 | sends exactly the add request; succeeds exactly when the envelope decodes and is not `"error"`, then returning the one-element list of the provider's record; otherwise returns the transport, decode or provider error |
| `Workflow.DeleteOutcome` | main.go:98-116 | the delete succeeds exactly when the envelope decodes and is not `"error"`; otherwise returns the transport, decode or provider error |
| `Workflow.DeleteAcmeRecord` | main.go:76-117 | always lists first; a failed listing panics with nothing else sent; a delete is sent exactly when a listed record's content is the token, and it names the record id of the first such record; "not found" is returned exactly when no listed record carries the token |
| `Workflow.Hook` | main.go:206-253 | an empty token sends nothing and exits with status 1; an unknown stage sends nothing and completes normally; deploy sends exactly the requests of `CreateAcmeRecord` (the one add request) and prints the created record, or aborts with that call's error; clean sends exactly the requests of `DeleteAcmeRecord` (the list request, then at most the delete, never an add) and completes only when a match was deleted, otherwise aborts with that call's error; a clean with no matching record aborts with "not found" and a text naming the token; every request carries the token |
| `Workflow.CleanDeletesOnlyAMatch` | main.go:82-95 | a delete sent by clean names, by record id, the first listed record whose content is the token |
| `Workflow.CleanAfterListErrorReportsNotFound` | main.go:78-85 | an empty listing marked `"error"` makes clean return "not found" after sending only the list request |
| `Workflow.CleanPicksMatchingRecord` | main.go:76-117 | with records 1 ("abc") and 2 ("xyz") listed, cleaning "xyz" sends the list request and then the delete for record id 2 |

## Left out

- HTTP: building the request objects, `client.Do`, the base URL's query, and
  reading and closing bodies. Each call is an abstract `Reply`. The error
  from `ioutil.ReadAll` is ignored by the code; a truncated body therefore
  shows up in the model as an `Unparsable` or `Envelope` reply.
- Byte-level JSON decoding by `encoding/json`, including how response fields
  are matched to struct fields. The priority decoder sees a `RawValue` that
  keeps only the distinctions that decoding into a Go string and into a Go
  `uint64` makes. The literal `-0` belongs to `JOther`, because a `uint64`
  refuses it.
- `values.Encode()`, which emits the parameters sorted by name. The model
  keeps them in the order they are added, and `Get` reads them the way
  `url.Values.Get` does.
- Reading `PDD_TOKEN` and `os.Args`. They are parameters of `Hook`; an
  unset variable is the empty string. The index panic when fewer than four
  arguments are given is not modelled.
- `os.Exit`, and the stack dump and exit status of a panic. The process end
  is the `Exit` value: normal completion, `Aborted`, or `CredentialMissing`.
- `PrintRecords` and all console output. `Completed` carries the records a
  deploy would print.
- Go's distinction between a nil slice and an empty one; both are `[]`.
