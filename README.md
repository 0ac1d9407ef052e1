# osquery-effigy: a verified model of the effigy table plugin

effigy is an osquery extension. It exposes one table, `effigy`. When the table is queried,
`generate` runs four osquery queries: `system_info`, `os_version`, `smc_keys` filtered on
`key = 'RVBF'`, and `platform_info`. From their answers it builds an `effigyRequest` with
nine fields: five come from the query rows, and four are fixed placeholder literals.
`generate` then posts that request as JSON to `https://api.efigy.io/apple/oneshot` and
reads back an `effigyResponse` of three advisory messages. From the request and the
response it builds one nine-column row. Each status column in that row is `"success"`.

The model is in five modules:

- `Errors` (errors.dfy): Go `error` values. There are three kinds: opaque errors from
  collaborators, `errors.Wrap` and `fmt.Errorf`. `Message` gives the text `Error()`
  returns, and `Cause` gives the innermost error.
- `Request` (request.dfy): `effigyRequest` and `buildRequest`. Here
  `ExtensionManagerClient.QueryRow` is an oracle, `QueryRow = string -> Result<Facts>`.
  A missing column reads as `""`, the same as a Go map lookup. This module also holds the
  JSON encoding of the request as its tagged key/value pairs.
- `Api` (api.dfy): `callAPI`, as a method. The HTTP client is a class. Its server exchange
  is an oracle, and a ghost `sent` log records every `Post`. `os.Stderr` is a class whose
  ghost `written` record grows with each copy. `Interpret` and `Diagnostic` are the
  functions that specify the method's result and its stderr output.
- `Effigy` (table.dfy): the column list, the row literal and `generate`. `Generated`
  specifies what `generate` returns. The `Generate` method runs the steps in order and
  is proved against `Generated`, against what it posts and against what it logs.
- `Scenarios` (scenarios.dfy): concrete runs. One is a machine whose facts are all present
  and a healthy service. The other is the same machine and a service that answers 503.
  A client method calls `Generate` twice and asserts that both calls give the same row.

Behaviour kept exactly as the code has it:

- `efi_version` in the row is the request's `ROMVersion`. That value is platform_info's
  `version`, not the SMC `RVBF` value, although the column is named efi_version.
- A `platform_info` failure is wrapped with the text "query smc_keys table". That is the
  same text the `smc_keys` failure uses.
- On a 200 reply, a body that does not decode is not an error. The check after `Decode`
  tests `err`, and `err` still holds the nil result of `Post`. So `callAPI` succeeds with
  whatever the decoder left in the response: zero, partly filled or fully filled. The
  error Decode returns is never tested. The model proves this leniency
  (`Api.MalformedReplyAccepted`).

## Model

| member | source | states |
|---|---|---|
| `Errors.Message` | main.go:125-142 | a wrapped error's text starts with its wrap message and ": ", and every error's text ends with the text of its innermost cause |
| `Request.FirstFailure` | main.go:125-142 | reference for the stopping point: the index it returns is a query, in the issuing order, whose answer is an error while every earlier query answered; no index means every query answered |
| `Request.BuildRequest` | main.go:124-156 | succeeds exactly when all four queries answer; on success the four placeholder fields hold their literals; on failure the error is a wrap whose message is one of the four query contexts |
| `Request.BuildRequestFields` | main.go:144-149 | build_num and os_ver come from os_version's `build` and `version`, smc_ver from smc_keys' `value`, hw_ver from system_info's `hardware_model`, rom_ver from platform_info's `version`; a missing column gives "" |
| `Request.BuildRequestStopsAtFirstFailure` | main.go:125-142 | the build fails exactly when some query fails, and the error is the first failing query's own error, wrapped with that query's context |
| `Request.BuildRequestIgnoresLaterQueries` | main.go:125-142 | the answers to queries after the first failing one do not change the result |
| `Request.BuildRequestErrorText` | main.go:125-142 | for the first failing query, a build error's text starts with that query's context and ends with the text of the error osquery returned for it |
| `Request.EncodeRequest` | main.go:102-112 | the encoded request has nine pairs whose keys are the struct tags board_id … hashed_uuid, in field order |
| `Request.EncodeRequestLossless` | main.go:102-112 | reading each tag back from the encoded request recovers every field |
| `Api.PostFor` | main.go:158-165 | the one post goes to the advisory URL with content type application/json, and its body decodes back to the request |
| `Api.StatusError` | main.go:173 | the status error is a formatted error whose text quotes the reply's status line |
| `Api.Interpret` | main.go:165-181 | callAPI succeeds exactly on a 200 reply, with the decoded response even when decoding failed; a transport error is returned unchanged; a non-200 error's text quotes the status line |
| `Api.Diagnostic` | main.go:171-174 | stderr receives bytes only for a non-200 reply, and then exactly the reply body |
| `Api.HttpClient.Post` | main.go:165 | a post returns the exchange's outcome and is recorded once in the client's log |
| `Api.DiagnosticStream.Write` | main.go:172 | copying to stderr appends the bytes to what was written before |
| `Api.CallAPI` | main.go:160-182 | posts exactly once, returns `Interpret` of the outcome and appends `Diagnostic` of the outcome to stderr |
| `Api.MalformedReplyAccepted` | main.go:176-181 | a 200 reply whose body fails to decode still gives a success with the partly filled response, and logs nothing |
| `Api.NonOkReplyNotDecoded` | main.go:171-174 | for a non-200 reply the result does not depend on what decoding the body would give, and the body goes to stderr |
| `Effigy.Table` | main.go:55-69 | the table is named "effigy" and has nine text columns with distinct names, in the fixed order latest_efi_version, efi_version, efi_version_status, latest_os_version, os_version, os_version_status, latest_build_number, build_number, build_number_status |
| `Effigy.TableColumnNames` | main.go:56-66 | the column names are exactly latest_efi_version, efi_version, efi_version_status, latest_os_version, os_version, os_version_status, latest_build_number, build_number, build_number_status |
| `Effigy.AssembleRow` | main.go:86-98 | the row has exactly those nine keys; efi_version, os_version and build_number are the request's ROMVersion, OSVersion and BuildNumber; the latest_* columns are the response messages; all three status columns are "success" |
| `Effigy.RowHasTableColumns` | main.go:55-98 | the row's keys are exactly the column names the table declares |
| `Effigy.Generated` | main.go:72-100 | success gives exactly one row; success holds exactly when the build and the API call both succeed; otherwise the error is buildRequest's or callAPI's, unchanged |
| `Effigy.GeneratedRowMatchesTable` | main.go:55-99 | a successful generate returns one row whose keys are exactly the column names the table declares |
| `Effigy.Generate` | main.go:72-100 | returns `Generated`; posts once when the request builds and never otherwise; appends the API call's diagnostic to stderr only when the request builds |
| `Effigy.FailedBuildSkipsApi` | main.go:74-77 | when a query fails, generate fails, posts nothing, logs nothing, and gives the same result for every transport |
| `Effigy.FailedStatusIsReported` | main.go:80-83 | a non-200 reply yields no rows, an error quoting the status line, and the body on stderr |
| `Effigy.SuccessRowContents` | main.go:86-99 | for a 200 reply generate returns exactly the assembled row, which holds platform_info's version, os_version's version and build, and the three decoded messages |
| `Scenarios.MacBookScenarioRequest` | main.go:144-154 | the example machine's request carries its five facts and the four placeholders |
| `Scenarios.HealthyScenario` | main.go:86-99 | the example machine and a healthy service give exactly the expected nine-column row, with efi_version "426.0.0.0.0", and nothing is logged |
| `Scenarios.UnavailableScenario` | main.go:171-174 | the example machine and a 503 service give an error whose text contains "503", and the reply body on stderr |

## Left out

- `main` (main.go:19-48): flag parsing, creating the extension server and client,
  registering the plugin and `server.Run`. This is process and I/O set-up.
- The osquery client itself: the socket, the timeout, and how `QueryRow` turns a query
  result into one row. `QueryRow` is an oracle.
- The real HTTP transport: `http.Client.Post` is an oracle inside `Api.HttpClient`, and
  `resp.Body.Close` (main.go:169) is not modelled.
- JSON at the byte level. The encoded request is its ordered list of tag/value pairs,
  not its text. The response decoder is an oracle that gives back the value it filled
  in and its error. The response's wire tags (main.go:114-122) are therefore not
  modelled.
- The encoding error branch (main.go:162-164). Encoding a struct of strings cannot fail,
  so `EncodeRequest` is total and the branch does not appear in `Api.CallAPI`.
- `io.Copy` to stderr can fail or write only part of the body. The model assumes the
  whole body is written, because the code ignores the copy's result.
- The `generate` callback that `table.NewPlugin` stores (main.go:68). `Effigy.Plugin`
  holds only the table name and its columns.
- `context.Context` and `table.QueryContext` (main.go:72). They are accepted but never
  read.
- Anything in the pkg/errors and fmt libraries beyond the `Error()` text and `Cause`,
  such as stack traces and formatting verbs other than `%s`.
