# Google Sheets Manager: a Dafny model of its core

The application lets users append records to a worksheet of a hosted
spreadsheet through a form. Around its user interface sits a small body of
logic, and this project models and verifies that logic:

- **credential resolution**: a service-account bundle is built from a secrets store or from the environment. The private key's escaped newlines are normalised.
- **service construction**: the client library is an oracle that either builds a client or raises.
- **schema inspection**: the worksheets of a spreadsheet become descriptors, and row 1 of a worksheet becomes the header list.
- **row projection**: a record keyed by column name becomes a row aligned to the headers.
- **record assembly** in the department form: one field per header, an optional JSON object merged over the fields, empty entries dropped, and no submission when nothing is left.
- **the append pipeline**: it runs against a worksheet object whose rows a successful append extends by exactly one row.
- **worksheet creation** and the session's worksheet inventory, modelled as a small state machine.

Every remote call is a parameter holding its reply: either an exception with a cause, or the reply's payload. The modules follow the components:
`Common` (Option, error tags, the `(value, error)` pair), `Credentials`,
`SheetsService`, `Schema`, `Projection`, `Record`, `Append` (the `Worksheet`
class), `Form` (the submit path of the department form) and `Inventory`.

The model follows the code as written, including these behaviours that contradict the code's own comments or are easy to miss:

- A readable secrets store without the account-email key gives an error straight away. The environment is not consulted, although the comment at app.py:36 says otherwise.
- A secrets store that has the email but lacks `GOOGLE_PRIVATE_KEY` raises a lookup error, which is caught, so resolution falls through to the environment.
- In the environment branch only the email is mandatory. A missing private key becomes `""`.
- A header reply whose `values` list is present but empty raises an index error and is reported as a failure. An absent `values` key gives `[]` with no error.
- When a worksheet is created and the refresh that follows fails, the stored inventory is replaced by `[]`; it is not kept.
- With duplicate headers, the dictionary assignments of the field loop let the last value win, and projection gives every column with that header the same cell. The form itself would not get that far: see the line on duplicate headers under "## Left out".

## Model

| member | source | states |
|---|---|---|
| Credentials.Unescape | app.py:24 | the normalised key contains no backslash-`n` pair and is no longer than the raw key (a clause about the first character is only an aid to that proof) |
| Credentials.UnescapeFixesClean | app.py:24 | a key without a backslash-`n` pair is left unchanged |
| Credentials.UnescapeIdempotent | app.py:43 | normalising a key twice gives the same key as normalising it once |
| Credentials.UnescapeEscapeRoundTrip | app.py:24 | a key whose newlines were stored as backslash-`n` is read back unchanged, provided it had no backslash-`n` pair of its own |
| Credentials.ClientCertUrl | app.py:30 | the certificate URL is the fixed prefix followed by the account email |
| Credentials.ClientCertUrlInjective | app.py:49 | two accounts with the same certificate URL have the same email |
| Credentials.MakeBundle | app.py:20-31 | a bundle carries the given email and optional fields, the normalised key (with no backslash-`n` pair), the fixed type and endpoints, and the templated certificate URL |
| Credentials.FromEnvironment | app.py:37-55 | the environment gives a bundle exactly when there is no error; a non-empty email gives a bundle with that email, the normalised environment key, `""` for each absent optional field, the fixed type and endpoints and the templated certificate URL; an absent or empty email gives the environment-missing error; an unreadable environment gives the read error with its cause |
| Credentials.ResolveCredentials | app.py:15-55 | the result is exactly one of a bundle or an error; every bundle has a key with no backslash-`n` pair and a certificate URL equal to prefix plus email |
| Credentials.SecretsTakePrecedence | app.py:17-32 | a readable store with the email and the key gives the same result whatever the environment holds, and that result is the secrets bundle: every field of the dictionary literal, with the fixed type and endpoints |
| Credentials.MissingSecretEmailFails | app.py:33-34 | a readable store without the email key fails with the secrets-missing error, whatever the environment holds |
| Credentials.EnvironmentOnlyAfterRaise | app.py:35-37 | if two environments give different results, the secrets branch raised |
| Credentials.EnvironmentFallback | app.py:35-53 | after the secrets branch raised, a bundle comes back exactly when the environment email is non-empty, carrying that email, the normalised key and the optional fields with `""` defaults; otherwise the environment-missing error; an unreadable environment gives the read error; in every case the result is exactly what the environment branch alone gives, with its fixed type and endpoints |
| SheetsService.GetGoogleService | app.py:57-76 | the result is exactly one of a client or an error; credential errors pass through unchanged; a library that raises gives the build error with its cause; the no-credentials branch is never taken; a client holds the resolved bundle and the spreadsheets scope |
| SheetsService.ServiceAvailability | app.py:59-74 | a client is built exactly when credentials resolve and the library accepts the bundle |
| Schema.DescribeDefaults | app.py:89-95 | a missing properties object gives `Unknown`/0/0, and each missing title, id or index defaults on its own |
| Schema.SheetListing | app.py:78-99 | on success, one descriptor per metadata entry, in order; a missing `sheets` key gives `[]`; a service error is passed through; a raised request gives the list error; every error comes with `[]` |
| Schema.GetAvailableSheets | app.py:85-97 | the loop that appends one descriptor per entry returns exactly the listing above |
| Schema.GetSheetHeaders | app.py:101-117 | success exactly when the service is built and the reply has no `values` key or a non-empty `values` list; then the result is `[]` or the first row; a service error passes through; a raised request gives the header error with its cause, and an empty `values` list the header error with the index-error message; every error comes with `[]` |
| Projection.Project | app.py:137 | the row has one cell per header, and cell `i` is the record's value for header `i`, or `""` when the key is absent |
| Projection.DuplicateHeadersShareCell | app.py:137 | two columns with the same header get the same cell |
| Projection.ProjectAgreesOnHeaders | app.py:137 | records that agree on the header keys project to the same row |
| Projection.OtherKeysDropped | app.py:137 | adding, changing or removing a key that is not a header leaves the row unchanged |
| Projection.ProjectRestricted | app.py:137 | restricting the record to the header keys leaves the row unchanged |
| Projection.ProjectConcat | app.py:137 | projecting onto concatenated header lists concatenates the rows |
| Projection.ProjectExamples | app.py:137 | a missing field becomes an empty cell; an extra field is dropped |
| Record.FieldsOf | app.py:263-279 | the form map has exactly the headers as keys |
| Record.FieldsOfLastWins | app.py:268-279 | a header that does not occur again later maps to the value typed into its own field |
| Record.CollectFields | app.py:263-279 | the field loop builds exactly the form map above |
| Record.MergeJson | app.py:290-296 | a parsed object's keys map to its values, form keys it lacks keep their form values, and the keys are the union; blank or malformed JSON leaves the form map unchanged |
| Record.DropEmpty | app.py:304 | the filtered record is exactly the submap of entries with non-empty values |
| Record.DropEmptyLookup | app.py:304 | a lookup with `""` as the default gives the same value before and after filtering |
| Record.DropEmptyKeepsRow | app.py:304 | the filtered and unfiltered records project to the same row |
| Record.DropEmptyIdempotent | app.py:304 | filtering twice is the same as filtering once |
| Record.DropEmptyIsEmpty | app.py:304-308 | the filtered record is empty exactly when every entry was blank |
| Record.FormRowRoundTrip | app.py:263-304 | with distinct headers and no JSON, the filtered form record projects back to exactly the typed values |
| Record.JsonOverridesFields | app.py:263-304 | with distinct headers, each cell holds the JSON value when the object has that header, and the typed value otherwise |
| Record.MergeExample | app.py:294 | JSON keys replace form keys and add new ones |
| Append.PlanAppend | app.py:121-137 | the pipeline goes on to send a row exactly when the headers were fetched and are non-empty; a service error, a header error or an empty header row each give their own error; the row sent has one cell per header with the record's value or `""` |
| Append.NoAppendWithoutHeaders | app.py:133-134 | an empty header row stops the pipeline before any append request, whatever the record |
| Append.Worksheet.AddRow | app.py:119-151 | a rejected plan sends no request and leaves the rows unchanged; otherwise exactly one request is sent with range `<title>!A:Z`, `RAW` and `INSERT_ROWS`; an accepted request makes the rows `old + [projected row]` and returns its updates (empty when absent); a raised one leaves the rows unchanged and returns the append error |
| Form.SubmittedRecord | app.py:263-304 | every submitted value is non-empty, and every submitted key is a header or a JSON key |
| Form.DepartmentForm | app.py:239-320 | a header error, an empty header row or an empty filtered record each end the form with the worksheet untouched; fetched, non-empty headers with a non-empty filtered record always reach the append pipeline, with the effect stated for `AddRow` |
| Form.SentRowIsTyped | app.py:263-311 | with distinct, fetched, non-empty headers and no JSON, the row sent is exactly the typed values |
| Inventory.CreateNewSheet | app.py:153-179 | creation succeeds exactly when the service is built and the batch update returns; its result is passed back; service and request errors are reported separately |
| Inventory.SessionInventory.CheckConnection | app.py:198-207 | a failed check keeps the stored list, which a later pass offers again, and offers nothing this time; a successful one stores the fresh listing and offers it |
| Inventory.SessionInventory.LoadIfMissing | app.py:210-215 | a stored list is kept and still offered; with none stored, the listing is stored and offered, which is `[]` if the listing fails |
| Inventory.SessionInventory.CreateSheet | app.py:221-235 | a blank name does nothing; a failed creation keeps the stored list; a successful one stores and offers the refresh's listing, which is `[]` when the refresh fails |

## Left out

- The Streamlit interface is not modelled: page setup, sidebar widgets, tabs, spinners, balloons, `st.rerun`, and the clear and preview buttons. The form's save button is assumed pressed.
- Duplicate headers in the form are not modelled as a failure. Each field's widget is labelled from its header alone, so two equal headers give two widgets with the same identity, which the interface library refuses. `Record.FieldsOf`'s last-wins rule describes only the dictionary assignments, not what the form would show.
- The choice of widget kind from a header's name (app.py:268-279) is not modelled. Each field's entered value is an input, and a date field's text is taken as given.
- `main` (app.py:330-365) is not modelled. Neither is the sidebar's spreadsheet-id default and its empty-id check (app.py:186-195): both are presentation.
- JSON parsing is not modelled. Its result is a flat object of strings, a parse failure, or blank text. Non-string values and non-object JSON are not modelled. Neither is the on-screen parse-error message; the form goes on as the code does.
- The client library is a deterministic oracle on the bundle. The two service constructions inside one append therefore always agree; the real library could fail on the second alone.
- The remote semantics of the `A:Z` window, `RAW` and `INSERT_ROWS` are not modelled; they are recorded only as fields of the request. The effect of an accepted append is modelled as "one row at the end", and the 26-column truncation is not modelled.
- The header reply is an oracle. It is not derived from the worksheet's stored row 1.
- The batch-update request body and its server-side effect are not modelled. The new worksheet shows up only through the refresh reply.
- Error messages are reduced to one tag per origin. The exception text is kept as the tag's cause.
- Secrets values are modelled as strings only. Reading the environment is modelled as something that may raise, to keep the handler at app.py:54-55.
