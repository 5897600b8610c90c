# Query records client: gateway and presentation component

This project models the core of a browser client that sends free-text queries to a
language-model proxy and keeps the resulting query records. Each record has an id,
the query, the response, a timestamp and an optional status `'A'` (active) or `'I'`
(inactive). The client lists the records in a searchable table and soft-deletes or
restores them. Two parts are modelled:

- **The record gateway** (`QueryRecordService`, module `QueryRecordService`, file
  `service.dfy`) is pure. For each operation it states the request it sends
  (verb, URL and body). It also states how a reply is post-processed:
  - normalization of the status;
  - the `'A'` filter of the active list;
  - the `null` answer for an inactive record.

  `handleError` turns every failure into one error message. It checks, in order:
  a client-side `ErrorEvent`, status 0, 404, 500, and finally everything else.
- **The presentation component** (`QueryRecordsComponent`, module `QueryRecords`,
  file `component.dfy`) is a class whose methods update its fields as the source's
  `next`, `error` and `complete` callbacks do. For a one-shot HTTP observable, a
  successful call runs `next` and then `complete`. A failed call runs only
  `error`, so `isLoading` stays set after a failure. The response-content extractor
  and the table's search predicate are pure functions beside the class.

Supporting modules:

- `Wrappers` holds `Option` and `Result`.
- `Strings` holds the JavaScript string operations the client uses:
  - `trim`;
  - `toLowerCase` on ASCII;
  - `includes`;
  - the decimal rendering of a status inside a template literal.
- `Json` holds the values `JSON.parse` yields. It also holds the JavaScript meaning
  of a property chain: reading from `null` or `undefined` throws, and reading a
  missing property gives `undefined`.
- `Query` holds the record and the order-preserving status filter.

The network is a parameter, not modelled. Every gateway operation takes the reply
to its request: `Reply(value)`, or `Fail(failure)`. A failure carries the
`ErrorEvent` message if there is one, the HTTP status if there is one, and the
error's message. An rxjs timeout arrives as a failure with neither of the first
two, so it falls into the generic server-error branch (`TimeoutIsGenericServerError`).
`JSON.parse` is the component's constant `jsonParse`: it gives `None` when parsing
fails, and the parsed value otherwise.

Two behaviours of the code are worth knowing, and the model keeps both:

- `isLoading` is cleared only in `complete`, which does not run after an error.
  So `isLoading` stays `true` after a failed load, query or store (`LoadSettled`,
  `ExecuteQueryAndClear`, `ExecuteQueryAndStoreAndClear`).
- A load fetches the active-only list for every filter other than `'all'`. So
  under filter `'I'` a successful load always shows an empty table
  (`LoadInactiveIsAlwaysEmpty`).

## Model

| member | source | states |
|---|---|---|
| Query.WithStatus | src/app/services/query-record.service.ts:73-76 | the filtered list holds exactly the records with the status, each as many times as in the input, in the input's order |
| Query.WithStatusKeepsMatching | src/app/components/query-records/query-records.component.ts:84-86 | filtering a list whose records all have the status returns the list unchanged |
| Query.WithStatusDisjoint | src/app/components/query-records/query-records.component.ts:84-86 | filtering by one status and then by a different one leaves nothing |
| QueryRecordService.Classify | src/app/services/query-record.service.ts:28-40 | the category is chosen by the first check that holds: a client event beats any status, then status 0, 404, 500, and otherwise the generic category carrying the status and message |
| QueryRecordService.HandleError | src/app/services/query-record.service.ts:25-45 | every failure becomes an error, never a value, and the error's message is the text of the failure's category |
| QueryRecordService.DescribeRevealsCategory | src/app/services/query-record.service.ts:28-40 | the category can be read back from the message text, so the five categories give distinguishable messages |
| QueryRecordService.ClientMessageCategory | src/app/services/query-record.service.ts:30 | a client-side message is recognized by its `Error del cliente: ` prefix, whatever the event's text |
| QueryRecordService.FixedMessageCategories | src/app/services/query-record.service.ts:31-37 | the connection, not-found and internal-error messages are each recognized as their own category |
| QueryRecordService.ServerMessageCategory | src/app/services/query-record.service.ts:39 | a generic server message is recognized by its `Error del servidor: ` prefix and is never mistaken for a client message |
| QueryRecordService.ServerPrefixCategory | src/app/services/query-record.service.ts:39 | any text after the `Error del servidor: ` prefix is read as a generic server message |
| QueryRecordService.TimeoutIsGenericServerError | src/app/services/query-record.service.ts:38-40 | a timeout, which has no event and no status, is classified as a generic server error and reads `Error del servidor: undefined, mensaje: Timeout has occurred` |
| QueryRecordService.ProcessQueryRecord | src/app/services/query-record.service.ts:142-148 | the result always has a non-empty status; id, query, response and timestamp are kept; a present non-empty status is kept, and a missing or empty one becomes `'A'` |
| QueryRecordService.ProcessIdempotent | src/app/services/query-record.service.ts:142-148 | normalizing a record twice gives the same record as normalizing it once |
| QueryRecordService.NormalizeAll | src/app/services/query-record.service.ts:123 | mapping normalization over a list keeps its length; every element is normalized and keeps the id, query, response and timestamp of the input at its index; an element that was already normalized is unchanged, and one with a missing or empty status gets `'A'` |
| QueryRecordService.NormalizeAllIdempotent | src/app/services/query-record.service.ts:123 | normalizing a list twice gives the same list as normalizing it once |
| QueryRecordService.ExecuteQuery | src/app/services/query-record.service.ts:48-56 | the query is POSTed as plain text to `/groq/query`; a reply's text is emitted unchanged, and a failure becomes the handled error |
| QueryRecordService.ExecuteQueryAndStore | src/app/services/query-record.service.ts:59-67 | the query is POSTed to `/groq/query-and-store`; the call succeeds exactly when a reply arrives, and then emits exactly the normalized stored record; a failure becomes the handled error |
| QueryRecordService.GetAllQueryRecords | src/app/services/query-record.service.ts:70-79 | GET `/query-records`; on a reply, every emitted record has status `'A'`, a record is emitted exactly when it is a normalized input record with status `'A'`, as many times as it occurs in the normalized input, and the output keeps the input's order; a failure becomes the handled error |
| QueryRecordService.GetAllQueryRecordsIncludingInactive | src/app/services/query-record.service.ts:120-126 | GET `/query-records/all`; on a reply, the output has the input's length and order, and each element is the normalized input record, with no status filtering |
| QueryRecordService.GetQueryRecordById | src/app/services/query-record.service.ts:82-91 | GET `/query-records/{id}`; on a reply, the normalized record is emitted exactly when its status is `'A'`, and `null` otherwise |
| QueryRecordService.SoftDeleteQueryRecord | src/app/services/query-record.service.ts:94-104 | PATCH `/query-records/{id}/status` with body `{status: 'I'}`; a reply is emitted normalized, and a failure becomes the handled error |
| QueryRecordService.RestoreQueryRecord | src/app/services/query-record.service.ts:107-117 | PATCH `/query-records/{id}/status` with body `{status: 'A'}`; a reply is emitted normalized, and a failure becomes the handled error |
| QueryRecordService.ToggleStatus | src/app/services/query-record.service.ts:129-139 | PATCH `/query-records/{id}/status` with body `{status: newStatus}`; a reply is emitted normalized, and a failure becomes the handled error |
| QueryRecordService.StatusUpdatesDifferOnlyInBody | src/app/services/query-record.service.ts:94-139 | `toggleStatus(id, 'I')` is soft-delete and `toggleStatus(id, 'A')` is restore; soft-delete and restore send the same verb to the same URL, and treat the reply alike, differing only in the status body |
| QueryRecordService.CheckServerConnection | src/app/services/query-record.service.ts:151-160 | GET `/health-check`; any reply gives `true`, and every failure gives the one error `Error de conexión con el servidor` |
| Strings.TrimStartSpec | src/app/components/query-records/query-records.component.ts:193 | trimming the start drops exactly the leading whitespace: the result is a suffix of the input that does not start with whitespace, and every dropped character is whitespace |
| Strings.TrimEndSpec | src/app/components/query-records/query-records.component.ts:193 | trimming the end drops exactly the trailing whitespace: the result is a prefix of the input that does not end with whitespace, and every dropped character is whitespace |
| Strings.Trim | src/app/components/query-records/query-records.component.ts:193 | the trimmed text occurs in the input at some offset; everything before and after it is whitespace, and it neither starts nor ends with whitespace; so exactly the leading and trailing whitespace is dropped |
| Strings.IsBlank | src/app/components/query-records/query-records.component.ts:103 | `!s.trim()` holds exactly when every character of `s` is whitespace |
| Strings.TrimEmptyIffAllWhitespace | src/app/components/query-records/query-records.component.ts:128 | trimming leaves nothing exactly when every character is whitespace |
| Strings.TrimUpper | src/app/components/query-records/query-records.component.ts:193 | changing the case of letters commutes with trimming |
| Strings.LowerOfUpper | src/app/components/query-records/query-records.component.ts:193 | lower-casing forgets how the input was cased |
| Strings.LowerIdempotent | src/app/components/query-records/query-records.component.ts:47-48 | lower-casing a lower-cased text changes nothing |
| Strings.ContainsIffOccurs | src/app/components/query-records/query-records.component.ts:47-48 | `includes` holds exactly when the needle occurs at some offset of the haystack |
| Strings.ContainsEmpty | src/app/components/query-records/query-records.component.ts:47-48 | the empty filter is included in every text |
| Strings.NatToString | src/app/services/query-record.service.ts:39 | a number renders as a non-empty string of decimal digits with no leading zero |
| Strings.NatToStringValue | src/app/services/query-record.service.ts:39 | reading the rendered digits back gives the number |
| Strings.IntToString | src/app/services/query-record.service.ts:39 | an integer renders as a non-empty string that starts with `-` exactly when the integer is negative; the digits are the magnitude's decimal rendering and read back to it |
| Json.Lookup | src/app/components/query-records/query-records.component.ts:63 | a property read throws exactly on `null`; on an object, it finds a value exactly when the key is a member |
| QueryRecords.ExtractContent | src/app/components/query-records/query-records.component.ts:60-68 | the extractor never fails. An unparsable payload, or one where `choices[0].message` is missing or `null`, comes back unchanged. When the message exists, a truthy string `content` is returned, and a falsy or missing one gives `''` |
| QueryRecords.ForDisplay | src/app/components/query-records/query-records.component.ts:138-142 | the displayed record has the stored record's response passed through the extractor; id, query, timestamp and status are kept |
| QueryRecords.ExtractAll | src/app/components/query-records/query-records.component.ts:78-82 | the displayed list has the input's length, and each element is the input record at its index with only its response extracted |
| QueryRecords.Fetch | src/app/components/query-records/query-records.component.ts:72-74 | `'all'` sends GET `/query-records/all` and keeps the server's length; each element is the normalized server record at its index; every other filter sends GET `/query-records` and gets exactly the result of the active-records call, so only `'A'` records; the call fails exactly when the reply is a failure |
| QueryRecords.ExtractsChatCompletion | src/app/components/query-records/query-records.component.ts:60-68 | a chat-completion payload `{"choices":[{"message":{"content": c}}]}` yields `c` |
| QueryRecords.Loaded | src/app/components/query-records/query-records.component.ts:76-89 | a load fails exactly when the gateway call fails, and then carries the handled error. Every loaded record is normalized. Under `'A'` or `'I'` every loaded record has that status. Under `'all'` the list has the server's length and order, each record normalized and with its response extracted |
| QueryRecords.ExtractAllKeepsStatus | src/app/components/query-records/query-records.component.ts:78-82 | extracting the responses keeps every record's status |
| QueryRecords.LoadInactiveIsAlwaysEmpty | src/app/components/query-records/query-records.component.ts:72-86 | under filter `'I'` a successful load always gives the empty list, because the active-only call is used |
| QueryRecords.LoadActiveFiltersOnce | src/app/components/query-records/query-records.component.ts:72-86 | under filter `'A'` the component's own status filter removes nothing: the load is the gateway's active list with responses extracted |
| QueryRecords.Matches | src/app/components/query-records/query-records.component.ts:46-49 | a record matches exactly when the filter occurs at some offset of its lower-cased query or of its lower-cased response |
| QueryRecords.SearchKey | src/app/components/query-records/query-records.component.ts:193 | the installed filter is already lower-case, and it is empty exactly when the input is blank |
| QueryRecords.Search | src/app/components/query-records/query-records.component.ts:46-49 | a record is shown exactly when it is in the data and matches the filter, as many times as it occurs in the data; the shown rows keep the data's order |
| QueryRecords.SearchEmptyShowsAll | src/app/components/query-records/query-records.component.ts:46-49 | the empty filter shows every record, in order |
| QueryRecords.SearchKeyIgnoresCase | src/app/components/query-records/query-records.component.ts:193 | the installed filter does not depend on how the user cased the search text |
| QueryRecords.MatchesIgnoresRecordCase | src/app/components/query-records/query-records.component.ts:46-49 | whether a record matches does not depend on how its query and response are cased |
| QueryRecords.TableDataSource.constructor | src/app/components/query-records/query-records.component.ts:34 | the table starts with the given rows, an empty filter, no paginator and page 0 |
| QueryRecords.QueryRecordsComponent.constructor | src/app/components/query-records/query-records.component.ts:16-35 | the fields start empty, `isLoading` is false, the status filter is `'A'`, and the table shows the empty working set |
| QueryRecords.QueryRecordsComponent.NgAfterViewInit | src/app/components/query-records/query-records.component.ts:41-50 | the table's paginator is attached exactly when the view has one |
| QueryRecords.QueryRecordsComponent.LoadRecords | src/app/components/query-records/query-records.component.ts:70-100 | the request is the one the status filter selects. On success, the working set and the table become the loaded records and `isLoading` is cleared. On failure, the records stay as they were, the error message gets the load-error prefix, and `isLoading` stays set. The table always shows the working set, all normalized |
| QueryRecords.QueryRecordsComponent.ExecuteQueryAndClear | src/app/components/query-records/query-records.component.ts:102-125 | a blank query sends nothing and changes no field. Otherwise the query is sent once. Success shows the extracted answer, clears the input and `isLoading`, and leaves the error empty. Failure keeps the input and the last result, sets the prefixed error, and leaves `isLoading` set. The records are never touched |
| QueryRecords.QueryRecordsComponent.ExecuteQueryAndStoreAndClear | src/app/components/query-records/query-records.component.ts:127-158 | a blank query sends nothing and changes no field. On success, the working set becomes the stored record, with its response extracted, in front of the old set; the table shows it and the input is cleared. On failure, the records and the input are kept, the prefixed error is set, and `isLoading` stays set |
| QueryRecords.QueryRecordsComponent.ToggleStatus | src/app/components/query-records/query-records.component.ts:160-179 | soft-delete is sent for a record whose status is `'A'`, and restore for any other. Success is followed by a full reload that settles as `LoadRecords` does. Failure sends nothing more and changes no field |
| QueryRecords.QueryRecordsComponent.ApplyFilter | src/app/components/query-records/query-records.component.ts:191-198 | the table's filter becomes the trimmed, lower-cased input. The page returns to 0 when a paginator is attached. A blank input shows the whole working set |

## Left out

- HTTP transport, headers, `responseType` and the `HttpClient` itself are not modelled: each call is a request value plus a reply parameter.
- The rxjs `timeout` timers and their 30-second and 5-second durations are not modelled. A late reply is a failure with neither an event nor a status.
- Snackbar notifications, `MatDialog`, `console` logging and `viewDetails` are not modelled; they are user-interface and logging side effects.
- `Date` construction, `formatDate` and `toLocaleString` are not modelled. The timestamp is an opaque integer that every operation carries unchanged.
- Sorting and pagination belong to `MatSort`, `MatPaginator` and `MatTableDataSource`, library code outside this client. Only the reset to the first page is modelled, as a page index set to 0.
- The table's default `filterPredicate`, in force before `ngAfterViewInit` installs the custom one, is library code; `Visible` always uses the custom predicate.
- `ngOnInit` and `updateStatusFilter` only call `loadRecords`; that call is modelled as `LoadRecords`.
- The internals of `JSON.parse` are not modelled: the parser is the component's constant `jsonParse`.
- Strings.ToLower: lower-cases ASCII letters only, not the full Unicode case mapping of `toLowerCase`.
- QueryRecords.ExtractContent: when `content` is truthy but not a string (a number, array or object), the source returns that value, which is not a string. The model returns the raw response instead, because the extractor's result is a string here.
- QueryRecordService.HandleError: the initial message `Ocurrió un error en la solicitud` is always overwritten by one of the five branches, so it never appears.
- A record's `status` that the server sends as a value other than `'A'`, `'I'` or empty is kept as it is, as the source does; record ids are not checked for uniqueness, since the client does not check them either.
- A reply with an empty body (for example a 204 answer), which `HttpClient` delivers as `null`, is not a separate case. A `Reply` always carries a well-formed record or list. In the source, `processQueryRecord` or `records.map` then fails inside the pipe with a TypeError, and `catchError` turns it into the generic server message. The model can only express this as `Fail(HttpFailure(None, None, message))`. So the `Reply` cases of `GetQueryRecordById`, `SoftDeleteQueryRecord`, `RestoreQueryRecord`, `ToggleStatus`, `ExecuteQueryAndStore`, `GetAllQueryRecords` and `GetAllQueryRecordsIncludingInactive` say nothing about a `null` body. For the same reason, a PATCH answered with an empty body follows the component's toggle failure path, with no reload.
- Concurrent overlapping loads, where the last one to complete wins, are not modelled: each method call settles its one request before returning.
- src/app/model/query.ts is not part of this model; the record's fields are taken from their uses in `query-record.service.ts` and `query-records.component.ts`.
