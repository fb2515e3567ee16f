# testkrle handlers, modelled in Dafny

testkrle is a small Go web application over a MySQL database. This project
models the request-handling core of its three files:

- `internal/handlers/handlers.go` holds the tax-rate listing handler (`NewHomeHandler`).
  - It reads the page number, the sort column and direction, and five filters from the query string.
  - It builds a parameterised `WHERE` clause and counts the matching rows.
  - It computes the pagination counters, then fetches one page of `sys_tax_rate` rows.
  - It renders them with `home.html`.
- `internal/handlers/handlers-mnp-gate.go` holds three handlers:
  - the JSON export of `mnp_gate_config` (`MnpGateHandler`), whose `config` column is parsed as JSON when possible;
  - the page listing that table (`MnpGatePageHandler`);
  - the page listing `mnp_gate` (`MnpGatesListHandler`).
  
  The two page handlers map nullable columns to zero values; the export writes them as `{"String", "Valid"}` and `{"Int64", "Valid"}` objects. Each handler either writes every row, in row order, or stops at the first error.
- `internal/templates/templates.go` defines the template helpers `add`, `sub` and `seq`.

The database is represented by its answers, which are inputs to the handler methods:
- the version string;
- the row count;
- for a row query, the outcome of each `rows.Scan` and the final `rows.Err`, or the error `db.Query` returned.

The listing handler also returns the SQL queries it issues, in order, each with its text and bound arguments. That makes the agreement between `?` placeholders and arguments a provable property.

Modules:

| file | module | models |
|---|---|---|
| wrappers.dfy | `Wrappers` | `Option` and `Result` |
| url_values.dfy | `UrlValues` | `url.Values`: `Get`, `Del`, `Encode` |
| strconv.dfy | `Strconv` | `strconv.Atoi` on 64-bit `int` |
| sql_rows.dfy | `SqlRows` | queries with arguments, placeholder counting, `strings.Join`, result sets and the `rows.Next`/`Scan`/`Err` loop, `sql.NullString`/`sql.NullInt64` reads |
| json_value.dfy | `JsonValue` | JSON values |
| responses.dfy | `Responses` | what a handler writes: a rendered template, a JSON body or `http.Error` |
| templates.dfy | `Templates` | `add`, `sub`, `seq` |
| listing.dfy | `Listing` | the tax-rate listing handler |
| mnp_gate.dfy | `MnpGate` | the three mnp_gate handlers |

Points where the code's behaviour is easy to misread, and which the model follows:
- A `sql.NullString` or `sql.NullInt64` field of `MnpGateConfig` is encoded by `encoding/json` as an object: `{"String": …, "Valid": …}` or `{"Int64": …, "Valid": …}`. A bare string or number is never written for these fields.
- When the export query returns no rows, the body is JSON `null`, not `[]`, because `results` is a nil slice (`MnpGate.ResultsJson`).
- A config text that is the JSON literal `null` unmarshals without error into a nil map. So no config is attached, and the raw text is not kept under `_raw` either (`MnpGate.AttachConfig`).
- Nothing in the code tests for a "missing table" error:
  - `MnpGatesListHandler` renders an empty list on any query error.
  - `MnpGatePageHandler` renders an empty page whenever the failed query returned a nil rows handle, and answers 500 otherwise. `database/sql` returns a nil handle with every error, so in practice that page is empty on any error too. The model keeps both branches, with the handle's nilness as an input.

## Model

| member | source | states |
|---|---|---|
| Strconv.Atoi | internal/handlers/handlers.go:59 | a parsed value lies in the 64-bit range; success needs a leading digit or sign and only digits after it; "", "+" and "-" fail |
| Strconv.AtoiRejectsNonDigit | internal/handlers/handlers.go:59 | any character other than a digit after the first position makes the parse fail |
| Strconv.AtoiOfDigits | internal/handlers/handlers.go:59 | every run of digits within the 64-bit range parses to the number it denotes |
| Strconv.AtoiOfPlusDigits | internal/handlers/handlers.go:59 | a leading `+` before such a run is accepted and changes nothing |
| Strconv.AtoiOfZeroPaddedDigits | internal/handlers/handlers.go:59 | leading zeros are accepted and do not change the value |
| Strconv.AtoiOfMinusDigits | internal/handlers/handlers.go:59 | `-` before a run of digits gives the negated value down to the 64-bit minimum, so "-007" is -7 |
| Strconv.AtoiOutOfRange | internal/handlers/handlers.go:59 | a run of digits beyond the 64-bit range fails, with or without a sign; the parse never saturates |
| Strconv.AtoiOfDecimal | internal/handlers/handlers.go:59 | the decimal form of every n up to the 64-bit maximum parses back to n |
| Strconv.AtoiOfNegativeDecimal | internal/handlers/handlers.go:59 | "-" followed by the decimal form of n parses to -n |
| UrlValues.Get | internal/handlers/handlers.go:69-70 | the value of the first parameter with the key, or "" when the key is absent |
| UrlValues.Del | internal/handlers/handlers.go:93-94 | removes exactly the parameters with the key and keeps every other one |
| UrlValues.ValuesOf | internal/handlers/handlers.go:95 | every value of a key, in order and with repeats; empty exactly when the key is absent |
| UrlValues.DelKeepsValueLists | internal/handlers/handlers.go:94-95 | deleting a key keeps the whole value list of every other key, in order and with repeats, and leaves none for the deleted key |
| UrlValues.DelKeepsOtherKeys | internal/handlers/handlers.go:94 | deleting one key leaves the value of every other key unchanged |
| UrlValues.DelRemovesKey | internal/handlers/handlers.go:94 | after deleting a key it is absent and reads as "" |
| UrlValues.Encode | internal/handlers/handlers.go:95 | the encoding is empty exactly when no parameter remains |
| SqlRows.Join | internal/handlers/handlers.go:133 | joining nothing gives "" and joining one part gives that part |
| SqlRows.JoinSnoc | internal/handlers/handlers.go:133 | joining one more part to a non-empty list appends the separator and then that part, so `sep` stands between every two neighbours |
| SqlRows.JoinPlaceholders | internal/handlers/handlers.go:133 | clauses with one `?` each, joined by a separator without `?`, hold one `?` per clause |
| SqlRows.FirstScanError | internal/handlers/handlers.go:178-183 | none exactly when every row scanned; otherwise the error of the first row that failed |
| SqlRows.StreamError | internal/handlers/handlers.go:178-189 | no error exactly when every row scanned and iteration reported nothing; otherwise "Row scan error: " with the first scan error, or else "Rows error: " with the iteration error |
| SqlRows.Collect | internal/handlers/handlers.go:178-189 | succeeds exactly when no scan failed and no iteration error was reported; on success one output per row, in row order; on failure the "Row scan error: " or "Rows error: " text |
| SqlRows.OrEmpty | internal/handlers/handlers-mnp-gate.go:111 | a NULL text column reads as "", and a non-NULL one as its value |
| SqlRows.OrZero | internal/handlers/handlers-mnp-gate.go:112-113 | a NULL integer column reads as 0, and a non-NULL one as its value |
| SqlRows.NullIndistinguishable | internal/handlers/handlers-mnp-gate.go:109-115 | NULL and the zero value read the same, so the mapping loses nullness |
| Templates.Add | internal/templates/templates.go:10 | the sum: subtracting either argument gives back the other |
| Templates.Sub | internal/templates/templates.go:11 | the difference: adding back the second argument gives the first |
| Templates.AddSubInverse | internal/templates/templates.go:10-11 | `sub(add(a, b), b) == a` and `add(sub(a, b), b) == a` over unbounded integers |
| Templates.Seq | internal/templates/templates.go:12-21 | empty when end < start; otherwise length end-start+1, element i is start+i, and k occurs exactly when start <= k <= end |
| Listing.RequestedPage | internal/handlers/handlers.go:56-62 | the page is at least 1; it is 1 unless the parameter parses to a positive integer, and then it is that integer |
| Listing.RequestedPageOfDecimal | internal/handlers/handlers.go:58-61 | a positive page written in decimal is kept as given |
| Listing.RequestedPageDefaults | internal/handlers/handlers.go:56-62 | a missing, zero or negative page reads as 1 |
| Listing.RequestedPageOfMinus | internal/handlers/handlers.go:56-62 | any page parameter starting with `-`, such as "-007", reads as 1 |
| Listing.RequestedPageOutOfRange | internal/handlers/handlers.go:56-62 | a page number beyond the 64-bit range reads as 1, not as the last page |
| Listing.RequestedPageRejectsNonDigit | internal/handlers/handlers.go:56-62 | a page parameter with a non-digit after its first character (such as `2abc` or `1.5`) reads as 1 |
| Listing.EffectiveSort | internal/handlers/handlers.go:72-75 | always one of the five columns; a whitelisted column is kept and anything else becomes `id` |
| Listing.EffectiveDir | internal/handlers/handlers.go:76-78 | always `asc` or `desc`; either is kept and anything else becomes `asc` |
| Listing.EffectiveSortDirIdempotent | internal/handlers/handlers.go:72-78 | whitelisting twice equals whitelisting once |
| Listing.ReadFilters | internal/handlers/handlers.go:83-89 | each filter is the query string's value for its parameter, verbatim |
| Listing.LinkPrefix | internal/handlers/handlers.go:92-100 | starts with `?`; it is exactly `?` when every parameter was `page` |
| Listing.LinkPrefixParams | internal/handlers/handlers.go:93-100 | otherwise it is `?` + the encoded parameters + `&`; those parameters keep every key but `page` and never hold `page` |
| Listing.Active | internal/handlers/handlers.go:112-131 | at most five columns, and none exactly when every filter is empty |
| Listing.ActiveExactlyTheSetFilters | internal/handlers/handlers.go:112-131 | a column is filtered exactly when its filter is non-empty, in the fixed order id, tax_category_id, start_date, end_date, rate_percent |
| Listing.ClauseText | internal/handlers/handlers.go:113-129 | every clause holds exactly one `?` |
| Listing.ClauseTextsSpelledOut | internal/handlers/handlers.go:113-129 | the five clause texts: `=` for id, tax_category_id and rate_percent, `LIKE` for the dates |
| Listing.Clauses | internal/handlers/handlers.go:111-131 | one clause per filtered column |
| Listing.Binds | internal/handlers/handlers.go:110-131 | one argument per filtered column |
| Listing.WhereArgs | internal/handlers/handlers.go:110-131 | one argument per non-empty filter |
| Listing.WhereArgsSpelledOut | internal/handlers/handlers.go:112-131 | the arguments in order: id, tax_category_id and rate_percent verbatim, the dates wrapped as `%v%`, each only when its filter is non-empty |
| Listing.ClausesOnePlaceholderEach | internal/handlers/handlers.go:112-131 | every clause of every column list holds one `?` |
| Listing.WhereEmptyIffNoFilter | internal/handlers/handlers.go:132-134 | the WHERE text is "", and the argument list empty, exactly when every filter is empty |
| Listing.WhereSql | internal/handlers/handlers.go:132-134 | the WHERE text is "" exactly when every filter is empty, and otherwise starts with " WHERE " |
| Listing.WhereSqlTwoFilters | internal/handlers/handlers.go:112-134 | with the id and start-date filters set, the WHERE text is " WHERE id = ? AND start_date LIKE ?" |
| Listing.WhereAligned | internal/handlers/handlers.go:109-134 | the WHERE text holds one `?` per argument |
| Listing.BuildWhere | internal/handlers/handlers.go:109-134 | the appended clauses, arguments and WHERE text equal the clause list, argument list and `" WHERE "` + clauses joined by `" AND "` defined above; placeholders match arguments |
| Listing.VersionQueryAligned | internal/handlers/handlers.go:103 | the version query has no placeholder and no argument |
| Listing.CountQuery | internal/handlers/handlers.go:138-139 | the COUNT query binds the WHERE arguments and adds no placeholder of its own |
| Listing.CountQueryAligned | internal/handlers/handlers.go:138-139 | the COUNT query reuses the WHERE text and arguments and its placeholders match its arguments |
| Listing.OrderAndLimit | internal/handlers/handlers.go:169 | the ORDER BY/LIMIT tail holds two placeholders of its own plus any inside the interpolated sort and direction |
| Listing.SelectQuery | internal/handlers/handlers.go:169-170 | the page query's arguments are the COUNT query's followed by page size and offset; its placeholders are the WHERE text's plus the tail's |
| Listing.OrderAndLimitPlaceholders | internal/handlers/handlers.go:169 | with a whitelisted sort and direction, the ORDER BY/LIMIT tail holds exactly two `?` |
| Listing.SelectQueryAligned | internal/handlers/handlers.go:169-170 | the page query's arguments are the WHERE arguments followed by page size and offset, and its placeholders match them |
| Listing.ValidPagination | internal/handlers/handlers.go:144-164 | (specification predicate) no rows: the page is left unclamped and all counters are 0; otherwise total pages is the ceiling of total/10, the page is clamped into 1..total pages, and prev/next are the neighbours or 0 |
| Listing.Paginate | internal/handlers/handlers.go:144-164 | the counters it computes satisfy the pagination specification |
| Listing.PaginationUnique | internal/handlers/handlers.go:144-164 | the specification admits exactly one set of counters |
| Listing.Offset | internal/handlers/handlers.go:166 | the offset is a whole number of pages: the pages before the current one; never negative for a page of at least 1 |
| Listing.OffsetInRange | internal/handlers/handlers.go:166 | with rows present, 0 <= offset < total |
| Listing.PaginationExample | internal/handlers/handlers.go:152-166 | 25 rows and page 5 give page 3 of 3, prev 2, next 0, offset 20 |
| Listing.ReadRequest | internal/handlers/handlers.go:55-100 | the view-model's page, page size, sort, direction, filters and link prefix equal the request-reading functions above |
| Listing.Home | internal/handlers/handlers.go:53-192 | version query first; a failed version, count or page query gives its 500 text; the count query comes second and is the filters' COUNT query; no rows means no page query and an empty render; otherwise exactly one page query with a valid offset; a scan or iteration error aborts, and when the rows read cleanly the page is rendered; a rendered page reflects the request and valid counters and lists the rows in order |
| MnpGate.AttachConfig | internal/handlers/handlers-mnp-gate.go:39-47 | a config is attached only for a non-NULL, non-empty column; an object parses to its map; the JSON literal `null` attaches nothing; text that is neither an object nor `null` is kept as `{"_raw": text}` |
| MnpGate.RawNeverDropped | internal/handlers/handlers-mnp-gate.go:39-46 | for non-empty text, either the parse yields exactly the attached config or the text is kept verbatim under `_raw` |
| MnpGate.NoConfigWithoutText | internal/handlers/handlers-mnp-gate.go:39 | a NULL or empty column attaches no config |
| MnpGate.Record | internal/handlers/handlers-mnp-gate.go:32-47 | the record copies the scanned columns unchanged and carries exactly the config attached for its raw text, which is present only when that text is non-empty |
| MnpGate.RecordJson | internal/handlers/handlers-mnp-gate.go:11-18 | id, engine, max_workers and cache_days are always written; `config` is written exactly when a non-empty config is attached; no other key is written, so the `ConfigRaw` field is never written as a key of its own |
| MnpGate.NullStringRoundTrip | internal/handlers/handlers-mnp-gate.go:13 | a nullable text field read back from its JSON object is unchanged |
| MnpGate.NullInt64RoundTrip | internal/handlers/handlers-mnp-gate.go:14-15 | a nullable integer field read back from its JSON object is unchanged |
| MnpGate.RecordRoundTrip | internal/handlers/handlers-mnp-gate.go:11-18 | reading an encoded record back gives the record without its raw text, with an empty config as absent |
| MnpGate.RecordsJson | internal/handlers/handlers-mnp-gate.go:49 | one JSON object per record, in order |
| MnpGate.ResultsJson | internal/handlers/handlers-mnp-gate.go:29 | no records encode as `null`, and otherwise as the array of record objects |
| MnpGate.ExportConfigs | internal/handlers/handlers-mnp-gate.go:20-64 | a query error gives "Database query error: …"; a scan or iteration error aborts before any JSON; otherwise a JSON body with one object per row, in row order, and `null` when there are no rows |
| MnpGate.ViewConfig | internal/handlers/handlers-mnp-gate.go:109-115 | each nullable column reads as its value, or as "" or 0 when NULL |
| MnpGate.ViewConfigSameIff | internal/handlers/handlers-mnp-gate.go:109-115 | two rows show the same exactly when they differ at most by NULL versus the zero value |
| MnpGate.ConfigPage | internal/handlers/handlers-mnp-gate.go:77-128 | a failed query with a nil handle renders an empty page, and with a handle answers 500; a scan or iteration error aborts; otherwise one row shown per row, in order |
| MnpGate.ViewGate | internal/handlers/handlers-mnp-gate.go:196-214 | each of the sixteen nullable columns reads as its value, or as "" or 0 when NULL |
| MnpGate.AllNullGateShowsDefaults | internal/handlers/handlers-mnp-gate.go:196-214 | a row of NULLs shows as its id and zero values |
| MnpGate.ViewGateInverse | internal/handlers/handlers-mnp-gate.go:196-214 | on a row without NULLs the mapping loses nothing |
| MnpGate.GatesList | internal/handlers/handlers-mnp-gate.go:141-227 | any query error renders an empty list; a scan or iteration error aborts; otherwise one gate shown per row, in order |

## Left out

- `UrlValues.Encode` does not model query escaping or the sorting of keys. It joins `key=value` pairs with `&`, in order. Only the "no page key" property and the `?`/`&` framing of the link prefix depend on it.
- `r.URL.Query()` (the parsing of the raw query string) is not modelled. The handler receives the parsed parameters.
- `TaxRate.RatePercent` is a `float64`. It is a `real` here, and no floating-point behaviour is modelled.
- Integers are unbounded:
  - Go `int` overflow in `(page - 1) * pageSize` and `total + pageSize - 1` is not modelled.
  - The `int(x.Int64)` narrowing is not modelled.
  - `Templates.Seq` always terminates. In Go, `seq`'s loop `for i := start; i <= end; i++` never ends when `end` is the largest `int`, because `i` wraps around.
  - Only `strconv.Atoi`'s own range check on a 64-bit platform is kept.
- Template parsing (`templates.go:23-27`) is not modelled. Neither are `ExecuteTemplate` and its "Template render error" replies, including `http.Error` after a partially written page. These are foreign calls with output side effects. A render is modelled as the template name and its data.
- `json.Unmarshal` is a parameter of the model (`string -> Option<Json>`). The JSON encoder's indentation and its "JSON encode error" reply are not modelled.
- SQL execution, `rows.Scan` typing and `rows.Close` are not modelled. The page handlers' fixed query texts are not returned as issued queries. Only the listing handler, whose query text and arguments vary with the request, reports its queries.
- Response headers other than the JSON content type are not modelled. Neither is the HTTP status of a successful reply.
- `cmd/web/main.go` (routing, connection string, `ListenAndServe`) and `internal/db/db.go` (connection setup) are not part of this model.
- `MnpGate.Record` builds the exported record as a value. In the source, `rec.Config` is assigned in place on a local struct, which has the same effect.
- `Listing.Home`'s contract does not restate query alignment itself. It states which queries are issued, namely `CountQuery` and `SelectQuery` of the request, and `CountQueryAligned` and `SelectQueryAligned` prove those queries aligned.
