# Order command synthesis, modelled in Dafny

This project models the core of an order-ingestion service written in Go.
The service receives a PPOB order (a payment-point bill or top-up) or a
Non-PPOB order (a store order with delivery) over HTTP. It validates the
order against the `required` tags of its record types and serialises the
details and history. It then formats one fixed-column `INSERT` statement
and publishes that text on a message queue. The model covers:

- the SQL literal encoders `SafeString`, `SafeJsonString` and `NullIfEmpty`;
- the option constructors `NewNullString` and `NewNullInt`, and the first-index search `InArray`;
- the validation diagnostic `ValidationErrorHandle`, and the `required` rules of both order schemas;
- `extractAggregatorMetadata`, and both `Create` use cases with their early returns, derived fields, statements and single publish;
- the HTTP classification `ErrorHttpStatus` of the error texts;
- the API-key decision of `APIKeyMiddleware`.

The encoders are paired with readers of PostgreSQL string constants
(module `SqlLiteral`): the standard `'…'` form, with
`standard_conforming_strings` on, and the escape form `E'…'` of section
4.1.2.2 of the PostgreSQL manual. A cell "stores" a value when the reader
of its kind gives that value back and stops exactly at the end of the
cell, whatever follows it. The column lemmas of the use cases are stated
in those terms.

Modules, one per source file or concept:

| module | file | models |
|---|---|---|
| `Wrappers` | wrappers.dfy | Option and Result |
| `Text` | text.dfy | ASCII lower-casing, substring search, `%d`/`%v` of ints and bools, joining |
| `SqlLiteral` | sqlliteral.dfy | readers of PostgreSQL string constants |
| `Utility` | utility.dfy | `SafeString`, `SafeJsonString`, `InArray` |
| `Json` | json.dfy | decoded JSON values (`interface{}` after `json.Unmarshal`) |
| `Validation` | validation.dfy | `ValidationErrorHandle`, the validator's `required` entries, `NullIfEmpty`, `NewNullString`, `NewNullInt` |
| `HttpStatus` | httpstatus.dfy | `ErrorHttpStatus` |
| `Middleware` | auth.dfy | the key check of `APIKeyMiddleware` |
| `Queue` | queue.dfy | the publish of `SendMessageToQueue` |
| `FieldNames` | field_names.dfy | the Go field names the validator reports, and how they classify |
| `Statement` | statement.dfy | the `INSERT` shape and what each kind of cell stores |
| `PPOBModel`, `NonPPOBModel` | model_ppob.dfy, model_nonppob.dfy | the order records and their validation |
| `PPOBUsecase`, `NonPPOBUsecase` | usecase_ppob.dfy, usecase_nonppob.dfy | `Create` and its statement |

Each `Create` is a method with the source's steps and early returns. It
calls the loop-based `ValidationErrorHandle` and `SafeString` methods and
publishes through a `Queue.Broker` object. Its contract ties the result
and the new broker state to the function `Outcome`. `Outcome` gives the
statement, or the error that stops the use case before publishing. The
statement is built from a row datatype with one named field per column.
`Cells` lists the fields in the order of the format string. The method
assembles the row positionally, as the format arguments are written, and
is proved to give the same row as the by-name function `Row`.

Two behaviours of the code are proved as they are:

- `NullIfEmpty` would write an int 0 as NULL, but the code formats the
  amount columns with `%v`, so 0 is written `0` (`AmountColumns`).
- The unescaped text columns (ids, phone, address, statuses, timestamps,
  voucher and referral codes, account reference, aggregator id and
  contact) are quoted without `SafeString`. A quote in one ends the
  constant early (`RawQuoteBreaksCell`), so their lemmas state storage
  only for quote-free values (`RawColumns`).

## Model

| member | source | states |
|---|---|---|
| Utility.SafeString | utility/utility.go:273-287 | the output is the input with every single quote written twice and every other byte copied in order |
| Utility.SafeStringLength | utility/utility.go:273-287 | the output is one byte longer per quote; collapsing each `''` gives the input back; every quote of the output is in a pair |
| Utility.DoubledLength | utility/utility.go:276-284 | doubling a character adds exactly its number of occurrences to the length |
| Utility.DoubledAppend | utility/utility.go:276-284 | the byte loop works piece by piece: doubling a concatenation doubles each part |
| Utility.DoubledKeepsOthers | utility/utility.go:276-284 | every character other than the doubled one keeps its count |
| Utility.DoubledAbsent | utility/utility.go:276-284 | a text without the character is copied unchanged |
| Utility.CollapsedDoubled | utility/utility.go:273-287 | collapsing pairs undoes the doubling |
| Utility.DoubledIsPaired | utility/utility.go:273-287 | the doubled text never holds an unpaired quote |
| Utility.PairedIsDoubled | utility/utility.go:273-287 | every paired text is the doubling of its collapse, so the paired texts are exactly the outputs |
| Utility.SafeStringReadsBack | utility/utility.go:273-287 | `'` + SafeString(s) + `'` is a standard string constant that reads back as `s` and ends where it should |
| Utility.QuotedBodyReadsBack | utility/utility.go:276-284 | the body of such a constant, up to its closing quote, reads back as `s` |
| Utility.SafeJsonString | utility/utility.go:289-302 | the output starts with `E'` and ends with `'`; its length is the input's plus one per backslash, one per quote, plus 3; without `\` or `'` it is `E'` + input + `'` |
| Utility.JsonBodyPlain | utility/utility.go:289-292 | a text without `\` or `'` is its own escaped body |
| Utility.SafeJsonStringUndo | utility/utility.go:293-302 | undoing the quote doubling, then the backslash doubling, on the inner text gives the input back |
| Utility.JsonBodyCons | utility/utility.go:293-300 | escaping works character by character, backslashes before quotes |
| Utility.SafeJsonStringReadsBack | utility/utility.go:289-302 | the output is an escape string constant that reads back as the JSON text and ends where it should |
| Utility.EscapeBodyReadsBack | utility/utility.go:293-300 | the escaped body, up to its closing quote, reads back as the JSON text |
| Utility.InArray | utility/utility.go:226-241 | found exactly when the value is in the list; then the index is the first one holding it; otherwise the index is -1 |
| Validation.ValidationErrorHandle | utility/validation.go:14-44 | the message is the lower-cased message of the last entry with a listed tag, "" when there is none, and "" for an error that is not a list of validation errors |
| Validation.LastListedEntryWins | utility/validation.go:19-40 | the last entry with a listed tag decides the message; entries after it with unlisted tags change nothing |
| Validation.NoListedEntry | utility/validation.go:15-43 | a list whose tags are all unlisted gives the empty message |
| Validation.RequiredDiagnostic | utility/validation.go:21-22 | a list ending in a `required` entry gives the field, lower-cased, followed by " required" |
| Validation.MissingEmpty | internal/handler/model/ppob.go:6-13 | no entry is reported exactly when every `required` field is set |
| Validation.MissingFields | internal/handler/model/ppob.go:6-13 | every entry has tag `required`, no parameter, and the name of a checked field |
| Validation.MissingLast | internal/handler/model/ppob.go:13 | when the last field checked is unset, it is the last entry reported |
| Validation.MissingLength | internal/handler/model/ppob.go:6-13 | at most one entry is reported per check |
| Validation.NewNullString | utility/validation.go:64-72 | valid exactly when the text is non-empty, then carrying it; otherwise the zero value |
| Validation.NewNullInt | utility/validation.go:74-82 | valid exactly when the int is non-zero, then carrying it; otherwise the zero value |
| Validation.NullIfEmpty | utility/validation.go:84-99 | NULL exactly for int 0, "", "[]" and any other dynamic type; a non-zero int is decimal text that parses back to it; any other string is wrapped in quotes without escaping |
| HttpStatus.ErrorHttpStatus | utility/httpstatus.go:8-34 | the answer is one the map order allows: the entry of some table key the lower-cased error contains, or 400 Bad Request when it contains none; the code is always 400, 401, 403, 404 or 500 |
| HttpStatus.TableCodesKnown | utility/httpstatus.go:13-25 | every table entry has one of the known codes |
| HttpStatus.OutcomesWellFormed | utility/httpstatus.go:27-33 | some answer is always possible, and each possible answer has a known code |
| HttpStatus.OutcomesIgnoreCase | utility/httpstatus.go:11 | an error text and its lower-cased form have the same answers |
| HttpStatus.UnmatchedIsBadRequest | utility/httpstatus.go:33 | a text holding no table key can only be 400 Bad Request |
| HttpStatus.OnlyRequiredKey | utility/httpstatus.go:17-24 | a text without v, s, b and z, lacking o or f, and lacking l or p, contains no table key except "required" |
| HttpStatus.OnlyRequiredMatches | utility/httpstatus.go:19 | such a lower-case text that contains "required" matches only that key and is 400 Bad Request in every map order |
| HttpStatus.RequiredMessageIsBadRequest | utility/httpstatus.go:11-33 | `lower(field) + " required"` is 400 Bad Request whatever the map order, for a field name that lacks the other keys' letters |
| HttpStatus.TableKeys | utility/httpstatus.go:13-25 | the table has exactly the eight keys of the source |
| FieldNames.ReportedFieldClassifies | internal/handler/model/ppob.go:6-51 | every Go field name either order type can report (those of internal/handler/model/ppob.go:6-51 and internal/handler/model/nonppob.go:6-67) lower-cases to a text that cannot contain another table key |
| Middleware.CheckAPIKey | internal/handler/middleware/auth.go:14-49 | an empty key is rejected with 401 and "API key is required"; a key in the list passes; any other key is rejected with 401 and "Invalid API key"; an empty list rejects every request |
| Queue.Broker.Send | utility/queue.go:10-32 | the broker's error comes back unchanged; without one the message is delivered exactly once, with one nothing is delivered |
| Queue.Broker.constructor | utility/queue.go:10-32 | a new broker has delivered nothing and holds the given fault |
| Statement.EscapedTextStores | internal/usecase/ppob.go:115 | NullIfEmpty(SafeString(s)) is NULL exactly when `s` is "" or "[]" (so a value "[]" is lost), and otherwise a constant that reads back as `s`, quotes and all |
| Statement.RawTextColumn | internal/usecase/ppob.go:112-146 | an unescaped text cell is NullIfEmpty of its field, and stores it when it holds no quote |
| Statement.RawTextStores | internal/usecase/ppob.go:112 | NullIfEmpty(s) without SafeString stores `s` when `s` holds no quote |
| Statement.RawQuoteBreaksCell | internal/usecase/ppob.go:117 | a quote in an unescaped field ends the constant early: "0812'5" reads as "0812" with `5'` left over, so the cell does not store it |
| Statement.JsonStores | internal/usecase/ppob.go:147-150 | SafeJsonString(json) stores `json` as an escape string constant |
| Statement.IntStores | internal/usecase/ppob.go:129-137 | `%v` of an int is a decimal literal of that value, never NULL, and 0 is written `0` |
| Text.ToLower | utility/validation.go:43 | lower-casing keeps the length and maps each character through the ASCII lower-case table |
| Text.ToLowerIdempotent | utility/httpstatus.go:11 | lower-casing twice is lower-casing once |
| Text.ToLowerAppend | utility/validation.go:22-43 | lower-casing a concatenation lower-cases each part |
| Text.ContainsNeedsEveryChar | utility/httpstatus.go:28 | a text containing a key contains each of the key's characters |
| Text.ContainsPrefix | utility/httpstatus.go:28 | a text that starts with the key contains it |
| Text.ContainsSuffix | utility/httpstatus.go:28 | a text that ends with the key contains it |
| Text.DecimalText | utility/validation.go:90 | the decimal text of an int parses back to it and starts with a digit or a minus sign |
| Text.DigitsRoundTrip | utility/validation.go:90 | the decimal digits written for a natural number have that number as their value |
| Text.BoolText | internal/usecase/nonppob.go:89 | `%v` of a bool is "true" exactly when it is true, and "false" otherwise |
| PPOBModel.RequiredErrors | internal/handler/model/ppob.go:5-53 | no entry exactly for a valid order; every entry is a `required` entry naming a required field; an unset amount is the last entry; at most 10 entries |
| PPOBModel.ChecksValid | internal/handler/model/ppob.go:5-53 | the ten checks all pass exactly when the order is valid |
| PPOBModel.Validate | internal/handler/model/ppob.go:5-53 | the validator reports nothing exactly for a valid order, and otherwise a non-empty list of entries |
| PPOBModel.UncheckedFieldsFree | internal/handler/model/ppob.go:9-27 | product, category, commission, the other amounts, the slices and the metadata never affect validation |
| PPOBModel.InvalidOrderIsBadRequest | internal/handler/ppob.go:54-63 | an invalid order's diagnostic is the last missing field, lower-cased, plus " required", and the handler answers it with 400 Bad Request in every map order |
| NonPPOBModel.RequiredErrors | internal/handler/model/nonppob.go:5-67 | no entry exactly for a valid order; every entry is a `required` entry naming a required field; an unset amount is the last entry; at most 15 entries |
| NonPPOBModel.ChecksValid | internal/handler/model/nonppob.go:5-67 | the fifteen checks all pass exactly when the order is valid |
| NonPPOBModel.Validate | internal/handler/model/nonppob.go:5-67 | the validator reports nothing exactly for a valid order, and otherwise a non-empty list of entries |
| NonPPOBModel.UncheckedFieldsFree | internal/handler/model/nonppob.go:15-36 | phone, address, the delivery reference and URL, the optional amounts, the slices and the metadata never affect validation |
| NonPPOBModel.InvalidOrderIsBadRequest | internal/handler/nonppob.go:54-63 | an invalid order's diagnostic is the last missing field, lower-cased, plus " required", answered with 400 Bad Request in every map order |
| PPOBUsecase.ExtractAggregatorMetadata | internal/usecase/ppob.go:22-54 | each of id, name and contact is the string under the `aggregator` object, or ""; all three are "" when the metadata is not an object, has no `aggregator`, or `aggregator` is not an object |
| PPOBUsecase.ExtractAggregatorRoundTrip | internal/usecase/ppob.go:22-54 | extraction gives back exactly the aggregator the document was made from |
| PPOBUsecase.ExtractAggregatorIgnoresNonStrings | internal/usecase/ppob.go:42-53 | a member that is not a string leaves only its own slot empty |
| PPOBUsecase.Serialise | internal/usecase/ppob.go:73-109 | details, then history, must marshal, and the first failure is the error; the order and payment metadata documents are their marshalled texts, and "" when marshalling them fails, which never stops the use case |
| PPOBUsecase.Cells | internal/usecase/ppob.go:111-151 | the statement supplies exactly one value per column, 39 of each |
| PPOBUsecase.FormatStatement | internal/usecase/ppob.go:83-151 | the positional argument list equals the by-name row, column for column |
| PPOBUsecase.Create | internal/usecase/ppob.go:63-162 | an invalid order returns the validator's diagnostic; a marshalling error is returned; nothing is published in either case; otherwise the statement is published once and the broker's error is returned unchanged |
| PPOBUsecase.InvalidOrderOutcome | internal/usecase/ppob.go:66-70 | an invalid order yields its diagnostic, which the handler answers with 400 Bad Request |
| PPOBUsecase.ValidOrderOutcome | internal/usecase/ppob.go:63-162 | a valid order whose details and history marshal always yields the statement |
| PPOBUsecase.AccountRefColumn | internal/usecase/ppob.go:101-105 | account_ref is NULL without details, and otherwise the first detail's inquiry account reference |
| PPOBUsecase.ProductColumns | internal/usecase/ppob.go:87-92 | the product columns are NULL unless the product id is set, and then hold the product |
| PPOBUsecase.CategoryColumns | internal/usecase/ppob.go:95-99 | the category columns are NULL unless the category id is set, and then hold the category |
| PPOBUsecase.EscapedColumns | internal/usecase/ppob.go:115-145 | each SafeString column is NULL exactly when its field is "" or "[]", and otherwise stores the field exactly, quotes included |
| PPOBUsecase.RawColumns | internal/usecase/ppob.go:112-146 | the other text columns are NullIfEmpty of their fields, unescaped |
| PPOBUsecase.AmountColumns | internal/usecase/ppob.go:129-137 | the nine int columns store their values as decimal literals, 0 included |
| PPOBUsecase.JsonColumns | internal/usecase/ppob.go:128-150 | the five JSON columns are escape string constants of their documents, never NULL; metadata_source stores the raw request text |
| NonPPOBUsecase.Serialise | internal/usecase/nonppob.go:39-47 | details, then history, must marshal, and the first failure is the error |
| NonPPOBUsecase.Cells | internal/usecase/nonppob.go:55-98 | the statement supplies exactly one value per column, 42 of each |
| NonPPOBUsecase.FormatStatement | internal/usecase/nonppob.go:49-98 | the positional argument list, with the defaulted delivery URL, equals the by-name row |
| NonPPOBUsecase.Create | internal/usecase/nonppob.go:29-109 | an invalid order returns the validator's diagnostic; a marshalling error is returned; nothing is published in either case; otherwise the statement is published once and the broker's error is returned unchanged |
| NonPPOBUsecase.RejectedOutcome | internal/usecase/nonppob.go:32-36 | a rejected order's outcome is the diagnostic of its `required` entries |
| NonPPOBUsecase.PublishedOutcome | internal/usecase/nonppob.go:55-98 | a valid, serialised order's outcome is the statement of its documents |
| NonPPOBUsecase.InvalidOrderOutcome | internal/usecase/nonppob.go:32-36 | an invalid order yields its diagnostic, which the handler answers with 400 Bad Request |
| NonPPOBUsecase.ValidOrderOutcome | internal/usecase/nonppob.go:29-109 | a valid order whose details and history marshal always yields the statement |
| NonPPOBUsecase.DeliveryUrlColumn | internal/usecase/nonppob.go:49-53 | delivery_url is NULL for a nil pointer; for a set pointer it is NULL exactly when the URL is "" or "[]", and otherwise stores the URL exactly, quotes included |
| NonPPOBUsecase.EscapedColumns | internal/usecase/nonppob.go:59-73 | each SafeString column is NULL exactly when its field is "" or "[]", and otherwise stores the field exactly, quotes included |
| NonPPOBUsecase.RawColumns | internal/usecase/nonppob.go:56-94 | the other text columns are NullIfEmpty of their fields, unescaped |
| NonPPOBUsecase.AmountColumns | internal/usecase/nonppob.go:68-87 | the fourteen int columns store their values as decimal literals, 0 included |
| NonPPOBUsecase.PaidColumn | internal/usecase/nonppob.go:89 | is_paid is the keyword `true` exactly when the order is paid, and `false` otherwise |
| NonPPOBUsecase.JsonColumns | internal/usecase/nonppob.go:95-97 | details, history and metadata_source are escape string constants of their texts, never NULL |
| NonPPOBUsecase.MetadataNotStored | internal/usecase/nonppob.go:55-98 | the decoded metadata of the order, its payment and its delivery never change the statement |

## Left out

- `SendMessageToQueue`: dialling, login, the STOMP frame and the disconnect are network I/O. The broker is an object whose fault, the error a publish reports, is fixed when it is built.
- `json.Marshal` and `json.Unmarshal`: a foreign library. Marshal is a parameter of `Create`, a total function that may fail; the decoded metadata is a `Json.Value`.
- The validator engine: only what the `required` tags of these schemas make `validator.New().Struct` do is modelled. Detail and history elements are never checked because the slices carry no `dive` tag. Tags the schemas never use (`min`, `max`, …) reach `ValidationErrorHandle` only as `FieldError` values. An error of another kind is the `OtherError` case.
- HTTP and gin plumbing (handlers, router, CORS, response formatting, body reading), `main.go`, logging, configuration, `TimeParse`, `StringToMD5`, `RecoverError`: I/O, time zones, hashing and panic recovery. The handler facts used here are that the raw body becomes `MetadataRaw` and that `err.Error()` of `Create` goes to `ErrorHttpStatus`.
- The header read of `APIKeyMiddleware`: gin's `GetHeader` is the string parameter, "" when absent. Writing the JSON body and aborting are the `Abort` result.
- `Text.ToLower`: only ASCII letters are lowered; Go's `strings.ToLower` also maps other Unicode letters. The errors that reach `ErrorHttpStatus` in this service come from validator entries (Go field names), `encoding/json` and the broker, and are ASCII.
- `HttpStatus.ErrorHttpStatus`: because of the ASCII-only lowering, an error text holding a non-ASCII capital (a dotted capital I in "FORBİDDEN", say) can get 400 in the model where Go's lowering would find a table key and answer otherwise.
- Integer width: Go `int` and `int64` are unbounded `int` here; no 64-bit wrap-around is modelled.
- Strings are sequences of characters, each standing for one byte. Quote and backslash are single bytes in UTF-8, so doubling them byte by byte and character by character agree.
- The escape-string reader in `SqlLiteral` knows the `\\` and `\'` escapes and the `''` pair that the encoders produce. Octal, hex and Unicode escapes are outside the model.
- Go map iteration order in `ErrorHttpStatus` is a nondeterministic choice; the set `Outcomes` holds every answer an order allows.
- The `AggregatorMetadata` struct of internal/handler/model/ppob.go is declared but never used by the code. `Aggregator` is the shape extraction reads, and the round-trip lemma uses it.
