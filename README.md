# ngrams-rs in Dafny

A model of the client library for the ngrams.dev search API
(`src/lib.rs`), with proofs of what it promises. The network is not part of
the model: the outcome of each HTTP request is an input.

The model covers:

- **the pagination cursor.** `Pages` is a class whose fields are the ones
  `Pages::next` updates in place: the options with the remaining page
  budget, the continuation token and the raw payload. `Pages.Next` is
  proved against the pure transition function `NextStep`, and lemmas about
  `NextStep` and its iteration `Run` state the cursor's guarantees;
- **request assembly.** This covers the flag string of `SearchOptions`,
  whose `ToFlags` pushes codes step by step and is proved against `FlagsOf`,
  the ordered parameter list, and the URL `BASE_URL/<label>/<resource>`;
- **the response records.** Views and owned records are parallel
  datatypes, with the `From<&…View>` deep copies between them and serde's
  "absent boolean reads as false" defaults;
- **the error taxonomy.** This covers the `Error` constructors, `kind`,
  `Display`, the error-code wire names and the status mapping of the three
  single-shot `get_*` endpoints;
- **the total-counts decoder**, which accepts exactly 550 per-year counts
  and copies them into a fixed array.

Modules, one file each:

| module | what it models |
|---|---|
| `Wrappers` | Option/Result |
| `Ints` | `u8`, `u16`, `u32`, `u64` as bounded newtypes |
| `Decimal` | `to_string` of unsigned integers, and its inverse |
| `Endpoint` | `Corpus`, `Corpus::label`, `internal::get`'s URL |
| `Options` | `SearchOptions`, `to_flags`, the search parameter list |
| `Records` | views, owned records, their conversions, serde defaults |
| `Errors` | `Error`, `ErrorKind`, `ErrorCode`, `BadInputError`, `UnexpectedStatusCode` |
| `TotalCounts` | `TotalCountsByYear` and its deserializer |
| `Lookups` | `get_ngram`, `get_corpus_info`, `get_total_counts` |
| `Pagination` | `Pages::new`, `Pages::next` |

Where a reader might expect something else, the model follows the code:

- a 400 response whose error body parses yields a BadInput error but leaves
  the page budget as it was (src/lib.rs:215-221). The budget is not forced to
  zero, so the next call sends the same request again;
- after a 200 response, the body text is stored as the payload before it is
  parsed (src/lib.rs:195), so a body that fails to parse still replaces the
  payload;
- `Error::exception` builds an error of kind Connection
  (src/lib.rs:457-459), and so does every unreadable or unparsable body and
  every unexpected status. `ErrorKind` has three variants, but the client
  itself only produces Connection and BadInput: that covers `connection`,
  `exception`, `bad_input`, `unexpected_status_code`, `next` and the three
  `get_*` calls. Kind Exception only arises when a caller builds an error
  with `Error::new` directly;
- `ErrorCode` has seven variants (src/lib.rs:542-558). A 400 error body with
  any other code does not decode, which is the `Status400ParseFail` outcome.

## Model

| member | source | states |
|---|---|---|
| Decimal.ToDecimal | src/lib.rs:173 | `to_string` of an unsigned integer; `ToDecimalCanonical`, `ParseToDecimal` and `ToDecimalOfValue` state that it writes the canonical digit string of the number, which parses back |
| Decimal.DigitChar | src/lib.rs:173 | a digit below 10 is written as the character whose offset from '0' is that digit |
| Decimal.DigitValue | src/lib.rs:173 | reading a digit character gives a value below 10 that is written back as the same character |
| Decimal.ToDecimalCanonical | src/lib.rs:173 | `to_string` of a number is a non-empty digit string without leading zeros that denotes the number; it is one character long exactly for numbers below 10 |
| Decimal.ParseToDecimal | src/lib.rs:173 | parsing the decimal text of a number gives the number back |
| Decimal.ValueLowerBound | src/lib.rs:173 | a canonical digit string of more than one digit denotes a number of at least 10 |
| Decimal.ToDecimalOfValue | src/lib.rs:173 | every canonical digit string is the decimal text of the number it denotes |
| Decimal.ToDecimalInjective | src/lib.rs:173 | distinct numbers have distinct decimal texts |
| Endpoint.Label | src/lib.rs:81-87 | `Corpus::label`; `LabelRoundTrip` and `CorpusOfLabelSound` state that each label is three letters long and names exactly its corpus |
| Endpoint.Url | src/lib.rs:636-641 | the URL `internal::get` formats; `ParseUrlRoundTrip` and `UrlInjective` state that it determines corpus and resource |
| Endpoint.LabelRoundTrip | src/lib.rs:81-87 | `Corpus::label` is three characters long and names its corpus back |
| Endpoint.CorpusOfLabelSound | src/lib.rs:81-87 | a string names a corpus exactly when it is that corpus's label |
| Endpoint.ParseUrlRoundTrip | src/lib.rs:636-641 | the URL `BASE_URL/<label>/<resource>` splits back into exactly its corpus and resource |
| Endpoint.UrlInjective | src/lib.rs:636-641 | two requests address the same URL only if corpus and resource are the same |
| Options.Default | src/lib.rs:131-145 | the default options allow pages of 100 n-grams and 10 pages, enable no switch, produce the empty flag string and send limit "100" |
| Options.Switches | src/lib.rs:91-101 | the options carry exactly seven switches |
| Options.EnabledCount | src/lib.rs:91-101 | at most seven switches are enabled |
| Options.FlagsOf | src/lib.rs:104-128 | the flag string as the seven codes in fixed order, each present iff its switch is on; `ToFlags` is proved equal to it and `FlagsLength` states its length and emptiness |
| Options.Pushed | src/lib.rs:106-126 | one `push_str` guarded by a switch appends that switch's code to the string, or nothing |
| Options.ToFlags | src/lib.rs:104-128 | the flag string is the code of each enabled switch in the fixed order cs, cr, ep, es, ri, rt, rn |
| Options.FlagsLength | src/lib.rs:104-128 | the flag string has two letters per enabled switch, and it is empty exactly when all seven switches are off |
| Options.LimitText | src/lib.rs:173 | `max_page_size.to_string()`; `Options.Default` states it is "100" by default, and `LimitTextFaithful` that it reads back as the page size and tells page sizes apart |
| Options.LimitTextFaithful | src/lib.rs:173 | the `limit` value reads back as the page size, and two options send the same `limit` exactly when their page sizes are equal |
| Options.SearchParams | src/lib.rs:173-183 | the parameter list of a search request; `BuildSearchParams` is proved equal to it and `SearchParamsShape` states its key order and values |
| Options.Keys | src/lib.rs:174-183 | the i-th key is the key of the i-th parameter, one key per parameter |
| Options.BuildSearchParams | src/lib.rs:173-183 | the parameters pushed are query, limit, flags only when the flag string is non-empty, and start only when a token is stored |
| Options.SearchParamsShape | src/lib.rs:173-183 | the keys come in the order query, limit, flags, start; flags is present iff some switch is on and start iff a token is stored; each key carries the query, the decimal page size, the flag string or the token |
| Options.LookupCons | src/lib.rs:174-183 | the first parameter with a key is the head when the head has that key, and is looked up in the rest otherwise |
| Options.KeysCons | src/lib.rs:174-183 | the keys of a list are the head's key followed by the keys of the rest |
| Records.ToQueryToken | src/lib.rs:353-360 | a copied query token keeps its kind and text |
| Records.ToQueryTokens | src/lib.rs:341 | copying query tokens keeps their number and order, with the i-th copy keeping the i-th token's kind and text |
| Records.ToNgramToken | src/lib.rs:395-404 | a copied n-gram token keeps its kind, text and the inserted and completed flags |
| Records.ToNgramTokens | src/lib.rs:379 | copying n-gram tokens keeps their number and order, the i-th copy being the copy of the i-th token |
| Records.ToNgramLite | src/lib.rs:373-383 | a copied n-gram keeps its id, both total match counts and the abstract flag, and copies its tokens in order |
| Records.ToNgramLites | src/lib.rs:342 | copying n-grams keeps their number and order, the i-th copy being the copy of the i-th n-gram |
| Records.ToPage | src/lib.rs:338-345 | an owned page has one copied query token and one copied n-gram per entry of the view, at the same positions |
| Records.PageRoundTrip | src/lib.rs:338-404 | reading an owned page back as a view gives exactly the view it was copied from, so the copy loses nothing |
| Records.PageOfView | src/lib.rs:338-404 | every owned page is the copy of a view |
| Records.ToPageInjective | src/lib.rs:338-404 | distinct views convert to distinct owned pages |
| Records.OrFalse | src/lib.rs:286-287 | a defaulted boolean is true exactly when the field is present and true |
| Records.DecodeNgramTokenView | src/lib.rs:296-305 | a decoded token view keeps kind and text, and inserted and completed are true only when present and true |
| Records.DecodeNgramToken | src/lib.rs:385-393 | the same defaults hold when decoding straight into an owned token |
| Records.DecodeNgramLiteView | src/lib.rs:279-288 | a decoded n-gram view keeps id and counts, decodes its tokens in order, and abstract is true only when present and true |
| Records.DecodeNgramLite | src/lib.rs:362-371 | decoding straight into an owned n-gram reads an absent abstract as false and keeps the number of tokens |
| Records.DecodeThenConvert | src/lib.rs:286-404 | decoding into a view and copying it out equals decoding straight into the owned record |
| Errors.CodeNameRoundTrip | src/lib.rs:542-558 | each error code has one wire name, and that name reads back as that code and no other |
| Errors.CodeName | src/lib.rs:542-558 | the serde wire name of each error code; `CodeNameRoundTrip` states that it reads back as that code and no other |
| Errors.CodeOfName | src/lib.rs:542-558 | reading a wire name, None outside the seven codes; `CodeNameRoundTrip` states it inverts `CodeName` exactly |
| Errors.New | src/lib.rs:449-451 | `Error::new` keeps the kind and source it is given |
| Errors.ConnectionError | src/lib.rs:453-455 | `Error::connection` has kind Connection and wraps the transport error |
| Errors.ExceptionError | src/lib.rs:457-459 | `Error::exception` has kind Connection and wraps its cause |
| Errors.RejectionError | src/lib.rs:461-463 | `Error::bad_input` has kind BadInput and wraps the rejection |
| Errors.UnexpectedStatus | src/lib.rs:465-467 | `Error::unexpected_status_code` has kind Connection and wraps the status code |
| Errors.Kind | src/lib.rs:469-471 | `Error::kind`; `ConstructorKinds` states the kind each constructor gives |
| Errors.IntoBadInputError | src/lib.rs:477-479 | `into_bad_input_error`, defined when the source is a rejection; `ConstructorKinds` states it returns what `bad_input` wrapped |
| Errors.Display | src/lib.rs:488-496 | the message of an error; `DisplayNamesKind` states that it names the kind, and `ConstructorKinds` the message of each constructor |
| Errors.DisplayStatus | src/lib.rs:532-536 | the message of an unexpected status code; `DisplayStatusRoundTrip` states that the code reads back from its end |
| Errors.DisplayNamesKind | src/lib.rs:488-496 | the message "connection error", "unexpected error" or "bad input" names the error's kind, so distinct kinds display differently |
| Errors.ConstructorKinds | src/lib.rs:453-479 | connection, exception and unexpected-status errors have kind Connection; bad-input errors have kind BadInput and display "bad input"; `into_bad_input_error` returns the rejection unchanged |
| Errors.DisplayStatusRoundTrip | src/lib.rs:532-536 | the unexpected-status message ends with the status code in decimal, from which the code can be read back |
| TotalCounts.DeserializeByYear | src/lib.rs:608-626 | decoding succeeds iff the input has exactly 550 counts; on success the i-th count is the i-th input; otherwise it fails with an invalid-length error naming the length found and "550" |
| Lookups.GetNgram | src/lib.rs:41-48 | one GET of `<label>/<id>` without parameters; a 200 with a decodable body gives that n-gram, a 404 gives "not found", any other status an unexpected-status error, and a transport or decoding failure a Connection error |
| Lookups.GetOk | src/lib.rs:50-64 | one GET of `<label>/<resource>` without parameters; only a 200 with a decodable body succeeds, with that body; any other status is an unexpected-status error; every error has kind Connection |
| Lookups.GetCorpusInfo | src/lib.rs:50-56 | requests exactly the `info` resource of its corpus; only a 200 with a decodable body succeeds, with that body; any other status is an unexpected-status error; every error has kind Connection |
| Lookups.GetTotalCounts | src/lib.rs:58-64 | requests exactly the `total_counts` resource of its corpus; only a 200 with a decodable body succeeds, with that body; any other status is an unexpected-status error; every error has kind Connection |
| Lookups.NotFoundOnlyForNgram | src/lib.rs:41-64 | a 404 means "not found" for an n-gram but is an unexpected-status error for corpus info and total counts |
| Lookups.LookupUrls | src/lib.rs:41-64 | the requests the three lookups send split back into their corpus and `<id>`, `info` and `total_counts` respectively |
| Lookups.NgramIdInfoCollides | src/lib.rs:41-59 | an n-gram lookup of the id `info` sends the same request as the corpus information lookup |
| Pagination.Start | src/lib.rs:157-166 | the cursor `Pages::new` builds; `ZeroBudgetSendsNothing` states that one created with budget 0 never sends a request |
| Pagination.SearchRequest | src/lib.rs:173-191 | the search request of a cursor; `RequestSent` states its URL, key order and token |
| Pagination.NextStep | src/lib.rs:168-226 | one `next` call as a function; `ZeroBudgetTerminal`, `OkPage`, `FailureKeepsBudgetAndToken`, `BadInputCarriesServerError`, `ErrorKinds` and `StepOkBound` state its behaviour, and `Pages.Next` is proved equal to it |
| Pagination.ResultOf | src/lib.rs:192-225 | what `next` returns for an outcome; `OkPage`, `BadInputCarriesServerError` and `ErrorKinds` state it |
| Pagination.CursorAfter | src/lib.rs:192-225 | the cursor after the response match; `OkPage` and `FailureKeepsBudgetAndToken` state how budget, token and payload change |
| Pagination.Pages.constructor | src/lib.rs:157-166 | a new cursor holds the query, corpus and options, an empty payload and no token |
| Pagination.Pages.Next | src/lib.rs:168-226 | one call sends the search request of the cursor state exactly when budget is left, and changes the state and returns the result as `NextStep` says; it keeps yielded pages plus remaining budget within the initial budget |
| Pagination.Pages.Receive | src/lib.rs:192-225 | the response match returns the result for the outcome and updates payload, budget and token as `CursorAfter` says |
| Pagination.ZeroBudgetTerminal | src/lib.rs:169-171 | with no budget left, `next` returns None, sends no request and changes nothing |
| Pagination.RequestSent | src/lib.rs:173-191 | with budget left, exactly one request is sent, to `<label>/search`, with keys query, limit, then flags if any switch is on, then start carrying the stored token |
| Pagination.OkPage | src/lib.rs:193-208 | a parsed 200 yields exactly its query tokens and n-grams and stores its body; with a token the budget drops by one and it becomes the stored token; without one the budget drops to zero and the token is cleared |
| Pagination.FailureKeepsBudgetAndToken | src/lib.rs:192-225 | a transport failure, an unreadable or unparsable 200 body, a 400 and any other status each give an error and keep options and token; only an unparsable 200 body replaces the payload |
| Pagination.BadInputCarriesServerError | src/lib.rs:215-221 | a parsed 400 yields a BadInput error carrying exactly the server's code and query tokens, and leaves the cursor unchanged, so the same request goes out again |
| Pagination.ErrorKinds | src/lib.rs:192-225 | an error from `next` has kind BadInput exactly for a parsed 400, and kind Connection otherwise |
| Pagination.Run | src/lib.rs:168-226 | calling `next` once per outcome gives one request flag and one result per call |
| Pagination.RunSnoc | src/lib.rs:168-226 | one more call extends the trace by the step `next` takes from the cursor the earlier calls left, so the i-th result is the one returned from the cursor after i calls |
| Pagination.StepOkBound | src/lib.rs:196-208 | one call yields at most one page, and only by spending at least one unit of budget |
| Pagination.RunOkBound | src/lib.rs:168-226 | over any sequence of calls, the pages yielded plus the budget left never exceed the starting budget, so a budget of B yields at most B pages |
| Pagination.RunFromExhausted | src/lib.rs:169-171 | once the budget is zero, every further call returns None, sends nothing and leaves the cursor as it is |
| Pagination.ZeroBudgetSendsNothing | src/lib.rs:157-171 | a cursor created with budget 0 never sends a request and yields no page |
| Pagination.LastPageEndsIteration | src/lib.rs:201-204 | after a page without a next-page token, no further call sends a request or yields anything |

## Left out

- The HTTP transport is not modelled: reqwest, `send().await`, `res.text()`, `res.json()`, the user-agent header and its `env!` formatting (src/lib.rs:14-30, 636-641). What a request produced is the `Outcome` or `Response` input.
- Async scheduling and cancellation are not modelled. Each call completes before the next one starts.
- JSON decoding itself is not modelled: serde, camelCase renaming and the uppercase wire labels of the token kinds. A decoded value or a decoding failure is an input. The one decoding rule modelled is that an absent `inserted`, `completed` or `abstract` reads as false.
- Zero-copy borrowing is not modelled. A view's text is an owned string, `payload` is a field that is overwritten, and a view and its owned record differ only in type.
- Floating-point values are not modelled: `rel_total_match_count` and `rel_match_count` are kept as their 64-bit patterns and copied verbatim. `NgramStat`'s epsilon equality (src/lib.rs:434-440) is left out with them.
- `Pagination.Pages`: the `client` field is not modelled, because the transport is an input.
- `Errors.IntoBadInputError`: the downcast and the `unwrap` panics (src/lib.rs:477-479) are a precondition that the source is a rejection.
- `Error::source`, the `Debug`-based `Display` of `BadInputError`, and `From<reqwest::Error>` are not modelled as separate members. `From` is folded into the lookups, where `?` turns every transport error into a Connection error.
- The fixed length 5 of `CorpusInfo::stats` and `TotalCounts::match_counts` is not modelled: that check belongs to serde, and the model keeps these as sequences.
- `Options.FlagsLength`: the flag string is stated by its length and its emptiness. That it decodes back to the seven switches is not stated.
- `Lookups.GetNgram`: the model, like the code, appends the n-gram id to the URL as is. reqwest still parses and escapes the formatted URL; that step belongs to the transport, which is left out.
- The `user-agent` header every request carries (src/lib.rs:640) is left out with the transport; a `Request` holds the URL and the query parameters only.
- The tests and benchmarks are not modelled. They exercise the live API.
