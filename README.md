# StockScout quote core in Dafny

StockScout's API answers `GET /api/quote/{symbol}` by asking the Alpha
Vantage market-data provider for a "GLOBAL_QUOTE" and normalising the
provider's loosely typed JSON into a `QuoteDto`. This project models the
three pieces that decide what comes back:

- `QuoteMapper` (quote_mapper.dfy) — `QuoteMapper.MapFromGlobalQuote`.
  It has an envelope gate ("Global Quote" present?). Each field degrades on
  its own (missing or JSON null reads as "", which then fails to parse). An
  empty symbol means null. The price defaults to 0. The trading day is
  relabelled as UTC.
- `AlphaVantage` (alpha_vantage.dfy) — `AlphaVantageOptions` and the
  `AlphaVantageClient` class. Its `GetQuoteAsync` method checks the API
  key, builds the request URL, checks the response status and runs its own
  inlined copy of the mapper. Its postcondition proves that copy equal to
  `QuoteMapper.MapFromGlobalQuote` on every document.
- `QuoteEndpoint` (quote_endpoint.dfy) — the handler body of
  `/api/quote/{symbol}`. A blank symbol gets BadRequest. Any other symbol is
  trimmed and upper-cased and passed to the client. A null quote becomes
  NotFound, a quote becomes Ok.

Supporting modules: `Types` (types.dfy) holds the `QuoteDto` record, `long`
as a 64-bit range, `decimal` as `real`, `DateTime` with its kind, and the
JSON document. `Text` (text.dfy) holds the .NET string helpers the
endpoint and client use. `Wrappers` (wrappers.dfy) holds `Option`, which
stands for C#'s nullable values.

Library code is passed in as parameters rather than modelled:
`decimal.TryParse`, `long.TryParse` and `DateTime.TryParse` form the
`Parsers` record. `Uri.EscapeDataString` is an argument of `GetQuoteAsync`.
Some lemmas assume facts about these parameters, each stated in its `requires`:
the per-field lemmas assume the parsers reject "" (`RejectsEmpty`);
`QueryUrlDeterminesSymbol` assumes the escaping is injective;
`ValidPayloadMapsToDto` assumes the parse results of the unit test's texts.
The HTTP exchange is a function `send` from request URL to `Exchange`
(transport failure, or a status code and a body).
`GetQuoteAsync` returns the URL it sent, or None when it sent nothing.
The client's behaviour is a function `getQuoteAsync` from symbol to
`ClientOutcome` in the handler model.

Behaviour the model keeps exactly as the code has it:
- The record's `Symbol` is the provider's raw "01. symbol" text. It is not
  trimmed or upper-cased, and a white-space-only symbol is accepted.
- A body that is not JSON raises `JsonException`, and a failed request raises
  `HttpRequestException`. Neither is turned into "no quote"; both escape the
  handler (`Faulted`).
- A missing API key raises `InvalidOperationException` with the code's
  message, before any URL is built.
- No cache exists in the code, so none is modelled.

## Model

| member | source | states |
|---|---|---|
| `Types.SpecifyKind` | StockScout.Api/QuoteMapper.cs:14 | the same ticks, relabelled with the given kind, as DateTime.SpecifyKind |
| `QuoteMapper.GetString` | StockScout.Api/QuoteMapper.cs:11 | the property's JSON string text, or "" when the property is missing or JSON null |
| `QuoteMapper.GetDecimal` | StockScout.Api/QuoteMapper.cs:12 | with parsers that reject "", the decimal parse of the property's text, absent exactly when it is missing, null or unparsable |
| `QuoteMapper.GetLong` | StockScout.Api/QuoteMapper.cs:13 | with parsers that reject "", the 64-bit parse of the property's text, absent exactly when it is missing, null or unparsable |
| `QuoteMapper.GetDate` | StockScout.Api/QuoteMapper.cs:14 | always kind Utc; with parsers that reject "", the parsed ticks relabelled Utc, absent exactly when missing, null or unparsable |
| `QuoteMapper.MapFromGlobalQuote` | StockScout.Api/QuoteMapper.cs:7-30 | no "Global Quote" gives null; with it, a record exists exactly when "01. symbol" is a non-empty JSON string; the record's symbol is that text; ChangePercent is never null; a trading day is always Utc |
| `QuoteMapper.MissingEnvelopeYieldsNull` | StockScout.Api/QuoteMapper.cs:9 | a root without "Global Quote" maps to null |
| `QuoteMapper.MissingSymbolYieldsNull` | StockScout.Api/QuoteMapper.cs:16-28 | a missing, null or empty "01. symbol" maps to null whatever else the object holds, a parsable price included |
| `QuoteMapper.SymbolTakenVerbatim` | StockScout.Api/QuoteMapper.cs:17-28 | any non-empty symbol text, white space only included, yields a record whose Symbol is exactly that text |
| `QuoteMapper.PriceParsedOrZero` | StockScout.Api/QuoteMapper.cs:18 | Price is the parse of "05. price" when it parses and 0 otherwise, a missing or null property included |
| `QuoteMapper.OptionalDecimalFromOwnKey` | StockScout.Api/QuoteMapper.cs:19-23 | Open, High, Low, PreviousClose and Change each equal the parse of their own property's text, and are absent exactly when it is missing, null or unparsable |
| `QuoteMapper.ChangePercentIsRawText` | StockScout.Api/QuoteMapper.cs:24 | ChangePercent is present and is the raw "10. change percent" text, or "" when missing or null |
| `QuoteMapper.VolumeFromOwnKey` | StockScout.Api/QuoteMapper.cs:25 | Volume is the 64-bit parse of "06. volume", absent exactly when missing, null or unparsable |
| `QuoteMapper.LatestTradingDayIsUtc` | StockScout.Api/QuoteMapper.cs:26 | LatestTradingDay is present exactly when "07. latest trading day" parses; it keeps the parsed ticks and has kind Utc whatever kind was parsed |
| `QuoteMapper.EachFieldDependsOnOwnKey` | StockScout.Api/QuoteMapper.cs:16-27 | two quote objects that agree on one property give records that agree on that property's field |
| `QuoteMapper.MissingNullAndEmptyAgree` | StockScout.Api/QuoteMapper.cs:11-14 | removing any property, setting it to JSON null and setting it to "" give the same mapping result |
| `QuoteMapper.ValidPayloadMapsToDto` | StockScout.Api.Tests/QuoteMapperTests.cs:10-44 | the valid-payload test document maps to the record the test expects, given parsers that read its texts |
| `QuoteMapper.PriceWithoutSymbolYieldsNull` | StockScout.Api.Tests/QuoteMapperTests.cs:56-64 | a "Global Quote" holding only "05. price" maps to null |
| `AlphaVantage.AlphaVantageOptions.constructor` | StockScout.Api/Program.cs:44-48 | a fresh options object has no API key and the default base URL |
| `AlphaVantage.AlphaVantageClient.constructor` | StockScout.Api/Program.cs:59-63 | the client keeps the options object it is given |
| `AlphaVantage.IsSuccessStatusCode` | StockScout.Api/Program.cs:73 | a status counts as success exactly when it is in the 2xx class |
| `AlphaVantage.QueryUrl` | StockScout.Api/Program.cs:70 | the URL is the base URL, the fixed GLOBAL_QUOTE query head, the escaped symbol, then "&apikey=" and the unescaped key, each at its own position |
| `AlphaVantage.ResponseOutcome` | StockScout.Api/Program.cs:72-100 | throws exactly for a failed request (HttpRequestException) or a successful non-JSON body (JsonException); returns a quote only from a successful JSON body, and then the QuoteMapper result |
| `AlphaVantage.AlphaVantageClient.GetQuoteAsync` | StockScout.Api/Program.cs:65-101 | a null or empty key throws InvalidOperationException and sends nothing; otherwise exactly BaseUrl + "/query?function=GLOBAL_QUOTE&symbol=" + escape(symbol) + "&apikey=" + key is sent and the outcome is the response's, with the inline mapping equal to QuoteMapper.MapFromGlobalQuote on every document |
| `AlphaVantage.NonSuccessStatusYieldsNull` | StockScout.Api/Program.cs:73 | a non-success status gives null for every body, an unparsable one included |
| `AlphaVantage.MissingEnvelopeYieldsNull` | StockScout.Api/Program.cs:76 | a successful body without "Global Quote" gives null |
| `AlphaVantage.QueryUrlDeterminesSymbol` | StockScout.Api/Program.cs:70 | with a fixed configuration and injective escaping, equal request URLs mean equal symbols |
| `QuoteEndpoint.NormalizeSymbol` | StockScout.Api/Program.cs:34 | symbol.Trim().ToUpperInvariant() is trimmed, has no lower-case ASCII letter, is no longer than the input, and is empty exactly when the input is all white space |
| `QuoteEndpoint.ToHttpResult` | StockScout.Api/Program.cs:35 | null becomes NotFound, a quote becomes Ok carrying that same quote, never BadRequest |
| `QuoteEndpoint.GetQuote` | StockScout.Api/Program.cs:31-36 | BadRequest("Symbol required") exactly for a null or white-space symbol; otherwise the client's answer for the normalised symbol, its exception escaping |
| `QuoteEndpoint.BlankSymbolNeverReachesClient` | StockScout.Api/Program.cs:33 | for a blank symbol every client gives the same BadRequest, so none is consulted |
| `QuoteEndpoint.OnlyNormalizedSymbolReachesClient` | StockScout.Api/Program.cs:34 | the answer depends on the client only through its answer for symbol.Trim().ToUpperInvariant() |
| `QuoteEndpoint.NormalizedSymbolShape` | StockScout.Api/Program.cs:33-34 | a symbol passing the blank check reaches the client non-empty, trimmed and without lower-case ASCII letters |
| `QuoteEndpoint.TrimmedUpperIsFixed` | StockScout.Api/Program.cs:34 | a trimmed string with no lower-case ASCII letter is its own normalised symbol |
| `QuoteEndpoint.NormalizeSymbolIdempotent` | StockScout.Api/Program.cs:34 | normalising a normalised symbol changes nothing |
| `Text.WhiteSpaceSamples` | StockScout.Api/Program.cs:33-34 | of `Text.IsWhiteSpace`, the set U+0009..U+000D, U+0085 and the Zs/Zl/Zp characters that char.IsWhiteSpace accepts: space, tab, line feed and carriage return are in it, ASCII letters and digits are not |
| `Text.IsNullOrEmpty` | StockScout.Api/Program.cs:67 | null or of length 0, and then also null or white space |
| `Text.IsNullOrWhiteSpace` | StockScout.Api/Program.cs:33 | null, or a string that trimming reduces to "" |
| `Text.Trim` | StockScout.Api/Program.cs:34 | the result has no white space at either end and is no longer than the input |
| `Text.TrimSplits` | StockScout.Api/Program.cs:34 | the input is leading white space, then the trimmed text, then trailing white space |
| `Text.TrimCharacterized` | StockScout.Api/Program.cs:34 | any split into white space, a part with no white space at its ends, and white space has that part as its Trim |
| `Text.TrimIdempotent` | StockScout.Api/Program.cs:34 | trimming twice is trimming once |
| `Text.TrimEmptyIffWhiteSpace` | StockScout.Api/Program.cs:33-34 | a string is all white space exactly when trimming it leaves "" |
| `Text.ToUpperInvariant` | StockScout.Api/Program.cs:34 | keeps the length; each `a`..`z` becomes the matching `A`..`Z` and every other character stays as it is |

## Left out

- Hosting, dependency injection, CORS, Swagger and app startup (Program.cs:4-26, 39): framework wiring with no decisions in it.
- The health endpoint (Program.cs:28): it only reads the wall clock.
- HTTP and JSON mechanics (`IHttpClientFactory`, `GetAsync`, stream reading, `JsonDocument.ParseAsync`, async cancellation): their effect is the `send` parameter and the `Exchange` and `ResponseBody` values. Cancellation is not modelled.
- AlphaVantage.AlphaVantageClient.GetQuoteAsync: every failure of `GetAsync` is reported as `HttpRequestException`; the other exceptions it raises are not modelled, such as `TaskCanceledException` on the HTTP client's time-out and `InvalidOperationException` when BaseUrl does not give an absolute URL (BaseUrl "", say).
- The mapping of an exception escaping the handler to a 500 response is the framework's; the model stops at `Faulted`.
- `decimal.TryParse`, `long.TryParse` and `DateTime.TryParse` (culture-dependent) and `Uri.EscapeDataString` (RFC 3986 percent-encoding): library code, taken as parameters. The facts assumed of them are hypotheses of the lemmas that need them: rejection of "" (the per-field lemmas and helper contracts), injective escaping (`QueryUrlDeterminesSymbol`) and the test texts' parse results (`ValidPayloadMapsToDto`).
- Text.ToUpperInvariant: models ASCII letters only; invariant upper-casing of other letters (for example `é`) is not modelled.
- QuoteEndpoint.TrimmedUpperIsFixed: holds only under the ASCII model of upper-casing; .NET's `ToUpperInvariant` also changes non-ASCII lower-case letters, so a trimmed "é" has no lower-case ASCII letter yet normalises to "É".
- JSON values other than strings and null inside "Global Quote" (`GetString()` throws on them), a "Global Quote" that is not an object, and a root that is not a JSON object (a body of `[]` or `"Invalid API call"`, on which `TryGetProperty` throws `InvalidOperationException`): the document type admits only an object root whose "Global Quote" holds strings and nulls.
- `decimal` is modelled by its exact value as `real`, so its 28-digit precision and scale are not modelled. `DateTime` ticks are not bounded.
- The TTL cache, its "quote:" keys and `CacheTtlSeconds`: no code implements them.
- The React/TypeScript UI and Firebase authentication: UI state and a third-party SDK, with no core to model.
