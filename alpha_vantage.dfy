/**
 * `AlphaVantageOptions` and `AlphaVantageClient.GetQuoteAsync`: check the
 * API key, build the request URL, send it, and map a successful response
 * with an inlined copy of the quote mapper. The HTTP exchange is a
 * parameter: `send` gives the provider's answer to a request URL.
 */
module AlphaVantage {
  import opened Wrappers
  import opened Text
  import opened Types
  import QuoteMapper

  const DefaultBaseUrl := "https://www.alphavantage.co"
  const ApiKeyNotConfigured := "AlphaVantage ApiKey not configured. Set AlphaVantage:ApiKey in appsettings or environment (ALPHAVANTAGE__APIKEY)."

  /** The exceptions GetQuoteAsync lets escape. */
  datatype Exception =
    | InvalidOperationException(message: string)  // no API key configured
    | HttpRequestException                         // the request itself failed
    | JsonException                                // the body is not JSON

  datatype ResponseBody = Parsed(doc: JsonDocument) | Unparsable

  /** What sending the request produced. */
  datatype Exchange = TransportFailure | Response(statusCode: int, body: ResponseBody)

  /** How a call of GetQuoteAsync ends: an exception, or a quote that may be null. */
  datatype ClientOutcome = Threw(exception: Exception) | Returned(quote: Option<QuoteDto>)

  /** `HttpResponseMessage.IsSuccessStatusCode`: the status is in the 2xx class. */
  predicate IsSuccessStatusCode(statusCode: int)
    ensures IsSuccessStatusCode(statusCode) <==> statusCode >= 0 && statusCode / 100 == 2
  {
    200 <= statusCode <= 299
  }

  const QueryHead := "/query?function=GLOBAL_QUOTE&symbol="
  const KeyParameter := "&apikey="

  /**
   * The request URL: the base URL and the fixed query head, then the escaped
   * symbol, then the key parameter with the key unescaped.
   */
  function QueryUrl(baseUrl: string, escapedSymbol: string, apiKey: string): (r: string)
    ensures |r| == |baseUrl| + |QueryHead| + |escapedSymbol| + |KeyParameter| + |apiKey|
    ensures r[..|baseUrl|] == baseUrl
    ensures r[|baseUrl|..|baseUrl| + |QueryHead|] == QueryHead
    ensures r[|baseUrl| + |QueryHead|..|r| - |KeyParameter| - |apiKey|] == escapedSymbol
    ensures r[|r| - |KeyParameter| - |apiKey|..] == KeyParameter + apiKey
  {
    baseUrl + QueryHead + escapedSymbol + KeyParameter + apiKey
  }

  /**
   * What the client makes of the provider's answer, with the mapping done by
   * QuoteMapper: it throws for a failed request or a successful body that is
   * not JSON, and returns a quote only for a successful JSON body with a
   * "Global Quote" that maps.
   */
  function ResponseOutcome(e: Exchange, p: Parsers): (r: ClientOutcome)
    ensures r.Threw? <==> e.TransportFailure? || (IsSuccessStatusCode(e.statusCode) && e.body.Unparsable?)
    ensures r.Threw? ==> r.exception == (if e.TransportFailure? then HttpRequestException else JsonException)
    ensures r.Returned? && r.quote.Some? ==>
      e.Response? && IsSuccessStatusCode(e.statusCode) && e.body.Parsed?
      && r.quote == QuoteMapper.MapFromGlobalQuote(e.body.doc, p)
    ensures e.Response? && IsSuccessStatusCode(e.statusCode) && e.body.Parsed? ==>
      r == Returned(QuoteMapper.MapFromGlobalQuote(e.body.doc, p))
  {
    match e
    case TransportFailure => Threw(HttpRequestException)
    case Response(statusCode, body) =>
      if !IsSuccessStatusCode(statusCode) then Returned(None)
      else match body
        case Unparsable => Threw(JsonException)
        case Parsed(doc) => Returned(QuoteMapper.MapFromGlobalQuote(doc, p))
  }

  /** A non-success status yields null whatever the body holds: the body is not parsed. */
  lemma NonSuccessStatusYieldsNull(statusCode: int, body: ResponseBody, p: Parsers)
    requires !IsSuccessStatusCode(statusCode)
    ensures ResponseOutcome(Response(statusCode, body), p) == Returned(None)
  {
  }

  /** A successful response whose body lacks "Global Quote" yields null. */
  lemma MissingEnvelopeYieldsNull(statusCode: int, p: Parsers)
    requires IsSuccessStatusCode(statusCode)
    ensures ResponseOutcome(Response(statusCode, Parsed(JsonDocument(None))), p) == Returned(None)
  {
  }

  /**
   * The request URL determines the symbol: for a fixed configuration and an
   * injective escaping, different symbols give different URLs.
   */
  lemma QueryUrlDeterminesSymbol(baseUrl: string, apiKey: string, escape: string -> string, s1: string, s2: string)
    requires forall a, b :: escape(a) == escape(b) ==> a == b
    requires QueryUrl(baseUrl, escape(s1), apiKey) == QueryUrl(baseUrl, escape(s2), apiKey)
    ensures s1 == s2
  {
    // Both escaped symbols are the same slice of the one URL, between the query head and the key parameter.
    assert escape(s1) == escape(s2);
  }

  /** `AlphaVantageOptions`, bound from configuration. */
  class AlphaVantageOptions {
    var ApiKey: Option<string>
    var BaseUrl: string

    constructor ()
      ensures ApiKey == None && BaseUrl == DefaultBaseUrl
    {
      ApiKey := None;
      BaseUrl := DefaultBaseUrl;
    }
  }

  class AlphaVantageClient {
    const options: AlphaVantageOptions

    constructor (options: AlphaVantageOptions)
      ensures this.options == options
    {
      this.options := options;
    }

    /**
     * Fetches and maps one quote. `request` is the URL sent to the provider,
     * None when no request was made. The body below copies the mapping step
     * by step, as the client does; the postcondition ties it to QuoteMapper.
     */
    method GetQuoteAsync(symbol: string, escapeDataString: string -> string, parsers: Parsers, send: string -> Exchange)
      returns (outcome: ClientOutcome, request: Option<string>)
      ensures IsNullOrEmpty(options.ApiKey) ==>
        outcome == Threw(InvalidOperationException(ApiKeyNotConfigured)) && request == None
      ensures !IsNullOrEmpty(options.ApiKey) ==>
        var url := QueryUrl(options.BaseUrl, escapeDataString(symbol), options.ApiKey.value);
        request == Some(url) && outcome == ResponseOutcome(send(url), parsers)
    {
      if IsNullOrEmpty(options.ApiKey) {
        return Threw(InvalidOperationException(ApiKeyNotConfigured)), None;
      }
      var url := options.BaseUrl + "/query?function=GLOBAL_QUOTE&symbol=" + escapeDataString(symbol)
                 + "&apikey=" + options.ApiKey.value;
      request := Some(url);
      var resp := send(url);
      if resp.TransportFailure? {
        return Threw(HttpRequestException), request;
      }
      if !IsSuccessStatusCode(resp.statusCode) {
        return Returned(None), request;
      }
      if resp.body.Unparsable? {
        return Threw(JsonException), request;
      }
      var doc := resp.body.doc;
      if doc.globalQuote.None? {
        return Returned(None), request;
      }
      var quoteElement := doc.globalQuote.value;
      var getString := (name: string) =>
        if name in quoteElement && quoteElement[name].JString? then quoteElement[name].text else "";
      var getDecimal := (name: string) => parsers.tryParseDecimal(getString(name));
      var getLong := (name: string) => parsers.tryParseLong(getString(name));
      var getDate := (name: string) =>
        match parsers.tryParseDateTime(getString(name))
        case Some(dt) => Some(SpecifyKind(dt, Utc))
        case None => None;
      var dto := QuoteDto(
        Symbol := getString("01. symbol"),
        Price := getDecimal("05. price").GetOr(0.0),
        Open := getDecimal("02. open"),
        High := getDecimal("03. high"),
        Low := getDecimal("04. low"),
        PreviousClose := getDecimal("08. previous close"),
        Change := getDecimal("09. change"),
        ChangePercent := Some(getString("10. change percent")),
        Volume := getLong("06. volume"),
        LatestTradingDay := getDate("07. latest trading day"));
      if dto.Symbol == "" {
        return Returned(None), request;
      }
      return Returned(Some(dto)), request;
    }
  }
}
