/**
 * The `/api/quote/{symbol}` handler: reject a blank symbol, normalise the
 * rest, ask the client, and turn its answer into an HTTP result. The
 * client is a parameter: `getQuoteAsync` gives how a call with a given
 * symbol ends.
 */
module QuoteEndpoint {
  import opened Wrappers
  import opened Text
  import opened Types
  import opened AlphaVantage

  const SymbolRequired := "Symbol required"

  datatype HttpResult = BadRequest(error: string) | NotFound | Ok(value: QuoteDto)

  /** A handler either completes with a result or lets the client's exception escape. */
  datatype HandlerOutcome = Completed(result: HttpResult) | Faulted(exception: Exception)

  /**
   * The symbol handed to the client: `symbol.Trim().ToUpperInvariant()`. It
   * is trimmed, has no lower-case ASCII letter, and is empty exactly when the
   * symbol is all white space.
   */
  function NormalizeSymbol(symbol: string): (r: string)
    ensures IsTrimmed(r) && HasNoLowerAscii(r)
    ensures |r| <= |symbol|
    ensures r == "" <==> AllWhiteSpace(symbol)
  {
    TrimEmptyIffWhiteSpace(symbol);
    ToUpperInvariant(Trim(symbol))
  }

  /** null becomes NotFound; a quote becomes Ok carrying that same quote. */
  function ToHttpResult(quote: Option<QuoteDto>): (r: HttpResult)
    ensures r.NotFound? <==> quote.None?
    ensures quote.Some? ==> r == Ok(quote.value)
    ensures !r.BadRequest?
  {
    match quote
    case None => NotFound
    case Some(q) => Ok(q)
  }

  function GetQuote(symbol: Option<string>, getQuoteAsync: string -> ClientOutcome): (r: HandlerOutcome)
    ensures r == Completed(BadRequest(SymbolRequired)) <==> IsNullOrWhiteSpace(symbol)
    ensures !IsNullOrWhiteSpace(symbol) ==>
      match getQuoteAsync(NormalizeSymbol(symbol.value))
      case Threw(e) => r == Faulted(e)
      case Returned(quote) => r == Completed(ToHttpResult(quote))
  {
    if IsNullOrWhiteSpace(symbol) then Completed(BadRequest(SymbolRequired))
    else
      match getQuoteAsync(NormalizeSymbol(symbol.value))
      case Threw(e) => Faulted(e)
      case Returned(quote) => Completed(ToHttpResult(quote))
  }

  /** A blank symbol is answered with BadRequest without asking the client: any client gives the same answer. */
  lemma BlankSymbolNeverReachesClient(symbol: Option<string>, c1: string -> ClientOutcome, c2: string -> ClientOutcome)
    requires IsNullOrWhiteSpace(symbol)
    ensures GetQuote(symbol, c1) == GetQuote(symbol, c2) == Completed(BadRequest(SymbolRequired))
  {
  }

  /** Otherwise the client is asked about the normalised symbol and nothing else. */
  lemma OnlyNormalizedSymbolReachesClient(symbol: string, c1: string -> ClientOutcome, c2: string -> ClientOutcome)
    requires !IsNullOrWhiteSpace(Some(symbol))
    requires c1(NormalizeSymbol(symbol)) == c2(NormalizeSymbol(symbol))
    ensures GetQuote(Some(symbol), c1) == GetQuote(Some(symbol), c2)
  {
  }

  /**
   * A symbol that passes the blank check reaches the client non-empty,
   * trimmed and without lower-case ASCII letters.
   */
  lemma NormalizedSymbolShape(symbol: string)
    requires !IsNullOrWhiteSpace(Some(symbol))
    ensures NormalizeSymbol(symbol) != ""
    ensures IsTrimmed(NormalizeSymbol(symbol))
    ensures HasNoLowerAscii(NormalizeSymbol(symbol))
  {
  }

  /** A trimmed string with no lower-case ASCII letter is left as it is by normalisation. */
  lemma TrimmedUpperIsFixed(n: string)
    requires IsTrimmed(n) && HasNoLowerAscii(n)
    ensures NormalizeSymbol(n) == n
  {
  }

  /** Normalising an already normalised symbol changes nothing. */
  lemma NormalizeSymbolIdempotent(symbol: string)
    ensures NormalizeSymbol(NormalizeSymbol(symbol)) == NormalizeSymbol(symbol)
  {
    TrimmedUpperIsFixed(NormalizeSymbol(symbol));
  }
}
