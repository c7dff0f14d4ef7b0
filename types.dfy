/**
 * The values the quote core passes around: the `QuoteDto` record, the
 * .NET value types it is built from, the parsed JSON document and the
 * library parsers the mapper calls.
 */
module Types {
  import opened Wrappers

  const MinInt64: int := -0x8000_0000_0000_0000
  const MaxInt64: int := 0x7FFF_FFFF_FFFF_FFFF

  predicate IsInt64(x: int) {
    MinInt64 <= x <= MaxInt64
  }

  /** C#'s `long`. */
  type Int64 = x: int | IsInt64(x)

  /** C#'s `decimal`, modelled by its exact value. */
  type Decimal = real

  datatype DateTimeKind = Unspecified | Utc | Local

  /** `System.DateTime`: a tick count and the kind that says how to read it. */
  datatype DateTime = DateTime(ticks: int, kind: DateTimeKind)

  /** `DateTime.SpecifyKind`: the same ticks, relabelled with `kind`. */
  function SpecifyKind(dt: DateTime, kind: DateTimeKind): (r: DateTime)
    ensures r.ticks == dt.ticks && r.kind == kind
  {
    dt.(kind := kind)
  }

  /** The `QuoteDto` record, field for field. */
  datatype QuoteDto = QuoteDto(
    Symbol: string,
    Price: Decimal,
    Open: Option<Decimal>,
    High: Option<Decimal>,
    Low: Option<Decimal>,
    PreviousClose: Option<Decimal>,
    Change: Option<Decimal>,
    ChangePercent: Option<string>,
    Volume: Option<Int64>,
    LatestTradingDay: Option<DateTime>)

  /** A property value inside the "Global Quote" object: a JSON string or JSON null. */
  datatype JsonValue = JString(text: string) | JNull

  /**
   * A parsed provider response, as far as the core reads it: the members of
   * the root's "Global Quote" object, or None when the root has no such
   * property. Other root members are never read.
   */
  datatype JsonDocument = JsonDocument(globalQuote: Option<map<string, JsonValue>>)

  /**
   * The culture-dependent library parsers `decimal.TryParse`,
   * `long.TryParse` and `DateTime.TryParse`, each giving None where the
   * library returns false.
   */
  datatype Parsers = Parsers(
    tryParseDecimal: string -> Option<Decimal>,
    tryParseLong: string -> Option<Int64>,
    tryParseDateTime: string -> Option<DateTime>)

  /** What every culture's parsers do with the empty string: reject it. */
  predicate RejectsEmpty(p: Parsers) {
    p.tryParseDecimal("") == None && p.tryParseLong("") == None && p.tryParseDateTime("") == None
  }
}
