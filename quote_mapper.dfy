/** `QuoteMapper.MapFromGlobalQuote`: a provider document to a `QuoteDto`, or null. */
module QuoteMapper {
  import opened Wrappers
  import opened Types

  const SymbolKey := "01. symbol"
  const OpenKey := "02. open"
  const HighKey := "03. high"
  const LowKey := "04. low"
  const PriceKey := "05. price"
  const VolumeKey := "06. volume"
  const LatestTradingDayKey := "07. latest trading day"
  const PreviousCloseKey := "08. previous close"
  const ChangeKey := "09. change"
  const ChangePercentKey := "10. change percent"

  /** The string under `name`, with a missing property and JSON null both read as "". */
  function GetString(quote: map<string, JsonValue>, name: string): (r: string)
    ensures r == RawText(quote, name).GetOr("")
  {
    if name in quote then
      match quote[name]
      case JString(t) => t
      case JNull => ""
    else ""
  }

  /** With parsers that reject "", absent exactly when the property is missing, null or unparsable. */
  function GetDecimal(p: Parsers, quote: map<string, JsonValue>, name: string): (r: Option<Decimal>)
    ensures RejectsEmpty(p) ==>
      r == if RawText(quote, name).Some? then p.tryParseDecimal(RawText(quote, name).value) else None
  {
    p.tryParseDecimal(GetString(quote, name))
  }

  /** With parsers that reject "", absent exactly when the property is missing, null or unparsable. */
  function GetLong(p: Parsers, quote: map<string, JsonValue>, name: string): (r: Option<Int64>)
    ensures RejectsEmpty(p) ==>
      r == if RawText(quote, name).Some? then p.tryParseLong(RawText(quote, name).value) else None
  {
    p.tryParseLong(GetString(quote, name))
  }

  /**
   * The parsed date relabelled as Utc with the same ticks; with parsers that
   * reject "", absent exactly when missing, null or unparsable.
   */
  function GetDate(p: Parsers, quote: map<string, JsonValue>, name: string): (r: Option<DateTime>)
    ensures r.Some? ==> r.value.kind == Utc
    ensures RejectsEmpty(p) ==>
      var parsed := if RawText(quote, name).Some? then p.tryParseDateTime(RawText(quote, name).value) else None;
      r == if parsed.Some? then Some(DateTime(parsed.value.ticks, Utc)) else None
  {
    match p.tryParseDateTime(GetString(quote, name))
    case Some(dt) => Some(SpecifyKind(dt, Utc))
    case None => None
  }

  /**
   * The raw text of a property: Some when it is present and a JSON string,
   * None when it is missing or JSON null.
   */
  function RawText(quote: map<string, JsonValue>, name: string): Option<string> {
    if name in quote && quote[name].JString? then Some(quote[name].text) else None
  }

  function MapFromGlobalQuote(doc: JsonDocument, p: Parsers): (r: Option<QuoteDto>)
    ensures doc.globalQuote.None? ==> r.None?
    ensures doc.globalQuote.Some? ==>
      (r.Some? <==> RawText(doc.globalQuote.value, SymbolKey).Some? && RawText(doc.globalQuote.value, SymbolKey).value != "")
    ensures r.Some? ==> r.value.Symbol != "" && Some(r.value.Symbol) == RawText(doc.globalQuote.value, SymbolKey)
    ensures r.Some? ==> r.value.ChangePercent.Some?
    ensures r.Some? && r.value.LatestTradingDay.Some? ==> r.value.LatestTradingDay.value.kind == Utc
  {
    if doc.globalQuote.None? then None
    else
      var quoteElement := doc.globalQuote.value;
      var dto := QuoteDto(
        Symbol := GetString(quoteElement, SymbolKey),
        Price := GetDecimal(p, quoteElement, PriceKey).GetOr(0.0),
        Open := GetDecimal(p, quoteElement, OpenKey),
        High := GetDecimal(p, quoteElement, HighKey),
        Low := GetDecimal(p, quoteElement, LowKey),
        PreviousClose := GetDecimal(p, quoteElement, PreviousCloseKey),
        Change := GetDecimal(p, quoteElement, ChangeKey),
        ChangePercent := Some(GetString(quoteElement, ChangePercentKey)),
        Volume := GetLong(p, quoteElement, VolumeKey),
        LatestTradingDay := GetDate(p, quoteElement, LatestTradingDayKey));
      if dto.Symbol == "" then None else Some(dto)
  }

  /** A root without "Global Quote" yields null. */
  lemma MissingEnvelopeYieldsNull(p: Parsers)
    ensures MapFromGlobalQuote(JsonDocument(None), p) == None
  {
  }

  /** A missing, null-valued or empty symbol yields null, whatever the other properties hold. */
  lemma MissingSymbolYieldsNull(quote: map<string, JsonValue>, p: Parsers)
    requires RawText(quote, SymbolKey) == None || RawText(quote, SymbolKey) == Some("")
    ensures MapFromGlobalQuote(JsonDocument(Some(quote)), p) == None
  {
  }

  /** Any non-empty symbol is taken verbatim: no trimming, no case change, white space accepted. */
  lemma SymbolTakenVerbatim(quote: map<string, JsonValue>, p: Parsers, s: string)
    requires SymbolKey in quote && quote[SymbolKey] == JString(s) && s != ""
    ensures var r := MapFromGlobalQuote(JsonDocument(Some(quote)), p);
      r.Some? && r.value.Symbol == s
  {
  }

  /**
   * The price is the parsed "05. price" when that parses and 0 otherwise,
   * a missing or null property included.
   */
  lemma PriceParsedOrZero(quote: map<string, JsonValue>, p: Parsers)
    requires RejectsEmpty(p)
    requires MapFromGlobalQuote(JsonDocument(Some(quote)), p).Some?
    ensures var dto := MapFromGlobalQuote(JsonDocument(Some(quote)), p).value;
      dto.Price == match RawText(quote, PriceKey)
                   case Some(t) => p.tryParseDecimal(t).GetOr(0.0)
                   case None => 0.0
  {
  }

  const OptionalDecimalKeys: set<string> := {OpenKey, HighKey, LowKey, PreviousCloseKey, ChangeKey}

  /** The field of `dto` that the mapper fills from the optional decimal property `name`. */
  function OptionalDecimal(dto: QuoteDto, name: string): Option<Decimal>
    requires name in OptionalDecimalKeys
  {
    if name == OpenKey then dto.Open
    else if name == HighKey then dto.High
    else if name == LowKey then dto.Low
    else if name == PreviousCloseKey then dto.PreviousClose
    else dto.Change
  }

  /**
   * Open, High, Low, PreviousClose and Change are each absent exactly when
   * their own property is missing, null or does not parse, and otherwise
   * hold its parse.
   */
  lemma OptionalDecimalFromOwnKey(quote: map<string, JsonValue>, p: Parsers, name: string)
    requires RejectsEmpty(p)
    requires name in OptionalDecimalKeys
    requires MapFromGlobalQuote(JsonDocument(Some(quote)), p).Some?
    ensures var dto := MapFromGlobalQuote(JsonDocument(Some(quote)), p).value;
      OptionalDecimal(dto, name) == match RawText(quote, name)
                                    case Some(t) => p.tryParseDecimal(t)
                                    case None => None
  {
  }

  /** ChangePercent is the raw text, or "" when the property is missing or null; never null itself. */
  lemma ChangePercentIsRawText(quote: map<string, JsonValue>, p: Parsers)
    requires MapFromGlobalQuote(JsonDocument(Some(quote)), p).Some?
    ensures var dto := MapFromGlobalQuote(JsonDocument(Some(quote)), p).value;
      dto.ChangePercent == Some(RawText(quote, ChangePercentKey).GetOr(""))
  {
  }

  /**
   * Volume is the parse of "06. volume", absent when missing, null or
   * unparsable; that it fits in 64 bits is the Int64 type of the field.
   */
  lemma VolumeFromOwnKey(quote: map<string, JsonValue>, p: Parsers)
    requires RejectsEmpty(p)
    requires MapFromGlobalQuote(JsonDocument(Some(quote)), p).Some?
    ensures var dto := MapFromGlobalQuote(JsonDocument(Some(quote)), p).value;
      dto.Volume == match RawText(quote, VolumeKey)
                       case Some(t) => p.tryParseLong(t)
                       case None => None
  {
  }

  /**
   * LatestTradingDay is the parse of "07. latest trading day" with its kind
   * forced to Utc, whatever kind the parser gave; absent when missing, null
   * or unparsable.
   */
  lemma LatestTradingDayIsUtc(quote: map<string, JsonValue>, p: Parsers)
    requires RejectsEmpty(p)
    requires MapFromGlobalQuote(JsonDocument(Some(quote)), p).Some?
    ensures var dto := MapFromGlobalQuote(JsonDocument(Some(quote)), p).value;
      var parsed := if RawText(quote, LatestTradingDayKey).Some?
                    then p.tryParseDateTime(RawText(quote, LatestTradingDayKey).value) else None;
      && (dto.LatestTradingDay.Some? <==> parsed.Some?)
      && (parsed.Some? ==> dto.LatestTradingDay.value == DateTime(parsed.value.ticks, Utc))
  {
  }

  /** Two quote objects agree on property `name`. */
  predicate AgreeOn(q1: map<string, JsonValue>, q2: map<string, JsonValue>, name: string) {
    (name in q1 <==> name in q2) && (name in q1 ==> q1[name] == q2[name])
  }

  /** Each field of the record depends only on its own property. */
  lemma EachFieldDependsOnOwnKey(q1: map<string, JsonValue>, q2: map<string, JsonValue>, p: Parsers)
    requires MapFromGlobalQuote(JsonDocument(Some(q1)), p).Some?
    requires MapFromGlobalQuote(JsonDocument(Some(q2)), p).Some?
    ensures var d1, d2 := MapFromGlobalQuote(JsonDocument(Some(q1)), p).value,
                          MapFromGlobalQuote(JsonDocument(Some(q2)), p).value;
      && (AgreeOn(q1, q2, SymbolKey) ==> d1.Symbol == d2.Symbol)
      && (AgreeOn(q1, q2, PriceKey) ==> d1.Price == d2.Price)
      && (AgreeOn(q1, q2, OpenKey) ==> d1.Open == d2.Open)
      && (AgreeOn(q1, q2, HighKey) ==> d1.High == d2.High)
      && (AgreeOn(q1, q2, LowKey) ==> d1.Low == d2.Low)
      && (AgreeOn(q1, q2, PreviousCloseKey) ==> d1.PreviousClose == d2.PreviousClose)
      && (AgreeOn(q1, q2, ChangeKey) ==> d1.Change == d2.Change)
      && (AgreeOn(q1, q2, ChangePercentKey) ==> d1.ChangePercent == d2.ChangePercent)
      && (AgreeOn(q1, q2, VolumeKey) ==> d1.Volume == d2.Volume)
      && (AgreeOn(q1, q2, LatestTradingDayKey) ==> d1.LatestTradingDay == d2.LatestTradingDay)
  {
  }

  lemma GetStringMissingNullEmpty(quote: map<string, JsonValue>, name: string, key: string)
    ensures GetString(quote - {name}, key) == GetString(quote[name := JNull], key)
    ensures GetString(quote - {name}, key) == GetString(quote[name := JString("")], key)
  {
  }

  /**
   * Removing a property, setting it to JSON null and setting it to "" give
   * the same result, for every property name.
   */
  lemma MissingNullAndEmptyAgree(quote: map<string, JsonValue>, p: Parsers, name: string)
    ensures var missing := MapFromGlobalQuote(JsonDocument(Some(quote - {name})), p);
      && missing == MapFromGlobalQuote(JsonDocument(Some(quote[name := JNull])), p)
      && missing == MapFromGlobalQuote(JsonDocument(Some(quote[name := JString("")])), p)
  {
    var keys := [SymbolKey, OpenKey, HighKey, LowKey, PriceKey, VolumeKey, LatestTradingDayKey,
                 PreviousCloseKey, ChangeKey, ChangePercentKey];
    forall k | k in keys
      ensures GetString(quote - {name}, k) == GetString(quote[name := JNull], k)
      ensures GetString(quote - {name}, k) == GetString(quote[name := JString("")], k)
    {
      GetStringMissingNullEmpty(quote, name, k);
    }
  }

  /** The payload of the valid-payload unit test. */
  const ValidPayload: JsonDocument := JsonDocument(Some(map[
    SymbolKey := JString("MSFT"),
    OpenKey := JString("400.00"),
    HighKey := JString("405.00"),
    LowKey := JString("395.00"),
    PriceKey := JString("402.34"),
    VolumeKey := JString("123456"),
    LatestTradingDayKey := JString("2024-11-12"),
    PreviousCloseKey := JString("401.00"),
    ChangeKey := JString("1.34"),
    ChangePercentKey := JString("0.33%")]))

  /** With parsers that read these decimal texts, the valid payload maps to the expected record. */
  lemma ValidPayloadMapsToDto(p: Parsers)
    requires p.tryParseDecimal("400.00") == Some(400.00)
    requires p.tryParseDecimal("405.00") == Some(405.00)
    requires p.tryParseDecimal("395.00") == Some(395.00)
    requires p.tryParseDecimal("402.34") == Some(402.34)
    requires p.tryParseDecimal("401.00") == Some(401.00)
    requires p.tryParseDecimal("1.34") == Some(1.34)
    requires p.tryParseLong("123456") == Some(123456)
    requires p.tryParseDateTime("2024-11-12").Some?
    ensures var r := MapFromGlobalQuote(ValidPayload, p);
      && r.Some?
      && r.value == QuoteDto("MSFT", 402.34, Some(400.00), Some(405.00), Some(395.00), Some(401.00),
                             Some(1.34), Some("0.33%"), Some(123456),
                             Some(DateTime(p.tryParseDateTime("2024-11-12").value.ticks, Utc)))
  {
    var q := ValidPayload.globalQuote.value;
    assert GetString(q, SymbolKey) == "MSFT";
    assert GetString(q, OpenKey) == "400.00";
    assert GetString(q, HighKey) == "405.00";
    assert GetString(q, LowKey) == "395.00";
    assert GetString(q, PriceKey) == "402.34";
    assert GetString(q, VolumeKey) == "123456";
    assert GetString(q, LatestTradingDayKey) == "2024-11-12";
    assert GetString(q, PreviousCloseKey) == "401.00";
    assert GetString(q, ChangeKey) == "1.34";
    assert GetString(q, ChangePercentKey) == "0.33%";
  }

  /** A payload with only a price and no symbol maps to null. */
  lemma PriceWithoutSymbolYieldsNull(p: Parsers)
    ensures MapFromGlobalQuote(JsonDocument(Some(map[PriceKey := JString("10.00")])), p) == None
  {
  }
}
