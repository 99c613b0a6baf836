/**
 * The Flask back end's query handling: `extract_parameters` turns a free-text
 * query into time range, metrics, indicators and chart type;
 * `preprocess_input` filters the price table by that range and keeps the
 * requested columns; `generate_explanation` writes the answer text.
 *
 * The wall clock is an input: `Clock` holds today's date and the dates 30 and
 * 90 days before it, read once by the caller.
 */
module DataProcessing {
  import opened Wrappers
  import opened Text
  import opened Dates

  datatype ChartType = Line | Dual | Bar | Candlestick

  /** The `params` dict; `timeRange` is `None` for the empty dict `{}`. */
  datatype Params = Params(
    timeRange: Option<DateRange>,
    metrics: seq<string>,
    indicators: seq<string>,
    chartType: ChartType)

  datatype Clock = Clock(today: Date, thirtyDaysAgo: Date, ninetyDaysAgo: Date)

  const VolumeWords: seq<string> := ["volumen", "volumenes", "volumenes"]
  const PriceWords: seq<string> := ["precio", "close", "apertura", "open", "máximo", "high", "mínimo", "low"]
  const RsiWords: seq<string> := ["rsi", "fuerza relativa"]
  const SmaWords: seq<string> := ["media móvil", "sma", "promedio móvil", "moving average"]
  const VolatilityWords: seq<string> := ["volatilidad", "desviación estándar", "std dev"]

  /** The three indicators in the order `extract_parameters` appends them. */
  const IndicatorOrder: seq<string> := ["rsi", "sma", "volatility"]

  // ---------------------------------------------------------------- extract_parameters, field by field

  predicate AsksTrades(q: string) {
    Contains(q, "operaciones") || Contains(q, "trades")
  }

  /** The single price column a price keyword selects: open, then high, then low, else close. */
  function PriceColumn(q: string): string {
    if Contains(q, "open") then "open"
    else if Contains(q, "high") || Contains(q, "máximo") then "high"
    else if Contains(q, "low") || Contains(q, "mínimo") then "low"
    else "close"
  }

  /**
   * Final `metrics`: trades win, then any price keyword (one column), then
   * volume alone, else the default close and volume. The volume rule's
   * ['close', 'volume'] never survives: its "precio"/"close" cue is itself a
   * price keyword.
   */
  function MetricsOf(q: string): (m: seq<string>)
    ensures |m| == 1 || m == ["close", "volume"]
    ensures m == ["close", "volume"] <==> !AsksTrades(q) && !ContainsAny(q, PriceWords) && !ContainsAny(q, VolumeWords)
  {
    if AsksTrades(q) then ["number_of_trades"]
    else if ContainsAny(q, PriceWords) then [PriceColumn(q)]
    else if ContainsAny(q, VolumeWords) then ["volume"]
    else ["close", "volume"]
  }

  /** Final `chart_type`: candlestick over bar over the dual chart of volume with price, else line. */
  function ChartTypeOf(q: string): ChartType {
    if Contains(q, "vela") || Contains(q, "candle") || Contains(q, "japones") then Candlestick
    else if Contains(q, "barra") || Contains(q, "barras") then Bar
    else if ContainsAny(q, VolumeWords) && (Contains(q, "precio") || Contains(q, "close")) then Dual
    else Line
  }

  /** Position of an indicator in the append order. */
  function IndicatorRank(name: string): nat {
    if name == "rsi" then 0 else if name == "sma" then 1 else 2
  }

  /**
   * Final `indicators`: drawn from rsi, sma, volatility in that order, each at
   * most once, each present exactly when one of its keywords occurs.
   */
  function IndicatorsOf(q: string): (r: seq<string>)
    ensures forall i :: 0 <= i < |r| ==> r[i] in IndicatorOrder
    ensures forall i, j :: 0 <= i < j < |r| ==> IndicatorRank(r[i]) < IndicatorRank(r[j])
    ensures "rsi" in r <==> ContainsAny(q, RsiWords)
    ensures "sma" in r <==> ContainsAny(q, SmaWords)
    ensures "volatility" in r <==> ContainsAny(q, VolatilityWords)
  {
    (if ContainsAny(q, RsiWords) then ["rsi"] else [])
    + (if ContainsAny(q, SmaWords) then ["sma"] else [])
    + (if ContainsAny(q, VolatilityWords) then ["volatility"] else [])
  }

  /**
   * Final `time_range`: a year from 2020 to the current year wins (the
   * smallest written), then "último mes", "último trimestre", "último año",
   * else the 30 days ending today.
   */
  function TimeRangeOf(q: string, clock: Clock): DateRange
    requires clock.today.year >= 1
  {
    var year := FirstYearMentioned(q, 2020, clock.today.year + 1);
    if year.Some? then YearRange(year.value)
    else if Contains(q, "último mes") || Contains(q, "últimos 30 días") then DateRange(clock.thirtyDaysAgo, clock.today)
    else if Contains(q, "último trimestre") || Contains(q, "últimos 90 días") then DateRange(clock.ninetyDaysAgo, clock.today)
    else if Contains(q, "último año") then DateRange(Date(clock.today.year - 1, 1, 1), clock.today)
    else DateRange(clock.thirtyDaysAgo, clock.today)
  }

  function ParamsOf(query: string, clock: Clock): Params
    requires clock.today.year >= 1
  {
    var q := Lower(query);
    Params(Some(TimeRangeOf(q, clock)), MetricsOf(q), IndicatorsOf(q), ChartTypeOf(q))
  }

  /**
   * The time-range section of `extract_parameters`: the "último ..." phrases,
   * then the year loop overriding them, then the default when nothing was set.
   */
  method DetectTimeRange(q: string, clock: Clock) returns (timeRange: Option<DateRange>)
    requires clock.today.year >= 1
    ensures timeRange == Some(TimeRangeOf(q, clock))
  {
    timeRange := None;
    var currentYear := clock.today.year;
    if Contains(q, "último mes") || Contains(q, "últimos 30 días") {
      timeRange := Some(DateRange(clock.thirtyDaysAgo, clock.today));
    } else if Contains(q, "último trimestre") || Contains(q, "últimos 90 días") {
      timeRange := Some(DateRange(clock.ninetyDaysAgo, clock.today));
    } else if Contains(q, "último año") {
      timeRange := Some(DateRange(Date(currentYear - 1, 1, 1), clock.today));
    }
    ghost var phrased := timeRange;
    ghost var firstYear := FirstYearMentioned(q, 2020, currentYear + 1);
    assert firstYear.None? ==> TimeRangeOf(q, clock) == phrased.GetOr(DateRange(clock.thirtyDaysAgo, clock.today));
    assert firstYear.Some? ==> TimeRangeOf(q, clock) == YearRange(firstYear.value);

    var year: nat := 2020;
    while year < currentYear + 1
      invariant 2020 <= year
      invariant forall y: nat :: 2020 <= y < year ==> !Contains(q, NatToDecimal(y))
      invariant timeRange == phrased
    {
      if Contains(q, NatToDecimal(year)) {
        timeRange := Some(YearRange(year));
        break;
      }
      year := year + 1;
    }

    if timeRange.None? {
      timeRange := Some(DateRange(clock.thirtyDaysAgo, clock.today));
    }
  }

  /** `extract_parameters`: fills the params dict rule by rule, later rules overwriting earlier ones. */
  method ExtractParameters(query: string, clock: Clock) returns (params: Params)
    requires clock.today.year >= 1
    ensures params == ParamsOf(query, clock)
    ensures params.timeRange.Some?
  {
    var metrics := ["close", "volume"];
    var indicators: seq<string> := [];
    var chartType := Line;
    var q := Lower(query);

    if ContainsAny(q, VolumeWords) {
      metrics := ["volume"];
      if Contains(q, "precio") || Contains(q, "close") {
        metrics, chartType := ["close", "volume"], Dual;
      }
    }
    assert PriceWords[0] == "precio" && PriceWords[1] == "close";
    if ContainsAny(q, PriceWords) {
      metrics := ["close"];
      if Contains(q, "open") {
        metrics := ["open"];
      } else if Contains(q, "high") || Contains(q, "máximo") {
        metrics := ["high"];
      } else if Contains(q, "low") || Contains(q, "mínimo") {
        metrics := ["low"];
      }
    }
    if Contains(q, "operaciones") || Contains(q, "trades") {
      metrics := ["number_of_trades"];
    }
    assert metrics == MetricsOf(q);

    if ContainsAny(q, RsiWords) {
      indicators := indicators + ["rsi"];
    }
    if ContainsAny(q, SmaWords) {
      indicators := indicators + ["sma"];
    }
    if ContainsAny(q, VolatilityWords) {
      indicators := indicators + ["volatility"];
    }
    assert indicators == IndicatorsOf(q);

    if Contains(q, "barra") || Contains(q, "barras") {
      chartType := Bar;
    }
    if Contains(q, "vela") || Contains(q, "candle") || Contains(q, "japones") {
      chartType := Candlestick;
    }
    assert chartType == ChartTypeOf(q);

    var timeRange := DetectTimeRange(q, clock);
    params := Params(timeRange, metrics, indicators, chartType);
  }

  // ---------------------------------------------------------------- properties of extract_parameters

  /**
   * "volumen y precio": the volume rule picks close and volume on a dual chart,
   * then the price rule narrows the metrics to close; the dual chart stays.
   */
  lemma VolumeWithPriceIsDualClose(q: string)
    requires Contains(q, "volumen") && Contains(q, "precio")
    requires !AsksTrades(q)
    requires !Contains(q, "open") && !Contains(q, "high") && !Contains(q, "máximo")
    requires !Contains(q, "low") && !Contains(q, "mínimo")
    requires !Contains(q, "vela") && !Contains(q, "candle") && !Contains(q, "japones")
    requires !Contains(q, "barra") && !Contains(q, "barras")
    ensures MetricsOf(q) == ["close"]
    ensures ChartTypeOf(q) == Dual
  {
    assert VolumeWords[0] == "volumen";
    assert PriceWords[0] == "precio";
  }

  /** An explicit year wins over "último mes" and the other phrases: the range is that whole year. */
  lemma YearOverridesPhrases(q: string, clock: Clock, y: nat)
    requires clock.today.year >= 1
    requires 2020 <= y <= clock.today.year && Contains(q, NatToDecimal(y))
    ensures exists first: nat :: 2020 <= first <= y && TimeRangeOf(q, clock) == YearRange(first)
  {
    var first := FirstYearMentioned(q, 2020, clock.today.year + 1);
    assert first.Some? && first.value <= y;
    assert TimeRangeOf(q, clock) == YearRange(first.value);
  }

  // ---------------------------------------------------------------- preprocess_input

  /** A row of the price table: its timestamp (daily data) and its numeric columns. */
  datatype Row = Row(timestamp: Date, values: map<string, real>)

  /** A table: its column names (including "timestamp") and its rows. */
  datatype Frame = Frame(columns: seq<string>, rows: seq<Row>)

  const AvailableMetrics: seq<string> := ["close", "open", "high", "low", "volume", "number_of_trades"]

  /** `[m for m in requested if m in available_metrics]`. */
  function KeepAvailable(requested: seq<string>): (kept: seq<string>)
    ensures forall m :: m in kept <==> m in requested && m in AvailableMetrics
    ensures |kept| <= |requested|
  {
    if requested == [] then []
    else
      var last := requested[|requested| - 1];
      KeepAvailable(requested[..|requested| - 1]) + (if last in AvailableMetrics then [last] else [])
  }

  /** Filtering commutes with concatenation, so the kept metrics stay in request order. */
  lemma {:induction false} KeepAvailableKeepsOrder(a: seq<string>, b: seq<string>)
    ensures KeepAvailable(a + b) == KeepAvailable(a) + KeepAvailable(b)
    decreases |b|
  {
    if b == [] {
      assert a + b == a;
    } else {
      var b' := b[..|b| - 1];
      assert (a + b)[..|a + b| - 1] == a + b';
      KeepAvailableKeepsOrder(a, b');
    }
  }

  /**
   * The metric columns kept: the available requested ones, or close and
   * volume when none survives. Never empty, never an unknown column.
   */
  function SelectMetrics(requested: seq<string>): (r: seq<string>)
    ensures r != []
    ensures forall m :: m in r ==> m in AvailableMetrics
    ensures (exists m :: m in requested && m in AvailableMetrics) ==> forall m :: m in r <==> m in requested && m in AvailableMetrics
    ensures (forall m :: m in requested ==> m !in AvailableMetrics) ==> r == ["close", "volume"]
  {
    var kept := KeepAvailable(requested);
    assert kept != [] ==> kept[0] in kept;
    if kept == [] then ["close", "volume"] else kept
  }

  /** `['timestamp'] + metrics_to_keep`. */
  function EssentialColumns(requested: seq<string>): (cols: seq<string>)
    ensures |cols| >= 2 && cols[0] == "timestamp"
    ensures forall i :: 1 <= i < |cols| ==> cols[i] in AvailableMetrics
  {
    ["timestamp"] + SelectMetrics(requested)
  }

  /** The inclusive date mask `start <= timestamp <= end`, keeping row order. */
  function DateMask(rows: seq<Row>, range: DateRange): (kept: seq<Row>)
    ensures forall row :: row in kept <==> row in rows && InRange(row.timestamp, range)
    ensures |kept| <= |rows|
    ensures |rows| == 1 ==> kept == if InRange(rows[0].timestamp, range) then rows else []
  {
    if rows == [] then []
    else
      var last := rows[|rows| - 1];
      DateMask(rows[..|rows| - 1], range) + (if InRange(last.timestamp, range) then [last] else [])
  }

  /**
   * Masking commutes with concatenation: with the one-row case above, the kept
   * rows are exactly the matching ones, each once, in table order.
   */
  lemma {:induction false} DateMaskKeepsOrder(a: seq<Row>, b: seq<Row>, range: DateRange)
    ensures DateMask(a + b, range) == DateMask(a, range) + DateMask(b, range)
    decreases |b|
  {
    if b == [] {
      assert a + b == a;
    } else {
      var b' := b[..|b| - 1];
      assert (a + b)[..|a + b| - 1] == a + b';
      DateMaskKeepsOrder(a, b', range);
    }
  }

  /** `data[essential_columns]`: every row keeps its timestamp and exactly its values for the listed columns. */
  function Project(rows: seq<Row>, columns: seq<string>): (r: seq<Row>)
    ensures |r| == |rows|
    ensures forall i :: 0 <= i < |r| ==> r[i].timestamp == rows[i].timestamp
    ensures forall i, c :: 0 <= i < |r| ==> (c in r[i].values <==> c in rows[i].values && c in columns)
    ensures forall i, c :: 0 <= i < |r| && c in rows[i].values && c in columns ==>
              c in r[i].values && r[i].values[c] == rows[i].values[c]
  {
    seq(|rows|, i requires 0 <= i < |rows| =>
      Row(rows[i].timestamp, map c | c in rows[i].values && c in columns :: rows[i].values[c]))
  }

  predicate HasColumns(data: Frame, columns: seq<string>) {
    forall c :: c in columns ==> c in data.columns
  }

  /**
   * `preprocess_input`. A missing "timestamp" column raises `KeyError`, which
   * the source catches and answers with the table unchanged; a missing metric
   * column does the same after the date filter. The "last 30 days" fallback
   * for an empty result runs on an empty table, whose maximum timestamp is
   * NaT, so it keeps the table empty.
   */
  function PreprocessInput(data: Frame, params: Params): (r: Frame)
    ensures "timestamp" !in data.columns ==> r == data
    ensures "timestamp" in data.columns ==>
      var filtered := if params.timeRange.Some? then DateMask(data.rows, params.timeRange.value) else data.rows;
      && |r.rows| == |filtered|
      && (forall i :: 0 <= i < |r.rows| ==> r.rows[i].timestamp == filtered[i].timestamp)
      && (HasColumns(data, EssentialColumns(params.metrics)) ==>
            r == Frame(EssentialColumns(params.metrics), Project(filtered, EssentialColumns(params.metrics))))
      && (!HasColumns(data, EssentialColumns(params.metrics)) ==> r == Frame(data.columns, filtered))
  {
    if "timestamp" !in data.columns then data
    else
      var filtered := if params.timeRange.Some? then Frame(data.columns, DateMask(data.rows, params.timeRange.value)) else data;
      var columns := EssentialColumns(params.metrics);
      if HasColumns(filtered, columns) then Frame(columns, Project(filtered.rows, columns)) else filtered
  }

  // ---------------------------------------------------------------- generate_explanation

  const Disclaimer: string :=
    "Este análisis utiliza datos históricos de precios y volumen de Solana (SOL) y es puramente "
    + "educativo. No constituye asesoramiento financiero ni una recomendación para invertir. "
    + "Los mercados criptográficos son volátiles y los resultados pasados no garantizan resultados futuros."

  function Opening(query: string): string {
    "Analicé tu consulta sobre Solana: '" + query + "'. "
  }

  /** `start_date.split('-')[0]`: the year of a `YYYY-MM-DD` date. */
  function YearText(d: Date): string {
    NatToDecimal(d.year)
  }

  /** The time phrase: one year when start and end share it, else a "desde ... hasta ..." span. */
  function TimeInfo(timeRange: Option<DateRange>): string {
    match timeRange
    case None => ""
    case Some(r) =>
      if YearText(r.start) == YearText(r.end) then "para el año " + YearText(r.start)
      else "desde " + YearText(r.start) + " hasta " + YearText(r.end)
  }

  /** `", ".join(items)`. */
  function Join(items: seq<string>, separator: string): string {
    if items == [] then ""
    else if |items| == 1 then items[0]
    else Join(items[..|items| - 1], separator) + separator + items[|items| - 1]
  }

  function IndicatorsInfo(indicators: seq<string>): string {
    if indicators == [] then "" else " con los indicadores técnicos: " + Join(indicators, ", ")
  }

  /** `|x|` in hundredths, rounded half up on the exact value. */
  function Cents(x: real): nat {
    var magnitude := if x < 0.0 then -x else x;
    var c := (magnitude * 100.0 + 0.5).Floor;
    assert c >= 0;
    c
  }

  /**
   * `{x:.2f}`: a '-' exactly for negative `x`, the whole part, a point and two
   * digits; the digits read back as `Cents(x)`. The whole part is never empty
   * and starts with '0' only when it is exactly "0", so the text is the one
   * `.2f` prints for those cents.
   */
  function FormatFixed2(x: real): (s: string)
    ensures |s| >= 4 && s[|s| - 3] == '.'
    ensures IsDigit(s[|s| - 2]) && IsDigit(s[|s| - 1])
    ensures s[0] == '-' <==> x < 0.0
    ensures var sign := if x < 0.0 then 1 else 0;
            && AllDigits(s[sign..|s| - 3])
            && DigitsValue(s[sign..|s| - 3]) * 100 + DigitsValue(s[|s| - 2..]) == Cents(x)
    ensures var sign := if x < 0.0 then 1 else 0;
            |s| - 3 - sign >= 1 && (s[sign] == '0' ==> |s| - 3 - sign == 1)
  {
    var cents := Cents(x);
    var sign := if x < 0.0 then "-" else "";
    var whole := NatToDecimal(cents / 100);
    var tens, units := cents % 100 / 10, cents % 10;
    var fraction := [DigitChar(tens), DigitChar(units)];
    DecimalRoundTrip(cents / 100);
    DecimalNoLeadingZero(cents / 100);
    TwoDigitsValue(tens, units);
    FixedPointLayout(sign, whole, fraction);
    sign + whole + "." + fraction
  }

  /** Where the sign, the whole part and the two decimals sit in `sign + whole + "." + fraction`. */
  lemma FixedPointLayout(sign: string, whole: string, fraction: string)
    requires |sign| <= 1 && |whole| >= 1 && |fraction| == 2
    ensures var s := sign + whole + "." + fraction;
            && |s| == |sign| + |whole| + 3
            && s[|s| - 3] == '.'
            && s[|sign|..|s| - 3] == whole
            && s[|s| - 2..] == fraction
            && s[|s| - 2] == fraction[0] && s[|s| - 1] == fraction[1]
            && s[|sign|] == whole[0]
            && s[0] == (if sign == [] then whole[0] else sign[0])
  {
    var s := sign + whole + "." + fraction;
    assert s[|sign|..|s| - 3] == whole;
    assert s[|s| - 2..] == fraction;
  }

  /** Two digits read back as their two-digit number. */
  lemma TwoDigitsValue(tens: nat, units: nat)
    requires tens < 10 && units < 10
    ensures DigitsValue([DigitChar(tens), DigitChar(units)]) == tens * 10 + units
  {
    var fraction := [DigitChar(tens), DigitChar(units)];
    assert fraction[..1] == [DigitChar(tens)] && fraction[..1][..0] == [];
    assert DigitsValue(fraction[..1]) == tens;
  }

  /** `if prediction:` — `None` and `0.0` are both false. */
  predicate HasPrediction(prediction: Option<real>) {
    prediction.Some? && prediction.value != 0.0
  }

  /** The middle sentence, with or without the predicted price. */
  function Analysis(prediction: Option<real>, params: Params): string {
    var timeInfo := TimeInfo(params.timeRange);
    var indicatorsInfo := IndicatorsInfo(params.indicators);
    if HasPrediction(prediction) then
      "Basado en el análisis " + timeInfo + indicatorsInfo + ", la predicción del precio es de "
      + FormatFixed2(prediction.value) + " USD. "
    else
      "He preparado un análisis " + timeInfo + indicatorsInfo + ". "
  }

  /** The whole explanation: it starts by echoing the query and ends with the disclaimer. */
  function Explanation(query: string, prediction: Option<real>, params: Params): (e: string)
    ensures |e| >= |Opening(query)| + |Disclaimer|
    ensures e[..|Opening(query)|] == Opening(query)
    ensures e[|e| - |Disclaimer|..] == Disclaimer
  {
    var middle := Analysis(prediction, params);
    ConcatEnds(Opening(query), middle, Disclaimer);
    Opening(query) + middle + Disclaimer
  }

  /** The first and last pieces of a three-piece concatenation are its prefix and suffix. */
  lemma ConcatEnds(first: string, middle: string, last: string)
    ensures var e := first + middle + last;
            e[..|first|] == first && e[|e| - |last|..] == last
  {
    var e := first + middle + last;
    assert e == first + (middle + last);
  }

  /** `generate_explanation`: appends the opening, the analysis sentence and the disclaimer. */
  method GenerateExplanation(query: string, prediction: Option<real>, params: Params) returns (explanation: string)
    ensures explanation == Explanation(query, prediction, params)
  {
    explanation := "Analicé tu consulta sobre Solana: '" + query + "'. ";

    var timeInfo := "";
    if params.timeRange.Some? {
      var startYear := YearText(params.timeRange.value.start);
      var endYear := YearText(params.timeRange.value.end);
      if startYear == endYear {
        timeInfo := "para el año " + startYear;
      } else {
        timeInfo := "desde " + startYear + " hasta " + endYear;
      }
    }

    var indicatorsInfo := "";
    if params.indicators != [] {
      indicatorsInfo := " con los indicadores técnicos: " + Join(params.indicators, ", ");
    }
    assert timeInfo == TimeInfo(params.timeRange) && indicatorsInfo == IndicatorsInfo(params.indicators);

    if prediction.Some? && prediction.value != 0.0 {
      explanation := explanation + ("Basado en el análisis " + timeInfo + indicatorsInfo
        + ", la predicción del precio es de " + FormatFixed2(prediction.value) + " USD. ");
    } else {
      explanation := explanation + ("He preparado un análisis " + timeInfo + indicatorsInfo + ". ");
    }

    assert explanation == Opening(query) + Analysis(prediction, params);
    explanation := explanation + Disclaimer;
  }

  /** The explanation names one year exactly when the range starts and ends in the same year. */
  lemma TimeInfoYears(r: DateRange)
    ensures r.start.year == r.end.year ==> TimeInfo(Some(r)) == "para el año " + NatToDecimal(r.start.year)
    ensures r.start.year != r.end.year ==>
      TimeInfo(Some(r)) == "desde " + NatToDecimal(r.start.year) + " hasta " + NatToDecimal(r.end.year)
  {
    if YearText(r.start) == YearText(r.end) {
      DecimalInjective(r.start.year, r.end.year);
    }
  }

  /** A zero prediction reads as no prediction: the explanation is the one for `None`. */
  lemma ZeroPredictionIsNoPrediction(query: string, params: Params)
    ensures Explanation(query, Some(0.0), params) == Explanation(query, None, params)
  {
  }
}
