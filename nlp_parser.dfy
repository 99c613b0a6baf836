/**
 * The Spanish command parser `parse_command`: a chain of keyword tests and one
 * number-plus-unit pattern that fill a six-field record. Later rules override
 * earlier ones; the functions below state each field's final value directly,
 * by precedence, and `ParseCommand` (which overwrites a record step by step as
 * the source does) is proved to produce exactly that.
 *
 * Confidence is counted in tenths: 3 means 0.3, 10 means 1.0.
 */
module NlpParser {
  import opened Wrappers
  import opened Text

  datatype Metric = Price | Volume | Rsi | Sma | Macd | Volatility
  datatype RequestType = Prediction | Historical | Indicator
  /** `period` is either a number of days or `{'year': y}`. */
  datatype Period = Days(days: int) | Year(year: int)
  datatype Visualization = Line | Bar | Candlestick

  datatype Command = Command(
    metric: Metric,
    kind: RequestType,
    period: Period,
    forecastDays: int,
    visualization: Visualization,
    confidence: int)

  const PredictionWords: seq<string> := ["próximo", "futuro", "predice", "va a", "será", "predicción"]
  const HistoricalWords: seq<string> := ["histórico", "pasado", "era", "fue"]
  const IndicatorWords: seq<string> := ["rsi", "sma", "macd", "bollinger", "volatilidad", "atr"]

  const PriceWords: seq<string> := ["precio", "cierre", "close", "costo"]
  const VolumeWords: seq<string> := ["volumen", "volume"]
  const RsiWords: seq<string> := ["rsi", "fortaleza"]
  const SmaWords: seq<string> := ["sma", "media móvil", "promedio"]
  const MacdWords: seq<string> := ["macd", "convergencia"]
  const VolatilityWords: seq<string> := ["volatilidad", "volatility"]

  /** The minimum confidence below which the dashboard says it did not understand (0.2). */
  const RejectBelow := 2

  // ---------------------------------------------------------------- type

  function KindOf(t: string): RequestType {
    if ContainsAny(t, PredictionWords) then Prediction
    else if ContainsAny(t, HistoricalWords) then Historical
    else if ContainsAny(t, IndicatorWords) then Indicator
    else Historical
  }

  /** The confidence the type rule leaves: 0.3 untouched, 0.7 or 0.8 when a type keyword occurs. */
  function TypeConfidence(t: string): (c: int)
    ensures c in {3, 7, 8}
    ensures c == 8 <==> KindOf(t) == Indicator
    ensures c == 3 ==> KindOf(t) == Historical
  {
    if ContainsAny(t, PredictionWords) then 7
    else if ContainsAny(t, HistoricalWords) then 7
    else if ContainsAny(t, IndicatorWords) then 8
    else 3
  }

  // ---------------------------------------------------------------- metric

  /** The metric of the first keyword group that occurs, if any. */
  function MetricKeyword(t: string): Option<Metric> {
    if ContainsAny(t, PriceWords) then Some(Price)
    else if ContainsAny(t, VolumeWords) then Some(Volume)
    else if ContainsAny(t, RsiWords) then Some(Rsi)
    else if ContainsAny(t, SmaWords) then Some(Sma)
    else if ContainsAny(t, MacdWords) then Some(Macd)
    else if ContainsAny(t, VolatilityWords) then Some(Volatility)
    else None
  }

  function MetricOf(t: string): Metric {
    MetricKeyword(t).GetOr(Price)
  }

  function Min(a: int, b: int): int {
    if a <= b then a else b
  }

  /**
   * Final confidence: never below the 0.3 start, never below what the type rule
   * set, at most 1.0, and only the six values the rules can produce.
   */
  function ConfidenceOf(t: string): (c: int)
    ensures c in {3, 5, 7, 8, 9, 10}
    ensures TypeConfidence(t) <= c <= 10
    ensures MetricKeyword(t).None? ==> c == TypeConfidence(t)
    ensures MetricKeyword(t).Some? ==> c == Min(10, TypeConfidence(t) + 2)
  {
    Min(10, TypeConfidence(t) + if MetricKeyword(t).Some? then 2 else 0)
  }

  // ---------------------------------------------------------------- the number+unit pattern

  /** The unit alternatives of `(días?|d\b|semanas?|meses?|años?)`, by the letter group.startswith tests. */
  datatype Unit = DayUnit | WeekUnit | MonthUnit | YearUnit

  datatype PeriodMatch = PeriodMatch(count: nat, unit: Unit)

  /** End of the run of digits starting at `i` (`\d+` is greedy). */
  function DigitRunEnd(t: string, i: nat): (j: nat)
    requires i <= |t|
    ensures i <= j <= |t|
    ensures AllDigits(t[i..j])
    ensures j == |t| || !IsDigit(t[j])
    decreases |t| - i
  {
    if i < |t| && IsDigit(t[i]) then DigitRunEnd(t, i + 1) else i
  }

  /** End of the run of white space starting at `i` (`\s*`). */
  function SpaceRunEnd(t: string, i: nat): (j: nat)
    requires i <= |t|
    ensures i <= j <= |t|
    ensures j == |t| || !IsSpace(t[j])
    decreases |t| - i
  {
    if i < |t| && IsSpace(t[i]) then SpaceRunEnd(t, i + 1) else i
  }

  /** The unit alternative that matches at `k`, tried in the pattern's order. */
  function UnitAt(t: string, k: nat): Option<Unit>
    requires k <= |t|
  {
    if OccursAt(t, "día", k) then Some(DayUnit)
    else if OccursAt(t, "d", k) && (k + 1 == |t| || !IsWordChar(t[k + 1])) then Some(DayUnit)
    else if OccursAt(t, "semana", k) then Some(WeekUnit)
    else if OccursAt(t, "mese", k) then Some(MonthUnit)
    else if OccursAt(t, "año", k) then Some(YearUnit)
    else None
  }

  /**
   * The pattern tried at position `i`. Backtracking cannot help it: every unit
   * starts with a letter, so giving back digits or spaces never lets it match.
   */
  function MatchAt(t: string, i: nat): Option<PeriodMatch>
    requires i <= |t|
  {
    var j := DigitRunEnd(t, i);
    if j == i then None
    else
      match UnitAt(t, SpaceRunEnd(t, j))
      case None => None
      case Some(u) => Some(PeriodMatch(DigitsValue(t[i..j]), u))
  }

  /** `re.search` from position `i`: the leftmost position where the pattern matches, with its match. */
  function SearchFrom(t: string, i: nat): (r: Option<(nat, PeriodMatch)>)
    requires i <= |t|
    decreases |t| - i
    ensures r.Some? ==> i <= r.value.0 < |t| && MatchAt(t, r.value.0) == Some(r.value.1)
    ensures forall q :: i <= q < |t| && (r.None? || q < r.value.0) ==> MatchAt(t, q).None?
  {
    if i == |t| then None
    else if MatchAt(t, i).Some? then Some((i, MatchAt(t, i).value))
    else SearchFrom(t, i + 1)
  }

  function Search(t: string): Option<(nat, PeriodMatch)> {
    SearchFrom(t, 0)
  }

  /** `period` set by a match: n days, 7n for weeks, 30n for months, a year for años. */
  function MatchedPeriod(m: PeriodMatch): Period {
    match m.unit
    case DayUnit => Days(m.count)
    case WeekUnit => Days(7 * m.count)
    case MonthUnit => Days(30 * m.count)
    case YearUnit => Year(if m.count < 100 then 2000 + m.count else m.count)
  }

  /** `forecast_days` after a match: a year match leaves the default 14. */
  function MatchedForecast(m: PeriodMatch): int {
    match m.unit
    case DayUnit => m.count
    case WeekUnit => 7 * m.count
    case MonthUnit => 30 * m.count
    case YearUnit => 14
  }

  // ---------------------------------------------------------------- "últimos" buckets and years

  predicate MentionsLast(t: string) {
    Contains(t, "últimos") || Contains(t, "últimas")
  }

  /** The first of the 7/14/30/90/365 buckets whose cue occurs in the text. */
  function LastBucket(t: string): Option<int> {
    if Contains(t, "7") || Contains(t, "semana") then Some(7)
    else if Contains(t, "14") then Some(14)
    else if Contains(t, "30") || Contains(t, "mes") then Some(30)
    else if Contains(t, "90") || Contains(t, "trimestre") then Some(90)
    else if Contains(t, "365") || Contains(t, "año") then Some(365)
    else None
  }

  /** The "últimos" rule applies: the word occurs and one bucket cue does. */
  function LastOverride(t: string): Option<int> {
    if MentionsLast(t) then LastBucket(t) else None
  }

  /** The smallest year 2020..2025 written in the text. */
  function YearMentioned(t: string): Option<nat> {
    FirstYearMentioned(t, 2020, 2026)
  }

  // ---------------------------------------------------------------- final fields

  /** Final `period`: an explicit year wins, then "últimos", then the pattern, else 30 days. */
  function PeriodOf(t: string): Period {
    if YearMentioned(t).Some? then Year(YearMentioned(t).value)
    else if LastOverride(t).Some? then Days(LastOverride(t).value)
    else if Search(t).Some? then MatchedPeriod(Search(t).value.1)
    else Days(30)
  }

  /** Final `forecast_days`: years never touch it; "últimos" wins over the pattern, else 14. */
  function ForecastOf(t: string): int {
    if LastOverride(t).Some? then LastOverride(t).value
    else if Search(t).Some? then MatchedForecast(Search(t).value.1)
    else 14
  }

  /** Bar exactly when "bar" occurs (the "barras" test adds nothing), else candlestick on its cues, else line. */
  function VisualizationOf(t: string): (v: Visualization)
    ensures v == Bar <==> Contains(t, "bar")
    ensures v == Candlestick <==> !Contains(t, "bar") && (Contains(t, "velas") || Contains(t, "candlestick"))
  {
    assert Contains(t, "barras") ==> Contains(t, "bar") by {
      if Contains(t, "barras") {
        ContainsSlice(t, "barras", 0, 3);
        assert "barras"[0..3] == "bar";
      }
    }
    if Contains(t, "barras") || Contains(t, "bar") then Bar
    else if Contains(t, "velas") || Contains(t, "candlestick") then Candlestick
    else Line
  }

  /** The record `parse_command` returns for normalised text `t`. */
  function Parse(t: string): Command {
    Command(MetricOf(t), KindOf(t), PeriodOf(t), ForecastOf(t), VisualizationOf(t), ConfidenceOf(t))
  }

  // ---------------------------------------------------------------- the parser

  /**
   * The period section of `parse_command`: the pattern, then "últimos", then
   * the year loop, each overwriting what the one before set.
   */
  method DetectPeriod(text: string) returns (period: Period, forecastDays: int)
    ensures period == PeriodOf(text) && forecastDays == ForecastOf(text)
  {
    period, forecastDays := Days(30), 14;
    var found := Search(text);
    if found.Some? {
      var m := found.value.1;
      match m.unit {
        case DayUnit =>
          period, forecastDays := Days(m.count), m.count;
        case WeekUnit =>
          period, forecastDays := Days(m.count * 7), m.count * 7;
        case MonthUnit =>
          period, forecastDays := Days(m.count * 30), m.count * 30;
        case YearUnit =>
          period := Year(if m.count < 100 then 2000 + m.count else m.count);
      }
    }
    assert found.Some? ==> period == MatchedPeriod(found.value.1) && forecastDays == MatchedForecast(found.value.1);
    assert found.None? ==> period == Days(30) && forecastDays == 14;
    ghost var matchedPeriod := period;

    if Contains(text, "últimos") || Contains(text, "últimas") {
      if Contains(text, "7") || Contains(text, "semana") {
        period, forecastDays := Days(7), 7;
      } else if Contains(text, "14") {
        period, forecastDays := Days(14), 14;
      } else if Contains(text, "30") || Contains(text, "mes") {
        period, forecastDays := Days(30), 30;
      } else if Contains(text, "90") || Contains(text, "trimestre") {
        period, forecastDays := Days(90), 90;
      } else if Contains(text, "365") || Contains(text, "año") {
        period, forecastDays := Days(365), 365;
      }
    }
    assert LastOverride(text).Some? ==> period == Days(LastOverride(text).value) && forecastDays == LastOverride(text).value;
    assert LastOverride(text).None? ==> period == matchedPeriod && forecastDays == ForecastOf(text);
    assert forecastDays == ForecastOf(text);
    assert YearMentioned(text).None? ==> period == PeriodOf(text);

    var year: nat := 2020;
    while year < 2026
      invariant 2020 <= year <= 2026
      invariant forall y: nat :: 2020 <= y < year ==> !Contains(text, NatToDecimal(y))
      invariant YearMentioned(text).None? ==> period == PeriodOf(text)
    {
      if Contains(text, NatToDecimal(year)) {
        period := Year(year);
        break;
      }
      year := year + 1;
    }
  }


  /** `parse_command`: overwrites one record rule by rule, exactly as the source. */
  method ParseCommand(userInput: string) returns (r: Command)
    ensures r == Parse(Normalize(userInput))
  {
    var text := Normalize(userInput);
    var metric: Option<Metric> := None;
    var kind := Historical;
    var visualization := Line;
    var confidence := 3;

    if ContainsAny(text, PredictionWords) {
      kind, confidence := Prediction, 7;
    } else if ContainsAny(text, HistoricalWords) {
      kind, confidence := Historical, 7;
    } else if ContainsAny(text, IndicatorWords) {
      kind, confidence := Indicator, 8;
    }
    assert confidence == TypeConfidence(text);

    if ContainsAny(text, PriceWords) {
      metric, confidence := Some(Price), confidence + 2;
    } else if ContainsAny(text, VolumeWords) {
      metric, confidence := Some(Volume), confidence + 2;
    } else if ContainsAny(text, RsiWords) {
      metric, confidence := Some(Rsi), confidence + 2;
    } else if ContainsAny(text, SmaWords) {
      metric, confidence := Some(Sma), confidence + 2;
    } else if ContainsAny(text, MacdWords) {
      metric, confidence := Some(Macd), confidence + 2;
    } else if ContainsAny(text, VolatilityWords) {
      metric, confidence := Some(Volatility), confidence + 2;
    } else {
      metric := Some(Price);
    }

    var period, forecastDays := DetectPeriod(text);

    if Contains(text, "barras") || Contains(text, "bar") {
      visualization := Bar;
    } else if Contains(text, "velas") || Contains(text, "candlestick") {
      visualization := Candlestick;
    }

    confidence := Min(10, confidence);
    r := Command(metric.value, kind, period, forecastDays, visualization, confidence);
  }

  // ---------------------------------------------------------------- properties

  /** Parsing depends only on the lower-cased, stripped text: re-normalising changes nothing. */
  lemma ParseSeesOnlyNormalizedText(s: string)
    ensures Parse(Normalize(Normalize(s))) == Parse(Normalize(s))
  {
    NormalizeIdempotent(s);
  }

  /** The caller's `confidence < 0.2` rejection never fires: every parse has confidence at least 0.3. */
  lemma NeverRejected(userInput: string)
    ensures Parse(Normalize(userInput)).confidence > RejectBelow
  {
  }

  /** Prediction keywords outrank indicator ones: "predicción" with "rsi" is a prediction. */
  lemma PredictionOutranksIndicator(t: string)
    requires Contains(t, "predicción") && Contains(t, "rsi")
    ensures KindOf(t) == Prediction && ConfidenceOf(t) >= 7
  {
    assert PredictionWords[5] == "predicción";
  }

  /**
   * The number the pattern reads is a whole digit run: the leftmost match
   * never starts in the middle of a number.
   */
  lemma MatchTakesWholeNumber(t: string)
    requires Search(t).Some?
    ensures var p := Search(t).value.0; p == 0 || !IsDigit(t[p - 1])
  {
    var p := Search(t).value.0;
    if p > 0 && IsDigit(t[p - 1]) {
      MatchExtendsLeft(t, p - 1);
    }
  }

  /** A digit just before a match position is itself a match position, for the same number's tail. */
  lemma MatchExtendsLeft(t: string, q: nat)
    requires q < |t| && IsDigit(t[q]) && MatchAt(t, q + 1).Some?
    ensures MatchAt(t, q).Some?
  {
    assert DigitRunEnd(t, q) == DigitRunEnd(t, q + 1);
  }

  /** "últimas 2 semanas" gives 7 days, not 14: the "semana" cue of the override wins. */
  lemma LastTwoWeeksIsSeven()
    ensures PeriodOf("últimas 2 semanas") == Days(7)
    ensures ForecastOf("últimas 2 semanas") == 7
  {
    var t := "últimas 2 semanas";
    forall y: nat | 2020 <= y < 2026 ensures !Contains(t, NatToDecimal(y)) {
      assert NatToDecimal(y)[1] == '0';
      NotContainsMissingChar(t, NatToDecimal(y), 1);
    }
    assert OccursAt(t, "últimas", 0);
    assert OccursAt(t, "semana", 10);
  }

  /** "últimos 70 días": the pattern reads 70 days, but the '7' cue overrides it to 7. */
  lemma LastSeventyDaysIsSeven()
    ensures MatchAt("últimos 70 días", 8) == Some(PeriodMatch(70, DayUnit))
    ensures PeriodOf("últimos 70 días") == Days(7)
    ensures ForecastOf("últimos 70 días") == 7
  {
    var t := "últimos 70 días";
    forall y: nat | 2020 <= y < 2026 ensures !Contains(t, NatToDecimal(y)) {
      assert NatToDecimal(y)[0] == '2';
      NotContainsMissingChar(t, NatToDecimal(y), 0);
    }
    assert OccursAt(t, "últimos", 0);
    assert OccursAt(t, "7", 8);
    assert DigitRunEnd(t, 8) == 10;
    assert SpaceRunEnd(t, 10) == 11;
    assert OccursAt(t, "día", 11);
    assert t[8..10] == "70";
    assert "70"[..1] == "7";
    assert DigitsValue("70") == 70;
  }

  /** `meses?` needs "mese": the singular "1 mes" is not matched, the plural "3 meses" is (90 days). */
  lemma SingularMonthNotMatched()
    ensures MatchAt("1 mes", 0) == None
    ensures MatchAt("3 meses", 0) == Some(PeriodMatch(3, MonthUnit))
    ensures MatchedPeriod(PeriodMatch(3, MonthUnit)) == Days(90)
  {
    assert DigitRunEnd("1 mes", 0) == 1;
    assert SpaceRunEnd("1 mes", 1) == 2;
    assert DigitRunEnd("3 meses", 0) == 1;
    assert SpaceRunEnd("3 meses", 1) == 2;
    assert OccursAt("3 meses", "mese", 2);
    assert "3 meses"[0..1] == "3";
  }
}
