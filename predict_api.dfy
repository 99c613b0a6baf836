/**
 * The serverless `/api/predict` handler: it rejects every method but POST,
 * reads `query` from the body, and maps keywords of the lower-cased query to
 * metrics, indicators, a time range and a prediction flag. Chart data and the
 * explanation text come from a random mock generator and are not modelled.
 *
 * The clock is an input: `Clock` holds today's date and the date one month
 * earlier, both as their UTC `YYYY-MM-DD` parts.
 */
module PredictApi {
  import opened Wrappers
  import opened Text
  import opened Dates

  datatype Clock = Clock(today: Date, oneMonthAgo: Date)

  datatype ApiParams = ApiParams(
    metrics: seq<string>,
    indicators: seq<string>,
    timeRange: DateRange,
    includePrediction: bool)

  /** The time range used when the query names none. */
  const DefaultRange := DateRange(Date(2023, 1, 1), Date(2023, 3, 31))

  // ---------------------------------------------------------------- extractParameters, field by field

  /** "precio" wins over "volumen"; neither leaves close and volume. */
  function MetricsOf(q: string): (m: seq<string>)
    ensures Contains(q, "precio") ==> m == ["close"]
    ensures m == ["volume"] <==> Contains(q, "volumen") && !Contains(q, "precio")
    ensures m == ["close", "volume"] <==> !Contains(q, "volumen") && !Contains(q, "precio")
  {
    if Contains(q, "precio") then ["close"]
    else if Contains(q, "volumen") then ["volume"]
    else ["close", "volume"]
  }

  /** Position of an indicator in the push order. */
  function IndicatorRank(name: string): nat {
    if name == "rsi" then 0 else if name == "sma" then 1 else 2
  }

  /** rsi, sma, volatility in that order, each at most once, each present exactly on its keywords. */
  function IndicatorsOf(q: string): (r: seq<string>)
    ensures forall i :: 0 <= i < |r| ==> r[i] in ["rsi", "sma", "volatility"]
    ensures forall i, j :: 0 <= i < j < |r| ==> IndicatorRank(r[i]) < IndicatorRank(r[j])
    ensures "rsi" in r <==> Contains(q, "rsi")
    ensures "sma" in r <==> Contains(q, "media móvil") || Contains(q, "sma")
    ensures "volatility" in r <==> Contains(q, "volatilidad")
  {
    (if Contains(q, "rsi") then ["rsi"] else [])
    + (if Contains(q, "media móvil") || Contains(q, "sma") then ["sma"] else [])
    + (if Contains(q, "volatilidad") then ["volatility"] else [])
  }

  /** "2021" wins over "último mes" / "últimos 30 días"; otherwise the fixed default quarter. */
  function TimeRangeOf(q: string, clock: Clock): DateRange {
    if Contains(q, "2021") then YearRange(2021)
    else if Contains(q, "último mes") || Contains(q, "últimos 30 días") then DateRange(clock.oneMonthAgo, clock.today)
    else DefaultRange
  }

  function ApiParamsOf(query: string, clock: Clock): ApiParams {
    var q := Lower(query);
    ApiParams(MetricsOf(q), IndicatorsOf(q), TimeRangeOf(q, clock),
      Contains(q, "predicción") || Contains(q, "predecir"))
  }

  /** `extractParameters`: mutates one params object field by field. */
  method ExtractParameters(query: string, clock: Clock) returns (params: ApiParams)
    ensures params == ApiParamsOf(query, clock)
  {
    var lowerQuery := Lower(query);
    params := ApiParams(["close", "volume"], [], DefaultRange, false);

    if Contains(lowerQuery, "rsi") {
      params := params.(indicators := params.indicators + ["rsi"]);
    }
    if Contains(lowerQuery, "media móvil") || Contains(lowerQuery, "sma") {
      params := params.(indicators := params.indicators + ["sma"]);
    }
    if Contains(lowerQuery, "volatilidad") {
      params := params.(indicators := params.indicators + ["volatility"]);
    }

    assert params.indicators == IndicatorsOf(lowerQuery);

    if Contains(lowerQuery, "predicción") || Contains(lowerQuery, "predecir") {
      params := params.(includePrediction := true);
    }

    if Contains(lowerQuery, "volumen") {
      params := params.(metrics := ["volume"]);
    }
    if Contains(lowerQuery, "precio") {
      params := params.(metrics := ["close"]);
    }

    assert params.metrics == MetricsOf(lowerQuery);
    assert params.indicators == IndicatorsOf(lowerQuery);

    if Contains(lowerQuery, "2021") {
      params := params.(timeRange := YearRange(2021));
    } else if Contains(lowerQuery, "último mes") || Contains(lowerQuery, "últimos 30 días") {
      params := params.(timeRange := DateRange(clock.oneMonthAgo, clock.today));
    }
  }

  // ---------------------------------------------------------------- handler

  /** The parts of the request the handler reads; `query` is `None` when the body has no string query. */
  datatype Request = Request(httpMethod: string, query: Option<string>)

  datatype Body =
    | ErrorBody(error: string)
    | FailureBody(message: string)
    /** The success payload without the mock chart data and explanation. */
    | SuccessBody(metrics: seq<string>, indicators: seq<string>, timeRange: DateRange, hasPrediction: bool)

  datatype Response = Response(status: nat, body: Body)

  const FailurePrefix := "Error procesando la solicitud: "

  /**
   * `handler`: 405 for any method but POST, before the body is read; 500 when
   * the query is missing (calling `toLowerCase` on it throws); else 200 with
   * the extracted parameters, a prediction present exactly when one was asked for.
   */
  method Handler(request: Request, clock: Clock) returns (response: Response)
    ensures request.httpMethod != "POST" <==> response.status == 405
    ensures request.httpMethod != "POST" ==> response.body == ErrorBody("Método no permitido")
    ensures request.httpMethod == "POST" && request.query.None? ==> response == Response(500, FailureBody(FailurePrefix))
    ensures request.httpMethod == "POST" && request.query.Some? ==>
      var p := ApiParamsOf(request.query.value, clock);
      response == Response(200, SuccessBody(p.metrics, p.indicators, p.timeRange, p.includePrediction))
  {
    if request.httpMethod != "POST" {
      return Response(405, ErrorBody("Método no permitido"));
    }
    if request.query.None? {
      return Response(500, FailureBody(FailurePrefix));
    }
    var params := ExtractParameters(request.query.value, clock);
    response := Response(200, SuccessBody(params.metrics, params.indicators, params.timeRange, params.includePrediction));
  }

  // ---------------------------------------------------------------- properties

  /** Every word `extractParameters` looks for. */
  const Keywords: seq<string> := ["precio", "volumen", "rsi", "media móvil", "sma", "volatilidad", "2021",
                                  "último mes", "últimos 30 días", "predicción", "predecir"]

  /** A query with none of the keywords gets the defaults: close and volume, no indicators, the 2023 quarter, no prediction. */
  lemma KeywordFreeQueryGetsDefaults(query: string, clock: Clock)
    requires forall k :: 0 <= k < |Keywords| ==> !Contains(Lower(query), Keywords[k])
    ensures ApiParamsOf(query, clock) == ApiParams(["close", "volume"], [], DefaultRange, false)
  {
    var q := Lower(query);
    assert !Contains(q, "precio") && !Contains(q, "volumen") by {
      assert Keywords[0] == "precio" && Keywords[1] == "volumen";
    }
    assert !Contains(q, "rsi") && !Contains(q, "media móvil") && !Contains(q, "sma") && !Contains(q, "volatilidad") by {
      assert Keywords[2] == "rsi" && Keywords[3] == "media móvil" && Keywords[4] == "sma" && Keywords[5] == "volatilidad";
    }
    assert !Contains(q, "2021") && !Contains(q, "último mes") && !Contains(q, "últimos 30 días") by {
      assert Keywords[6] == "2021" && Keywords[7] == "último mes" && Keywords[8] == "últimos 30 días";
    }
    assert !Contains(q, "predicción") && !Contains(q, "predecir") by {
      assert Keywords[9] == "predicción" && Keywords[10] == "predecir";
    }
  }
}
