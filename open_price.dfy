/**
 * The T+5 open-price prediction client: the request it builds, the way it
 * classifies the response, the fallbacks applied to the backend's nullable
 * fields, and the synthetic eight-day baseline, forecast and delta series
 * drawn from today's open and the predicted T+5 open.
 */
module OpenPricePrediction {
  import opened Wrappers
  import opened Strings
  import opened Utils
  import opened Seqs
  import opened FinancialHealthApi

  // ---------------------------------------------------------------------------
  // The synthetic series

  datatype PricePoint = PricePoint(day: nat, price: real)

  /** `deltaPct` is `None` where the source divides by a zero baseline (NaN or an infinity in JavaScript). */
  datatype DeltaPoint = DeltaPoint(day: nat, deltaPrice: real, deltaPct: Option<real>)

  datatype ForecastSeries = ForecastSeries(
    forecastPoints: seq<PricePoint>, baselinePoints: seq<PricePoint>, deltaPoints: seq<DeltaPoint>)

  /** The number of points in each series: days 0 through 7. */
  const Days := 8

  /**
   * The forecast price on `day`: today's open on day 0, a straight line to
   * the prediction up to day 5, then a tenth of the whole move per day.
   */
  function ForecastAt(openToday: real, predOpenTplus5: real, day: nat): real {
    if day == 0 then openToday
    else if day <= 5 then openToday + (predOpenTplus5 - openToday) * ((day as real) / 5.0)
    else predOpenTplus5 + (predOpenTplus5 - openToday) * 0.1 * ((day - 5) as real)
  }

  function DeltaAt(openToday: real, predOpenTplus5: real, day: nat): DeltaPoint {
    var deltaPrice := ForecastAt(openToday, predOpenTplus5, day) - openToday;
    DeltaPoint(day, deltaPrice, if openToday == 0.0 then None else Some(deltaPrice / openToday * 100.0))
  }

  /** The three series, day by day. */
  function MockSeries(openToday: real, predOpenTplus5: real): (s: ForecastSeries)
    ensures |s.forecastPoints| == Days && |s.baselinePoints| == Days && |s.deltaPoints| == Days
    ensures forall d :: 0 <= d < Days ==>
      && s.baselinePoints[d] == PricePoint(d, openToday)
      && s.forecastPoints[d] == PricePoint(d, ForecastAt(openToday, predOpenTplus5, d))
      && s.deltaPoints[d] == DeltaAt(openToday, predOpenTplus5, d)
  {
    ForecastSeries(
      seq(Days, d requires 0 <= d => PricePoint(d, ForecastAt(openToday, predOpenTplus5, d))),
      seq(Days, d requires 0 <= d => PricePoint(d, openToday)),
      seq(Days, d requires 0 <= d => DeltaAt(openToday, predOpenTplus5, d)))
  }

  /** Extending the first `day` points of each series by the day's points gives the first `day + 1`. */
  lemma MockSeriesStep(expected: ForecastSeries, openToday: real, predOpenTplus5: real, day: nat, forecastPrice: real)
    requires expected == MockSeries(openToday, predOpenTplus5) && day < Days
    requires forecastPrice == ForecastAt(openToday, predOpenTplus5, day)
    ensures expected.forecastPoints[..day + 1] == expected.forecastPoints[..day] + [PricePoint(day, forecastPrice)]
    ensures expected.baselinePoints[..day + 1] == expected.baselinePoints[..day] + [PricePoint(day, openToday)]
    ensures var deltaPrice := forecastPrice - openToday;
            expected.deltaPoints[..day + 1] ==
            expected.deltaPoints[..day] + [DeltaPoint(day, deltaPrice, if openToday == 0.0 then None else Some(deltaPrice / openToday * 100.0))]
  {
    PrefixExtend(expected.forecastPoints, day);
    PrefixExtend(expected.baselinePoints, day);
    PrefixExtend(expected.deltaPoints, day);
  }

  /** `generateMockForecastData`: the loop over days 0..7 pushing one point onto each series. */
  method GenerateMockForecastData(openToday: real, predOpenTplus5: real) returns (s: ForecastSeries)
    ensures s == MockSeries(openToday, predOpenTplus5)
  {
    var forecastPoints: seq<PricePoint> := [];
    var baselinePoints: seq<PricePoint> := [];
    var deltaPoints: seq<DeltaPoint> := [];
    var expected := MockSeries(openToday, predOpenTplus5);
    var day := 0;
    while day <= 7
      invariant 0 <= day <= Days
      invariant forecastPoints == expected.forecastPoints[..day]
      invariant baselinePoints == expected.baselinePoints[..day]
      invariant deltaPoints == expected.deltaPoints[..day]
    {
      var baselinePrice := openToday;
      baselinePoints := baselinePoints + [PricePoint(day, baselinePrice)];
      var forecastPrice: real;
      if day == 0 {
        forecastPrice := openToday;
      } else if day <= 5 {
        var progress := (day as real) / 5.0;
        forecastPrice := openToday + (predOpenTplus5 - openToday) * progress;
      } else {
        var trend := predOpenTplus5 - openToday;
        forecastPrice := predOpenTplus5 + trend * 0.1 * ((day - 5) as real);
      }
      forecastPoints := forecastPoints + [PricePoint(day, forecastPrice)];
      var deltaPrice := forecastPrice - baselinePrice;
      var deltaPct := if baselinePrice == 0.0 then None else Some(deltaPrice / baselinePrice * 100.0);
      deltaPoints := deltaPoints + [DeltaPoint(day, deltaPrice, deltaPct)];
      MockSeriesStep(expected, openToday, predOpenTplus5, day, forecastPrice);
      day := day + 1;
    }
    assert forecastPoints == expected.forecastPoints;
    assert baselinePoints == expected.baselinePoints;
    assert deltaPoints == expected.deltaPoints;
    s := ForecastSeries(forecastPoints, baselinePoints, deltaPoints);
  }

  /** The path starts at today's open and reaches the prediction on day 5. */
  lemma ForecastEndpoints(openToday: real, predOpenTplus5: real)
    ensures ForecastAt(openToday, predOpenTplus5, 0) == openToday
    ensures ForecastAt(openToday, predOpenTplus5, 5) == predOpenTplus5
  {
  }

  /** Each day up to day 5 adds a fifth of the move; days 6 and 7 add a tenth of it. */
  lemma ForecastStep(openToday: real, predOpenTplus5: real, day: nat)
    requires day < Days - 1
    ensures ForecastAt(openToday, predOpenTplus5, day + 1) - ForecastAt(openToday, predOpenTplus5, day)
            == (predOpenTplus5 - openToday) * (if day < 5 then 0.2 else 0.1)
  {
    var m := predOpenTplus5 - openToday;
    if day == 0 {
    } else if day == 1 {
    } else if day == 2 {
    } else if day == 3 {
    } else if day == 4 {
    } else if day == 5 {
    } else {
      assert day == 6;
    }
  }

  /** The path never turns back: it moves in the direction of the prediction every day. */
  lemma {:induction false} ForecastMonotone(openToday: real, predOpenTplus5: real, d1: nat, d2: nat)
    requires d1 <= d2 < Days
    ensures openToday <= predOpenTplus5 ==> ForecastAt(openToday, predOpenTplus5, d1) <= ForecastAt(openToday, predOpenTplus5, d2)
    ensures predOpenTplus5 <= openToday ==> ForecastAt(openToday, predOpenTplus5, d2) <= ForecastAt(openToday, predOpenTplus5, d1)
    decreases d2 - d1
  {
    if d1 < d2 {
      ForecastMonotone(openToday, predOpenTplus5, d1 + 1, d2);
      ForecastStep(openToday, predOpenTplus5, d1);
      StepSign(predOpenTplus5 - openToday, if d1 < 5 then 0.2 else 0.1);
    }
  }

  lemma StepSign(m: real, rate: real)
    requires rate > 0.0
    ensures m >= 0.0 ==> m * rate >= 0.0
    ensures m <= 0.0 ==> m * rate <= 0.0
  {
  }

  /** Up to day 5 the forecast stays between today's open and the prediction. */
  lemma ForecastBetween(openToday: real, predOpenTplus5: real, day: nat)
    requires day <= 5
    ensures openToday <= predOpenTplus5 ==>
      openToday <= ForecastAt(openToday, predOpenTplus5, day) <= predOpenTplus5
    ensures predOpenTplus5 <= openToday ==>
      predOpenTplus5 <= ForecastAt(openToday, predOpenTplus5, day) <= openToday
  {
    ForecastMonotone(openToday, predOpenTplus5, 0, day);
    ForecastMonotone(openToday, predOpenTplus5, day, 5);
  }

  /** From day 1 on, the delta has the sign of the predicted move, in price and, over a positive open, in percent. */
  lemma DeltaSign(openToday: real, predOpenTplus5: real, day: nat)
    requires 1 <= day < Days
    ensures DeltaAt(openToday, predOpenTplus5, day).deltaPrice > 0.0 <==> predOpenTplus5 > openToday
    ensures DeltaAt(openToday, predOpenTplus5, day).deltaPrice == 0.0 <==> predOpenTplus5 == openToday
    ensures openToday > 0.0 ==> (DeltaAt(openToday, predOpenTplus5, day).deltaPct.value > 0.0 <==> predOpenTplus5 > openToday)
  {
    var m := predOpenTplus5 - openToday;
    var factor := if day <= 5 then (day as real) / 5.0 else 1.0 + 0.1 * ((day - 5) as real);
    assert factor > 0.0;
    assert ForecastAt(openToday, predOpenTplus5, day) - openToday == m * factor;
    ProductSign(m, factor);
    if openToday > 0.0 {
      QuotientSign(m * factor, openToday);
    }
  }

  lemma ProductSign(m: real, factor: real)
    requires factor > 0.0
    ensures m * factor > 0.0 <==> m > 0.0
    ensures m * factor == 0.0 <==> m == 0.0
  {
    if m < 0.0 {
      assert m * factor < 0.0;
    }
  }

  lemma QuotientSign(x: real, y: real)
    requires y > 0.0
    ensures x / y * 100.0 > 0.0 <==> x > 0.0
  {
    if x > 0.0 {
      assert x / y > 0.0;
    } else {
      assert x / y <= 0.0;
    }
  }

  /** Today's open 100 and a prediction of 110: the forecast is 102 on day 1 and the delta 10 (10%) on day 5. */
  lemma ForecastExample()
    ensures ForecastAt(100.0, 110.0, 1) == 102.0
    ensures DeltaAt(100.0, 110.0, 5) == DeltaPoint(5, 10.0, Some(10.0))
  {
  }

  // ---------------------------------------------------------------------------
  // The backend response and its transformation

  datatype Confidence = Low | Medium | High

  /** `calculateConfidence`: a placeholder that rates every prediction as medium. */
  function CalculateConfidence(openToday: real, predOpenTplus5: real): (c: Confidence)
    ensures c == Medium
  {
    Medium
  }

  datatype BackendResponse = BackendResponse(
    companyId: string,
    asofTradingDate: Option<string>,
    openToday: Option<real>,
    predOpenTplus5: Option<real>,
    warmingUp: bool,
    reason: Option<string>)

  datatype PredictionResult = PredictionResult(
    symbol: string,
    asofDate: string,
    openToday: real,
    predOpenTplus5: real,
    confidence: Confidence,
    series: ForecastSeries)

  /**
   * The result `transformBackendResponse` builds, with `today` standing for
   * the current date's `YYYY-MM-DD`: a missing open is 0, a missing
   * prediction is the open, a missing trading date is today.
   */
  function PredictionOf(b: BackendResponse, today: string): (r: PredictionResult)
    ensures r.symbol == b.companyId
    ensures r.openToday == b.openToday.GetOr(0.0)
    ensures r.predOpenTplus5 == b.predOpenTplus5.GetOr(r.openToday)
    ensures r.asofDate == b.asofTradingDate.GetOr(today)
    ensures r.confidence == Medium
    ensures r.series == MockSeries(r.openToday, r.predOpenTplus5)
  {
    var openToday := b.openToday.GetOr(0.0);
    var pred := b.predOpenTplus5.GetOr(openToday);
    PredictionResult(b.companyId, b.asofTradingDate.GetOr(today), openToday, pred,
      CalculateConfidence(openToday, pred), MockSeries(openToday, pred))
  }

  /** `transformBackendResponse`. */
  method TransformBackendResponse(b: BackendResponse, today: string) returns (r: PredictionResult)
    ensures r == PredictionOf(b, today)
  {
    var openToday := b.openToday.GetOr(0.0);
    var pred := b.predOpenTplus5.GetOr(openToday);
    var asofDate := b.asofTradingDate.GetOr(today);
    var series := GenerateMockForecastData(openToday, pred);
    var confidence := CalculateConfidence(openToday, pred);
    r := PredictionResult(b.companyId, asofDate, openToday, pred, confidence, series);
  }

  /** Without a prediction the forecast sits on today's open, so every delta is 0. */
  lemma MissingPredictionMeansNoMove(b: BackendResponse, today: string, day: nat)
    requires b.predOpenTplus5.None? && day < Days
    ensures PredictionOf(b, today).series.deltaPoints[day].deltaPrice == 0.0
  {
    var o := PredictionOf(b, today).openToday;
    if 1 <= day {
      DeltaSign(o, o, day);
    }
  }

  // ---------------------------------------------------------------------------
  // The request and the response classification

  const WarmingUpMessage := "ML model is warming up. Please try again in a few moments."
  const WarmingUpFallback := "Service is warming up"
  const PredictionFailure := "Prediction failed"

  function NotFoundMessage(companyId: string): string {
    "Company " + companyId + " not found in dataset"
  }

  /** The query parameters: the normalised, URI-encoded company id, and `asof` only when a non-empty date is given. */
  datatype PredictRequest = PredictRequest(companyIdParam: string, asof: Option<string>)

  function RequestFor(companyId: string, asofDate: Option<string>): (q: PredictRequest)
    ensures q.companyIdParam == EncodeUriComponent(NormalizeSymbol(companyId))
    ensures q.asof.Some? <==> asofDate.Some? && asofDate.value != ""
    ensures q.asof.Some? ==> q.asof == asofDate
  {
    PredictRequest(EncodeUriComponent(NormalizeSymbol(companyId)),
      if asofDate.Some? && asofDate.value != "" then asofDate else None)
  }

  /** A listed symbol of unreserved characters goes out as its bare code. */
  lemma RequestStripsSuffix(code: string)
    requires forall i :: 0 <= i < |code| ==> IsUriUnreserved(code[i])
    ensures RequestFor(code + ".N0000", None).companyIdParam == NormalizeSymbol(code + ".N0000")
    ensures NormalizeSymbol(code + ".N0000") == code
  {
    var s := code + ".N0000";
    assert s[|code| + 2..] == "0000";
    assert SuffixAt(s, |code|);
    assert s[..|code|] == code;
    EncodeUnreservedIdentity(code);
  }

  /**
   * The decision table of `predictOpenPrice` after the response arrives.
   * A 404 names the company as the caller gave it and a 503 reports the
   * warming model; any other failing status uses the body's message or
   * the status line. An OK body that says it is warming up fails with its
   * reason or a fixed fallback; any other OK body succeeds.
   */
  function Classify(companyId: string, resp: HttpResponse<BackendResponse>): (r: Result<BackendResponse>)
    ensures r.Success? <==> IsOk(resp.status) && !resp.body.warmingUp
    ensures r.Success? ==> r.value == resp.body
    ensures resp.status == 404 ==> r == Failure(NotFoundMessage(companyId))
    ensures resp.status == 503 ==> r == Failure(WarmingUpMessage)
    ensures !IsOk(resp.status) && resp.status != 404 && resp.status != 503 ==>
      r == Failure(FailureMessage(PredictionFailure, resp.status, resp.statusText, resp.errorMessage))
    ensures IsOk(resp.status) && resp.body.warmingUp ==> r == Failure(OrDefault(resp.body.reason, WarmingUpFallback))
  {
    if !IsOk(resp.status) then
      if resp.status == 404 then Failure(NotFoundMessage(companyId))
      else if resp.status == 503 then Failure(WarmingUpMessage)
      else Failure(FailureMessage(PredictionFailure, resp.status, resp.statusText, resp.errorMessage))
    else if resp.body.warmingUp then Failure(OrDefault(resp.body.reason, WarmingUpFallback))
    else Success(resp.body)
  }

  /** Every failure carries a non-empty message. */
  lemma ClassifyMessagesNonEmpty(companyId: string, resp: HttpResponse<BackendResponse>)
    ensures Classify(companyId, resp).Failure? ==> Classify(companyId, resp).error != ""
  {
  }

  /**
   * `predictOpenPrice(companyId, asofDate)` with the network as a parameter
   * and `today` for the date fallback: the request it sends, and how the
   * call settles. A network error is rethrown as it is.
   */
  method PredictOpenPrice(companyId: string, asofDate: Option<string>, today: string,
                          fetch: PredictRequest -> Result<HttpResponse<BackendResponse>>)
    returns (request: PredictRequest, r: Outcome<PredictionResult>)
    ensures request == RequestFor(companyId, asofDate)
    ensures fetch(request).Failure? ==> r == Threw(Some(fetch(request).error))
    ensures fetch(request).Success? ==>
      var c := Classify(companyId, fetch(request).value);
      && (c.Failure? ==> r == Threw(Some(c.error)))
      && (c.Success? ==> r == Resolved(PredictionOf(c.value, today)))
  {
    request := RequestFor(companyId, asofDate);
    var response := fetch(request);
    if response.Failure? {
      return request, Threw(Some(response.error));
    }
    var c := Classify(companyId, response.value);
    if c.Failure? {
      return request, Threw(Some(c.error));
    }
    var result := TransformBackendResponse(c.value, today);
    r := Resolved(result);
  }
}
