/** `POST /api/ai/roi`: presence check, then investment, then revenue, then the analysis call. */
module RoiRoute {
  import opened Wrappers
  import opened Http

  /** The arguments handed to `generateROIAnalysis`: the parsed numbers and the other fields as received. */
  datatype RoiInput<V> = RoiInput(seed: V, investment: real, projectedRevenue: real, region: V, sector: V, lang: V)

  /** `!seed || !investment || !projectedRevenue || !region || !sector || !lang` is false. */
  predicate AllPresent<V>(b: Body<V>, truthy: V -> bool) {
    && Present(b, "seed", truthy) && Present(b, "investment", truthy) && Present(b, "projectedRevenue", truthy)
    && Present(b, "region", truthy) && Present(b, "sector", truthy) && Present(b, "lang", truthy)
  }

  /** `isNaN(revenueNum) || revenueNum <= 0`. */
  predicate RevenueRejected(x: Option<real>) {
    x.None? || x.value <= 0.0
  }

  /** Every check passes. */
  predicate Accepted<V>(b: Body<V>, truthy: V -> bool, parseFloat: V -> Option<real>) {
    && AllPresent(b, truthy)
    && !BelowMinimum(parseFloat(b["investment"]), 5000.0)
    && !RevenueRejected(parseFloat(b["projectedRevenue"]))
  }

  /** What the analysis is called with once every check has passed. */
  function InputOf<V>(b: Body<V>, truthy: V -> bool, parseFloat: V -> Option<real>): RoiInput<V>
    requires Accepted(b, truthy, parseFloat)
  {
    RoiInput(b["seed"], parseFloat(b["investment"]).value, parseFloat(b["projectedRevenue"]).value,
             b["region"], b["sector"], b["lang"])
  }

  /**
   * The handler. `body` is None when `request.json()` throws; `generate` answers Failure when
   * `generateROIAnalysis` throws. Both land in the catch block.
   */
  function Post<V, R>(body: Option<Body<V>>, truthy: V -> bool, parseFloat: V -> Option<real>,
                      generate: RoiInput<V> -> Result<R, string>): (r: Response<R>)
    ensures r == Error(400, "Missing required parameters")
            <==> body.Some? && !AllPresent(body.value, truthy)
    ensures r == Error(400, "Investment must be at least €5000")
            <==> body.Some? && AllPresent(body.value, truthy) && BelowMinimum(parseFloat(body.value["investment"]), 5000.0)
    ensures r == Error(400, "Projected revenue must be greater than 0")
            <==> (&& body.Some? && AllPresent(body.value, truthy)
                  && !BelowMinimum(parseFloat(body.value["investment"]), 5000.0)
                  && RevenueRejected(parseFloat(body.value["projectedRevenue"])))
    ensures r.Ok? <==> body.Some? && Accepted(body.value, truthy, parseFloat)
                       && generate(InputOf(body.value, truthy, parseFloat)).Success?
    ensures r.Ok? ==> r.result == generate(InputOf(body.value, truthy, parseFloat)).value
    ensures r.Error? ==> r.status == 400 || r == Error(500, "Failed to generate ROI analysis")
  {
    match body
    case None => Error(500, "Failed to generate ROI analysis")
    case Some(b) =>
      if !AllPresent(b, truthy) then Error(400, "Missing required parameters")
      else
        var investmentNum := parseFloat(b["investment"]);
        var revenueNum := parseFloat(b["projectedRevenue"]);
        if BelowMinimum(investmentNum, 5000.0) then Error(400, "Investment must be at least €5000")
        else if RevenueRejected(revenueNum) then Error(400, "Projected revenue must be greater than 0")
        else
          match generate(RoiInput(b["seed"], investmentNum.value, revenueNum.value, b["region"], b["sector"], b["lang"]))
          case Success(result) => Ok(result)
          case Failure(_) => Error(500, "Failed to generate ROI analysis")
  }

  /** The minimum is inclusive: exactly 5000 passes the investment check, anything below fails it. */
  lemma InvestmentBoundary<V, R>(b: Body<V>, truthy: V -> bool, parseFloat: V -> Option<real>,
                                 generate: RoiInput<V> -> Result<R, string>, x: real)
    requires AllPresent(b, truthy) && parseFloat(b["investment"]) == Some(x)
    ensures x < 5000.0 <==> Post(Some(b), truthy, parseFloat, generate) == Error(400, "Investment must be at least €5000")
  {
  }

  /** A revenue of zero is rejected; any positive revenue passes its check. */
  lemma RevenueBoundary<V, R>(b: Body<V>, truthy: V -> bool, parseFloat: V -> Option<real>,
                              generate: RoiInput<V> -> Result<R, string>, y: real)
    requires AllPresent(b, truthy) && !BelowMinimum(parseFloat(b["investment"]), 5000.0)
    requires parseFloat(b["projectedRevenue"]) == Some(y)
    ensures y <= 0.0 <==> Post(Some(b), truthy, parseFloat, generate) == Error(400, "Projected revenue must be greater than 0")
  {
  }

  /** The generator is not consulted before every check passes: two generators give the same rejection. */
  lemma GeneratorOnlyWhenAccepted<V, R>(body: Option<Body<V>>, truthy: V -> bool, parseFloat: V -> Option<real>,
                                       g1: RoiInput<V> -> Result<R, string>, g2: RoiInput<V> -> Result<R, string>)
    requires !(body.Some? && Accepted(body.value, truthy, parseFloat))
    ensures Post(body, truthy, parseFloat, g1) == Post(body, truthy, parseFloat, g2)
  {
  }
}
