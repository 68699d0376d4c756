/** `POST /api/ai/strategy`: presence check, then the budget, then the analysis call. */
module StrategyRoute {
  import opened Wrappers
  import opened Http

  /** The arguments handed to `generateStrategyAnalysis`: the parsed budget and the other fields as received. */
  datatype StrategyInput<V> = StrategyInput(seed: V, market: V, budget: real, campaignType: V, lang: V)

  /** `!seed || !market || !budget || !campaignType || !lang` is false. */
  predicate AllPresent<V>(b: Body<V>, truthy: V -> bool) {
    && Present(b, "seed", truthy) && Present(b, "market", truthy) && Present(b, "budget", truthy)
    && Present(b, "campaignType", truthy) && Present(b, "lang", truthy)
  }

  /** Every check passes. */
  predicate Accepted<V>(b: Body<V>, truthy: V -> bool, parseFloat: V -> Option<real>) {
    AllPresent(b, truthy) && !BelowMinimum(parseFloat(b["budget"]), 5000.0)
  }

  /** What the analysis is called with once every check has passed. */
  function InputOf<V>(b: Body<V>, truthy: V -> bool, parseFloat: V -> Option<real>): StrategyInput<V>
    requires Accepted(b, truthy, parseFloat)
  {
    StrategyInput(b["seed"], b["market"], parseFloat(b["budget"]).value, b["campaignType"], b["lang"])
  }

  /**
   * The handler. `body` is None when `request.json()` throws; `generate` answers Failure when
   * `generateStrategyAnalysis` throws. Both land in the catch block.
   */
  function Post<V, R>(body: Option<Body<V>>, truthy: V -> bool, parseFloat: V -> Option<real>,
                      generate: StrategyInput<V> -> Result<R, string>): (r: Response<R>)
    ensures r == Error(400, "Missing required parameters")
            <==> body.Some? && !AllPresent(body.value, truthy)
    ensures r == Error(400, "Budget must be at least €5000")
            <==> body.Some? && AllPresent(body.value, truthy) && BelowMinimum(parseFloat(body.value["budget"]), 5000.0)
    ensures r.Ok? <==> body.Some? && Accepted(body.value, truthy, parseFloat)
                       && generate(InputOf(body.value, truthy, parseFloat)).Success?
    ensures r.Ok? ==> r.result == generate(InputOf(body.value, truthy, parseFloat)).value
    ensures r.Error? ==> r.status == 400 || r == Error(500, "Failed to generate strategy analysis")
  {
    match body
    case None => Error(500, "Failed to generate strategy analysis")
    case Some(b) =>
      if !AllPresent(b, truthy) then Error(400, "Missing required parameters")
      else
        var budgetNum := parseFloat(b["budget"]);
        if BelowMinimum(budgetNum, 5000.0) then Error(400, "Budget must be at least €5000")
        else
          match generate(StrategyInput(b["seed"], b["market"], budgetNum.value, b["campaignType"], b["lang"]))
          case Success(result) => Ok(result)
          case Failure(_) => Error(500, "Failed to generate strategy analysis")
  }

  /** The minimum is inclusive: exactly 5000 passes the budget check, anything below fails it. */
  lemma BudgetBoundary<V, R>(b: Body<V>, truthy: V -> bool, parseFloat: V -> Option<real>,
                             generate: StrategyInput<V> -> Result<R, string>, x: real)
    requires AllPresent(b, truthy) && parseFloat(b["budget"]) == Some(x)
    ensures x < 5000.0 <==> Post(Some(b), truthy, parseFloat, generate) == Error(400, "Budget must be at least €5000")
  {
  }

  /** The generator is not consulted before every check passes: two generators give the same rejection. */
  lemma GeneratorOnlyWhenAccepted<V, R>(body: Option<Body<V>>, truthy: V -> bool, parseFloat: V -> Option<real>,
                                       g1: StrategyInput<V> -> Result<R, string>, g2: StrategyInput<V> -> Result<R, string>)
    requires !(body.Some? && Accepted(body.value, truthy, parseFloat))
    ensures Post(body, truthy, parseFloat, g1) == Post(body, truthy, parseFloat, g2)
  {
  }
}
