/** Charges for token usage and the budget test made before a run starts. */
module Pricing {
  import opened Wrappers
  import Decimal
  import Estimator

  const PER_MILLION: int := 1_000_000

  datatype UsageSource = ProviderReported | EstimatedV1

  datatype ReportedUsage = ReportedUsage(inputTokens: Option<int>, outputTokens: Option<int>)

  datatype BillableUsage = BillableUsage(inputTokens: int, outputTokens: int,
                                         inputSource: UsageSource, outputSource: UsageSource)

  /** Rates are billionths of a currency unit for one million tokens. */
  datatype PriceRevision = PriceRevision(id: string, currency: string, inputRate: int, outputRate: int)

  datatype Settlement = Settlement(inputCharge: int, outputCharge: int, totalCharge: int)

  datatype BudgetMode = Hard | Soft

  datatype Budget = Budget(mode: BudgetMode, currency: string, maxCharge: int)

  datatype BudgetEvaluation = BudgetEvaluation(allowed: bool, maximumPossibleCharge: int)

  predicate Negative(count: Option<int>) {
    count.Some? && count.value < 0
  }

  /** Missing dimensions are estimated, each on its own; a negative report is refused. */
  function ResolveUsage(isCjk: Estimator.ScriptTest, reported: ReportedUsage, inputText: string, outputText: string)
    : (r: Result<BillableUsage>)
    ensures r.Ok? ==> r.value.inputTokens >= 0 && r.value.outputTokens >= 0
    ensures r.Err? <==>
              || (reported.inputTokens.Some? && reported.inputTokens.value <= -1)
              || (reported.outputTokens.Some? && reported.outputTokens.value <= -1)
    ensures r.Ok? ==>
              if reported.inputTokens.Some?
              then Some(r.value.inputTokens) == reported.inputTokens && r.value.inputSource.ProviderReported?
              else r.value.inputTokens == Estimator.Tokens(isCjk, inputText) && r.value.inputSource.EstimatedV1?
    ensures r.Ok? ==>
              if reported.outputTokens.Some?
              then Some(r.value.outputTokens) == reported.outputTokens && r.value.outputSource.ProviderReported?
              else r.value.outputTokens == Estimator.Tokens(isCjk, outputText) && r.value.outputSource.EstimatedV1?
  {
    if Negative(reported.inputTokens) then Err("negative input tokens")
    else if Negative(reported.outputTokens) then Err("negative output tokens")
    else
      Ok(BillableUsage(
           if reported.inputTokens.Some? then reported.inputTokens.value else Estimator.Tokens(isCjk, inputText),
           if reported.outputTokens.Some? then reported.outputTokens.value else Estimator.Tokens(isCjk, outputText),
           if reported.inputTokens.Some? then ProviderReported else EstimatedV1,
           if reported.outputTokens.Some? then ProviderReported else EstimatedV1))
  }

  /** The rounded quotient of a product. */
  function Rounded(product: int): int {
    (product + PER_MILLION / 2) / PER_MILLION
  }

  /** Rounds half up to a billionth; the product is unbounded, only the quotient must fit. */
  function MultiplyTokens(tokens: int, rate: int): Result<int> {
    if tokens < 0 then Err("tokens cannot be negative") else
    var product := Rounded(tokens * rate);
    if !Decimal.IsInt64(product) then Err("charge overflows")
    else if product < 0 then Err("negative amounts are not supported")
    else Ok(product)
  }

  function Calculate(price: PriceRevision, inputTokens: int, outputTokens: int): Result<Settlement> {
    if price.id == "" || price.currency == "" then Err("price revision id and currency are required")
    else if inputTokens < 0 || outputTokens < 0 then Err("billable usage cannot be negative")
    else
      var input :- MultiplyTokens(inputTokens, price.inputRate);
      var output :- MultiplyTokens(outputTokens, price.outputRate);
      var total :- Decimal.Add(input, output);
      Ok(Settlement(input, output, total))
  }

  function EvaluateHardBudget(price: PriceRevision, inputTokens: int, maxOutputTokens: int, budget: Budget)
    : Result<BudgetEvaluation>
  {
    if budget.mode != Hard then Err("hard budget evaluation requires hard mode")
    else if budget.currency != price.currency then Err("budget currency does not match price currency")
    else if inputTokens < 0 || maxOutputTokens < 0 then Err("budget token bounds cannot be negative")
    else
      var settlement :- Calculate(price, inputTokens, maxOutputTokens);
      Ok(BudgetEvaluation(settlement.totalCharge <= budget.maxCharge, settlement.totalCharge))
  }

  /** The `exceeded` mark of a bill. */
  predicate Exceeded(settlement: Settlement, budget: Budget) {
    settlement.totalCharge > budget.maxCharge
  }

  // ---------------------------------------------------------------- laws

  /** A charge is the nearest billionth, ties going up. */
  lemma HalfUp(tokens: int, rate: int)
    requires MultiplyTokens(tokens, rate).Ok?
    ensures -(PER_MILLION / 2) < MultiplyTokens(tokens, rate).value * PER_MILLION - tokens * rate <= PER_MILLION / 2
  {
  }

  /** Fewer tokens at a lower rate never cost more, and never overflow where the larger charge did not. */
  lemma ChargeMonotone(tokens: int, rate: int, moreTokens: int, higherRate: int)
    requires 0 <= tokens <= moreTokens && 0 <= rate <= higherRate
    requires MultiplyTokens(moreTokens, higherRate).Ok?
    ensures MultiplyTokens(tokens, rate).Ok?
    ensures MultiplyTokens(tokens, rate).value <= MultiplyTokens(moreTokens, higherRate).value
  {
    hide MultiplyTokens, Rounded;
    ChargeIsRounded(tokens, rate);
    ChargeIsRounded(moreTokens, higherRate);
    ProductMonotone(tokens, rate, moreTokens, higherRate);
    RoundedMonotone(0, tokens * rate);
    RoundedMonotone(tokens * rate, moreTokens * higherRate);
    RoundedZero();
  }

  lemma ProductMonotone(a: nat, b: nat, c: nat, d: nat)
    requires a <= c && b <= d
    ensures 0 <= a * b <= c * d
  {
    assert a * b <= c * b <= c * d;
  }

  /** Charging a usage in two parts differs from charging it at once by at most a billionth. */
  lemma ChargeSplit(a: nat, b: nat, rate: int)
    requires MultiplyTokens(a, rate).Ok? && MultiplyTokens(b, rate).Ok? && MultiplyTokens(a + b, rate).Ok?
    ensures -1 <= MultiplyTokens(a, rate).value + MultiplyTokens(b, rate).value - MultiplyTokens(a + b, rate).value <= 1
  {
    HalfUp(a, rate);
    HalfUp(b, rate);
    HalfUp(a + b, rate);
    assert (a + b) * rate == a * rate + b * rate;
  }

  /** A total is its two charges exactly, is not negative, and is within a billionth of the unrounded price. */
  lemma TotalExact(price: PriceRevision, inputTokens: int, outputTokens: int)
    requires Calculate(price, inputTokens, outputTokens).Ok?
    ensures var s := Calculate(price, inputTokens, outputTokens).value;
            var exact := inputTokens * price.inputRate + outputTokens * price.outputRate;
            && s.totalCharge == s.inputCharge + s.outputCharge
            && 0 <= s.inputCharge <= s.totalCharge <= Decimal.MAX_INT64
            && -PER_MILLION < s.totalCharge * PER_MILLION - exact <= PER_MILLION
  {
    HalfUp(inputTokens, price.inputRate);
    HalfUp(outputTokens, price.outputRate);
  }

  /** When a usage can be priced, and that each charge is that of its own count at its own rate. */
  lemma CalculateExactly(price: PriceRevision, inputTokens: int, outputTokens: int)
    ensures var s := Calculate(price, inputTokens, outputTokens);
            var input, output := Rounded(inputTokens * price.inputRate), Rounded(outputTokens * price.outputRate);
            && (s.Ok? <==>
                  && |price.id| > 0 && |price.currency| > 0 && inputTokens >= 0 && outputTokens >= 0
                  && 0 <= input && 0 <= output && input + output <= Decimal.MAX_INT64)
            && (s.Ok? ==>
                  s.value.inputCharge == input && s.value.outputCharge == output
                  && s.value.totalCharge == input + output)
  {
    hide Rounded;
    ChargeIsRounded(inputTokens, price.inputRate);
    ChargeIsRounded(outputTokens, price.outputRate);
  }

  /** A product of a count and a rate per million is divided by a million, ties going up. */
  lemma RoundedExactly(product: int)
    ensures -500_000 < Rounded(product) * 1_000_000 - product <= 500_000
  {
  }

  /** When a hard budget can be evaluated at all, and with which result. */
  lemma EvaluateExactly(price: PriceRevision, inputTokens: int, maxOutputTokens: int, budget: Budget)
    ensures var e, most := EvaluateHardBudget(price, inputTokens, maxOutputTokens, budget),
                           Calculate(price, inputTokens, maxOutputTokens);
            && (e.Ok? <==>
                  && budget.mode == Hard && budget.currency == price.currency && inputTokens >= 0
                  && maxOutputTokens >= 0 && most.Ok?)
            && (e.Ok? ==>
                  && e.value.maximumPossibleCharge == most.value.totalCharge
                  && (e.value.allowed <==> most.value.totalCharge <= budget.maxCharge))
    ensures forall s: Settlement :: Exceeded(s, budget) <==> budget.maxCharge < s.totalCharge
  {
    hide Calculate;
  }

  lemma RoundedMonotone(p: int, q: int)
    requires p <= q
    ensures Rounded(p) <= Rounded(q)
  {
  }

  lemma ChargeIsRounded(tokens: int, rate: int)
    ensures MultiplyTokens(tokens, rate).Ok? <==> tokens >= 0 && 0 <= Rounded(tokens * rate) <= Decimal.MAX_INT64
    ensures MultiplyTokens(tokens, rate).Ok? ==> MultiplyTokens(tokens, rate).value == Rounded(tokens * rate)
  {
  }

  lemma NegativeProduct(a: nat, b: nat, rate: int)
    requires a <= b && rate < 0
    ensures b * rate <= a * rate <= 0
  {
  }

  /** Lowering the token count keeps a charge computable and no larger, whatever the sign of the rate. */
  lemma FewerTokens(tokens: int, moreTokens: int, rate: int)
    requires 0 <= tokens <= moreTokens
    requires MultiplyTokens(moreTokens, rate).Ok?
    ensures MultiplyTokens(tokens, rate).Ok?
    ensures MultiplyTokens(tokens, rate).value <= MultiplyTokens(moreTokens, rate).value
  {
    hide MultiplyTokens, Rounded;
    if rate >= 0 {
      ChargeMonotone(tokens, rate, moreTokens, rate);
    } else {
      ChargeIsRounded(tokens, rate);
      ChargeIsRounded(moreTokens, rate);
      NegativeProduct(tokens, moreTokens, rate);
      RoundedMonotone(moreTokens * rate, tokens * rate);
      RoundedMonotone(tokens * rate, 0);
      RoundedZero();
    }
  }

  lemma RoundedZero()
    ensures Rounded(0) == 0
  {
  }

  /**
    A hard budget is granted exactly when no usage within the two admitted bounds can exceed it; every such
    usage can then be settled without overflow and its bill is not marked exceeded.
  */
  lemma HardBudgetSound(price: PriceRevision, inputTokens: int, maxOutputTokens: int, budget: Budget)
    requires EvaluateHardBudget(price, inputTokens, maxOutputTokens, budget).Ok?
    ensures EvaluateHardBudget(price, inputTokens, maxOutputTokens, budget).value.allowed
       <==> forall i: int, o: int | 0 <= i <= inputTokens && 0 <= o <= maxOutputTokens ::
              Calculate(price, i, o).Ok? && !Exceeded(Calculate(price, i, o).value, budget)
  {
    if EvaluateHardBudget(price, inputTokens, maxOutputTokens, budget).value.allowed {
      forall i: int, o: int | 0 <= i <= inputTokens && 0 <= o <= maxOutputTokens
        ensures Calculate(price, i, o).Ok? && !Exceeded(Calculate(price, i, o).value, budget)
      {
        WithinBounds(price, i, o, inputTokens, maxOutputTokens);
      }
    } else {
      assert Calculate(price, inputTokens, maxOutputTokens).Ok?
          && Exceeded(Calculate(price, inputTokens, maxOutputTokens).value, budget);
    }
  }

  lemma WithinBounds(price: PriceRevision, i: int, o: int, maxInput: int, maxOutput: int)
    requires 0 <= i <= maxInput && 0 <= o <= maxOutput
    requires Calculate(price, maxInput, maxOutput).Ok?
    ensures Calculate(price, i, o).Ok?
    ensures Calculate(price, i, o).value.totalCharge <= Calculate(price, maxInput, maxOutput).value.totalCharge
  {
    FewerTokens(i, maxInput, price.inputRate);
    FewerTokens(o, maxOutput, price.outputRate);
  }
}
