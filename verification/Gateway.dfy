/** One gateway request: its admission, the answer to a repeated key, and the relay of provider events. */
module Gateway {
  import opened Names
  import opened Wrappers
  import opened RunStore
  import ActualCosts
  import Decimal
  import Estimator
  import Pricing

  // ------------------------------------------------ what is billed and answered

  datatype BudgetMark = BudgetMark(mode: Pricing.BudgetMode, maxCharge: string, exceeded: bool)

  datatype Billing = Billing(runId: Name, inputTokens: int, outputTokens: int, inputCharge: string,
                             outputCharge: string, totalCharge: string, budget: Option<BudgetMark>)

  /** An upstream response; `outputJson` is the encoding of its output items. */
  datatype Upstream = Upstream(json: string, outputJson: string)

  /** The public response is a function of these. */
  datatype Response = Response(runId: Name, deploymentId: Name, upstream: Option<Upstream>, outputText: string,
                               inputTokens: int, outputTokens: int)

  /** JSON encoding and decoding of what a run stores. */
  datatype Codec = Codec(writeResponse: Response -> Option<string>, writeBilling: Billing -> Option<string>,
                         readResponse: string -> Option<Response>, readBilling: string -> Option<Billing>,
                         writeCosts: seq<ActualCosts.Record> -> Option<string>)

  ghost predicate Faithful(codec: Codec) {
    && (forall r :: codec.writeResponse(r).Some? ==> codec.readResponse(codec.writeResponse(r).value) == Some(r))
    && (forall b :: codec.writeBilling(b).Some? ==> codec.readBilling(codec.writeBilling(b).value) == Some(b))
  }

  function NewBilling(runId: Name, inputTokens: int, outputTokens: int, settlement: Pricing.Settlement,
                      budget: Option<Pricing.Budget>): Billing
  {
    Billing(runId, inputTokens, outputTokens, Decimal.Print(settlement.inputCharge),
            Decimal.Print(settlement.outputCharge), Decimal.Print(settlement.totalCharge),
            match budget
            case None => None
            case Some(b) => Some(BudgetMark(b.mode, Decimal.Print(b.maxCharge), Pricing.Exceeded(settlement, b))))
  }

  // ------------------------------------------------ admission

  datatype Deployment = Deployment(id: Name, providerId: string, price: Pricing.PriceRevision,
                                   actual: ActualCosts.Rates,
                                   enabled: bool, hardBudgetSupported: bool, nativeTools: bool, efforts: set<string>)

  datatype BudgetRequest = BudgetRequest(mode: Option<Pricing.BudgetMode>, currency: string, maxCharge: string)

  datatype Request = Request(client: Name, model: Name, key: Name, fingerprint: Name, canonicalInput: string,
                             maxOutputTokens: Option<int>, effort: string, toolsEnabled: bool,
                             budget: Option<BudgetRequest>, dailyLimit: string)

  /** What a request is checked against: the deployments, and those each client may use. */
  datatype Catalog = Catalog(isCjk: Estimator.ScriptTest, deployments: map<Name, Deployment>,
                             allowed: map<Name, set<Name>>)

  /** The checks before anything is stored; on success the parsed budget. */
  function Admit(isCjk: Estimator.ScriptTest, deployment: Option<Deployment>, allowed: bool, r: Request)
    : Result<Option<Pricing.Budget>>
  {
    if deployment.None? || !deployment.value.enabled then Err("unknown_model_deployment")
    else if !allowed then Err("model_not_allowed")
    else
      var d := deployment.value;
      if r.effort != "" && d.efforts != {} && r.effort !in d.efforts then Err("unsupported_reasoning_effort")
      else if r.toolsEnabled && !d.nativeTools then Err("function_call_not_supported")
      else AdmitBudget(isCjk, d, r)
  }

  function AdmitBudget(isCjk: Estimator.ScriptTest, d: Deployment, r: Request): Result<Option<Pricing.Budget>> {
    match r.budget
    case None => Ok(None)
    case Some(asked) =>
      match Decimal.ParseDecimal(asked.maxCharge)
      case Err(_) => Err("invalid_budget")
      case Ok(maxCharge) =>
        match asked.mode
        case None => Err("invalid_budget")
        case Some(Soft) => Ok(Some(Pricing.Budget(Pricing.Soft, asked.currency, maxCharge)))
        case Some(Hard) =>
          var budget := Pricing.Budget(Pricing.Hard, asked.currency, maxCharge);
          if !d.hardBudgetSupported || r.maxOutputTokens.None? then Err("hard_budget_not_enforceable")
          else
            var estimate := Estimator.Tokens(isCjk, r.canonicalInput);
            match Pricing.EvaluateHardBudget(d.price, estimate, r.maxOutputTokens.value, budget)
            case Err(_) => Err("invalid_budget")
            case Ok(evaluation) => if evaluation.allowed then Ok(Some(budget)) else Err("budget_exceeded_before_start")
  }

  function DeploymentFor(catalog: Catalog, r: Request): Option<Deployment> {
    if r.model in catalog.deployments then Some(catalog.deployments[r.model]) else None
  }

  predicate Allows(catalog: Catalog, client: Name, deployment: Name) {
    client in catalog.allowed && deployment in catalog.allowed[client]
  }

  function AdmitRequest(catalog: Catalog, r: Request): Result<Option<Pricing.Budget>> {
    var d := DeploymentFor(catalog, r);
    Admit(catalog.isCjk, d, d.Some? && Allows(catalog, r.client, d.value.id), r)
  }

  /** A budget that can be admitted: readable, with a known mode, and a hard one only if it cannot be exceeded. */
  predicate BudgetInOrder(isCjk: Estimator.ScriptTest, d: Deployment, r: Request) {
    r.budget.Some? ==>
      var maxCharge := Decimal.ParseDecimal(r.budget.value.maxCharge);
      && maxCharge.Ok? && r.budget.value.mode.Some?
      && (r.budget.value.mode.value == Pricing.Hard ==>
            && d.hardBudgetSupported && r.maxOutputTokens.Some? && r.maxOutputTokens.value >= 0
            && r.budget.value.currency == d.price.currency
            && var most := Pricing.Calculate(d.price, Estimator.Tokens(isCjk, r.canonicalInput),
                                             r.maxOutputTokens.value);
               most.Ok? && most.value.totalCharge <= maxCharge.value)
  }

  /** A hard budget in its own currency whose maximum is below the most the request could cost. */
  predicate ExceedsBeforeStart(isCjk: Estimator.ScriptTest, d: Deployment, r: Request) {
    && r.budget.Some? && r.budget.value.mode == Some(Pricing.Hard) && d.hardBudgetSupported
    && r.budget.value.currency == d.price.currency && r.maxOutputTokens.Some? && r.maxOutputTokens.value >= 0
    && var most := Pricing.Calculate(d.price, Estimator.Tokens(isCjk, r.canonicalInput), r.maxOutputTokens.value);
       var maxCharge := Decimal.ParseDecimal(r.budget.value.maxCharge);
       most.Ok? && maxCharge.Ok? && maxCharge.value < most.value.totalCharge
  }

  /** Who is admitted, with which budget, and which code every other request is refused with. */
  lemma AdmitExactly(isCjk: Estimator.ScriptTest, deployment: Option<Deployment>, allowed: bool, r: Request)
    ensures var verdict := Admit(isCjk, deployment, allowed, r);
            if deployment.None? || !deployment.value.enabled then verdict == Err("unknown_model_deployment")
            else if !allowed then verdict == Err("model_not_allowed")
            else
              var d := deployment.value;
              if r.effort != "" && |d.efforts| > 0 && r.effort !in d.efforts then
                verdict == Err("unsupported_reasoning_effort")
              else if r.toolsEnabled && !d.nativeTools then verdict == Err("function_call_not_supported")
              else
                && (verdict.Ok? <==> BudgetInOrder(isCjk, d, r))
                && (verdict.Err? ==> verdict.reason in {"invalid_budget", "hard_budget_not_enforceable",
                                                        "budget_exceeded_before_start"})
                && (verdict == Err("hard_budget_not_enforceable") <==>
                      && r.budget.Some? && Decimal.ParseDecimal(r.budget.value.maxCharge).Ok?
                      && r.budget.value.mode == Some(Pricing.Hard)
                      && (!d.hardBudgetSupported || r.maxOutputTokens.None?))
                && (verdict == Err("budget_exceeded_before_start") <==>
                      ExceedsBeforeStart(isCjk, d, r))
                && (verdict.Ok? ==>
                      && (verdict.value.Some? <==> r.budget.Some?)
                      && (r.budget.Some? ==>
                            && Some(verdict.value.value.mode) == r.budget.value.mode
                            && verdict.value.value.currency == r.budget.value.currency
                            && Ok(verdict.value.value.maxCharge) == Decimal.ParseDecimal(r.budget.value.maxCharge)))
  {
    hide Decimal.ParseDecimal, Pricing.Calculate, Estimator.Tokens;
  }

  /** A request is admitted exactly when all of this holds of it. */
  predicate Admissible(catalog: Catalog, r: Request) {
    && r.model in catalog.deployments
    && var d := catalog.deployments[r.model];
       && d.enabled && r.client in catalog.allowed && d.id in catalog.allowed[r.client]
       && (r.effort == "" || d.efforts == {} || r.effort in d.efforts)
       && (r.toolsEnabled ==> d.nativeTools)
       && BudgetInOrder(catalog.isCjk, d, r)
  }

  lemma AdmittedMeans(catalog: Catalog, r: Request)
    ensures AdmitRequest(catalog, r).Ok? <==> Admissible(catalog, r)
    ensures r.model !in catalog.deployments || !catalog.deployments[r.model].enabled ==>
              AdmitRequest(catalog, r) == Err("unknown_model_deployment")
    ensures (&& r.model in catalog.deployments && catalog.deployments[r.model].enabled
             && (r.client in catalog.allowed ==> catalog.deployments[r.model].id !in catalog.allowed[r.client])) ==>
              AdmitRequest(catalog, r) == Err("model_not_allowed")
  {
    hide BudgetInOrder, Admit;
    AdmitExactly(catalog.isCjk, DeploymentFor(catalog, r),
                 var d := DeploymentFor(catalog, r); d.Some? && Allows(catalog, r.client, d.value.id), r);
  }

  /** What to do with the outcome of a reservation. */
  datatype Decision =
    | Proceed
    | Replay(runId: Name, response: Response, billing: Billing)
    | Refuse(code: string)

  function Decide(codec: Codec, result: ReserveResult, fingerprint: Name): Decision {
    match result
    case QuotaExceeded => Refuse("daily_quota_exceeded")
    case ReserveFailed => Refuse("persistence_failed")
    case Reserved(record, true) => Proceed
    case Reserved(record, false) =>
      if record.fingerprint != fingerprint then Refuse("idempotency_key_reused")
      else if record.status.Completed? && record.settlement.Confirmed? then
        if record.response.None? || record.billing.None? then Refuse("persistence_corrupt") else
        match (codec.readResponse(record.response.value), codec.readBilling(record.billing.value))
        case (Some(response), Some(billing)) => Replay(record.runId, response, billing)
        case _ => Refuse("persistence_corrupt")
      else Refuse("idempotency_in_progress")
  }

  /** A repeated key is replayed exactly for the same request and a confirmed run whose texts can be read. */
  lemma DecideExactly(codec: Codec, record: StoredRun, fingerprint: Name)
    ensures Decide(codec, Reserved(record, true), fingerprint) == Proceed
    ensures Decide(codec, QuotaExceeded, fingerprint) == Refuse("daily_quota_exceeded")
    ensures Decide(codec, ReserveFailed, fingerprint) == Refuse("persistence_failed")
    ensures var decision := Decide(codec, Reserved(record, false), fingerprint);
            var confirmed := record.status == Completed && record.settlement == Confirmed;
            var response := if record.response.Some? then codec.readResponse(record.response.value) else None;
            var billing := if record.billing.Some? then codec.readBilling(record.billing.value) else None;
            if record.fingerprint != fingerprint then decision == Refuse("idempotency_key_reused")
            else if !confirmed then decision == Refuse("idempotency_in_progress")
            else if response.None? || billing.None? then decision == Refuse("persistence_corrupt")
            else decision == Replay(record.runId, response.value, billing.value)
  {
  }

  // ------------------------------------------------ relaying provider events

  datatype Final = Final(upstream: Option<Upstream>, outputText: string, usage: Pricing.ReportedUsage,
                         costs: seq<ActualCosts.Observation>)

  datatype ProviderEvent = ProviderDelta(text: string) | ProviderCompleted(final: Option<Final>) | ProviderFailed

  datatype Event =
    | OutputTextDelta(text: string)
    | BillingCompleted(billing: Billing)
    | RunCompleted(response: Response, billing: Billing)
    | RunFailed(code: string)

  /** What a request does to the outside, in order. */
  datatype Action =
    | Send(event: Event)
    | CompleteRun(completion: Completion, ok: bool)
    | FailRun(settlement: Settlement, code: string)

  /** The admitted request. */
  datatype Context = Context(runId: Name, deployment: Deployment, canonicalInput: string, toolsEnabled: bool,
                             budget: Option<Pricing.Budget>, hasRepository: bool)

  /**
    What the relay cannot control: where the context is found cancelled, which deliveries succeed, whether the
    tool contract holds, and whether the completion is stored.
  */
  datatype Environment = Environment(isCjk: Estimator.ScriptTest, upper: ActualCosts.UpperCase, codec: Codec,
                                     cancels: nat -> bool, delivers: nat -> bool, toolsValid: bool,
                                     encodesBudget: bool, stores: bool)

  datatype Stage =
    | Streaming
    | Persisted(completion: Completion)
    | Unpersisted
    | Billed(stored: Option<Completion>, billing: Billing)
    | Failing
    | Ended

  /** A stored completion says what this response and billing say. */
  predicate Matches(codec: Codec, c: Completion, response: Option<Response>, billing: Billing) {
    && c.runId == billing.runId
    && codec.writeBilling(billing) == Some(c.billing)
    && c.totalCharge == billing.totalCharge
    && c.inputTokens == billing.inputTokens && c.outputTokens == billing.outputTokens
    && (response.Some? ==> response.value.runId == c.runId && codec.writeResponse(response.value) == Some(c.response))
  }

  /** The order in which a request may act; None when the action is out of turn. */
  function Next(codec: Codec, hasRepository: bool, runId: Name, stage: Stage, action: Action): Option<Stage> {
    match (stage, action)
    case (Streaming, Send(OutputTextDelta(_))) => Some(Streaming)
    case (Streaming, FailRun(settlement, _)) =>
      if hasRepository && (settlement.Unconfirmed? || settlement.SettlementFailed?) then Some(Failing) else None
    case (Streaming, CompleteRun(c, ok)) =>
      if hasRepository && c.runId == runId then Some(if ok then Persisted(c) else Unpersisted) else None
    case (Streaming, Send(RunFailed(_))) => if hasRepository then None else Some(Ended)
    case (Streaming, Send(BillingCompleted(b))) =>
      if hasRepository || b.runId != runId then None else Some(Billed(None, b))
    case (Unpersisted, FailRun(SettlementFailed, _)) => Some(Failing)
    case (Failing, Send(RunFailed(_))) => Some(Ended)
    case (Persisted(c), Send(BillingCompleted(b))) =>
      if Matches(codec, c, None, b) then Some(Billed(Some(c), b)) else None
    case (Billed(c, b), Send(RunCompleted(r, b'))) =>
      if b == b' && (c.Some? ==> Matches(codec, c.value, Some(r), b)) then Some(Ended) else None
    case _ => None
  }

  function Follow(codec: Codec, hasRepository: bool, runId: Name, actions: seq<Action>): Option<Stage> {
    if actions == [] then Some(Streaming) else
    match Follow(codec, hasRepository, runId, actions[..|actions| - 1])
    case None => None
    case Some(stage) => Next(codec, hasRepository, runId, stage, actions[|actions| - 1])
  }

  lemma FollowAppend(codec: Codec, hasRepository: bool, runId: Name, actions: seq<Action>, action: Action)
    ensures Follow(codec, hasRepository, runId, actions + [action]) ==
              match Follow(codec, hasRepository, runId, actions)
              case None => None
              case Some(stage) => Next(codec, hasRepository, runId, stage, action)
  {
    assert (actions + [action])[..|actions|] == actions;
  }

  function UsageText(final: Final, outputText: string): string {
    if outputText == "" && final.upstream.Some? then final.upstream.value.outputJson else outputText
  }

  /** The response and bill of a completion; an error means the run ends without a word. */
  function Priced(isCjk: Estimator.ScriptTest, ctx: Context, final: Final, outputText: string)
    : (r: Result<(Response, Billing)>)
    ensures r.Ok? ==>
              && r.value.0.runId == r.value.1.runId == ctx.runId
              && r.value.0.inputTokens == r.value.1.inputTokens && r.value.0.outputTokens == r.value.1.outputTokens
  {
    var usage :- Pricing.ResolveUsage(isCjk, final.usage, ctx.canonicalInput, UsageText(final, outputText));
    var settlement :- Pricing.Calculate(ctx.deployment.price, usage.inputTokens, usage.outputTokens);
    Ok((Response(ctx.runId, ctx.deployment.id, final.upstream, outputText, usage.inputTokens, usage.outputTokens),
        NewBilling(ctx.runId, usage.inputTokens, usage.outputTokens, settlement, ctx.budget)))
  }

  /** What is stored for a response and bill; None when a part of it cannot be encoded. */
  function CompletionOf(env: Environment, ctx: Context, final: Final, response: Response,
                        billing: Billing): Option<Completion>
  {
    var records := ActualCosts.Records(env.upper, ctx.deployment.actual, billing.inputTokens, billing.outputTokens,
                                       final.costs);
    var responseJson, billingJson := env.codec.writeResponse(response), env.codec.writeBilling(billing);
    var costJson := env.codec.writeCosts(records);
    if responseJson.None? || billingJson.None? || !env.encodesBudget || costJson.None? then None
    else
      Some(Completion(ctx.runId, responseJson.value, billingJson.value, billing.inputTokens, billing.outputTokens,
                      ctx.deployment.price.currency, billing.totalCharge, ctx.deployment.providerId, costJson.value))
  }

  /** The charge a bill shows for tokens at a rate: the nearest billionth, ties going up. */
  predicate Charged(shown: string, tokens: int, rate: int, charge: int) {
    && shown == Decimal.Print(charge) && 0 <= charge
    && -500_000 < charge * 1_000_000 - tokens * rate <= 500_000
  }

  lemma SettlementMeans(price: Pricing.PriceRevision, inputTokens: int, outputTokens: int)
    requires Pricing.Calculate(price, inputTokens, outputTokens).Ok?
    ensures var s := Pricing.Calculate(price, inputTokens, outputTokens).value;
            && Charged(Decimal.Print(s.inputCharge), inputTokens, price.inputRate, s.inputCharge)
            && Charged(Decimal.Print(s.outputCharge), outputTokens, price.outputRate, s.outputCharge)
            && s.totalCharge == s.inputCharge + s.outputCharge
  {
    hide Decimal.Print, Pricing.MultiplyTokens;
    Pricing.HalfUp(inputTokens, price.inputRate);
    Pricing.HalfUp(outputTokens, price.outputRate);
    Pricing.TotalExact(price, inputTokens, outputTokens);
  }

  /** A bill shows each count and each charge under its own name, and the sum of both charges. */
  lemma PricedMeans(isCjk: Estimator.ScriptTest, ctx: Context, final: Final, outputText: string)
    returns (input: int, output: int)
    requires Priced(isCjk, ctx, final, outputText).Ok?
    ensures var (response, bill) := Priced(isCjk, ctx, final, outputText).value;
            && Charged(bill.inputCharge, bill.inputTokens, ctx.deployment.price.inputRate, input)
            && Charged(bill.outputCharge, bill.outputTokens, ctx.deployment.price.outputRate, output)
            && bill.totalCharge == Decimal.Print(input + output) && bill.runId == ctx.runId
            && response.runId == ctx.runId && response.deploymentId == ctx.deployment.id
            && response.upstream == final.upstream && response.outputText == outputText
            && response.inputTokens == bill.inputTokens && response.outputTokens == bill.outputTokens
            && (bill.budget.Some? <==> ctx.budget.Some?)
            && (ctx.budget.Some? ==>
                  && bill.budget.value.mode == ctx.budget.value.mode
                  && bill.budget.value.maxCharge == Decimal.Print(ctx.budget.value.maxCharge)
                  && (bill.budget.value.exceeded <==> input + output > ctx.budget.value.maxCharge))
  {
    hide Decimal.Print, Estimator.Tokens, Pricing.Calculate, Charged;
    var usage := Pricing.ResolveUsage(isCjk, final.usage, ctx.canonicalInput, UsageText(final, outputText)).value;
    var price := ctx.deployment.price;
    var settlement := Pricing.Calculate(price, usage.inputTokens, usage.outputTokens).value;
    SettlementMeans(price, usage.inputTokens, usage.outputTokens);
    input, output := settlement.inputCharge, settlement.outputCharge;
  }

  /** The counts of a bill: what the provider reported, or else the estimates of the input and of what was put out. */
  lemma CountsMean(isCjk: Estimator.ScriptTest, ctx: Context, final: Final, outputText: string)
    requires Priced(isCjk, ctx, final, outputText).Ok?
    ensures var bill := Priced(isCjk, ctx, final, outputText).value.1;
            var shown := if outputText != "" || final.upstream.None? then outputText
                         else final.upstream.value.outputJson;
            && bill.inputTokens == (if final.usage.inputTokens.Some? then final.usage.inputTokens.value
                                    else Estimator.Tokens(isCjk, ctx.canonicalInput))
            && bill.outputTokens == (if final.usage.outputTokens.Some? then final.usage.outputTokens.value
                                     else Estimator.Tokens(isCjk, shown))
  {
    hide Decimal.Print, Estimator.Tokens, Pricing.Calculate;
  }

  /** What is stored, column by column, and when nothing can be. */
  lemma CompletionMeans(env: Environment, ctx: Context, final: Final, response: Response, billing: Billing)
    ensures var records := ActualCosts.Records(env.upper, ctx.deployment.actual, billing.inputTokens,
                                               billing.outputTokens, final.costs);
            var stored := CompletionOf(env, ctx, final, response, billing);
            && (stored.Some? <==>
                  && env.codec.writeResponse(response).Some? && env.codec.writeBilling(billing).Some?
                  && env.encodesBudget && env.codec.writeCosts(records).Some?)
            && (stored.Some? ==>
                  var c := stored.value;
                  && c.runId == ctx.runId && c.inputTokens == billing.inputTokens
                  && c.outputTokens == billing.outputTokens && c.totalCharge == billing.totalCharge
                  && c.currency == ctx.deployment.price.currency && c.providerId == ctx.deployment.providerId
                  && env.codec.writeResponse(response) == Some(c.response)
                  && env.codec.writeBilling(billing) == Some(c.billing)
                  && env.codec.writeCosts(records) == Some(c.costPayload))
  {
    hide ActualCosts.Records;
  }

  /** The text of a completion reads as a bill that says what its columns say. */
  predicate Honest(codec: Codec, c: Completion) {
    && codec.readBilling(c.billing).Some?
    && var b := codec.readBilling(c.billing).value;
       && b.runId == c.runId && b.totalCharge == c.totalCharge
       && b.inputTokens == c.inputTokens && b.outputTokens == c.outputTokens
  }

  // ------------------------------------------------ what a run does when its caller takes every event

  function FailurePlan(hasRepository: bool, settlement: Settlement, code: string, told: Option<string>): seq<Action> {
    (if hasRepository then [FailRun(settlement, code)] else [])
    + if told.Some? then [Send(RunFailed(told.value))] else []
  }

  function OutputText(final: Final, streamed: string): string {
    if final.outputText == "" then streamed else final.outputText
  }

  function ReportPlan(response: Response, billing: Billing): seq<Action> {
    [Send(BillingCompleted(billing)), Send(RunCompleted(response, billing))]
  }

  function StorePlan(env: Environment, ctx: Context, final: Final, response: Response, billing: Billing): seq<Action> {
    match CompletionOf(env, ctx, final, response, billing)
    case None => FailurePlan(true, SettlementFailed, "settlement_encode_failed", Some("settlement_failed"))
    case Some(c) =>
      [CompleteRun(c, env.stores)]
      + if env.stores then ReportPlan(response, billing)
        else FailurePlan(true, SettlementFailed, "settlement_persist_failed", Some("settlement_failed"))
  }

  predicate ToolsRefused(env: Environment, ctx: Context, final: Final) {
    ctx.toolsEnabled && (final.upstream.None? || !env.toolsValid)
  }

  function SettlePlan(env: Environment, ctx: Context, final: Final, streamed: string): seq<Action> {
    if ToolsRefused(env, ctx, final) then
      FailurePlan(ctx.hasRepository, Unconfirmed, "invalid_provider_tool_call", Some("invalid_provider_tool_call"))
    else
      match Priced(env.isCjk, ctx, final, OutputText(final, streamed))
      case Err(_) => []
      case Ok((response, billing)) =>
        if ctx.hasRepository then StorePlan(env, ctx, final, response, billing) else ReportPlan(response, billing)
  }

  /** Where the event loop stops: at a cancellation, at the first event that is no delta, or at the end. */
  function StopFrom(cancels: nat -> bool, events: seq<ProviderEvent>, k: nat): (n: nat)
    requires k <= |events|
    ensures k <= n <= |events|
    ensures forall j :: k <= j < n ==> !cancels(j) && events[j].ProviderDelta?
    ensures n < |events| && events[n].ProviderDelta? ==> cancels(n)
    decreases |events| - k
  {
    if k == |events| || cancels(k) || !events[k].ProviderDelta? then k else StopFrom(cancels, events, k + 1)
  }

  function Stop(env: Environment, events: seq<ProviderEvent>): (n: nat)
    ensures n <= |events|
    ensures forall j :: 0 <= j < n ==> !env.cancels(j) && events[j].ProviderDelta?
    ensures n < |events| && events[n].ProviderDelta? ==> env.cancels(n)
  {
    StopFrom(env.cancels, events, 0)
  }

  function DeltaOf(event: ProviderEvent): string {
    match event
    case ProviderDelta(text) => text
    case _ => ""
  }

  /** The text of the first `n` events. */
  function DeltaText(events: seq<ProviderEvent>, n: nat): string
    requires n <= |events|
  {
    if n == 0 then "" else DeltaText(events, n - 1) + DeltaOf(events[n - 1])
  }

  predicate IsDelta(action: Action) {
    action.Send? && action.event.OutputTextDelta?
  }

  /** Passing on the first `n` events. */
  function DeltaPlan(events: seq<ProviderEvent>, n: nat): (r: seq<Action>)
    requires n <= |events|
    ensures |r| == n && forall j :: 0 <= j < n ==> r[j] == Send(OutputTextDelta(DeltaOf(events[j])))
  {
    if n == 0 then [] else DeltaPlan(events, n - 1) + [Send(OutputTextDelta(DeltaOf(events[n - 1])))]
  }

  function EndPlan(env: Environment, ctx: Context, events: seq<ProviderEvent>, n: nat): seq<Action>
    requires n <= |events|
  {
    if env.cancels(n) then FailurePlan(ctx.hasRepository, Unconfirmed, "request_cancelled", None)
    else if n == |events| then []
    else
      match events[n]
      case ProviderDelta(_) => []
      case ProviderCompleted(None) => []
      case ProviderCompleted(Some(final)) => SettlePlan(env, ctx, final, DeltaText(events, n))
      case ProviderFailed =>
        FailurePlan(ctx.hasRepository, Unconfirmed, "provider_stream_failed", Some("provider_stream_failed"))
  }

  function Plan(env: Environment, ctx: Context, events: seq<ProviderEvent>): seq<Action> {
    var n := Stop(env, events);
    DeltaPlan(events, n) + EndPlan(env, ctx, events, n)
  }

  /** A plan is carried out up to the first event its caller does not take. */
  function Carried(delivers: nat -> bool, attempts: nat, plan: seq<Action>): (r: seq<Action>)
    ensures r <= plan
    decreases |plan|
  {
    if plan == [] then []
    else if !plan[0].Send? then [plan[0]] + Carried(delivers, attempts, plan[1..])
    else if delivers(attempts) then [plan[0]] + Carried(delivers, attempts + 1, plan[1..])
    else []
  }

  /** Everything one request does from its first provider event on. */
  function Trace(env: Environment, ctx: Context, events: seq<ProviderEvent>): seq<Action> {
    Carried(env.delivers, 0, Plan(env, ctx, events))
  }

  // ------------------------------------------------ the relay

  class Relay {
    const env: Environment
    const ctx: Context
    var actions: seq<Action>
    var attempts: nat

    constructor (env: Environment, ctx: Context)
      ensures this.env == env && this.ctx == ctx && actions == [] && attempts == 0
    {
      this.env, this.ctx := env, ctx;
      actions, attempts := [], 0;
    }

    method Deliver(event: Event) returns (ok: bool)
      modifies this
      ensures ok == env.delivers(old(attempts)) && attempts == old(attempts) + 1
      ensures actions == if ok then old(actions) + [Send(event)] else old(actions)
    {
      ok := env.delivers(attempts);
      attempts := attempts + 1;
      if ok {
        actions := actions + [Send(event)];
      }
    }

    /** Marks the run failed, if runs are stored, and tells the caller when there is something to tell. */
    method Fail(settlement: Settlement, code: string, told: Option<string>)
      modifies this
      ensures actions == old(actions)
                         + Carried(env.delivers, old(attempts), FailurePlan(ctx.hasRepository, settlement, code, told))
    {
      if ctx.hasRepository {
        actions := actions + [FailRun(settlement, code)];
      }
      if told.Some? {
        var ok := Deliver(RunFailed(told.value));
      }
    }

    /** billing.completed and, if that was taken, run.completed. */
    method ReportRun(response: Response, billing: Billing)
      modifies this
      ensures actions == old(actions) + Carried(env.delivers, old(attempts), ReportPlan(response, billing))
    {
      var billed := Deliver(BillingCompleted(billing));
      if billed {
        var completed := Deliver(RunCompleted(response, billing));
      }
    }

    /** Encodes what is to be stored. */
    method Encode(final: Final, response: Response, billing: Billing) returns (c: Option<Completion>)
      ensures c == CompletionOf(env, ctx, final, response, billing)
    {
      hide ActualCosts.Records;
      var responseJson, billingJson := env.codec.writeResponse(response), env.codec.writeBilling(billing);
      var records := ActualCosts.CalculateActualRecords(env.upper, ctx.deployment.actual, billing.inputTokens,
                                                        billing.outputTokens, final.costs);
      var costJson := env.codec.writeCosts(records);
      if responseJson.None? || billingJson.None? || !env.encodesBudget || costJson.None? {
        return None;
      }
      c := Some(Completion(ctx.runId, responseJson.value, billingJson.value, billing.inputTokens, billing.outputTokens,
                           ctx.deployment.price.currency, billing.totalCharge,
                           ctx.deployment.providerId, costJson.value));
    }

    /** Stores a completion and reports it only when it was stored. */
    method StoreRun(final: Final, response: Response, billing: Billing)
      requires ctx.hasRepository
      modifies this
      ensures actions == old(actions) + Carried(env.delivers, old(attempts),
                                                StorePlan(env, ctx, final, response, billing))
    {
      hide FailurePlan, ReportPlan, CompletionOf, Carried;
      var c := Encode(final, response, billing);
      if c.None? {
        Fail(SettlementFailed, "settlement_encode_failed", Some("settlement_failed"));
        return;
      }
      ghost var next := if env.stores then ReportPlan(response, billing)
                        else FailurePlan(true, SettlementFailed, "settlement_persist_failed",
                                         Some("settlement_failed"));
      CarriedAction(env.delivers, attempts, CompleteRun(c.value, env.stores), next);
      actions := actions + [CompleteRun(c.value, env.stores)];
      if !env.stores {
        Fail(SettlementFailed, "settlement_persist_failed", Some("settlement_failed"));
        return;
      }
      ReportRun(response, billing);
    }

    /** Settles a completion: checks its calls, computes the bill, stores it, and only then reports it. */
    method Settle(final: Final, streamed: string)
      modifies this
      ensures actions == old(actions) + Carried(env.delivers, old(attempts), SettlePlan(env, ctx, final, streamed))
    {
      hide FailurePlan, ReportPlan, StorePlan, Priced;
      var outputText := if final.outputText == "" then streamed else final.outputText;
      if ctx.toolsEnabled && (final.upstream.None? || !env.toolsValid) {
        Fail(Unconfirmed, "invalid_provider_tool_call", Some("invalid_provider_tool_call"));
        return;
      }
      var priced := Priced(env.isCjk, ctx, final, outputText);
      if priced.Err? {
        return;
      }
      var (response, billing) := priced.value;
      if ctx.hasRepository {
        StoreRun(final, response, billing);
      } else {
        ReportRun(response, billing);
      }
    }

    /** What ends the event loop: a cancellation, the provider's last event, or its closed channel. */
    method End(events: seq<ProviderEvent>, n: nat, output: string)
      requires n <= |events| && output == DeltaText(events, n)
      requires n < |events| && !env.cancels(n) ==> !events[n].ProviderDelta?
      modifies this
      ensures actions == old(actions) + Carried(env.delivers, old(attempts), EndPlan(env, ctx, events, n))
    {
      hide SettlePlan, FailurePlan, DeltaText;
      if env.cancels(n) {
        Fail(Unconfirmed, "request_cancelled", None);
        return;
      }
      if n == |events| {
        return;
      }
      match events[n]
      case ProviderCompleted(final) =>
        if final.Some? {
          Settle(final.value, output);
        }
      case ProviderFailed =>
        Fail(Unconfirmed, "provider_stream_failed", Some("provider_stream_failed"));
    }

    /** The event loop of a request. */
    method Consume(events: seq<ProviderEvent>)
      requires actions == [] && attempts == 0
      modifies this
      ensures actions == Trace(env, ctx, events)
    {
      hide Trace, StopFrom, DeltaPlan, DeltaText, EndPlan, Carried, Streamed;
      StreamStart(env, ctx, events);
      var output, k := "", 0;
      while k < |events| && !env.cancels(k) && events[k].ProviderDelta?
        invariant k <= |events| && attempts == k && Streamed(env, events, k, output, actions)
      {
        StreamStep(env, ctx, events, k, output, actions);
        output := output + events[k].text;
        var ok := Deliver(OutputTextDelta(events[k].text));
        if !ok {
          return;
        }
        k := k + 1;
      }
      StreamEnd(env, ctx, events, k, output, actions);
      End(events, k, output);
    }
  }

  /** The state of the event loop after `k` deltas: all of them were taken and passed on. */
  ghost predicate Streamed(env: Environment, events: seq<ProviderEvent>, k: nat, output: string, actions: seq<Action>)
    requires k <= |events|
  {
    && Stop(env, events) == StopFrom(env.cancels, events, k)
    && output == DeltaText(events, k) && actions == DeltaPlan(events, k)
    && forall j :: 0 <= j < k ==> env.delivers(j)
  }

  lemma StreamStart(env: Environment, ctx: Context, events: seq<ProviderEvent>)
    ensures Streamed(env, events, 0, "", [])
  {
  }

  lemma StreamStep(env: Environment, ctx: Context, events: seq<ProviderEvent>, k: nat, output: string,
                   actions: seq<Action>)
    requires k < |events| && !env.cancels(k) && events[k].ProviderDelta? && Streamed(env, events, k, output, actions)
    ensures env.delivers(k) ==>
              Streamed(env, events, k + 1, output + events[k].text, actions + [Send(OutputTextDelta(events[k].text))])
    ensures !env.delivers(k) ==> actions == Trace(env, ctx, events)
  {
    hide Trace, Carried;
    Undelivered(env, ctx, events, k);
  }

  lemma StreamEnd(env: Environment, ctx: Context, events: seq<ProviderEvent>, k: nat, output: string,
                  actions: seq<Action>)
    requires k <= |events| && Streamed(env, events, k, output, actions)
    requires k < |events| && !env.cancels(k) ==> !events[k].ProviderDelta?
    ensures output == DeltaText(events, k)
    ensures Trace(env, ctx, events) == actions + Carried(env.delivers, k, EndPlan(env, ctx, events, k))
  {
    hide Trace, Carried, EndPlan;
    Stopped(env, ctx, events, k);
  }

  /** What needs no caller is always carried out. */
  lemma CarriedAction(delivers: nat -> bool, attempts: nat, action: Action, rest: seq<Action>)
    requires !action.Send?
    ensures Carried(delivers, attempts, [action] + rest) == [action] + Carried(delivers, attempts, rest)
  {
    assert ([action] + rest)[1..] == rest;
  }

  lemma CarriedTaken(delivers: nat -> bool, attempts: nat, event: Event, rest: seq<Action>)
    requires delivers(attempts)
    ensures Carried(delivers, attempts, [Send(event)] + rest) == [Send(event)] + Carried(delivers, attempts + 1, rest)
  {
    assert ([Send(event)] + rest)[1..] == rest;
  }

  lemma {:induction false} CarriedDeltas(delivers: nat -> bool, events: seq<ProviderEvent>, n: nat, rest: seq<Action>)
    requires n <= |events| && forall j :: 0 <= j < n ==> delivers(j)
    ensures Carried(delivers, 0, DeltaPlan(events, n) + rest) == DeltaPlan(events, n) + Carried(delivers, n, rest)
  {
    hide Carried;
    if n == 0 {
      assert DeltaPlan(events, n) + rest == rest;
    } else {
      var last := OutputTextDelta(DeltaOf(events[n - 1]));
      CarriedDeltas(delivers, events, n - 1, [Send(last)] + rest);
      CarriedTaken(delivers, n - 1, last, rest);
      assert DeltaPlan(events, n) + rest == DeltaPlan(events, n - 1) + ([Send(last)] + rest);
    }
  }

  /** The loop stopped at `n` with every delta before it delivered. */
  lemma Stopped(env: Environment, ctx: Context, events: seq<ProviderEvent>, n: nat)
    requires n == Stop(env, events) && forall j :: 0 <= j < n ==> env.delivers(j)
    ensures Trace(env, ctx, events) == DeltaPlan(events, n) + Carried(env.delivers, n, EndPlan(env, ctx, events, n))
  {
    hide EndPlan, Carried, Stop;
    CarriedDeltas(env.delivers, events, n, EndPlan(env, ctx, events, n));
  }

  /** The loop stops when a delta is not taken. */
  lemma Undelivered(env: Environment, ctx: Context, events: seq<ProviderEvent>, k: nat)
    requires k < Stop(env, events) && forall j :: 0 <= j < k ==> env.delivers(j)
    ensures !env.delivers(k) ==> Trace(env, ctx, events) == DeltaPlan(events, k)
  {
    var plan := Plan(env, ctx, events);
    hide EndPlan, Stop;
    assert plan == DeltaPlan(events, k) + plan[k..];
    CarriedDeltas(env.delivers, events, k, plan[k..]);
  }

  // ------------------------------------------------ what every such trace guarantees

  /** Follows further actions from a stage. */
  function Walk(codec: Codec, hasRepository: bool, runId: Name, stage: Option<Stage>, more: seq<Action>): Option<Stage>
    decreases |more|
  {
    if stage.None? || more == [] then stage
    else Walk(codec, hasRepository, runId, Next(codec, hasRepository, runId, stage.value, more[0]), more[1..])
  }

  lemma {:induction false} FollowWalk(codec: Codec, hasRepository: bool, runId: Name, actions: seq<Action>,
                                      more: seq<Action>)
    ensures Follow(codec, hasRepository, runId, actions + more)
         == Walk(codec, hasRepository, runId, Follow(codec, hasRepository, runId, actions), more)
    decreases |more|
  {
    hide Next;
    if more == [] {
      assert actions + more == actions;
    } else {
      assert actions + more == actions + [more[0]] + more[1..];
      FollowAppend(codec, hasRepository, runId, actions, more[0]);
      FollowWalk(codec, hasRepository, runId, actions + [more[0]], more[1..]);
      WalkNowhere(codec, hasRepository, runId, more[1..]);
    }
  }

  lemma WalkNowhere(codec: Codec, hasRepository: bool, runId: Name, more: seq<Action>)
    ensures Walk(codec, hasRepository, runId, None, more) == None
  {
  }

  lemma {:induction false} FollowPrefix(codec: Codec, hasRepository: bool, runId: Name, prefix: seq<Action>,
                                        actions: seq<Action>)
    requires prefix <= actions && Follow(codec, hasRepository, runId, actions).Some?
    ensures Follow(codec, hasRepository, runId, prefix).Some?
    decreases |actions|
  {
    hide Next;
    if prefix != actions {
      FollowPrefix(codec, hasRepository, runId, prefix, actions[..|actions| - 1]);
    }
  }

  lemma {:induction false} FollowDeltas(codec: Codec, hasRepository: bool, runId: Name, events: seq<ProviderEvent>,
                                        n: nat)
    requires n <= |events|
    ensures Follow(codec, hasRepository, runId, DeltaPlan(events, n)) == Some(Streaming)
  {
    if n > 0 {
      FollowDeltas(codec, hasRepository, runId, events, n - 1);
      var delta := Send(OutputTextDelta(DeltaOf(events[n - 1])));
      FollowAppend(codec, hasRepository, runId, DeltaPlan(events, n - 1), delta);
      hide Follow, DeltaOf;
      assert DeltaPlan(events, n) == DeltaPlan(events, n - 1) + [delta];
    }
  }

  lemma WalkStep(codec: Codec, hasRepository: bool, runId: Name, stage: Stage, action: Action, rest: seq<Action>)
    ensures Walk(codec, hasRepository, runId, Some(stage), [action] + rest)
         == Walk(codec, hasRepository, runId, Next(codec, hasRepository, runId, stage, action), rest)
  {
    hide Next;
    assert ([action] + rest)[1..] == rest;
  }

  lemma FailureInTurn(codec: Codec, hasRepository: bool, runId: Name, settlement: Settlement, code: string,
                      told: Option<string>)
    requires settlement.Unconfirmed? || settlement.SettlementFailed?
    ensures Walk(codec, hasRepository, runId, Some(Streaming), FailurePlan(hasRepository, settlement, code, told)).Some?
    ensures hasRepository && settlement.SettlementFailed? ==>
              Walk(codec, hasRepository, runId, Some(Unpersisted), FailurePlan(true, settlement, code, told)).Some?
  {
    var telling: seq<Action> := if told.Some? then [Send(RunFailed(told.value))] else [];
    if told.Some? {
      assert telling == telling + [];
      WalkStep(codec, hasRepository, runId, Streaming, telling[0], []);
      WalkStep(codec, hasRepository, runId, Failing, telling[0], []);
    }
    if hasRepository {
      WalkStep(codec, true, runId, Streaming, FailRun(settlement, code), telling);
      WalkStep(codec, true, runId, Unpersisted, FailRun(settlement, code), telling);
    } else {
      assert FailurePlan(false, settlement, code, told) == telling;
    }
  }

  lemma ReportInTurn(codec: Codec, hasRepository: bool, runId: Name, stage: Stage, response: Response, billing: Billing)
    requires billing.runId == runId
    requires if hasRepository then stage.Persisted? && Matches(codec, stage.completion, Some(response), billing)
             else stage.Streaming?
    ensures Walk(codec, hasRepository, runId, Some(stage), ReportPlan(response, billing)).Some?
  {
    var next := Next(codec, hasRepository, runId, stage, Send(BillingCompleted(billing))).value;
    var last := [Send(RunCompleted(response, billing))];
    WalkStep(codec, hasRepository, runId, stage, Send(BillingCompleted(billing)), last);
    assert ReportPlan(response, billing) == [Send(BillingCompleted(billing))] + last && last == last + [];
    WalkStep(codec, hasRepository, runId, next, last[0], []);
  }

  lemma StoreInTurn(env: Environment, ctx: Context, final: Final, response: Response, billing: Billing)
    requires ctx.hasRepository && response.runId == billing.runId == ctx.runId
    ensures Walk(env.codec, true, ctx.runId, Some(Streaming), StorePlan(env, ctx, final, response, billing)).Some?
  {
    hide ActualCosts.Records, FailurePlan, ReportPlan;
    match CompletionOf(env, ctx, final, response, billing)
    case None =>
      FailureInTurn(env.codec, true, ctx.runId, SettlementFailed, "settlement_encode_failed",
                    Some("settlement_failed"));
    case Some(c) =>
      var rest := if env.stores then ReportPlan(response, billing)
                  else FailurePlan(true, SettlementFailed, "settlement_persist_failed", Some("settlement_failed"));
      WalkStep(env.codec, true, ctx.runId, Streaming, CompleteRun(c, env.stores), rest);
      if env.stores {
        ReportInTurn(env.codec, true, ctx.runId, Persisted(c), response, billing);
      } else {
        FailureInTurn(env.codec, true, ctx.runId, SettlementFailed, "settlement_persist_failed",
                      Some("settlement_failed"));
      }
  }

  lemma SettleInTurn(env: Environment, ctx: Context, final: Final, streamed: string)
    ensures Walk(env.codec, ctx.hasRepository, ctx.runId, Some(Streaming), SettlePlan(env, ctx, final, streamed)).Some?
  {
    hide Next, FailurePlan, ReportPlan, StorePlan;
    if ToolsRefused(env, ctx, final) {
      FailureInTurn(env.codec, ctx.hasRepository, ctx.runId, Unconfirmed, "invalid_provider_tool_call",
                    Some("invalid_provider_tool_call"));
    } else if Priced(env.isCjk, ctx, final, OutputText(final, streamed)).Ok? {
      var (response, billing) := Priced(env.isCjk, ctx, final, OutputText(final, streamed)).value;
      hide Priced;
      if ctx.hasRepository {
        StoreInTurn(env, ctx, final, response, billing);
      } else {
        ReportInTurn(env.codec, false, ctx.runId, Streaming, response, billing);
      }
    }
  }

  /** Whatever a provider sends and whatever fails, a request acts in turn. */
  lemma TraceFollows(env: Environment, ctx: Context, events: seq<ProviderEvent>)
    ensures Follow(env.codec, ctx.hasRepository, ctx.runId, Trace(env, ctx, events)).Some?
  {
    var n := Stop(env, events);
    var plan := Plan(env, ctx, events);
    FollowDeltas(env.codec, ctx.hasRepository, ctx.runId, events, n);
    FollowWalk(env.codec, ctx.hasRepository, ctx.runId, DeltaPlan(events, n), EndPlan(env, ctx, events, n));
    EndInTurn(env, ctx, events, n);
    FollowPrefix(env.codec, ctx.hasRepository, ctx.runId, Trace(env, ctx, events), plan);
  }

  lemma EndInTurn(env: Environment, ctx: Context, events: seq<ProviderEvent>, n: nat)
    requires n <= |events|
    ensures Walk(env.codec, ctx.hasRepository, ctx.runId, Some(Streaming), EndPlan(env, ctx, events, n)).Some?
  {
    hide FailurePlan, SettlePlan, Next;
    FailureInTurn(env.codec, ctx.hasRepository, ctx.runId, Unconfirmed, "request_cancelled", None);
    FailureInTurn(env.codec, ctx.hasRepository, ctx.runId, Unconfirmed, "provider_stream_failed",
                  Some("provider_stream_failed"));
    if n < |events| && events[n].ProviderCompleted? && events[n].final.Some? {
      SettleInTurn(env, ctx, events[n].final.value, DeltaText(events, n));
    }
  }

  /** The completion that ends the event loop, if one does. */
  function Finished(env: Environment, events: seq<ProviderEvent>): Option<Final> {
    var n := Stop(env, events);
    if n < |events| && !env.cancels(n) && events[n].ProviderCompleted? then events[n].final else None
  }

  /** The response and bill of the completion that ends the event loop. */
  function PricedRun(env: Environment, ctx: Context, events: seq<ProviderEvent>): Result<(Response, Billing)> {
    match Finished(env, events)
    case None => Err("no completion")
    case Some(final) => Priced(env.isCjk, ctx, final, OutputText(final, DeltaText(events, Stop(env, events))))
  }

  predicate Concludes(action: Action) {
    action.CompleteRun? || (action.Send? && (action.event.BillingCompleted? || action.event.RunCompleted?))
  }

  /**
    What is stored and reported is what was priced: every completion, bill and response of a request is the one of the
    completion that ended its event loop, after the tool contract was checked.
  */
  lemma ConcludesAsPriced(env: Environment, ctx: Context, events: seq<ProviderEvent>, action: Action)
    requires action in Trace(env, ctx, events) && Concludes(action)
    ensures Finished(env, events).Some? && !ToolsRefused(env, ctx, Finished(env, events).value)
    ensures PricedRun(env, ctx, events).Ok?
    ensures var (response, billing) := PricedRun(env, ctx, events).value;
            match action
            case CompleteRun(c, ok) =>
              && ctx.hasRepository && ok == env.stores
              && CompletionOf(env, ctx, Finished(env, events).value, response, billing) == Some(c)
            case Send(BillingCompleted(b)) => b == billing
            case Send(RunCompleted(r, b)) => r == response && b == billing
            case _ => false
  {
    hide Carried, Priced, CompletionOf, ToolsRefused;
    var n := Stop(env, events);
    var plan := Plan(env, ctx, events);
    assert Trace(env, ctx, events) <= plan;
    assert action in plan;
    hide Trace, Stop;
    assert action !in DeltaPlan(events, n);
    assert action in EndPlan(env, ctx, events, n);
  }

  /** Every completion a request hands to the store says the same in its text and in its columns. */
  lemma RelayIsHonest(env: Environment, ctx: Context, events: seq<ProviderEvent>, c: Completion, ok: bool)
    requires Faithful(env.codec) && CompleteRun(c, ok) in Trace(env, ctx, events)
    ensures c.runId == ctx.runId && Honest(env.codec, c)
  {
    hide Trace, Priced, CompletionOf, Finished;
    ConcludesAsPriced(env, ctx, events, CompleteRun(c, ok));
    var (response, billing) := PricedRun(env, ctx, events).value;
    CompletionMeans(env, ctx, Finished(env, events).value, response, billing);
  }

  /** When the caller takes every event, the whole plan is carried out. */
  lemma {:induction false} AllCarried(delivers: nat -> bool, attempts: nat, plan: seq<Action>)
    requires forall k :: delivers(k)
    ensures Carried(delivers, attempts, plan) == plan
    decreases |plan|
  {
    if plan != [] {
      AllCarried(delivers, attempts, plan[1..]);
      AllCarried(delivers, attempts + 1, plan[1..]);
    }
  }

  /** Every event before the end is passed on as it came, and the streamed text is theirs. */
  lemma {:induction false} DeltasMean(env: Environment, events: seq<ProviderEvent>, n: nat)
    requires n <= Stop(env, events)
    ensures forall j :: 0 <= j < n ==>
              && events[j].ProviderDelta?
              && DeltaPlan(events, n)[j] == Send(OutputTextDelta(events[j].text))
    ensures DeltaText(events, 0) == ""
    ensures n > 0 ==> DeltaText(events, n) == DeltaText(events, n - 1) + events[n - 1].text
  {
    hide Stop;
  }

  /** How a completion is concluded when runs are stored, with the codes a failure leaves. */
  lemma HowItSettles(env: Environment, ctx: Context, final: Final, streamed: string)
    requires ctx.hasRepository
    ensures var end := SettlePlan(env, ctx, final, streamed);
            var text := if final.outputText != "" then final.outputText else streamed;
            var priced := Priced(env.isCjk, ctx, final, text);
            if ctx.toolsEnabled && (final.upstream.None? || !env.toolsValid) then
              end == [FailRun(Unconfirmed, "invalid_provider_tool_call"), Send(RunFailed("invalid_provider_tool_call"))]
            else if priced.Err? then end == []
            else
              match CompletionOf(env, ctx, final, priced.value.0, priced.value.1)
              case None =>
                end == [FailRun(SettlementFailed, "settlement_encode_failed"), Send(RunFailed("settlement_failed"))]
              case Some(c) =>
                if env.stores then
                  end == [CompleteRun(c, true), Send(BillingCompleted(priced.value.1)),
                          Send(RunCompleted(priced.value.0, priced.value.1))]
                else
                  end == [CompleteRun(c, false), FailRun(SettlementFailed, "settlement_persist_failed"),
                          Send(RunFailed("settlement_failed"))]
  {
    hide Priced, CompletionOf;
  }

  /** A caller that takes every event gets all deltas up to where the event loop stops, and then what ends it. */
  lemma WholeTrace(env: Environment, ctx: Context, events: seq<ProviderEvent>)
    requires forall k :: env.delivers(k)
    ensures Trace(env, ctx, events)
         == DeltaPlan(events, Stop(env, events)) + EndPlan(env, ctx, events, Stop(env, events))
  {
    hide Carried, EndPlan, Stop;
    AllCarried(env.delivers, 0, Plan(env, ctx, events));
  }

  /** What ends the event loop when runs are stored. */
  lemma HowItEnds(env: Environment, ctx: Context, events: seq<ProviderEvent>)
    requires ctx.hasRepository
    ensures var n := Stop(env, events);
            var end := EndPlan(env, ctx, events, n);
            if env.cancels(n) then end == [FailRun(Unconfirmed, "request_cancelled")]
            else if n == |events| || events[n] == ProviderCompleted(None) then end == []
            else if events[n].ProviderFailed? then
              end == [FailRun(Unconfirmed, "provider_stream_failed"), Send(RunFailed("provider_stream_failed"))]
            else
              && events[n].ProviderCompleted?
              && end == SettlePlan(env, ctx, events[n].final.value, DeltaText(events, n))
  {
    hide SettlePlan, DeltaText, Stop;
  }

  /** A run that is priced and stored is reported to a caller that takes every event. */
  lemma PricedIsReported(env: Environment, ctx: Context, events: seq<ProviderEvent>)
    requires forall k :: env.delivers(k)
    requires PricedRun(env, ctx, events).Ok? && !ToolsRefused(env, ctx, Finished(env, events).value)
    requires var (response, billing) := PricedRun(env, ctx, events).value;
             ctx.hasRepository ==>
               env.stores && CompletionOf(env, ctx, Finished(env, events).value, response, billing).Some?
    ensures var (response, billing) := PricedRun(env, ctx, events).value;
            var trace := Trace(env, ctx, events);
            && |trace| >= 2 && trace[|trace| - 1] == Send(RunCompleted(response, billing))
            && trace[|trace| - 2] == Send(BillingCompleted(billing))
  {
    hide Carried, Priced, CompletionOf, ToolsRefused;
    AllCarried(env.delivers, 0, Plan(env, ctx, events));
  }

  /** A reported run delivered every delta, and its text is theirs unless the provider gave one. */
  lemma ReportedText(env: Environment, ctx: Context, events: seq<ProviderEvent>, response: Response, billing: Billing)
    requires Send(RunCompleted(response, billing)) in Trace(env, ctx, events)
    ensures var n := Stop(env, events);
            && Finished(env, events).Some?
            && DeltaPlan(events, n) <= Trace(env, ctx, events)
            && response.outputText == OutputText(Finished(env, events).value, DeltaText(events, n))
  {
    hide Carried, EndPlan, Stop, Priced;
    var action := Send(RunCompleted(response, billing));
    ConcludesAsPriced(env, ctx, events, action);
    PricedText(env, ctx, events);
    DeltasFirst(env, ctx, events, action);
  }

  lemma PricedText(env: Environment, ctx: Context, events: seq<ProviderEvent>)
    requires PricedRun(env, ctx, events).Ok?
    ensures PricedRun(env, ctx, events).value.0.outputText
         == OutputText(Finished(env, events).value, DeltaText(events, Stop(env, events)))
  {
    hide Stop, Pricing.Calculate, Pricing.ResolveUsage, NewBilling;
  }

  /** An action that is no delta comes after all deltas. */
  lemma DeltasFirst(env: Environment, ctx: Context, events: seq<ProviderEvent>, action: Action)
    requires action in Trace(env, ctx, events) && !IsDelta(action)
    ensures DeltaPlan(events, Stop(env, events)) <= Trace(env, ctx, events)
  {
    hide Carried, EndPlan, Stop;
    var n := Stop(env, events);
    assert Plan(env, ctx, events)[..n] == DeltaPlan(events, n);
    if |Trace(env, ctx, events)| <= n {
      ShortTraceIsDeltas(env, ctx, events);
    }
  }

  lemma ShortTraceIsDeltas(env: Environment, ctx: Context, events: seq<ProviderEvent>)
    requires |Trace(env, ctx, events)| <= Stop(env, events)
    ensures forall action :: action in Trace(env, ctx, events) ==> IsDelta(action)
  {
    hide Carried, EndPlan, Stop;
    var trace := Trace(env, ctx, events);
    assert forall j :: 0 <= j < |trace| ==> trace[j] == Send(OutputTextDelta(DeltaOf(events[j])));
  }

  function Sent(actions: seq<Action>): seq<Event> {
    if actions == [] then [] else
    Sent(actions[..|actions| - 1]) + match actions[|actions| - 1]
                                     case Send(event) => [event]
                                     case _ => []
  }

  ghost predicate OnlyDeltas(events: seq<Event>) {
    forall i :: 0 <= i < |events| ==> events[i].OutputTextDelta?
  }

  /** What the client has seen, and what was stored before, at each stage. */
  ghost predicate StageShape(codec: Codec, hasRepository: bool, stage: Stage, actions: seq<Action>) {
    var sent := Sent(actions);
    match stage
    case Streaming => OnlyDeltas(sent)
    case Failing => OnlyDeltas(sent)
    case Unpersisted => OnlyDeltas(sent)
    case Persisted(c) => hasRepository && OnlyDeltas(sent) && CompleteRun(c, true) in actions
    case Billed(c, b) =>
      && sent != [] && OnlyDeltas(sent[..|sent| - 1]) && sent[|sent| - 1] == BillingCompleted(b)
      && (hasRepository ==> c.Some? && CompleteRun(c.value, true) in actions && Matches(codec, c.value, None, b))
      && (c.Some? ==> hasRepository)
    case Ended =>
      || (sent != [] && OnlyDeltas(sent[..|sent| - 1]) && sent[|sent| - 1].RunFailed?)
      || (|sent| >= 2 && OnlyDeltas(sent[..|sent| - 2])
          && sent[|sent| - 1].RunCompleted?
          && sent[|sent| - 2] == BillingCompleted(sent[|sent| - 1].billing)
          && (hasRepository ==>
                exists c :: CompleteRun(c, true) in actions
                         && Matches(codec, c, Some(sent[|sent| - 1].response), sent[|sent| - 1].billing)))
  }

  /**
    Persist before report. A request's client sees deltas and then nothing more, or one run.failed, or
    billing.completed and perhaps run.completed with the same bill; and with a repository these two appear only
    after a completion with that very response and bill was stored.
  */
  lemma {:induction false} PersistBeforeReport(codec: Codec, hasRepository: bool, runId: Name, actions: seq<Action>)
    requires Follow(codec, hasRepository, runId, actions).Some?
    ensures StageShape(codec, hasRepository, Follow(codec, hasRepository, runId, actions).value, actions)
  {
    if actions != [] {
      var before, last := actions[..|actions| - 1], actions[|actions| - 1];
      PersistBeforeReport(codec, hasRepository, runId, before);
      var stage := Follow(codec, hasRepository, runId, before).value;
      ShapeStep(codec, hasRepository, runId, stage, before, last);
      assert actions == before + [last];
    }
  }

  lemma ShapeStep(codec: Codec, hasRepository: bool, runId: Name, stage: Stage, before: seq<Action>, last: Action)
    requires StageShape(codec, hasRepository, stage, before)
    requires Next(codec, hasRepository, runId, stage, last).Some?
    ensures StageShape(codec, hasRepository, Next(codec, hasRepository, runId, stage, last).value, before + [last])
  {
    hide Matches, Sent;
    SentAppend(before, last);
    if stage.Billed? {
      ShapeBilled(codec, hasRepository, runId, stage, before, last);
    } else if last.Send? {
      ShapeSend(codec, hasRepository, runId, stage, before, last);
    } else {
      assert forall a :: a in before + [last] <==> a in before || a == last;
    }
  }

  lemma ShapeBilled(codec: Codec, hasRepository: bool, runId: Name, stage: Stage, before: seq<Action>, last: Action)
    requires stage.Billed? && StageShape(codec, hasRepository, stage, before)
    requires Next(codec, hasRepository, runId, stage, last).Some?
    ensures StageShape(codec, hasRepository, Next(codec, hasRepository, runId, stage, last).value, before + [last])
  {
    hide Matches, Sent;
    SentAppend(before, last);
    if hasRepository {
      var c := stage.stored.value;
      assert CompleteRun(c, true) in before + [last] && Matches(codec, c, Some(last.event.response), stage.billing);
    }
  }

  lemma ShapeSend(codec: Codec, hasRepository: bool, runId: Name, stage: Stage, before: seq<Action>, last: Action)
    requires !stage.Billed? && last.Send? && StageShape(codec, hasRepository, stage, before)
    requires Next(codec, hasRepository, runId, stage, last).Some?
    ensures StageShape(codec, hasRepository, Next(codec, hasRepository, runId, stage, last).value, before + [last])
  {
    hide Matches, Sent;
    SentAppend(before, last);
    if stage.Persisted? {
      assert CompleteRun(stage.completion, true) in before + [last];
    }
  }

  lemma SentAppend(before: seq<Action>, last: Action)
    ensures var all := before + [last];
            if last.Send? then
              && Sent(all) == Sent(before) + [last.event]
              && Sent(all)[..|Sent(all)| - 1] == Sent(before)
              && (Sent(before) != [] ==> Sent(all)[..|Sent(all)| - 2] == Sent(before)[..|Sent(before)| - 1])
            else Sent(all) == Sent(before)
  {
    var all := before + [last];
    assert all[..|all| - 1] == before;
  }

  /**
    Hard budgets hold end to end: if a request was admitted under a hard budget, then a usage whose input is not
    above the admission estimate and whose output is not above max_output_tokens is settled, and its bill is not
    marked exceeded.
  */
  lemma AdmittedBudgetHolds(isCjk: Estimator.ScriptTest, d: Deployment, r: Request, runId: Name, input: int,
                            output: int)
    requires Admit(isCjk, Some(d), true, r).Ok?
    requires r.budget.Some? && r.budget.value.mode == Some(Pricing.Hard)
    requires 0 <= input <= Estimator.Tokens(isCjk, r.canonicalInput)
    requires r.maxOutputTokens.Some? ==> 0 <= output <= r.maxOutputTokens.value
    ensures Admit(isCjk, Some(d), true, r).value.Some? && r.maxOutputTokens.Some?
    ensures var settlement := Pricing.Calculate(d.price, input, output);
            && settlement.Ok?
            && var bill := NewBilling(runId, input, output, settlement.value, Admit(isCjk, Some(d), true, r).value);
               bill.budget.Some? && !bill.budget.value.exceeded
  {
    hide Decimal.ParseDecimal, Decimal.Print, Pricing.MultiplyTokens;
    var budget := Admit(isCjk, Some(d), true, r).value.value;
    var estimate := Estimator.Tokens(isCjk, r.canonicalInput);
    Pricing.HardBudgetSound(d.price, estimate, r.maxOutputTokens.value, budget);
    hide Estimator.Tokens;
  }

  /** The usage a completion resolves to. */
  function UsageOf(env: Environment, ctx: Context, events: seq<ProviderEvent>): Result<Pricing.BillableUsage>
    requires Finished(env, events).Some?
  {
    var final := Finished(env, events).value;
    Pricing.ResolveUsage(env.isCjk, final.usage, ctx.canonicalInput,
                         UsageText(final, OutputText(final, DeltaText(events, Stop(env, events)))))
  }

  /** The context a request is relayed in once it was admitted. */
  predicate AdmittedContext(isCjk: Estimator.ScriptTest, d: Deployment, r: Request, ctx: Context) {
    && Admit(isCjk, Some(d), true, r).Ok?
    && ctx.deployment == d && ctx.canonicalInput == r.canonicalInput
    && ctx.budget == Admit(isCjk, Some(d), true, r).value
  }

  /**
    A run admitted under a hard budget never reports it exceeded: for every stream and every failure, as long as the
    usage stays within what was admitted, the completion is priced and no bill of the request is marked.
  */
  lemma HardBudgetKept(env: Environment, d: Deployment, r: Request, ctx: Context, events: seq<ProviderEvent>)
    requires AdmittedContext(env.isCjk, d, r, ctx) && r.budget.Some? && r.budget.value.mode == Some(Pricing.Hard)
    requires Finished(env, events).Some? && UsageOf(env, ctx, events).Ok?
    requires UsageOf(env, ctx, events).value.inputTokens <= Estimator.Tokens(env.isCjk, r.canonicalInput)
    requires r.maxOutputTokens.Some? ==> UsageOf(env, ctx, events).value.outputTokens <= r.maxOutputTokens.value
    ensures PricedRun(env, ctx, events).Ok?
    ensures forall b :: Send(BillingCompleted(b)) in Trace(env, ctx, events) ==>
              b.budget.Some? && !b.budget.value.exceeded
  {
    hide Decimal.ParseDecimal, Decimal.Print, Pricing.Calculate, Pricing.ResolveUsage, Admit;
    hide Trace, Stop, Estimator.Tokens;
    var usage := UsageOf(env, ctx, events).value;
    UsageNotNegative(env, ctx, events);
    AdmittedBudgetHolds(env.isCjk, d, r, ctx.runId, usage.inputTokens, usage.outputTokens);
    forall b | Send(BillingCompleted(b)) in Trace(env, ctx, events)
      ensures b.budget.Some? && !b.budget.value.exceeded
    {
      ConcludesAsPriced(env, ctx, events, Send(BillingCompleted(b)));
    }
  }

  lemma UsageNotNegative(env: Environment, ctx: Context, events: seq<ProviderEvent>)
    requires Finished(env, events).Some? && UsageOf(env, ctx, events).Ok?
    ensures UsageOf(env, ctx, events).value.inputTokens >= 0 && UsageOf(env, ctx, events).value.outputTokens >= 0
  {
    hide Estimator.Tokens, Stop;
  }

  /** Without a reported input the billed input is the very estimate the budget was admitted with. */
  lemma UnreportedInputIsAdmittedInput(env: Environment, ctx: Context, events: seq<ProviderEvent>)
    requires Finished(env, events).Some? && Finished(env, events).value.usage.inputTokens.None?
    ensures UsageOf(env, ctx, events).Ok? ==>
              UsageOf(env, ctx, events).value.inputTokens == Estimator.Tokens(env.isCjk, ctx.canonicalInput)
    ensures var output := Finished(env, events).value.usage.outputTokens;
            UsageOf(env, ctx, events).Err? <==> output.Some? && output.value < 0
  {
    hide Estimator.Tokens, Stop;
  }
}
