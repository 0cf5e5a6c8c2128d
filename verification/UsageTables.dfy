/** Why the tables meet what a report takes for granted: amounts read back, and every settled run is one row. */
module UsageTables {
  import opened Names
  import opened RunStore
  import opened Wrappers
  import ActualCosts
  import Decimal
  import Estimator
  import Gateway
  import Lifecycle
  import Pricing
  import Quota
  import UsageCosts
  import UsageReport
  import UsageRows

  // ------------------------------------------------ what a request stores

  /** How the report decodes a stored cost payload. */
  type Decoder = string -> Option<seq<UsageRows.CostRecord>>

  function SourceText(source: ActualCosts.Source): string {
    match source
    case ProviderReported => "provider_reported"
    case ConfiguredEstimate => "configured_estimate"
  }

  function CostRecordOf(r: ActualCosts.Record): UsageRows.CostRecord {
    UsageRows.CostRecord(Name(r.unit), Name(SourceText(r.source)), r.total)
  }

  /** The report reads the records that the gateway wrote. */
  ghost predicate ReadsCosts(codec: Gateway.Codec, decode: Decoder) {
    forall records: seq<ActualCosts.Record> :: codec.writeCosts(records).Some? ==>
      var read := decode(codec.writeCosts(records).value);
      && read.Some? && |read.value| == |records|
      && forall i :: 0 <= i < |records| ==> read.value[i] == CostRecordOf(records[i])
  }

  predicate RecordsNotNegative(records: Option<seq<UsageRows.CostRecord>>) {
    records.Some? ==> forall i :: 0 <= i < |records.value| ==> Decimal.Worth(records.value[i].total) >= 0
  }

  predicate GoodCompletion(decode: Decoder, c: Completion) {
    Decimal.ReadsBack(c.totalCharge) && RecordsNotNegative(decode(c.costPayload))
  }

  /** A priced total is printed and reads back. */
  lemma PricedTotalReadsBack(isCjk: Estimator.ScriptTest, ctx: Gateway.Context, final: Gateway.Final,
                             outputText: string)
    requires Gateway.Priced(isCjk, ctx, final, outputText).Ok?
    ensures Decimal.ReadsBack(Gateway.Priced(isCjk, ctx, final, outputText).value.1.totalCharge)
  {
    hide Decimal.Print, Decimal.ReadsBack, Pricing.ResolveUsage;
    var usage := Pricing.ResolveUsage(isCjk, final.usage, ctx.canonicalInput,
                                      Gateway.UsageText(final, outputText)).value;
    Pricing.TotalExact(ctx.deployment.price, usage.inputTokens, usage.outputTokens);
    ActualCosts.PrintedNotNegative(Pricing.Calculate(ctx.deployment.price, usage.inputTokens,
                                                     usage.outputTokens).value.totalCharge);
  }

  lemma WrittenCostsNotNegative(codec: Gateway.Codec, decode: Decoder, records: seq<ActualCosts.Record>)
    requires ReadsCosts(codec, decode) && codec.writeCosts(records).Some? && ActualCosts.TotalsNotNegative(records)
    ensures RecordsNotNegative(decode(codec.writeCosts(records).value))
  {
    forall i | 0 <= i < |records|
      ensures Decimal.Worth(records[i].total) >= 0
    {
      hide Decimal.ReadsBack, Decimal.Worth;
      Decimal.ReadsBackFits(records[i].total);
    }
    hide Decimal.ReadsBack, Decimal.Worth;
  }

  /**
    Every completion a request hands to the store, whatever its provider sent, has a total that reads back and cost
    records that are not negative.
  */
  lemma RelayCompletesWell(env: Gateway.Environment, decode: Decoder, ctx: Gateway.Context,
                           events: seq<Gateway.ProviderEvent>, c: Completion, ok: bool)
    requires ReadsCosts(env.codec, decode)
    requires Gateway.CompleteRun(c, ok) in Gateway.Trace(env, ctx, events)
    ensures GoodCompletion(decode, c)
  {
    hide Gateway.Trace, Gateway.Stop, Gateway.Priced, Decimal.ReadsBack;
    hide ActualCosts.Records, ReadsCosts, RecordsNotNegative;
    Gateway.ConcludesAsPriced(env, ctx, events, Gateway.CompleteRun(c, ok));
    var final := Gateway.Finished(env, events).value;
    var text := Gateway.OutputText(final, Gateway.DeltaText(events, Gateway.Stop(env, events)));
    PricedTotalReadsBack(env.isCjk, ctx, final, text);
    var billing := Gateway.PricedRun(env, ctx, events).value.1;
    var records := ActualCosts.Records(env.upper, ctx.deployment.actual, billing.inputTokens, billing.outputTokens,
                                       final.costs);
    ActualCosts.RecordsNotNegative(env.upper, ctx.deployment.actual, billing.inputTokens, billing.outputTokens,
                                   final.costs);
    WrittenCostsNotNegative(env.codec, decode, records);
  }

  // ------------------------------------------------ what the tables hold

  predicate Billed(decode: Decoder, op: Op) {
    op.DoComplete? ==> GoodCompletion(decode, op.c)
  }

  ghost predicate Good(decode: Decoder, t: Tables) {
    Quota.ReadableCharges(t) && forall i :: 0 <= i < |t.costs| ==> RecordsNotNegative(decode(t.costs[i].payload))
  }

  lemma StaysGood(decode: Decoder, t: Tables, op: Op)
    requires Good(decode, t) && Billed(decode, op)
    ensures Good(decode, Apply(t, op))
  {
    hide Decimal.ReadsBack, QuotaVerdict, Lookup, RecordsNotNegative;
  }

  /** Every amount on record reads back, after any run of operations whose completions carry settled bills. */
  lemma {:induction false} AlwaysGood(decode: Decoder, ops: seq<Op>)
    requires forall i :: 0 <= i < |ops| ==> Billed(decode, ops[i])
    ensures Good(decode, ApplyAll(EMPTY, ops))
  {
    hide Decimal.ReadsBack, Apply, Billed;
    if ops != [] {
      AlwaysGood(decode, ops[..|ops| - 1]);
      StaysGood(decode, ApplyAll(EMPTY, ops[..|ops| - 1]), ops[|ops| - 1]);
    }
  }

  /** The run, usage and charge rows of one run exist together. */
  predicate Joined(t: Tables, id: Name) {
    && id in t.runs && id in t.usage && id in t.charges
    && t.runs[id].status.Completed? && t.runs[id].settlement.Confirmed?
  }

  function RowOf(t: Tables, id: Name): UsageRows.Row
    requires Joined(t, id)
  {
    UsageRows.Row(id, t.runs[id].clientId, t.runs[id].deploymentId, t.usage[id].inputTokens,
                  t.usage[id].outputTokens, Name(t.charges[id].currency), t.charges[id].totalCharge,
                  Some(t.runs[id].updatedAt))
  }

  /** The rows of a query, in any order and for any selection of runs, each run once. */
  /** The rows a report joins are those of completed and confirmed runs with a usage and a charge. */
  lemma JoinedExactly(t: Tables, id: Name)
    ensures Joined(t, id)
       <==> && id in t.usage && id in t.charges && id in t.runs
            && t.runs[id].status == Completed && t.runs[id].settlement == Confirmed
  {
  }

  /** A row of the report shows the columns of its run, each under its own name. */
  lemma RowShowsRun(t: Tables, id: Name)
    requires Joined(t, id)
    ensures var row := RowOf(t, id);
            && row.run == id && row.client == t.runs[id].clientId && row.deployment == t.runs[id].deploymentId
            && row.input == t.usage[id].inputTokens && row.output == t.usage[id].outputTokens
            && row.currency.text == t.charges[id].currency && row.total == t.charges[id].totalCharge
            && row.settledAt == Some(t.runs[id].updatedAt)
  {
  }

  /** What a completion booked is what the report shows of its run. */
  lemma RowShowsCompletion(t: Tables, t': Tables, c: Completion, now: int)
    requires BooksCompletion(t, t', c, now)
    ensures Joined(t', c.runId)
    ensures var row := RowOf(t', c.runId);
            && row.input == c.inputTokens && row.output == c.outputTokens && row.currency.text == c.currency
            && row.total == c.totalCharge && row.settledAt == Some(now)
            && row.client == t.runs[c.runId].clientId && row.deployment == t.runs[c.runId].deploymentId
  {
  }

  /** Over every interleaving, what a client was told of a completed run is what the report shows of it. */
  lemma RowShowsBill(codec: Gateway.Codec, ops: seq<Lifecycle.Op>, i: nat)
    requires Gateway.Faithful(codec) && Lifecycle.Runs(codec, ops)
    requires i < |Lifecycle.After(codec, ops).reports|
    ensures var s := Lifecycle.After(codec, ops);
            var id, bill := s.reports[i].runId, s.reports[i].billing;
            && Joined(s.db, id)
            && var row := RowOf(s.db, id);
               && row.input == bill.inputTokens && row.output == bill.outputTokens && row.total == bill.totalCharge
               && id in s.admissions && row.client == s.admissions[id].request.client
  {
    Lifecycle.OneAnswerPerRun(codec, ops, i, i);
    Lifecycle.SystemAlways(codec, ops);
    Lifecycle.OnlyAllowedRuns(codec, ops);
    hide Lifecycle.After, Lifecycle.Runs, Gateway.Faithful, Gateway.BudgetInOrder;
    hide Lifecycle.PhasesOk, Lifecycle.StartsOk, Lifecycle.ReportsOk, Lifecycle.BillsOk, KeysConsistent, Ordered;
  }

  /** Where the records of an upstream answer came from, in the words of the tables. */
  lemma SourcesExactly(r: ActualCosts.Record)
    ensures CostRecordOf(r).unit.text == r.unit && CostRecordOf(r).total == r.total
    ensures CostRecordOf(r).source.text
         == if r.source.ProviderReported? then "provider_reported" else "configured_estimate"
  {
  }

  ghost predicate Selected(t: Tables, ids: seq<Name>, rows: seq<UsageRows.Row>) {
    && |rows| == |ids|
    && (forall i, j :: 0 <= i < j < |ids| ==> ids[i] != ids[j])
    && (forall i :: 0 <= i < |ids| ==> Joined(t, ids[i]) && rows[i] == RowOf(t, ids[i]))
  }

  /** The cost rows of a query, in any order. */
  ghost predicate SelectedCosts(decode: Decoder, t: Tables, costRows: seq<UsageRows.CostRow>) {
    forall k :: 0 <= k < |costRows| ==>
      exists i :: 0 <= i < |t.costs| && costRows[k].records == decode(t.costs[i].payload)
  }

  /** In every reachable state of the tables the joins of the report lose no settled run and find no other run. */
  lemma JoinsAreExact(ops: seq<Op>, id: Name)
    requires id in ApplyAll(EMPTY, ops).runs
    ensures var t := ApplyAll(EMPTY, ops);
            && (Joined(t, id) <==> t.runs[id].status.Completed?)
            && (Joined(t, id) <==> t.runs[id].settlement.Confirmed?)
            && (Joined(t, id) <==> id in t.charges)
            && (Joined(t, id) <==> id in t.usage)
  {
    InvAlways(ops);
    hide KeysConsistent, Ordered, ApplyAll;
  }

  lemma RowReads(t: Tables, id: Name)
    requires Quota.ReadableCharges(t) && Joined(t, id)
    ensures RowOf(t, id).run == id && RowOf(t, id).settledAt.Some?
    ensures Decimal.Readable(RowOf(t, id).total) && Decimal.Worth(RowOf(t, id).total) >= 0
  {
    hide Decimal.ParseDecimal;
    assert Decimal.ReadsBack(t.charges[id].totalCharge);
  }

  lemma CostRowReads(row: UsageRows.CostRow)
    requires RecordsNotNegative(row.records)
    ensures UsageCosts.CostsNotNegative(UsageCosts.EntriesOf(row))
  {
    hide Decimal.Worth;
  }

  lemma SelectedReads(decode: Decoder, t: Tables, ids: seq<Name>, rows: seq<UsageRows.Row>,
                      costRows: seq<UsageRows.CostRow>)
    requires Good(decode, t) && Selected(t, ids, rows) && SelectedCosts(decode, t, costRows)
    ensures UsageReport.Stored(rows, costRows)
    ensures forall i :: 0 <= i < |rows| ==> Decimal.Readable(rows[i].total) && rows[i].settledAt.Some?
  {
    forall i | 0 <= i < |rows|
      ensures rows[i].run == ids[i] && rows[i].settledAt.Some?
      ensures Decimal.Readable(rows[i].total) && Decimal.Worth(rows[i].total) >= 0
    {
      RowReads(t, ids[i]);
    }
    hide RowOf, Joined, Decimal.Readable, Decimal.Worth, Quota.ReadableCharges, RecordsNotNegative;
    forall k | 0 <= k < |costRows|
      ensures UsageCosts.CostsNotNegative(UsageCosts.EntriesOf(costRows[k]))
    {
      CostRowReads(costRows[k]);
    }
    hide UsageCosts.CostsNotNegative, UsageCosts.EntriesOf;
  }

  /**
    A report over what the requests stored never meets a negative amount, an unreadable charge or a repeated run, so
    it fails only when a total does not fit.
  */
  lemma SelectedRowsAreStored(decode: Decoder, ops: seq<Op>, ids: seq<Name>, rows: seq<UsageRows.Row>,
                              costRows: seq<UsageRows.CostRow>)
    requires forall i :: 0 <= i < |ops| ==> Billed(decode, ops[i])
    requires Selected(ApplyAll(EMPTY, ops), ids, rows) && SelectedCosts(decode, ApplyAll(EMPTY, ops), costRows)
    ensures UsageReport.Stored(rows, costRows)
    ensures forall i :: 0 <= i < |rows| ==> Decimal.Readable(rows[i].total) && rows[i].settledAt.Some?
  {
    hide *;
    AlwaysGood(decode, ops);
    SelectedReads(decode, ApplyAll(EMPTY, ops), ids, rows, costRows);
  }
}
