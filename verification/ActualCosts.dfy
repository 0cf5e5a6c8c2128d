/** What a run really cost upstream: what the provider reported, and estimates for the units it did not report. */
module ActualCosts {
  import opened Text
  import opened Wrappers
  import Decimal
  import Pricing

  /** A cost as a provider reports it. */
  datatype Observation = Observation(unit: string, input: string, output: string, total: string)

  datatype Source = ProviderReported | ConfiguredEstimate

  datatype Record = Record(unit: string, source: Source, input: string, output: string, total: string)

  /** A deployment's own rates, in money and in points, when it has them. */
  datatype Rates = Rates(price: Option<Pricing.PriceRevision>, points: Option<Pricing.PriceRevision>)

  type UpperCase = char -> char

  function Upper(upper: UpperCase, s: string): string {
    seq(|s|, i requires 0 <= i < |s| => upper(s[i]))
  }

  function UnitOf(upper: UpperCase, rates: Rates, item: Observation): string {
    var unit := Upper(upper, Trim(item.unit));
    if unit != "" then unit
    else if rates.price.Some? && rates.price.value.currency != "" then rates.price.value.currency
    else "UNSPECIFIED"
  }

  /** An amount in its normal form; nothing when it cannot be read or is negative. */
  function Normal(text: string): string {
    if Decimal.ReadsBack(text) then Decimal.Print(Decimal.Worth(text)) else ""
  }

  /** The reported costs that count, in their order. */
  function Reported(upper: UpperCase, rates: Rates, reported: seq<Observation>): seq<Record> {
    if reported == [] then []
    else
      var item := reported[|reported| - 1];
      Reported(upper, rates, reported[..|reported| - 1])
      + if Decimal.ReadsBack(item.total)
        then [Record(UnitOf(upper, rates, item), ProviderReported,
                     Normal(item.input), Normal(item.output), Normal(item.total))]
        else []
  }

  function Units(records: seq<Record>): set<string> {
    set r | r in records :: r.unit
  }

  /** The estimate for a unit, unless the provider reported that unit. */
  function Estimate(price: Option<Pricing.PriceRevision>, unit: string, input: int, output: int,
                    known: bool): seq<Record>
  {
    if price.None? || known then []
    else
      match Pricing.Calculate(price.value, input, output)
      case Err(_) => []
      case Ok(s) =>
        [Record(unit, ConfiguredEstimate,
                Decimal.Print(s.inputCharge), Decimal.Print(s.outputCharge), Decimal.Print(s.totalCharge))]
  }

  function Records(upper: UpperCase, rates: Rates, input: int, output: int, reported: seq<Observation>): seq<Record> {
    var provided := Reported(upper, rates, reported);
    provided
    + (if rates.price.None? then []
       else Estimate(rates.price, rates.price.value.currency, input, output,
                     Upper(upper, rates.price.value.currency) in Units(provided)))
    + Estimate(rates.points, "POINTS", input, output, "POINTS" in Units(provided))
  }

  method CalculateActualRecords(upper: UpperCase, rates: Rates, input: int, output: int, reported: seq<Observation>)
    returns (records: seq<Record>)
    ensures records == Records(upper, rates, input, output, reported)
  {
    hide Decimal.ReadsBack, Decimal.Worth, Decimal.Print;
    records := [];
    var reportedUnits: set<string> := {};
    for i := 0 to |reported|
      invariant records == Reported(upper, rates, reported[..i]) && reportedUnits == Units(records)
    {
      var item := reported[i];
      assert reported[..i + 1][..i] == reported[..i];
      var unit := UnitOf(upper, rates, item);
      if !Decimal.ReadsBack(item.total) {
        continue;
      }
      var entry := Record(unit, ProviderReported, Normal(item.input), Normal(item.output), Normal(item.total));
      UnitsMore(records, entry);
      records := records + [entry];
      reportedUnits := reportedUnits + {unit};
    }
    assert reported[..|reported|] == reported;
    if rates.price.Some? {
      var price := rates.price.value;
      var known := Upper(upper, price.currency) in reportedUnits;
      records := records + Estimate(rates.price, price.currency, input, output, known);
    }
    records := records + Estimate(rates.points, "POINTS", input, output, "POINTS" in reportedUnits);
  }

  /** One more reported cost: recorded when its total is an amount, each part under its own name. */
  lemma ReportedExactly(upper: UpperCase, rates: Rates, before: seq<Observation>, item: Observation)
    ensures Reported(upper, rates, []) == []
    ensures var total := Decimal.ParseDecimal(item.total);
            var records := Reported(upper, rates, before + [item]);
            if total.Err? || total.value < 0 then records == Reported(upper, rates, before)
            else
              && |records| == |Reported(upper, rates, before)| + 1
              && records[..|records| - 1] == Reported(upper, rates, before)
              && var last := records[|records| - 1];
                 && last.source == ProviderReported && last.total == Decimal.Print(total.value)
                 && last.unit == UnitOf(upper, rates, item)
                 && last.input == Normal(item.input) && last.output == Normal(item.output)
  {
    hide Decimal.ParseDecimal, Decimal.Print, UnitOf;
    assert (before + [item])[..|before|] == before;
  }

  /** A part of a cost is shown when it is an amount. */
  lemma NormalExactly(text: string)
    ensures var amount := Decimal.ParseDecimal(text);
            Normal(text) == if amount.Ok? && amount.value >= 0 then Decimal.Print(amount.value) else ""
  {
    hide Decimal.ParseDecimal, Decimal.Print;
  }

  /** The unit of a cost: its own in upper case, else the currency of the deployment's cost price. */
  lemma UnitExactly(upper: UpperCase, rates: Rates, item: Observation)
    ensures var unit := UnitOf(upper, rates, item);
            if |Trim(item.unit)| > 0 then
              && |unit| == |Trim(item.unit)|
              && forall i :: 0 <= i < |unit| ==> unit[i] == upper(Trim(item.unit)[i])
            else if rates.price.Some? && |rates.price.value.currency| > 0 then unit == rates.price.value.currency
            else unit == "UNSPECIFIED"
  {
    hide Trim;
  }

  /** An estimate is recorded for a configured price that nothing was reported in, each charge under its own name. */
  lemma EstimateExactly(price: Option<Pricing.PriceRevision>, unit: string, input: int, output: int, known: bool)
    ensures var records := Estimate(price, unit, input, output, known);
            if price.None? || known || Pricing.Calculate(price.value, input, output).Err? then records == []
            else
              && |records| == 1
              && var s := Pricing.Calculate(price.value, input, output).value;
                 && records[0].unit == unit && records[0].source == ConfiguredEstimate
                 && records[0].input == Decimal.Print(s.inputCharge)
                 && records[0].output == Decimal.Print(s.outputCharge)
                 && records[0].total == Decimal.Print(s.totalCharge)
  {
    hide Pricing.Calculate, Decimal.Print;
  }

  /** All records: what was reported, then the estimates for the cost price and for points, where nothing was. */
  lemma RecordsExactly(upper: UpperCase, rates: Rates, input: int, output: int, reported: seq<Observation>)
    ensures var provided := Reported(upper, rates, reported);
            Records(upper, rates, input, output, reported)
            == provided
            + (if rates.price.None? then []
               else Estimate(rates.price, rates.price.value.currency, input, output,
                             exists r :: r in provided && r.unit == Upper(upper, rates.price.value.currency)))
            + Estimate(rates.points, "POINTS", input, output, exists r :: r in provided && r.unit == "POINTS")
  {
    hide Reported, Estimate, Upper;
  }

  lemma UnitsMore(records: seq<Record>, entry: Record)
    ensures Units(records + [entry]) == Units(records) + {entry.unit}
  {
  }

  ghost predicate TotalsNotNegative(records: seq<Record>) {
    forall i :: 0 <= i < |records| ==> Decimal.ReadsBack(records[i].total)
  }

  lemma PrintedNotNegative(nanos: int)
    requires 0 <= nanos <= Decimal.MAX_INT64
    ensures Decimal.ReadsBack(Decimal.Print(nanos))
  {
    hide Decimal.ParseDecimal, Decimal.Print;
    Decimal.PrintParse(nanos);
  }

  lemma {:induction false} ReportedNotNegative(upper: UpperCase, rates: Rates, reported: seq<Observation>)
    ensures TotalsNotNegative(Reported(upper, rates, reported))
  {
    hide Decimal.ReadsBack, Decimal.Worth, Decimal.Print, UnitOf;
    if reported != [] {
      ReportedNotNegative(upper, rates, reported[..|reported| - 1]);
      var total := reported[|reported| - 1].total;
      if Decimal.ReadsBack(total) {
        Decimal.ReadsBackFits(total);
        PrintedNotNegative(Decimal.Worth(total));
      }
    }
  }

  lemma EstimateNotNegative(price: Option<Pricing.PriceRevision>, unit: string, input: int, output: int, known: bool)
    ensures TotalsNotNegative(Estimate(price, unit, input, output, known))
  {
    hide Decimal.ReadsBack, Decimal.Worth, Decimal.Print, Pricing.Calculate;
    if price.Some? && Pricing.Calculate(price.value, input, output).Ok? {
      Pricing.TotalExact(price.value, input, output);
      PrintedNotNegative(Pricing.Calculate(price.value, input, output).value.totalCharge);
    }
  }

  /** Whatever a provider reports, every recorded total reads back as an amount that is not negative. */
  lemma RecordsNotNegative(upper: UpperCase, rates: Rates, input: int, output: int, reported: seq<Observation>)
    ensures TotalsNotNegative(Records(upper, rates, input, output, reported))
  {
    hide Decimal.ReadsBack, Reported, Estimate, Units;
    ReportedNotNegative(upper, rates, reported);
    if rates.price.Some? {
      EstimateNotNegative(rates.price, rates.price.value.currency, input, output,
                          Upper(upper, rates.price.value.currency) in Units(Reported(upper, rates, reported)));
    }
    EstimateNotNegative(rates.points, "POINTS", input, output, "POINTS" in Units(Reported(upper, rates, reported)));
  }
}
